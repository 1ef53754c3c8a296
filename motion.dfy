/** Enemy movement and despawning (script.js:206-215): every active enemy
    moves `z += speed * delta`; those past EnemyDespawnZ are collected and
    then filtered out of the active list. The filters below recurse from
    the back of the list, so that a loop walking the list front to back
    extends them one element at a time. */
module Motion {
  import opened Config
  import opened Entities

  function Last(es: seq<Enemy>): Enemy
    requires es != []
  {
    es[|es| - 1]
  }

  function Front(es: seq<Enemy>): seq<Enemy>
    requires es != []
  {
    es[..|es| - 1]
  }

  /** One enemy after a frame of `delta` seconds. */
  function Advance(e: Enemy, delta: real): Enemy {
    e.(z := e.z + e.speed * delta)
  }

  /** Every enemy after a frame, in the same order. */
  function AdvanceAll(es: seq<Enemy>, delta: real): seq<Enemy> {
    seq(|es|, i requires 0 <= i < |es| => Advance(es[i], delta))
  }

  predicate PastDespawn(e: Enemy) {
    e.z > EnemyDespawnZ
  }

  /** The enemies the forEach loop pushes to enemiesToRemove, in order. */
  function Departed(es: seq<Enemy>): seq<Enemy> {
    if es == [] then []
    else Departed(Front(es)) + (if PastDespawn(Last(es)) then [Last(es)] else [])
  }

  /** The enemies that stay active, in order. */
  function Remaining(es: seq<Enemy>): seq<Enemy> {
    if es == [] then []
    else Remaining(Front(es)) + (if PastDespawn(Last(es)) then [] else [Last(es)])
  }

  /** `es.filter(e => e !== x)`. */
  function Without(es: seq<Enemy>, x: Enemy): seq<Enemy> {
    if es == [] then []
    else Without(Front(es), x) + (if Last(es) == x then [] else [Last(es)])
  }

  /** The list left after filtering out every element of `rs` in turn. */
  function Excluding(es: seq<Enemy>, rs: seq<Enemy>): seq<Enemy> {
    if es == [] then []
    else Excluding(Front(es), rs) + (if Last(es) in rs then [] else [Last(es)])
  }

  /** `a` is `b` with some elements left out, the rest in their order. */
  predicate Subsequence(a: seq<Enemy>, b: seq<Enemy>)
    decreases |b|
  {
    if a == [] then true
    else if b == [] then false
    else (Last(a) == Last(b) && Subsequence(Front(a), Front(b))) || Subsequence(a, Front(b))
  }

  lemma FrontOfSnoc(es: seq<Enemy>, e: Enemy)
    ensures Front(es + [e]) == es && Last(es + [e]) == e
  {
  }

  /** A moving enemy moves forward: its z grows strictly in every frame of
      positive length, and nothing else about it changes. */
  lemma AdvanceMovesForward(e: Enemy, delta: real, models: nat)
    requires Spawnable(e, models) && delta > 0.0
    ensures Advance(e, delta).z > e.z
    ensures Advance(e, delta).(z := e.z) == e
  {
    assert e.speed * delta > 0.0;
  }

  /** An enemy is reported departed exactly when it is in the list and past
      the despawn plane. */
  lemma {:induction false} DepartedMembers(es: seq<Enemy>, e: Enemy)
    ensures e in Departed(es) <==> e in es && PastDespawn(e)
  {
    if es != [] {
      DepartedMembers(Front(es), e);
      assert es == Front(es) + [Last(es)];
    }
  }

  /** An enemy stays exactly when it is in the list and not past the
      despawn plane. */
  lemma {:induction false} RemainingMembers(es: seq<Enemy>, e: Enemy)
    ensures e in Remaining(es) <==> e in es && !PastDespawn(e)
  {
    if es != [] {
      RemainingMembers(Front(es), e);
      assert es == Front(es) + [Last(es)];
    }
  }

  /** Despawning splits the list: the staying and the departed enemies,
      together, are the enemies there were, each as often as before. */
  lemma {:induction false} DespawnPartition(es: seq<Enemy>)
    ensures multiset(Remaining(es)) + multiset(Departed(es)) == multiset(es)
    ensures |Remaining(es)| + |Departed(es)| == |es|
  {
    if es != [] {
      DespawnPartition(Front(es));
      assert es == Front(es) + [Last(es)];
    }
  }

  /** No enemy that stays is past the despawn plane. */
  lemma {:induction false} RemainingNotPast(es: seq<Enemy>)
    ensures forall e <- Remaining(es) :: !PastDespawn(e)
  {
    if es != [] {
      RemainingNotPast(Front(es));
    }
  }

  /** The enemies that stay keep their relative order. */
  lemma {:induction false} RemainingIsSubsequence(es: seq<Enemy>)
    ensures Subsequence(Remaining(es), es)
  {
    if es != [] {
      RemainingIsSubsequence(Front(es));
      var r := Remaining(Front(es));
      if PastDespawn(Last(es)) {
        assert Remaining(es) == r;
        SubsequenceDropLast(r, es);
      } else {
        FrontOfSnoc(r, Last(es));
      }
    }
  }

  /** Despawning keeps exactly the moved enemies not past the despawn
      plane, in their order. */
  lemma RemainingExactly(ms: seq<Enemy>)
    ensures Subsequence(Remaining(ms), ms)
    ensures forall e <- Remaining(ms) :: !PastDespawn(e)
    ensures forall i :: 0 <= i < |ms| ==> (ms[i] in Remaining(ms) <==> !PastDespawn(ms[i]))
  {
    RemainingIsSubsequence(ms);
    RemainingNotPast(ms);
    forall i | 0 <= i < |ms|
      ensures ms[i] in Remaining(ms) <==> !PastDespawn(ms[i])
    {
      RemainingMembers(ms, ms[i]);
    }
  }

  lemma SubsequenceDropLast(a: seq<Enemy>, b: seq<Enemy>)
    requires b != [] && Subsequence(a, Front(b))
    ensures Subsequence(a, b)
  {
  }

  /** Subsequences contain only elements of the longer list. */
  lemma {:induction false} SubsequenceMembers(a: seq<Enemy>, b: seq<Enemy>, e: Enemy)
    requires Subsequence(a, b) && e in a
    ensures e in b
    decreases |b|
  {
    assert a != [] && b != [];
    assert b == Front(b) + [Last(b)];
    if Last(a) == Last(b) && Subsequence(Front(a), Front(b)) {
      assert a == Front(a) + [Last(a)];
      if e != Last(a) {
        SubsequenceMembers(Front(a), Front(b), e);
      }
    } else {
      SubsequenceMembers(a, Front(b), e);
    }
  }

  /** Filtering out a list that shares no element with `es` keeps `es`. */
  lemma {:induction false} ExcludingDisjoint(es: seq<Enemy>, rs: seq<Enemy>)
    requires forall e <- es :: e !in rs
    ensures Excluding(es, rs) == es
  {
    if es != [] {
      assert es == Front(es) + [Last(es)];
      ExcludingDisjoint(Front(es), rs);
    }
  }

  /** Filtering out one more element is filtering out the longer list. */
  lemma {:induction false} ExcludingStep(es: seq<Enemy>, rs: seq<Enemy>, r: Enemy)
    ensures Without(Excluding(es, rs), r) == Excluding(es, rs + [r])
  {
    if es != [] {
      ExcludingStep(Front(es), rs, r);
      var rest := Excluding(Front(es), rs);
      assert Last(es) in rs + [r] <==> Last(es) in rs || Last(es) == r;
      if Last(es) in rs {
        assert Excluding(es, rs) == rest;
        assert Excluding(es, rs + [r]) == Excluding(Front(es), rs + [r]);
      } else {
        assert Excluding(es, rs) == rest + [Last(es)];
        FrontOfSnoc(rest, Last(es));
      }
    }
  }

  /** Filtering out a list that holds exactly the past-despawn members of
      `es` leaves the enemies that stay. */
  lemma {:induction false} ExcludingAgrees(es: seq<Enemy>, rs: seq<Enemy>)
    requires forall e <- es :: e in rs <==> PastDespawn(e)
    ensures Excluding(es, rs) == Remaining(es)
  {
    if es != [] {
      assert es == Front(es) + [Last(es)];
      ExcludingAgrees(Front(es), rs);
    }
  }

  /** The two loops of the source, together, remove exactly the enemies
      past the despawn plane: filtering out every collected enemy in turn
      leaves the enemies that stay. */
  lemma ExcludingDeparted(es: seq<Enemy>)
    ensures Excluding(es, Departed(es)) == Remaining(es)
  {
    forall e <- es
      ensures e in Departed(es) <==> PastDespawn(e)
    {
      DepartedMembers(es, e);
    }
    ExcludingAgrees(es, Departed(es));
  }

  /** Moving never makes the list longer or shorter, and despawning never
      makes it longer. */
  lemma RemainingAfterAdvanceLength(es: seq<Enemy>, delta: real)
    ensures |Remaining(AdvanceAll(es, delta))| <= |es|
  {
    DespawnPartition(AdvanceAll(es, delta));
  }
}
