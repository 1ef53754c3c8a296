/** Raw input as the handlers see it: the key name of a keyboard event
    after `toLowerCase()` (script.js:123, 129), and the pointer's movement
    with the `|| 0` default (script.js:141-142). */
module Input {

  /** Lower-cases one ASCII letter; every other character is kept. */
  function LowerChar(c: char): char {
    if 'A' <= c <= 'Z' then (c as int + 32) as char else c
  }

  /** `key.toLowerCase()`, on ASCII letters. */
  function Lower(s: string): string {
    seq(|s|, i requires 0 <= i < |s| => LowerChar(s[i]))
  }

  /** What a key does to the rotate flags. */
  datatype KeyRole = TurnLeft | TurnRight | Ignored

  /** The switch of the keydown and keyup handlers. */
  function Role(key: string): KeyRole {
    var k := Lower(key);
    if k == "a" || k == "arrowleft" then TurnLeft
    else if k == "d" || k == "arrowright" then TurnRight
    else Ignored
  }

  /** The key names that turn left, in the capitalisations a browser
      reports them. */
  lemma LeftKeys()
    ensures Role("a") == TurnLeft && Role("A") == TurnLeft && Role("ArrowLeft") == TurnLeft
  {
    assert Lower("A") == "a";
    assert Lower("ArrowLeft") == "arrowleft";
  }

  /** The key names that turn right. */
  lemma RightKeys()
    ensures Role("d") == TurnRight && Role("D") == TurnRight && Role("ArrowRight") == TurnRight
  {
    assert Lower("D") == "d";
    assert Lower("ArrowRight") == "arrowright";
  }

  /** Other keys, such as the up arrow or "w", are ignored. */
  lemma OtherKeys()
    ensures Role("w") == Ignored && Role("ArrowUp") == Ignored
  {
    assert Lower("w") == "w";
    assert Lower("ArrowUp") == "arrowup";
  }

  /** Two key names that differ only in the case of their letters play the
      same role. */
  lemma RoleCaseInsensitive(s: string, t: string)
    requires |s| == |t| && forall i :: 0 <= i < |s| ==> LowerChar(s[i]) == LowerChar(t[i])
    ensures Role(s) == Role(t)
  {
    assert Lower(s) == Lower(t);
  }

  /** Lower-casing an already lower-cased name changes nothing, so the
      role of a name is the role of its lower-cased form. */
  lemma LowerIdempotent(s: string)
    ensures Lower(Lower(s)) == Lower(s)
    ensures Role(Lower(s)) == Role(s)
  {
    assert Lower(Lower(s)) == Lower(s);
  }

  /** A pointer movement reading: absent when the event does not carry one. */
  datatype Movement = Unavailable | Moved(amount: real)

  /** `event.movementX || 0`. */
  function OrZero(m: Movement): real {
    match m
    case Unavailable => 0.0
    case Moved(a) => a
  }
}
