/** Small definitions shared by the other modules. */
module Prelude {
  datatype Option<+T> = None | Some(value: T)

  type Byte = b: nat | b < 256

  type Bytes = seq<Byte>

  lemma {:induction false} LeastBelow(s: set<nat>, x: nat)
    requires x in s
    ensures exists m :: m in s && forall y | y in s :: m <= y
    decreases x
  {
    if y :| y in s && y < x {
      LeastBelow(s, y);
    }
  }

  function Least(s: set<nat>): (x: nat)
    requires s != {}
    ensures x in s && forall y | y in s :: x <= y
  {
    LeastBelow(s, var x :| x in s; x);
    var x :| x in s && forall y | y in s :: x <= y;
    x
  }

  lemma {:induction false} GreatestAbove(s: set<nat>, x: nat)
    requires x in s
    ensures exists m :: m in s && forall y | y in s :: y <= m
    decreases set y | y in s && y > x
  {
    if y :| y in s && y > x {
      var wide, narrow := set z | z in s && z > x, set z | z in s && z > y;
      assert y in wide && y !in narrow && narrow <= wide;
      GreatestAbove(s, y);
    }
  }

  function Greatest(s: set<nat>): (x: nat)
    requires s != {}
    ensures x in s && forall y | y in s :: y <= x
  {
    GreatestAbove(s, var x :| x in s; x);
    var x :| x in s && forall y | y in s :: y <= x;
    x
  }
}
