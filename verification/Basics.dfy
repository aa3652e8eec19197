/** Small shared definitions: an option type and the extremes of a finite set of numbers. */
module Basics {

  datatype Option<+T> = None | Some(value: T)

  lemma Least(s: set<nat>) returns (m: nat)
    requires s != {}
    ensures m in s && forall x :: x in s ==> m <= x
  {
    var y :| y in s;
    m := y;
    var t := s - {y};
    assert forall x :: x in s ==> x == y || x in t;
    if t != {} {
      var k := Least(t);
      if k < m { m := k; }
    }
  }

  lemma Greatest(s: set<nat>) returns (m: nat)
    requires s != {}
    ensures m in s && forall x :: x in s ==> x <= m
  {
    var y :| y in s;
    m := y;
    var t := s - {y};
    assert forall x :: x in s ==> x == y || x in t;
    if t != {} {
      var k := Greatest(t);
      if m < k { m := k; }
    }
  }

  /** The least element, as `ORDER BY … LIMIT 1` returns it. */
  function Min(s: set<nat>): (m: nat)
    requires s != {}
    ensures m in s && forall x :: x in s ==> m <= x
  {
    assert exists m :: m in s && forall x :: x in s ==> m <= x by { var k := Least(s); }
    var m :| m in s && forall x :: x in s ==> m <= x;
    m
  }

  /** One more than every element, and 1 for the empty set: `IFNULL(MAX(seq), 0) + 1`. */
  function Above(s: set<nat>): (m: nat)
    ensures 1 <= m
    ensures forall x :: x in s ==> x < m
  {
    if s == {} then 1
    else
      assert exists m :: m in s && forall x :: x in s ==> x <= m by { var k := Greatest(s); }
      var m :| m in s && forall x :: x in s ==> x <= m;
      m + 1
  }
}
