/** Primary keys: the least key of a set (the row a `first()` query without
    ordering returns) and the key the table assigns to a new row. */
module Keys {

  lemma {:induction false} HasLeast(s: set<int>)
    requires s != {}
    ensures exists m :: m in s && forall x :: x in s ==> m <= x
  {
    if forall x :: x !in s { assert false; }
    var y :| y in s;
    var rest := s - {y};
    if rest == {} {
      forall x | x in s ensures y <= x {
        assert x !in rest;
      }
    } else {
      HasLeast(rest);
      var m :| m in rest && forall x :: x in rest ==> m <= x;
      var least := if y < m then y else m;
      forall x | x in s ensures least <= x {
        if x != y { assert x in rest; }
      }
      assert least in s;
    }
  }

  function Least(s: set<int>): (m: int)
    requires s != {}
    ensures m in s && forall x :: x in s ==> m <= x
  {
    HasLeast(s);
    var m :| m in s && forall x :: x in s ==> m <= x;
    m
  }

  /** The key of the next inserted row: one more than the largest key, or 1
      for an empty table. */
  function NextId(keys: set<int>): (n: int)
    ensures n >= 1 && n !in keys
    ensures forall k :: k in keys ==> k < n
    ensures n == 1 || n - 1 in keys
    decreases keys
  {
    if keys == {} then 1
    else
      var m := Least(keys);
      var rest := NextId(keys - {m});
      assert forall k :: k in keys && k != m ==> k in keys - {m};
      if rest > m then rest else m + 1
  }
}
