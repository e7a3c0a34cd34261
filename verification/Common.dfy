/** Small types used by several parts. */
module Common {

  datatype Option<+T> = None | Some(value: T)

  /** A place in a block for one element. */
  datatype Cell = Void | Full(item: int)

  /** There is always a number that is not taken. */
  lemma {:induction false} Unused(ids: set<nat>) returns (b: nat)
    ensures b !in ids && forall x :: x in ids ==> x < b
  {
    if ids == {} {
      b := 0;
    } else {
      var y :| y in ids;
      var c := Unused(ids - {y});
      b := if y < c then c else y + 1;
      assert ids == (ids - {y}) + {y};
    }
  }
}
