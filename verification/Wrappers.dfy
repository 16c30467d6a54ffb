/** The optional value used by the models in place of Go's nil. */
module Wrappers {
  datatype Option<+T> = None | Some(value: T)

  /** There is always a number left over. */
  lemma Unused(used: set<nat>) returns (n: nat)
    ensures n !in used
  {
    n := 0;
    if used != {} {
      var top := Largest(used);
      n := top + 1;
    }
  }

  lemma Largest(used: set<nat>) returns (top: nat)
    requires used != {}
    ensures top in used && forall n :: n in used ==> n <= top
    decreases |used|
  {
    var n :| n in used;
    top := n;
    var rest := used - {n};
    assert used == rest + {n};
    if rest != {} {
      var other := Largest(rest);
      top := if other > n then other else n;
    }
  }
}
