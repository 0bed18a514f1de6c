/** Small shared vocabulary: optional values, the error results of the services, and sums over finite sets. */
module Prelude {

  datatype Option<+T> = None | Some(value: T)

  /** The Go convention `error`: `Ok`, or one of the sentinel errors the services tell apart. */
  datatype Err = Ok | NotFound | AlreadyExists | TokenConflict | Failure

  /** The sum of `f` over a finite set of row ids. */
  ghost function SumOver(s: set<nat>, f: nat -> nat): nat {
    if s == {} then 0
    else
      var x :| x in s;
      f(x) + SumOver(s - {x}, f)
  }

  lemma {:induction false} SumOverAtMost(s: set<nat>, f: nat -> nat, bound: nat)
    requires forall x :: x in s ==> f(x) <= bound
    ensures SumOver(s, f) <= bound * |s|
    decreases |s|
  {
    if s == {} {
    } else {
      var x :| x in s && SumOver(s, f) == f(x) + SumOver(s - {x}, f);
      SumOverAtMost(s - {x}, f, bound);
      assert |s| == |s - {x}| + 1;
      assert bound * (|s - {x}| + 1) == bound * |s - {x}| + bound;
    }
  }
}
