/**
 The style audit's search for runs of sibling `if ...: return` statements that end in a plain `return`, in one block.
 */
module Dispatch {
  /** `ReturnIf` is an `if` without `else` whose body ends in a return. */
  datatype Stmt = ReturnIf | Return | Other

  ghost predicate AllReturnIfs(body: seq<Stmt>, i: nat, j: nat) {
    j <= |body| && forall k :: i <= k < j ==> body[k] == ReturnIf
  }

  /** A run of return-ifs that begins at `i`, is at least two long, and is closed by a return. */
  ghost predicate Dispatches(body: seq<Stmt>, i: nat) {
    && i < |body|
    && (i == 0 || body[i - 1] != ReturnIf)
    && exists j: nat :: ClosedRun(body, i, j)
  }

  ghost predicate ClosedRun(body: seq<Stmt>, i: nat, j: nat) {
    i + 2 <= j < |body| && AllReturnIfs(body, i, j) && body[j] == Return
  }

  /** A run has one end, wherever the scan finds it. */
  lemma RunEndsOnce(body: seq<Stmt>, i: nat, j: nat)
    requires i < j && AllReturnIfs(body, i, j) && (j < |body| ==> body[j] != ReturnIf)
    requires i == 0 || body[i - 1] != ReturnIf
    ensures Dispatches(body, i) <==> ClosedRun(body, i, j)
    ensures forall k: nat :: i < k < j ==> !Dispatches(body, k)
  {
  }

  /** Exactly the beginnings of such runs are reported, once each and in order. */
  method CheckDispatch(body: seq<Stmt>) returns (found: seq<nat>)
    ensures forall a, b :: 0 <= a < b < |found| ==> found[a] < found[b]
    ensures forall i: nat :: i in found <==> Dispatches(body, i)
  {
    found := [];
    var n := |body|;
    var i := 0;
    while i < n
      invariant 0 <= i <= n
      invariant 0 < i < n ==> body[i - 1] != ReturnIf || body[i] != ReturnIf
      invariant forall a, b :: 0 <= a < b < |found| ==> found[a] < found[b]
      invariant forall k: nat :: k in found <==> k < i && Dispatches(body, k)
    {
      if body[i] == ReturnIf {
        var j := i;
        while j < n && body[j] == ReturnIf
          invariant i <= j <= n && AllReturnIfs(body, i, j)
        {
          j := j + 1;
        }
        RunEndsOnce(body, i, j);
        if j - i >= 2 && j < n && body[j] == Return {
          assert forall a :: 0 <= a < |found| ==> found[a] in found;
          found := found + [i];
        }
        i := j;
      } else {
        i := i + 1;
      }
    }
  }
}
