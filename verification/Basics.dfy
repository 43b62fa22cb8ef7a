/** Failure-aware result types shared by every component. */
module Basics {
  datatype Option<+T> = None | Some(value: T)

  datatype Result<+T, +E> = Ok(value: T) | Err(error: E)

  /** How one call on a store, cache or queue can end. A call that reports an error may still have
      taken effect: the reply can be lost after the commit. */
  datatype Fault = NoFault | FailedBefore | FailedAfter {
    predicate TookEffect() { this != FailedBefore }
  }

  predicate NoneFails(faults: seq<Fault>) {
    forall i :: 0 <= i < |faults| ==> faults[i] == NoFault
  }

  /** How the next of the scripted calls ends, and the script after it. */
  function NextFault(faults: seq<Fault>): Fault {
    if faults == [] then NoFault else faults[0]
  }

  function LaterFaults(faults: seq<Fault>): seq<Fault> {
    if faults == [] then [] else faults[1..]
  }

  /** `later` is what is left of the script after some calls. */
  predicate Follows(later: seq<Fault>, faults: seq<Fault>) {
    |later| <= |faults| && later == faults[|faults| - |later|..]
  }

  /** And none of those calls failed. */
  predicate Succeeded(faults: seq<Fault>, later: seq<Fault>) {
    Follows(later, faults) && NoneFails(faults[..|faults| - |later|])
  }

  /** One call more: all have succeeded so far if they had before and this one does. */
  lemma OneCallMore(faults: seq<Fault>, later: seq<Fault>)
    requires Succeeded(faults, later)
    ensures Follows(LaterFaults(later), faults)
    ensures Succeeded(faults, LaterFaults(later)) <==> NextFault(later) == NoFault
  {
    if later != [] {
      var n := |faults| - |later|;
      assert faults[n] == later[0] && faults[n..][1..] == faults[n + 1..];
      assert faults[..n + 1] == faults[..n] + [later[0]];
      assert faults[..n + 1][n] == later[0];
    }
  }

  lemma NoCallYet(faults: seq<Fault>)
    ensures Succeeded(faults, faults)
  {
  }

  lemma NoneFailsMeansSuccess(faults: seq<Fault>, later: seq<Fault>)
    requires NoneFails(faults) && Follows(later, faults)
    ensures Succeeded(faults, later)
  {
  }

  /** Further calls: all have succeeded if these and the earlier ones did. */
  lemma MoreCalls(faults: seq<Fault>, middle: seq<Fault>, later: seq<Fault>)
    requires Follows(middle, faults) && Follows(later, middle)
    ensures Follows(later, faults)
    ensures Succeeded(faults, later) <==> Succeeded(faults, middle) && Succeeded(middle, later)
  {
    var n, m := |faults| - |middle|, |middle| - |later|;
    assert faults[n..][m..] == faults[n + m..];
    assert faults[..n + m] == faults[..n] + middle[..m];
    if NoneFails(faults[..n + m]) {
      assert forall i :: 0 <= i < n ==> faults[..n][i] == faults[..n + m][i];
      assert forall i :: 0 <= i < m ==> middle[..m][i] == faults[..n + m][n + i];
    }
  }

  /** How many of the scripted calls fail. */
  function Failures(faults: seq<Fault>): nat {
    if faults == [] then 0 else Failures(faults[1..]) + if faults[0] == NoFault then 0 else 1
  }

  /** What is left of a script fails less often, unless all calls made so far succeeded. */
  lemma {:induction false} FailuresLeft(faults: seq<Fault>, later: seq<Fault>)
    requires Follows(later, faults)
    ensures Failures(later) <= Failures(faults)
    ensures !Succeeded(faults, later) ==> Failures(later) < Failures(faults)
    decreases |faults|
  {
    if later == faults {
      assert faults[..0] == [];
    } else {
      var n := |faults| - |later|;
      assert faults[n..] == faults[1..][n - 1..] && faults[..n] == [faults[0]] + faults[1..][..n - 1];
      FailuresLeft(faults[1..], later);
    }
  }

  function FoldLeft<A, B>(f: (A, B) -> A, a: A, bs: seq<B>): A {
    if bs == [] then a else f(FoldLeft(f, a, bs[..|bs| - 1]), bs[|bs| - 1])
  }

  lemma {:induction false} FoldConcat<A, B>(f: (A, B) -> A, a: A, first: seq<B>, second: seq<B>)
    ensures FoldLeft(f, a, first + second) == FoldLeft(f, FoldLeft(f, a, first), second)
    decreases |second|
  {
    if second == [] {
      assert first + second == first;
    } else {
      var n := |second| - 1;
      assert (first + second)[..|first + second| - 1] == first + second[..n];
      FoldConcat(f, a, first, second[..n]);
    }
  }

  /** What every step keeps holds of the whole fold. */
  lemma {:induction false} FoldKeeps<A, B>(f: (A, B) -> A, a: A, bs: seq<B>, keeps: A -> bool)
    requires keeps(a) && forall x, b :: keeps(x) ==> keeps(f(x, b))
    ensures keeps(FoldLeft(f, a, bs))
    decreases |bs|
  {
    if bs != [] {
      FoldKeeps(f, a, bs[..|bs| - 1], keeps);
    }
  }
}
