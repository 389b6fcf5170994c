/** The scan both workflow validators perform: steps are checked in order,
    each against the steps before it, and the first offence is reported. */
module Workflow {
  import opened Types

  /** The first offence among steps[i..], each step judged together with
      the steps that precede it. */
  function FirstOffense<S>(steps: seq<S>, offense: (S, seq<S>) -> Option<Error>, i: nat): Option<Error>
    decreases |steps| - i
  {
    if i >= |steps| then None
    else if offense(steps[i], steps[..i]).Some? then offense(steps[i], steps[..i])
    else FirstOffense(steps, offense, i + 1)
  }

  /** The scan passes exactly when no step offends. */
  lemma {:induction false} FirstOffenseNoneIff<S>(steps: seq<S>, offense: (S, seq<S>) -> Option<Error>, i: nat)
    ensures FirstOffense(steps, offense, i).None?
        <==> forall k :: i <= k < |steps| ==> offense(steps[k], steps[..k]).None?
    decreases |steps| - i
  {
    if i < |steps| {
      FirstOffenseNoneIff(steps, offense, i + 1);
    }
  }

  /** A reported offence is that of the first offending step. */
  lemma {:induction false} FirstOffenseIsFirst<S>(steps: seq<S>, offense: (S, seq<S>) -> Option<Error>, i: nat)
    ensures FirstOffense(steps, offense, i).Some? ==>
      exists k :: i <= k < |steps| && FirstOffense(steps, offense, i) == offense(steps[k], steps[..k])
               && forall j :: i <= j < k ==> offense(steps[j], steps[..j]).None?
    decreases |steps| - i
  {
    if i < |steps| && offense(steps[i], steps[..i]).None? {
      FirstOffenseIsFirst(steps, offense, i + 1);
    }
  }
}
