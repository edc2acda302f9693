/**
 * The tri-state verdict the review bots compute for each action and each request
 * (Python's True, False and None), and the accumulator loop that folds the
 * per-action results of a request into one verdict.
 */
module Verdicts {

  /** True accepts, False declines, None leaves the review alone. */
  datatype Verdict = Accept | Decline | Ignore

  /**
   * One update of the accumulator: `ret` replaces `overall` when it declines, or
   * when `overall` is still undecided and `ret` is not. A decline is never undone.
   */
  function Combine(overall: Verdict, ret: Verdict): (r: Verdict)
    ensures r == overall || r == ret
    ensures r == Decline <==> overall == Decline || ret == Decline
    ensures ret == Ignore ==> r == overall
    ensures overall == Ignore ==> r == ret
  {
    if ret == Decline || (overall == Ignore && ret != Ignore) then ret else overall
  }

  /** What one action contributes to the loop over a request's actions. */
  datatype Step =
    | Skip              // `continue`: the action is passed over
    | Halt              // `overall = False; break`: the loop ends with a decline
    | Yield(v: Verdict) // the action's result is folded into `overall`

  /** The loop itself, from accumulator `overall`, over the remaining steps. */
  function Run(overall: Verdict, steps: seq<Step>): Verdict
    decreases |steps|
  {
    if steps == [] then overall
    else match steps[0]
      case Skip => Run(overall, steps[1..])
      case Halt => Decline
      case Yield(v) => Run(Combine(overall, v), steps[1..])
  }

  predicate Declines(s: Step) {
    s == Halt || s == Yield(Decline)
  }

  predicate Accepts(s: Step) {
    s == Yield(Accept)
  }

  /** An order-free reference for the loop: any decline wins, then any accept. */
  function Summary(overall: Verdict, steps: seq<Step>): Verdict {
    if overall == Decline || exists k :: 0 <= k < |steps| && Declines(steps[k]) then Decline
    else if overall == Accept || exists k :: 0 <= k < |steps| && Accepts(steps[k]) then Accept
    else Ignore
  }

  /** The loop computes the reference: the order of the actions does not matter. */
  lemma {:induction false} RunIsSummary(overall: Verdict, steps: seq<Step>)
    ensures Run(overall, steps) == Summary(overall, steps)
    decreases |steps|
  {
    if steps != [] {
      var rest := steps[1..];
      assert forall k :: 0 <= k < |rest| ==> rest[k] == steps[k + 1];
      match steps[0]
      case Skip =>
        RunIsSummary(overall, rest);
      case Halt =>
        assert Declines(steps[0]);
      case Yield(v) =>
        RunIsSummary(Combine(overall, v), rest);
        if v == Decline {
          assert Declines(steps[0]);
        } else if v == Accept {
          assert Accepts(steps[0]);
        }
    }
  }

  /** Sticky decline: one declining action decides the request, wherever it stands. */
  lemma DeclineIsSticky(overall: Verdict, steps: seq<Step>, k: nat)
    requires k < |steps| && Declines(steps[k])
    ensures Run(overall, steps) == Decline
  {
    RunIsSummary(overall, steps);
  }

  /** Starting undecided, the loop ends undecided exactly when no action says anything. */
  lemma RunIgnoreIff(steps: seq<Step>)
    ensures Run(Ignore, steps) == Ignore <==>
            forall k :: 0 <= k < |steps| ==> steps[k] == Skip || steps[k] == Yield(Ignore)
  {
    RunIsSummary(Ignore, steps);
    if forall k :: 0 <= k < |steps| ==> steps[k] == Skip || steps[k] == Yield(Ignore) {
      assert forall k :: 0 <= k < |steps| ==> !Declines(steps[k]) && !Accepts(steps[k]);
    }
  }

  /** Starting undecided, the loop accepts exactly when some action accepts and none declines. */
  lemma RunAcceptIff(steps: seq<Step>)
    ensures Run(Ignore, steps) == Accept <==>
            (exists k :: 0 <= k < |steps| && Accepts(steps[k])) &&
            (forall k :: 0 <= k < |steps| ==> !Declines(steps[k]))
  {
    RunIsSummary(Ignore, steps);
  }

  /** A skipped action, or one that yields None, can be dropped without changing the verdict. */
  lemma NeutralStepIsInvisible(overall: Verdict, pre: seq<Step>, s: Step, post: seq<Step>)
    requires s == Skip || s == Yield(Ignore)
    ensures Run(overall, pre + [s] + post) == Run(overall, pre + post)
  {
    var long, short := pre + [s] + post, pre + post;
    RunIsSummary(overall, long);
    RunIsSummary(overall, short);
    forall k | 0 <= k < |long| && long[k] != s
      ensures exists j :: 0 <= j < |short| && short[j] == long[k]
    {
      if k < |pre| {
        assert short[k] == long[k];
      } else {
        assert short[k - 1] == long[k];
      }
    }
    forall j | 0 <= j < |short|
      ensures exists k :: 0 <= k < |long| && long[k] == short[j]
    {
      if j < |pre| {
        assert long[j] == short[j];
      } else {
        assert long[j + 1] == short[j];
      }
    }
  }

  /** Two requests whose actions give the same steps, in any order or multiplicity, get the same verdict. */
  lemma RunIgnoresOrder(overall: Verdict, steps: seq<Step>, other: seq<Step>)
    requires forall s :: s in steps <==> s in other
    ensures Run(overall, steps) == Run(overall, other)
  {
    RunIsSummary(overall, steps);
    RunIsSummary(overall, other);
    if exists k :: 0 <= k < |steps| && Declines(steps[k]) {
      var k :| 0 <= k < |steps| && Declines(steps[k]);
      assert steps[k] in other;
    }
    if exists k :: 0 <= k < |other| && Declines(other[k]) {
      var k :| 0 <= k < |other| && Declines(other[k]);
      assert other[k] in steps;
    }
    if exists k :: 0 <= k < |steps| && Accepts(steps[k]) {
      var k :| 0 <= k < |steps| && Accepts(steps[k]);
      assert steps[k] in other;
    }
    if exists k :: 0 <= k < |other| && Accepts(other[k]) {
      var k :| 0 <= k < |other| && Accepts(other[k]);
      assert other[k] in steps;
    }
  }
}
