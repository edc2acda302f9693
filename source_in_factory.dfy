/**
 * The decision logic of the factory-source bot: whether the sources of an
 * action are already in the reference project (its head or its recent
 * history) or already on their way there (an open request with the same
 * sources), and the per-action rules of `check_one_request`.
 */
module SourceInFactory {
  import opened Wrappers
  import opened Verdicts
  import opened BuildService

  /** The maintenance pseudo-package that release requests carry and the bot skips. */
  const Patchinfo := "patchinfo"

  /** The `limit` of the history query. */
  const HistoryLimit := 5

  /** The revisions the history query returns: the newest `HistoryLimit` ones. */
  function HistoryWindow(h: seq<Option<string>>): (w: seq<Option<string>>)
    ensures |w| == if |h| < HistoryLimit then |h| else HistoryLimit
    ensures w == h[|h| - |w|..]
  {
    if |h| <= HistoryLimit then h else h[|h| - HistoryLimit..]
  }

  /**
   * The history scan: revisions without a srcmd5 are skipped, the first one whose
   * srcmd5 equals `rev` ends the scan positively.
   */
  function InHistory(revisions: seq<Option<string>>, rev: Option<string>): (found: bool)
    ensures found <==> exists k :: 0 <= k < |revisions| && revisions[k].Some? && revisions[k] == rev
    decreases |revisions|
  {
    if revisions == [] then false
    else if revisions[0].None? then InHistory(revisions[1..], rev)
    else if revisions[0] == rev then true
    else InHistory(revisions[1..], rev)
  }

  /** Whether a revision in the history window has the sources `rev`. */
  predicate InWindow(h: seq<Option<string>>, rev: Option<string>) {
    rev.Some? && exists k :: 0 <= k < |HistoryWindow(h)| && HistoryWindow(h)[k] == rev
  }

  /** Whether the reference project's head of `package` has the sources `rev`. */
  predicate HeadMatches(r: Remote, factory: string, package: string, rev: Option<string>) {
    Fingerprint(r, factory, package, None).Some? && Fingerprint(r, factory, package, None) == rev
  }

  /**
   * `_check_factory`: None for a package the reference project does not have,
   * True when its head or one of its five newest revisions has the sources `rev`,
   * None when its history cannot be read, and False otherwise.
   */
  function CheckFactory(r: Remote, factory: string, rev: Option<string>, package: string): (v: Verdict)
    ensures var head := Fingerprint(r, factory, package, None);
            var hist := HistoryOf(r, factory, package);
            && (v == Ignore <==> head.None? || (head != rev && hist.None?))
            && (v == Accept <==>
                  (head.Some? && (head == rev || (hist.Some? && InWindow(hist.value, rev)))))
  {
    var head := Fingerprint(r, factory, package, None);
    if head.None? then Ignore
    else if rev == head then Accept
    else match HistoryOf(r, factory, package)
      case None => Ignore
      case Some(h) => if InHistory(HistoryWindow(h), rev) then Accept else Decline
  }

  /** Whether `requests[i]` is the first of `requests` that carries the sources `rev`. */
  predicate FirstMatch(r: Remote, requests: seq<Request>, rev: Option<string>, i: nat)
    requires i < |requests|
  {
    MatchesAny(r, requests[i].actions, rev) &&
    forall j :: 0 <= j < i ==> !MatchesAny(r, requests[j].actions, rev)
  }

  /** Whether one of `actions` has source fingerprint `rev` (the inner loop of `_check_requests`). */
  function MatchesAny(r: Remote, actions: seq<Action>, rev: Option<string>): (m: bool)
    ensures m <==> exists k :: 0 <= k < |actions| && SourceFingerprint(r, actions[k]) == rev
    decreases |actions|
  {
    if actions == [] then false
    else if SourceFingerprint(r, actions[0]) == rev then true
    else MatchesAny(r, actions[1..], rev)
  }

  /** The state of the first open request that carries the sources `rev`, if any. */
  function FirstMatchingState(r: Remote, requests: seq<Request>, rev: Option<string>): (st: Option<string>)
    ensures st.None? <==> forall i :: 0 <= i < |requests| ==> !MatchesAny(r, requests[i].actions, rev)
    ensures st.Some? ==>
              (exists i :: 0 <= i < |requests| && FirstMatch(r, requests, rev, i) && requests[i].state == st.value)
    decreases |requests|
  {
    if requests == [] then None
    else if MatchesAny(r, requests[0].actions, rev) then Some(requests[0].state)
    else
      var st := FirstMatchingState(r, requests[1..], rev);
      assert forall i :: 1 <= i < |requests| ==> requests[i] == requests[1..][i - 1];
      st
  }

  /**
   * `_check_requests`: among the open requests against the reference package, the
   * first one carrying the sources `rev` decides: True when it is `new`, None in
   * any other state; False when none carries them.
   */
  function CheckOpenRequests(r: Remote, factory: string, rev: Option<string>, package: string): (v: Verdict)
    ensures var reqs := OpenRequestsOf(r, factory, package);
            && (v == Decline <==> forall i :: 0 <= i < |reqs| ==> !MatchesAny(r, reqs[i].actions, rev))
            && (v == Accept <==>
                  (exists i :: 0 <= i < |reqs| && FirstMatch(r, reqs, rev, i) && reqs[i].state == "new"))
  {
    var reqs := OpenRequestsOf(r, factory, package);
    var st := FirstMatchingState(r, reqs, rev);
    if st.Some? then FirstMatchDecides(r, reqs, rev); MatchedStateVerdict(st.value)
    else Decline
  }

  /** The answer of `_check_requests` for the state of the first matching request. */
  function MatchedStateVerdict(state: string): Verdict {
    if state == "new" then Accept else Ignore
  }

  /** Any request that carries `rev` and follows only requests that do not is the one that decides. */
  lemma {:induction false} FirstMatchDecides(r: Remote, requests: seq<Request>, rev: Option<string>)
    ensures forall i :: 0 <= i < |requests| && FirstMatch(r, requests, rev, i) ==>
              FirstMatchingState(r, requests, rev) == Some(requests[i].state)
    decreases |requests|
  {
    if requests != [] {
      FirstMatchDecides(r, requests[1..], rev);
      forall i | 1 <= i < |requests| && FirstMatch(r, requests, rev, i)
        ensures FirstMatchingState(r, requests, rev) == Some(requests[i].state)
      {
        assert !MatchesAny(r, requests[0].actions, rev);
        assert requests[1..][i - 1] == requests[i];
        assert forall j :: 0 <= j < i - 1 ==> requests[1..][j] == requests[j + 1];
      }
    }
  }

  /** `_check_package`: the reference project first; only a True there stops the search. */
  function CheckPackage(r: Remote, factory: string, rev: Option<string>, package: string): Verdict {
    var good := CheckFactory(r, factory, rev, package);
    if good == Accept then Accept else CheckOpenRequests(r, factory, rev, package)
  }

  /**
   * The combined answer of the three checks. A package the reference project does
   * not have is not exempt: without a matching open request it is declined.
   */
  lemma CheckPackageCases(r: Remote, factory: string, rev: Option<string>, package: string)
    ensures var v := CheckPackage(r, factory, rev, package);
            var reqs := OpenRequestsOf(r, factory, package);
            && (v == Accept <==> CheckFactory(r, factory, rev, package) == Accept ||
                                 CheckOpenRequests(r, factory, rev, package) == Accept)
            && (v == Decline <==> CheckFactory(r, factory, rev, package) != Accept &&
                                  forall i :: 0 <= i < |reqs| ==> !MatchesAny(r, reqs[i].actions, rev))
            && (Fingerprint(r, factory, package, None).None? ==> v != Accept || CheckOpenRequests(r, factory, rev, package) == Accept)
  {
  }

  /**
   * `_get_linktarget_self`: the package a package links to when the link stays in
   * its own project (a failed lookup yields no name either).
   */
  function LinkTargetSelf(srcProject: string, l: LinkLookup): (pkg: Option<string>)
    ensures pkg.Some? <==> l.LinkInfo? && l.project == srcProject
    ensures pkg.Some? ==> pkg.value == l.package
  {
    var (prj, p) := LinkTarget(l);
    if prj.None? || prj == Some(srcProject) then p else None
  }

  /** The name a release action's package has after same-project links are followed. */
  function ReleaseName(r: Remote, a: Action): string {
    match LinkTargetSelf(a.srcProject, LinkOf(r, a.srcProject, a.srcPackage))
    case Some(p) => p
    case None => a.srcPackage
  }

  /** The link information of that package, which must point into the release's target project. */
  function ReleaseLink(r: Remote, a: Action): LinkLookup {
    LinkOf(r, a.srcProject, ReleaseName(r, a))
  }

  /**
   * The `maintenance_release` branch: `patchinfo` is skipped; a package that is not
   * a link into the action's target project declines and ends the loop; otherwise
   * the head sources of the original package are checked under the linked name.
   */
  function ReleaseStep(r: Remote, factory: string, a: Action): (s: Step)
    ensures s == Skip <==> a.srcPackage == Patchinfo
    ensures s == Halt <==> a.srcPackage != Patchinfo &&
                           !(ReleaseLink(r, a).LinkInfo? && ReleaseLink(r, a).project == a.tgtProject)
    ensures s.Yield? ==>
              s.v == CheckPackage(r, factory, Fingerprint(r, a.srcProject, a.srcPackage, None), ReleaseLink(r, a).package)
  {
    if a.srcPackage == Patchinfo then Skip
    else
      var (linkprj, linkpkg) := LinkTarget(ReleaseLink(r, a));
      if linkpkg.None? || linkprj.None? || linkprj.value != a.tgtProject then Halt
      else Yield(CheckPackage(r, factory, Fingerprint(r, a.srcProject, a.srcPackage, None), linkpkg.value))
  }

  /**
   * One pass of the loop body of `check_one_request`. Submissions are checked under
   * the target package name, incidents under the source package name; only a
   * release can be skipped or end the loop; unknown types say nothing.
   */
  function SourceStep(r: Remote, factory: string, a: Action): (s: Step)
    ensures (s == Skip || s == Halt) ==> a.kind.MaintenanceRelease?
    ensures a.kind.Other? ==> s == Yield(Ignore)
    ensures a.kind.Submit? ==> s == Yield(CheckPackage(r, factory, SourceFingerprint(r, a), a.tgtPackage))
    ensures a.kind.MaintenanceIncident? ==> s == Yield(CheckPackage(r, factory, SourceFingerprint(r, a), a.srcPackage))
    ensures a.kind.Submit? && HeadMatches(r, factory, a.tgtPackage, SourceFingerprint(r, a)) ==> s == Yield(Accept)
    ensures a.kind.MaintenanceIncident? && HeadMatches(r, factory, a.srcPackage, SourceFingerprint(r, a)) ==>
              s == Yield(Accept)
    ensures a.kind.MaintenanceRelease? ==> s == ReleaseStep(r, factory, a)
  {
    match a.kind
    case MaintenanceIncident => Yield(CheckPackage(r, factory, SourceFingerprint(r, a), a.srcPackage))
    case MaintenanceRelease => ReleaseStep(r, factory, a)
    case Submit => Yield(CheckPackage(r, factory, SourceFingerprint(r, a), a.tgtPackage))
    case Other(_) => Yield(Ignore)
  }

  function SourceSteps(r: Remote, factory: string, actions: seq<Action>): (steps: seq<Step>)
    ensures |steps| == |actions|
    ensures forall k :: 0 <= k < |actions| ==> steps[k] == SourceStep(r, factory, actions[k])
  {
    seq(|actions|, k requires 0 <= k < |actions| => SourceStep(r, factory, actions[k]))
  }

  /** The verdict `check_one_request` returns for a request with these actions. */
  function SourceVerdict(r: Remote, factory: string, actions: seq<Action>): Verdict {
    Run(Ignore, SourceSteps(r, factory, actions))
  }
}

module SourceInFactoryProperties {
  import opened Wrappers
  import opened Verdicts
  import opened BuildService
  import opened SourceInFactory

  /**
   * The fold over a request's actions: it declines when some action declines or
   * is a release that is not a link into its target, accepts when otherwise some
   * action accepts, and ignores the request when no action says anything.
   */
  lemma SourceVerdictCases(r: Remote, factory: string, actions: seq<Action>)
    ensures var v := SourceVerdict(r, factory, actions);
            && (v == Decline <==> exists k :: 0 <= k < |actions| && Declines(SourceStep(r, factory, actions[k])))
            && (v == Ignore <==> forall k :: 0 <= k < |actions| ==>
                                   SourceStep(r, factory, actions[k]) in {Skip, Yield(Ignore)})
  {
    var steps := SourceSteps(r, factory, actions);
    RunIsSummary(Ignore, steps);
    RunIgnoreIff(steps);
    if exists k :: 0 <= k < |steps| && Declines(steps[k]) {
      var k :| 0 <= k < |steps| && Declines(steps[k]);
      assert Declines(SourceStep(r, factory, actions[k]));
    }
  }

  /**
   * `break` after a release that is not a link into its target: the request is
   * declined whatever the actions after it are.
   */
  lemma HaltDeclinesRequest(r: Remote, factory: string, before: seq<Action>, a: Action, after: seq<Action>)
    requires SourceStep(r, factory, a) == Halt
    ensures SourceVerdict(r, factory, before + [a] + after) == Decline
  {
    var actions := before + [a] + after;
    assert actions[|before|] == a;
    DeclineIsSticky(Ignore, SourceSteps(r, factory, actions), |before|);
  }

  /**
   * A `patchinfo` release and an action of an unhandled type leave the verdict of
   * the request exactly as if they were not there.
   */
  lemma NeutralActionIsInvisible(r: Remote, factory: string, before: seq<Action>, a: Action, after: seq<Action>)
    requires a.kind.Other? || (a.kind.MaintenanceRelease? && a.srcPackage == Patchinfo)
    ensures SourceVerdict(r, factory, before + [a] + after) == SourceVerdict(r, factory, before + after)
  {
    var s := SourceStep(r, factory, a);
    var pre, post := SourceSteps(r, factory, before), SourceSteps(r, factory, after);
    assert SourceSteps(r, factory, before + [a] + after) == pre + [s] + post;
    assert SourceSteps(r, factory, before + after) == pre + post;
    NeutralStepIsInvisible(Ignore, pre, s, post);
  }

  /**
   * A release of a package without any link information is declined (after the
   * missing <linkinfo> is read like a failed lookup).
   */
  lemma NonLinkReleaseDeclines(r: Remote, factory: string, a: Action)
    requires a.kind.MaintenanceRelease? && a.srcPackage != Patchinfo
    requires LinkOf(r, a.srcProject, a.srcPackage) == NoLinkInfo
    ensures SourceStep(r, factory, a) == Halt
    ensures SourceVerdict(r, factory, [a]) == Decline
  {
    assert ReleaseName(r, a) == a.srcPackage;
    HaltDeclinesRequest(r, factory, [], a, []);
    assert [] + [a] + [] == [a];
  }

  /**
   * A submission whose sources are not the reference head but one of its five
   * newest revisions is accepted: `_check_package` stops at `_check_factory`'s True.
   */
  lemma SubmitInHistoryIsAccepted(r: Remote, factory: string, a: Action)
    requires a.kind.Submit?
    requires Fingerprint(r, factory, a.tgtPackage, None).Some?
    requires HistoryOf(r, factory, a.tgtPackage).Some?
    requires InWindow(HistoryOf(r, factory, a.tgtPackage).value, SourceFingerprint(r, a))
    ensures SourceStep(r, factory, a) == Yield(Accept)
    ensures SourceVerdict(r, factory, [a]) == Accept
  {
    var steps := SourceSteps(r, factory, [a]);
    assert steps == [Yield(Accept)];
    assert Run(Ignore, steps) == Run(Accept, steps[1..]);
  }

  /**
   * A package the reference project does not have is declined unless an open
   * request with the same sources exists: `_check_package` goes on to
   * `_check_requests` after `_check_factory`'s None.
   */
  lemma NewPackageIsDeclined(r: Remote, factory: string, rev: Option<string>, package: string)
    requires Fingerprint(r, factory, package, None).None?
    requires forall q :: q in OpenRequestsOf(r, factory, package) ==> !MatchesAny(r, q.actions, rev)
    ensures CheckFactory(r, factory, rev, package) == Ignore
    ensures CheckPackage(r, factory, rev, package) == Decline
  {
    var reqs := OpenRequestsOf(r, factory, package);
    assert forall i :: 0 <= i < |reqs| ==> reqs[i] in reqs;
  }

  /**
   * The `maintenance_release` branch as written: `_get_linktarget` returns None
   * for a package without <linkinfo>, and unpacking it into `prj, pkg` (in
   * `_get_linktarget_self` and again in the loop) raises TypeError.
   */
  function ReleaseStepAsWritten(r: Remote, factory: string, a: Action): (res: Result<Step, string>)
    ensures a.srcPackage == Patchinfo ==> res == Success(Skip)
    ensures res.Failure? <==> a.srcPackage != Patchinfo &&
                              (LinkOf(r, a.srcProject, a.srcPackage) == NoLinkInfo || ReleaseLink(r, a) == NoLinkInfo)
    ensures res.Failure? ==> res.error == "TypeError"
    ensures (a.srcPackage != Patchinfo && LinkOf(r, a.srcProject, a.srcPackage) != NoLinkInfo &&
             ReleaseLink(r, a) != NoLinkInfo) ==> res == Success(ReleaseStep(r, factory, a))
  {
    if a.srcPackage == Patchinfo then Success(Skip)
    else match LinkTargetAsWritten(LinkOf(r, a.srcProject, a.srcPackage))
      case None => Failure("TypeError")
      case Some(selfLink) =>
        var (prj, pkg) := selfLink;
        var name := if (prj.None? || prj == Some(a.srcProject)) && pkg.Some? then pkg.value else a.srcPackage;
        match LinkTargetAsWritten(LinkOf(r, a.srcProject, name))
        case None => Failure("TypeError")
        case Some(link) =>
          var (linkprj, linkpkg) := link;
          if linkpkg.None? || linkprj.None? || linkprj.value != a.tgtProject then Success(Halt)
          else Success(Yield(CheckPackage(r, factory, Fingerprint(r, a.srcProject, a.srcPackage, None), linkpkg.value)))
  }

  /**
   * The discrepancy: releasing a package that is not a link crashes the bot as
   * written, where the corrected step declines the request.
   */
  lemma NonLinkReleaseCrashes(r: Remote, factory: string, a: Action)
    requires a.kind.MaintenanceRelease? && a.srcPackage != Patchinfo
    requires LinkOf(r, a.srcProject, a.srcPackage) == NoLinkInfo
    ensures ReleaseStepAsWritten(r, factory, a) == Failure("TypeError")
    ensures SourceStep(r, factory, a) == Halt
  {
    NonLinkReleaseDeclines(r, factory, a);
  }
}
