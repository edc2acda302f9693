/**
 * The review bot itself: a checker holding the requests to look at, the
 * server's review records it concludes and the reviews it adds. The factory
 * source bot and the maintenance incident bot differ only in how they judge
 * one request and in the messages they send; both are a `Checker` with a
 * `Policy`.
 */
module Checkers {
  import opened Wrappers
  import opened Verdicts
  import opened BuildService
  import opened Reviews
  import SourceInFactory
  import MaintenanceIncidents

  /** `Checker` (the factory source bot) or `MaintenanceChecker` (the incident bot). */
  datatype Policy = FactoryPolicy | MaintenancePolicy

  /** What a checker is set up with: it does not change during a run. */
  datatype Config = Config(
    policy: Policy,
    remote: Remote,
    factory: string,
    dryrun: bool,
    reviewUser: Option<string>,
    messages: map<string, string>)

  const DefaultFactory := "openSUSE:Factory"

  /** The messages sent with an accepted or declined review; the incident bot empties them. */
  function MessagesFor(policy: Policy): map<string, string> {
    if policy == MaintenancePolicy then map[]
    else map["accepted" := "ok", "declined" := "the package needs to be accepted in Factory first"]
  }

  /** The verdict the checker's `check_one_request` reaches for a request. */
  function RequestVerdict(cfg: Config, req: Request): Verdict {
    match cfg.policy
    case FactoryPolicy => SourceInFactory.SourceVerdict(cfg.remote, cfg.factory, req.actions)
    case MaintenancePolicy => MaintenanceIncidents.IncidentVerdict(cfg.remote, req)
  }

  /** The reviews the checker's `check_one_request` adds to a request. */
  function RequestEffects(cfg: Config, req: Request): seq<AddedReview> {
    match cfg.policy
    case FactoryPolicy => []
    case MaintenancePolicy => MaintenanceIncidents.IncidentEffects(cfg.remote, req)
  }

  /** The review records after `check_requests` has handled one request. */
  function AfterRequest(cfg: Config, store: Store, req: Request): Store {
    match RequestVerdict(cfg, req)
    case Ignore => store
    case Accept => SetReviewEffect(cfg.reviewUser, cfg.dryrun, cfg.messages, store, req.id, "accepted")
    case Decline => SetReviewEffect(cfg.reviewUser, cfg.dryrun, cfg.messages, store, req.id, "declined")
  }

  /** The review records after `check_requests` has handled `reqs` in order. */
  function AfterBatch(cfg: Config, store: Store, reqs: seq<Request>): Store
    decreases |reqs|
  {
    if reqs == [] then store else AfterBatch(cfg, AfterRequest(cfg, store, reqs[0]), reqs[1..])
  }

  /** The reviews `check_requests` adds while handling `reqs` in order. */
  function BatchEffects(cfg: Config, reqs: seq<Request>): seq<AddedReview>
    decreases |reqs|
  {
    if reqs == [] then [] else RequestEffects(cfg, reqs[0]) + BatchEffects(cfg, reqs[1..])
  }

  /** Handling the first request of `reqs` leaves the rest of the batch to do. */
  lemma BatchStep(cfg: Config, store: Store, added: seq<AddedReview>, reqs: seq<Request>)
    requires reqs != []
    ensures AfterBatch(cfg, store, reqs) == AfterBatch(cfg, AfterRequest(cfg, store, reqs[0]), reqs[1..])
    ensures added + BatchEffects(cfg, reqs) == (added + RequestEffects(cfg, reqs[0])) + BatchEffects(cfg, reqs[1..])
  {
  }

  /** Whether handling `req` may still write its review: the checker's review of it is `new`. */
  predicate Pending(cfg: Config, store: Store, req: Request) {
    UserSet(cfg.reviewUser) && !cfg.dryrun && RequestVerdict(cfg, req) != Ignore &&
    ReviewState(store, req.id, cfg.reviewUser.value) == "new"
  }

  /** A request that is not pending leaves the review records alone. */
  lemma AfterSettledRequest(cfg: Config, store: Store, req: Request)
    requires !Pending(cfg, store, req)
    ensures AfterRequest(cfg, store, req) == store
  {
  }

  /** A concluded review (any state but `new`) keeps its state while later requests are handled. */
  lemma {:induction false} BatchKeepsConcluded(cfg: Config, store: Store, reqs: seq<Request>, id: int, who: string)
    requires ReviewState(store, id, who) != "new"
    ensures ReviewState(AfterBatch(cfg, store, reqs), id, who) == ReviewState(store, id, who)
    decreases |reqs|
  {
    if reqs != [] {
      var req := reqs[0];
      var next := AfterRequest(cfg, store, req);
      var state := if RequestVerdict(cfg, req) == Accept then "accepted" else "declined";
      if RequestVerdict(cfg, req) != Ignore {
        SetReviewKeepsConcluded(cfg.reviewUser, cfg.dryrun, cfg.messages, store, req.id, state, id, who);
      }
      BatchKeepsConcluded(cfg, next, reqs[1..], id, who);
    }
  }

  /** After a batch, no request of the batch is pending any more. */
  lemma {:induction false} BatchSettles(cfg: Config, store: Store, reqs: seq<Request>)
    ensures forall k :: 0 <= k < |reqs| ==> !Pending(cfg, AfterBatch(cfg, store, reqs), reqs[k])
    decreases |reqs|
  {
    if reqs != [] {
      var req := reqs[0];
      var next := AfterRequest(cfg, store, req);
      var rest := reqs[1..];
      BatchSettles(cfg, next, rest);
      assert forall k :: 1 <= k < |reqs| ==> reqs[k] == rest[k - 1];
      if UserSet(cfg.reviewUser) && !cfg.dryrun && RequestVerdict(cfg, req) != Ignore {
        assert ReviewState(next, req.id, cfg.reviewUser.value) != "new";
        BatchKeepsConcluded(cfg, next, rest, req.id, cfg.reviewUser.value);
      }
    }
  }

  /** A batch none of whose requests is pending changes nothing. */
  lemma {:induction false} SettledBatchIsNoop(cfg: Config, store: Store, reqs: seq<Request>)
    requires forall k :: 0 <= k < |reqs| ==> !Pending(cfg, store, reqs[k])
    ensures AfterBatch(cfg, store, reqs) == store
    decreases |reqs|
  {
    if reqs != [] {
      AfterSettledRequest(cfg, store, reqs[0]);
      assert forall k :: 1 <= k < |reqs| ==> reqs[k] == reqs[1..][k - 1];
      SettledBatchIsNoop(cfg, store, reqs[1..]);
    }
  }

  /**
   * Running the checker a second time over the same requests changes no review:
   * every review it could conclude was concluded by the first run, and concluded
   * reviews are left alone.
   */
  lemma BatchIdempotent(cfg: Config, store: Store, reqs: seq<Request>)
    ensures AfterBatch(cfg, AfterBatch(cfg, store, reqs), reqs) == AfterBatch(cfg, store, reqs)
  {
    BatchSettles(cfg, store, reqs);
    SettledBatchIsNoop(cfg, AfterBatch(cfg, store, reqs), reqs);
  }

  /** The incident bot sends the bare state name as the review message. */
  lemma MaintenanceMessageIsStateName(cfg: Config, store: Store, req: Request)
    requires cfg.policy == MaintenancePolicy && cfg.messages == MessagesFor(MaintenancePolicy)
    requires Pending(cfg, store, req)
    ensures var k := FirstReviewBy(store[req.id], cfg.reviewUser.value).value;
            var after := AfterRequest(cfg, store, req);
            after[req.id][k].state == "accepted" && after[req.id][k].message == "accepted"
  {
    assert RequestVerdict(cfg, req) == Accept;
  }

  class Checker {
    const cfg: Config
    /** The requests to check (`self.requests`). */
    var requests: seq<Request>
    /** The review records on the server, as far as the checker reads and writes them. */
    var store: Store
    /** Every `add_review` call made so far, in order. */
    var addedReviews: seq<AddedReview>

    /**
     * `Checker.__init__` (and `MaintenanceChecker.__init__`, which empties the
     * review messages). An absent or empty factory name means `openSUSE:Factory`.
     */
    constructor (policy: Policy, remote: Remote, factory: Option<string>, dryrun: bool,
                 user: Option<string>, reviews: Store)
      ensures cfg == Config(policy, remote,
                            if factory.Some? && factory.value != "" then factory.value else DefaultFactory,
                            dryrun, user, MessagesFor(policy))
      ensures requests == [] && store == reviews && addedReviews == []
    {
      cfg := Config(policy, remote,
                    if factory.Some? && factory.value != "" then factory.value else DefaultFactory,
                    dryrun, user, MessagesFor(policy));
      requests := [];
      store := reviews;
      addedReviews := [];
    }

    /** `set_request_ids`: the requests read for the given ids are appended. */
    method SetRequestIds(fetched: seq<Request>)
      modifies this`requests
      ensures requests == old(requests) + fetched
    {
      var i := 0;
      while i < |fetched|
        invariant 0 <= i <= |fetched|
        invariant requests == old(requests) + fetched[..i]
      {
        requests := requests + [fetched[i]];
        i := i + 1;
      }
    }

    /**
     * `check_requests`: each request is judged, and its review is concluded as
     * `accepted` or `declined` unless the verdict is to ignore it.
     */
    method CheckRequests()
      modifies this`store, this`addedReviews
      ensures store == AfterBatch(cfg, old(store), requests)
      ensures addedReviews == old(addedReviews) + BatchEffects(cfg, requests)
    {
      var i := 0;
      while i < |requests|
        invariant 0 <= i <= |requests|
        invariant AfterBatch(cfg, store, requests[i..]) == AfterBatch(cfg, old(store), requests)
        invariant addedReviews + BatchEffects(cfg, requests[i..]) == old(addedReviews) + BatchEffects(cfg, requests)
      {
        var req := requests[i];
        ghost var storeBefore, addedBefore := store, addedReviews;
        var good := CheckOneRequest(req);
        if good == Ignore {
        } else if good == Accept {
          SetReview(req, "accepted");
        } else {
          SetReview(req, "declined");
        }
        BatchStep(cfg, storeBefore, addedBefore, requests[i..]);
        assert requests[i..][1..] == requests[i + 1..];
        i := i + 1;
      }
    }

    /** `_set_review`: only a review still `new` is concluded, and not in a dry run. */
    method SetReview(req: Request, state: string)
      modifies this`store
      ensures store == SetReviewEffect(cfg.reviewUser, cfg.dryrun, cfg.messages, old(store), req.id, state)
    {
      if !UserSet(cfg.reviewUser) {
        return;
      }
      var reviewState := ReviewState(store, req.id, cfg.reviewUser.value);
      if reviewState == "new" {
        if !cfg.dryrun {
          var msg := ReviewMessage(cfg.messages, state);
          store := ChangeReviewState(store, req.id, cfg.reviewUser.value, state, msg);
        }
      }
    }

    /** `check_one_request` of the policy the checker was built with. */
    method CheckOneRequest(req: Request) returns (overall: Verdict)
      modifies this`addedReviews
      ensures overall == RequestVerdict(cfg, req)
      ensures addedReviews == old(addedReviews) + RequestEffects(cfg, req)
    {
      if cfg.policy == FactoryPolicy {
        overall := CheckOneSourceRequest(req);
      } else {
        overall := CheckOneIncidentRequest(req);
      }
    }

    /**
     * `Checker.check_one_request`: the loop over the actions, with `continue` for
     * `patchinfo` and `break` for a release that is not a link into its target.
     */
    method CheckOneSourceRequest(req: Request) returns (overall: Verdict)
      ensures overall == SourceInFactory.SourceVerdict(cfg.remote, cfg.factory, req.actions)
    {
      var r, factory := cfg.remote, cfg.factory;
      ghost var steps := SourceInFactory.SourceSteps(r, factory, req.actions);
      overall := Ignore;
      var i := 0;
      while i < |req.actions|
        invariant 0 <= i <= |req.actions|
        invariant Run(overall, steps[i..]) == Run(Ignore, steps)
      {
        var a := req.actions[i];
        assert steps[i..][1..] == steps[i + 1..];
        var ret: Verdict;
        if a.kind.MaintenanceIncident? {
          var rev := Fingerprint(r, a.srcProject, a.srcPackage, a.srcRev);
          ret := SourceInFactory.CheckPackage(r, factory, rev, a.srcPackage);
        } else if a.kind.MaintenanceRelease? {
          var pkgname := a.srcPackage;
          if pkgname == SourceInFactory.Patchinfo {
            i := i + 1;
            continue;
          }
          var selfpkg := SourceInFactory.LinkTargetSelf(a.srcProject, LinkOf(r, a.srcProject, pkgname));
          if selfpkg.Some? {
            pkgname := selfpkg.value;
          }
          var (linkprj, linkpkg) := LinkTarget(LinkOf(r, a.srcProject, pkgname));
          if linkpkg.None? || linkprj.None? || linkprj.value != a.tgtProject {
            overall := Decline;
            break;
          }
          pkgname := linkpkg.value;
          var srcRev := Fingerprint(r, a.srcProject, a.srcPackage, None);
          ret := SourceInFactory.CheckPackage(r, factory, srcRev, pkgname);
        } else if a.kind.Submit? {
          var rev := Fingerprint(r, a.srcProject, a.srcPackage, a.srcRev);
          ret := SourceInFactory.CheckPackage(r, factory, rev, a.tgtPackage);
        } else {
          ret := Ignore;
        }
        if ret == Decline || (overall == Ignore && ret != Ignore) {
          overall := ret;
        }
        i := i + 1;
      }
    }

    /**
     * `MaintenanceChecker.check_one_request`: accept every incident, note the
     * packages whose maintainers do not cover the author and whether the sentinel
     * release project occurs, then add the resulting reviews.
     */
    method CheckOneIncidentRequest(req: Request) returns (overall: Verdict)
      modifies this`addedReviews
      ensures overall == MaintenanceIncidents.IncidentVerdict(cfg.remote, req)
      ensures addedReviews == old(addedReviews) + MaintenanceIncidents.IncidentEffects(cfg.remote, req)
    {
      var addFactorySource, needs;
      overall, addFactorySource, needs := ScanIncidents(req);
      MaintenanceIncidents.IncidentVerdictUnfolds(cfg.remote, req);
      MaintenanceIncidents.IncidentEffectsUnfold(cfg.remote, req);
      ghost var factorySource := [AddedReview(req.id, ByUser(MaintenanceIncidents.FactorySourceUser), None)];
      if addFactorySource {
        var ok := AddReview(req.id, ByUser(MaintenanceIncidents.FactorySourceUser), None);
        if !ok {
          overall := Ignore;
        }
      }
      assert addedReviews == old(addedReviews) + (if addFactorySource then factorySource else []);
      AddDevelProjectReviews(req.id, needs);
    }

    /**
     * The loop over the actions of `MaintenanceChecker.check_one_request`: the
     * folded verdict, whether `add_factory_source` was set, and the packages put
     * in `needs_maintainer_review`.
     */
    method ScanIncidents(req: Request) returns (overall: Verdict, addFactorySource: bool, needs: seq<string>)
      ensures overall == Run(Ignore, MaintenanceIncidents.IncidentSteps(req.actions))
      ensures addFactorySource == MaintenanceIncidents.AddsFactorySource(req.actions)
      ensures needs == MaintenanceIncidents.NeedsReview(cfg.remote, req, req.actions)
    {
      var r := cfg.remote;
      var actions := req.actions;
      ghost var steps := MaintenanceIncidents.IncidentSteps(actions);
      overall := Ignore;
      addFactorySource := false;
      needs := [];
      var i := 0;
      while i < |actions|
        invariant 0 <= i <= |actions|
        invariant Run(overall, steps[i..]) == Run(Ignore, steps)
        invariant addFactorySource == MaintenanceIncidents.AddsFactorySource(actions[..i])
        invariant needs == MaintenanceIncidents.NeedsReview(r, req, actions[..i])
      {
        var a := actions[i];
        assert steps[i..][1..] == steps[i + 1..];
        assert actions[..i + 1][..i] == actions[..i];
        var ret: Verdict;
        if a.kind.MaintenanceIncident? {
          var author := req.creator;
          var pkgname := a.srcPackage;
          var (_, linkpkg) := LinkTarget(LinkOf(r, a.srcProject, pkgname));
          if linkpkg.Some? {
            pkgname := linkpkg.value;
          }
          var maintainers := set m | m in MaintenanceIncidents.Maintainers(OwnersOf(r, pkgname));
          if maintainers != {} {
            var foundone := MaintenanceIncidents.IsCovered(author, maintainers, req.reviews);
            if !foundone && pkgname !in needs {
              needs := needs + [pkgname];
            }
          }
          if a.tgtReleaseProject == Some(MaintenanceIncidents.SentinelReleaseProject) {
            addFactorySource := true;
          }
          ret := Accept;
        } else {
          ret := Ignore;
        }
        if ret == Decline || (overall == Ignore && ret != Ignore) {
          overall := ret;
        }
        i := i + 1;
      }
      assert actions[..i] == actions;
    }

    /** The loop over `needs_maintainer_review`: a devel-project review for each package. */
    method AddDevelProjectReviews(id: int, packages: seq<string>)
      modifies this`addedReviews
      ensures addedReviews == old(addedReviews) + MaintenanceIncidents.AllDevelReviews(cfg.remote, id, packages)
    {
      var j := 0;
      while j < |packages|
        invariant 0 <= j <= |packages|
        invariant addedReviews + MaintenanceIncidents.AllDevelReviews(cfg.remote, id, packages[j..]) ==
                  old(addedReviews) + MaintenanceIncidents.AllDevelReviews(cfg.remote, id, packages)
      {
        ghost var before := addedReviews;
        AddDevelProjectReview(id, packages[j]);
        assert packages[j..][1..] == packages[j + 1..];
        MaintenanceIncidents.AllDevelReviewsStep(cfg.remote, id, packages[j..]);
        j := j + 1;
      }
      assert packages[j..] == [];
    }

    /** `add_review`: the call is recorded; its answer comes from the server. */
    method AddReview(id: int, target: ReviewTarget, message: Option<string>) returns (ok: bool)
      modifies this`addedReviews
      ensures addedReviews == old(addedReviews) + [AddedReview(id, target, message)]
      ensures ok <==> (id, target) in cfg.remote.grantedReviews
    {
      addedReviews := addedReviews + [AddedReview(id, target, message)];
      ok := (id, target) in cfg.remote.grantedReviews;
    }

    /** `add_devel_project_review`: one review request per owner of the package. */
    method AddDevelProjectReview(id: int, package: string)
      modifies this`addedReviews
      ensures addedReviews == old(addedReviews) + MaintenanceIncidents.DevelReviews(id, OwnersOf(cfg.remote, package))
    {
      var owners := OwnersOf(cfg.remote, package);
      var k := 0;
      while k < |owners|
        invariant 0 <= k <= |owners|
        invariant addedReviews == old(addedReviews) + MaintenanceIncidents.DevelReviews(id, owners)[..k]
      {
        var p := owners[k];
        var _ := AddReview(id, ByPackage(p.project, p.package), Some(MaintenanceIncidents.DevelReviewMessage));
        k := k + 1;
      }
      assert MaintenanceIncidents.DevelReviews(id, owners)[..k] == MaintenanceIncidents.DevelReviews(id, owners);
    }
  }
}
