/**
 * The decision logic of the maintenance-incident bot: every maintenance
 * incident is accepted, but the packages whose maintainers have not seen the
 * submission get a review by their devel project, and incidents for one
 * release project get a review by `factory-source` as well.
 */
module MaintenanceIncidents {
  import opened Wrappers
  import opened Verdicts
  import opened BuildService

  /** The release project whose incidents also need a review by `factory-source`. */
  const SentinelReleaseProject := "openSUSE:CPE:SLE-12"
  const FactorySourceUser := "factory-source"
  const MaintainerRole := "maintainer"
  const DevelReviewMessage := "Submission by someone who is not maintainer in the devel project. Please review"

  /** The names of the persons holding the maintainer role. */
  function MaintainersAmong(persons: seq<Person>): (names: seq<string>)
    ensures forall n :: n in names <==> Person(n, MaintainerRole) in persons
    decreases |persons|
  {
    if persons == [] then []
    else
      var rest := MaintainersAmong(persons[1..]);
      assert forall p :: p in persons <==> p == persons[0] || p in persons[1..];
      if persons[0].role == MaintainerRole then [persons[0].name] + rest else rest
  }

  /**
   * `_maintainers`: of all persons of an owner search result, the names of those
   * whose role is `maintainer`; bugowners and other roles do not count.
   */
  function Maintainers(owners: seq<Owner>): (names: seq<string>)
    ensures forall n :: n in names <==> exists i :: 0 <= i < |owners| && Person(n, MaintainerRole) in owners[i].persons
    decreases |owners|
  {
    if owners == [] then []
    else
      var rest := Maintainers(owners[1..]);
      assert forall i :: 1 <= i < |owners| ==> owners[i] == owners[1..][i - 1];
      MaintainersAmong(owners[0].persons) + rest
  }

  /** The maintainers of a package, as a set. */
  function MaintainerSet(r: Remote, package: string): set<string> {
    set n | n in Maintainers(OwnersOf(r, package))
  }

  /**
   * The package an incident is about: the package its source links to, in any
   * project, or the source package itself when there is no link (a missing
   * <linkinfo> read like a failed lookup).
   */
  function IncidentPackage(r: Remote, a: Action): (name: string)
    ensures LinkOf(r, a.srcProject, a.srcPackage).LinkInfo? ==> name == LinkOf(r, a.srcProject, a.srcPackage).package
    ensures !LinkOf(r, a.srcProject, a.srcPackage).LinkInfo? ==> name == a.srcPackage
  {
    var (_, linkpkg) := LinkTarget(LinkOf(r, a.srcProject, a.srcPackage));
    if linkpkg.Some? then linkpkg.value else a.srcPackage
  }

  /** The same lookup as written: unpacking `None` for a package without <linkinfo> raises TypeError. */
  function IncidentPackageAsWritten(r: Remote, a: Action): (res: Result<string, string>)
    ensures LinkOf(r, a.srcProject, a.srcPackage) != NoLinkInfo ==> res == Success(IncidentPackage(r, a))
  {
    match LinkTargetAsWritten(LinkOf(r, a.srcProject, a.srcPackage))
    case None => Failure("TypeError")
    case Some(link) =>
      var (_, linkpkg) := link;
      Success(if linkpkg.Some? then linkpkg.value else a.srcPackage)
  }

  /**
   * The discrepancy: an incident from a package that is not a link crashes the bot
   * as written, where the evident intent (use the real package name) is kept by
   * the corrected lookup.
   */
  lemma NonLinkIncidentCrashes(r: Remote, a: Action)
    requires LinkOf(r, a.srcProject, a.srcPackage) == NoLinkInfo
    ensures IncidentPackageAsWritten(r, a) == Failure("TypeError")
    ensures IncidentPackage(r, a) == a.srcPackage
  {
  }

  /** The author is covered when they maintain the package or a maintainer already reviews the request. */
  predicate Covered(author: string, maintainers: set<string>, reviews: seq<Review>) {
    author in maintainers ||
    exists k :: 0 <= k < |reviews| && reviews[k].byUser.Some? && reviews[k].byUser.value in maintainers
  }

  /** The two loops that set `foundone`: over the maintainers, then over the existing reviews. */
  method IsCovered(author: string, maintainers: set<string>, reviews: seq<Review>) returns (foundone: bool)
    ensures foundone == Covered(author, maintainers, reviews)
  {
    foundone := false;
    var rest := maintainers;
    while rest != {}
      invariant rest <= maintainers
      invariant foundone <==> author in maintainers - rest
      decreases rest
    {
      var m :| m in rest;
      if author == m {
        foundone := true;
      }
      rest := rest - {m};
    }
    if !foundone {
      var k := 0;
      while k < |reviews|
        invariant 0 <= k <= |reviews|
        invariant author !in maintainers
        invariant foundone <==> exists j :: 0 <= j < k && reviews[j].byUser.Some? && reviews[j].byUser.value in maintainers
      {
        if reviews[k].byUser.Some? && reviews[k].byUser.value in maintainers {
          foundone := true;
        }
        k := k + 1;
      }
    }
  }

  /**
   * Whether an incident's package goes to `needs_maintainer_review`: it has
   * maintainers and the request's creator is not covered by them.
   */
  predicate NeedsMaintainerReview(r: Remote, req: Request, a: Action) {
    var maintainers := MaintainerSet(r, IncidentPackage(r, a));
    maintainers != {} && !Covered(req.creator, maintainers, req.reviews)
  }

  /** Whether an action is an incident that needs a maintainer review. */
  predicate WantsMaintainerReview(r: Remote, req: Request, a: Action) {
    a.kind.MaintenanceIncident? && NeedsMaintainerReview(r, req, a)
  }

  /** Whether an action is an incident for the sentinel release project. */
  predicate ForSentinel(a: Action) {
    a.kind.MaintenanceIncident? && a.tgtReleaseProject == Some(SentinelReleaseProject)
  }

  /**
   * `needs_maintainer_review` after the loop over `actions`, in the order the
   * packages were first added (the set's own iteration order is not modelled).
   */
  function NeedsReview(r: Remote, req: Request, actions: seq<Action>): seq<string>
    decreases |actions|
  {
    if actions == [] then []
    else
      var prev := NeedsReview(r, req, actions[..|actions| - 1]);
      var a := actions[|actions| - 1];
      if WantsMaintainerReview(r, req, a) && IncidentPackage(r, a) !in prev then prev + [IncidentPackage(r, a)]
      else prev
  }

  predicate NoDuplicates(s: seq<string>) {
    forall i, j :: 0 <= i < j < |s| ==> s[i] != s[j]
  }

  /**
   * The accumulated set: each package appears once, and exactly the packages of
   * incidents with maintainers that do not cover the author appear.
   */
  lemma {:induction false} NeedsReviewSpec(r: Remote, req: Request, actions: seq<Action>)
    ensures NoDuplicates(NeedsReview(r, req, actions))
    ensures forall p :: p in NeedsReview(r, req, actions) <==>
              exists k :: 0 <= k < |actions| && WantsMaintainerReview(r, req, actions[k]) && IncidentPackage(r, actions[k]) == p
    decreases |actions|
  {
    if actions != [] {
      var init := actions[..|actions| - 1];
      NeedsReviewSpec(r, req, init);
      assert forall k :: 0 <= k < |init| ==> init[k] == actions[k];
      var a := actions[|actions| - 1];
      forall p | exists k :: 0 <= k < |actions| && WantsMaintainerReview(r, req, actions[k]) && IncidentPackage(r, actions[k]) == p
        ensures p in NeedsReview(r, req, actions)
      {
        var k :| 0 <= k < |actions| && WantsMaintainerReview(r, req, actions[k]) && IncidentPackage(r, actions[k]) == p;
        if k < |init| {
          assert init[k] == actions[k];
        }
      }
    }
  }

  /** The result of one action in the incident bot's loop: only incidents are accepted. */
  function IncidentStep(a: Action): Step {
    if a.kind.MaintenanceIncident? then Yield(Accept) else Yield(Ignore)
  }

  function IncidentSteps(actions: seq<Action>): (steps: seq<Step>)
    ensures |steps| == |actions|
    ensures forall k :: 0 <= k < |actions| ==> steps[k] == IncidentStep(actions[k])
  {
    seq(|actions|, k requires 0 <= k < |actions| => IncidentStep(actions[k]))
  }

  /** Whether the loop sets `add_factory_source`. */
  predicate AddsFactorySource(actions: seq<Action>) {
    exists k :: 0 <= k < |actions| && ForSentinel(actions[k])
  }

  /**
   * The verdict of the incident bot's `check_one_request`: accept when the request
   * has an incident, unless the `factory-source` review it had to add was not
   * granted; never a decline.
   */
  function IncidentVerdict(r: Remote, req: Request): (v: Verdict)
    ensures v != Decline
    ensures v == Accept <==>
              (exists k :: 0 <= k < |req.actions| && req.actions[k].kind.MaintenanceIncident?) &&
              (AddsFactorySource(req.actions) ==> (req.id, ByUser(FactorySourceUser)) in r.grantedReviews)
  {
    var steps := IncidentSteps(req.actions);
    RunAcceptIff(steps);
    RunIsSummary(Ignore, steps);
    var overall := Run(Ignore, steps);
    if AddsFactorySource(req.actions) && (req.id, ByUser(FactorySourceUser)) !in r.grantedReviews then Ignore
    else overall
  }

  /** The verdict is the fold over the actions, overridden by an ungranted `factory-source` review. */
  lemma IncidentVerdictUnfolds(r: Remote, req: Request)
    ensures IncidentVerdict(r, req) ==
              if AddsFactorySource(req.actions) && (req.id, ByUser(FactorySourceUser)) !in r.grantedReviews then Ignore
              else Run(Ignore, IncidentSteps(req.actions))
  {
  }

  lemma IncidentEffectsUnfold(r: Remote, req: Request)
    ensures forall before: seq<AddedReview> ::
              before + IncidentEffects(r, req) ==
              (before + (if AddsFactorySource(req.actions) then [AddedReview(req.id, ByUser(FactorySourceUser), None)] else [])) +
              AllDevelReviews(r, req.id, NeedsReview(r, req, req.actions))
  {
  }

  /** `add_devel_project_review`: one review per <owner> entry of the package's owner search. */
  function DevelReviews(id: int, owners: seq<Owner>): (added: seq<AddedReview>)
    ensures |added| == |owners|
    ensures forall k :: 0 <= k < |owners| ==>
              added[k] == AddedReview(id, ByPackage(owners[k].project, owners[k].package), Some(DevelReviewMessage))
  {
    seq(|owners|, k requires 0 <= k < |owners| =>
      AddedReview(id, ByPackage(owners[k].project, owners[k].package), Some(DevelReviewMessage)))
  }

  /** The devel-project reviews for each package of `packages`, in order. */
  function AllDevelReviews(r: Remote, id: int, packages: seq<string>): seq<AddedReview>
    decreases |packages|
  {
    if packages == [] then []
    else DevelReviews(id, OwnersOf(r, packages[0])) + AllDevelReviews(r, id, packages[1..])
  }

  lemma AllDevelReviewsStep(r: Remote, id: int, packages: seq<string>)
    requires packages != []
    ensures AllDevelReviews(r, id, packages) == DevelReviews(id, OwnersOf(r, packages[0])) + AllDevelReviews(r, id, packages[1..])
  {
  }

  /** The `add_review` calls of the incident bot's `check_one_request`, in order. */
  function IncidentEffects(r: Remote, req: Request): seq<AddedReview> {
    (if AddsFactorySource(req.actions) then [AddedReview(req.id, ByUser(FactorySourceUser), None)] else []) +
    AllDevelReviews(r, req.id, NeedsReview(r, req, req.actions))
  }
}
