/**
 * The build service as the review bots see it: requests, their actions and
 * reviews, and the read-only answers of the remote API. Every HTTP read of the
 * bots is a lookup in one of the maps of `Remote`. For source info, links and
 * histories a key that is absent stands for the HTTP error the bot catches at
 * that point; for open requests and owner searches, which the bots do not guard,
 * an absent key is an empty answer.
 */
module BuildService {
  import opened Wrappers

  /** The action types the bots distinguish; any other type name is `Other`. */
  datatype ActionType = Submit | MaintenanceIncident | MaintenanceRelease | Other(name: string)

  /** One action of a request, with the attributes the bots read. */
  datatype Action = Action(
    kind: ActionType,
    srcProject: string,
    srcPackage: string,
    srcRev: Option<string>,
    tgtProject: string,
    tgtPackage: string,
    tgtReleaseProject: Option<string>)

  /** A review entry: the user it is addressed to (if any), its state and its comment. */
  datatype Review = Review(byUser: Option<string>, state: string, message: string)

  /** A request as read from the server: id, state name, actions, creator and reviews. */
  datatype Request = Request(
    id: int,
    state: string,
    actions: seq<Action>,
    creator: string,
    reviews: seq<Review>)

  /** What `GET /source/<project>/<package>` reveals about links. */
  datatype LinkLookup =
    | LinkFetchFailed                               // the GET raised an HTTP error
    | NoLinkInfo                                    // the package exists but has no <linkinfo>
    | LinkInfo(project: string, package: string)   // <linkinfo project=.. package=..>

  /** A person of an owner search result, with the role they hold. */
  datatype Person = Person(name: string, role: string)

  /** An <owner> element of `GET /search/owner?binary=<package>`; `package` is absent for project-wide owners. */
  datatype Owner = Owner(project: string, package: Option<string>, persons: seq<Person>)

  /** Whom an added review is addressed to. */
  datatype ReviewTarget = ByUser(user: string) | ByPackage(project: string, package: Option<string>)

  /** One `add_review` call: the request, the reviewer and the message passed (if any). */
  datatype AddedReview = AddedReview(requestId: int, target: ReviewTarget, message: Option<string>)

  /** Key of a source-info read: project, package and the revision asked for (if any). */
  datatype SourceKey = SourceKey(project: string, package: string, rev: Option<string>)

  /**
   * The remote API's answers, fixed for one run:
   *  - verifymd5: the `verifymd5` of `GET /source/<prj>/<pkg>?view=info[&rev=..]`
   *  - links: the link information of `GET /source/<prj>/<pkg>` (absent: HTTP error)
   *  - history: the srcmd5 of every revision of a package, oldest first, `None` for a
   *    revision without a <srcmd5> element (absent key: HTTP error)
   *  - openRequests: the answer of `get_request_list` for a target project and package
   *    (absent key: no open request)
   *  - owners: the answer of the owner search for a binary name (absent key: no owner)
   *  - grantedReviews: the (request, reviewer) pairs for which `add_review` returns True
   */
  datatype Remote = Remote(
    verifymd5: map<SourceKey, string>,
    links: map<(string, string), LinkLookup>,
    history: map<(string, string), seq<Option<string>>>,
    openRequests: map<(string, string), seq<Request>>,
    owners: map<string, seq<Owner>>,
    grantedReviews: set<(int, ReviewTarget)>)

  /**
   * `_get_verifymd5`: a revision is only sent when it is truthy (not absent, not
   * empty); a failed read, or an answer without `verifymd5`, gives None.
   */
  function Fingerprint(r: Remote, project: string, package: string, rev: Option<string>): (f: Option<string>)
    ensures rev.Some? && rev.value != "" ==>
              (f.Some? <==> SourceKey(project, package, rev) in r.verifymd5) &&
              (f.Some? ==> f.value == r.verifymd5[SourceKey(project, package, rev)])
    ensures (rev.None? || rev == Some("")) ==>
              (f.Some? <==> SourceKey(project, package, None) in r.verifymd5) &&
              (f.Some? ==> f.value == r.verifymd5[SourceKey(project, package, None)])
  {
    var query := if rev.Some? && rev.value != "" then rev else None;
    var key := SourceKey(project, package, query);
    if key in r.verifymd5 then Some(r.verifymd5[key]) else None
  }

  /** An empty revision asks for the same sources as no revision at all: the head. */
  lemma EmptyRevisionMeansHead(r: Remote, project: string, package: string)
    ensures Fingerprint(r, project, package, Some("")) == Fingerprint(r, project, package, None)
  {
  }

  /** The fingerprint of an action's source at the revision the action names. */
  function SourceFingerprint(r: Remote, a: Action): Option<string> {
    Fingerprint(r, a.srcProject, a.srcPackage, a.srcRev)
  }

  function LinkOf(r: Remote, project: string, package: string): LinkLookup {
    if (project, package) in r.links then r.links[(project, package)] else LinkFetchFailed
  }

  function HistoryOf(r: Remote, project: string, package: string): Option<seq<Option<string>>> {
    if (project, package) in r.history then Some(r.history[(project, package)]) else None
  }

  function OpenRequestsOf(r: Remote, project: string, package: string): seq<Request> {
    if (project, package) in r.openRequests then r.openRequests[(project, package)] else []
  }

  function OwnersOf(r: Remote, package: string): seq<Owner> {
    if package in r.owners then r.owners[package] else []
  }

  /**
   * `_get_linktarget` with the missing-link case repaired: a package without
   * <linkinfo> reads like a failed fetch, `(None, None)`. Project and package are
   * present together or not at all.
   */
  function LinkTarget(l: LinkLookup): (t: (Option<string>, Option<string>))
    ensures t.0.Some? <==> t.1.Some?
    ensures t.1.Some? <==> l.LinkInfo?
    ensures l.LinkInfo? ==> t == (Some(l.project), Some(l.package))
    ensures l.NoLinkInfo? ==> t == (None, None)
  {
    match l
    case LinkInfo(prj, pkg) => (Some(prj), Some(pkg))
    case _ => (None, None)
  }

  /**
   * `_get_linktarget` as written: an HTTP error gives `(None, None)`, but a package
   * without <linkinfo> falls off the end of the function and gives `None`, which
   * no caller can unpack into two names.
   */
  function LinkTargetAsWritten(l: LinkLookup): (t: Option<(Option<string>, Option<string>)>)
    ensures t.None? <==> l.NoLinkInfo?
    ensures t.Some? ==> t.value == LinkTarget(l)
  {
    match l
    case LinkFetchFailed => Some((None, None))
    case NoLinkInfo => None
    case LinkInfo(prj, pkg) => Some((Some(prj), Some(pkg)))
  }
}
