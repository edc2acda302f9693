# Review decision engine of the openSUSE source and maintenance review bots

This project models, in Dafny, the decision core of two review bots of the
openSUSE release tools:

- the factory-source bot (`Checker` in `check_source_in_factory.py`), which
  decides for each request whether its sources are already in the reference
  project (`openSUSE:Factory` by default: its head or its five newest
  revisions), or already on their way there in another open submit request.
  It then accepts (True), declines (False) or ignores (None) the request and
  concludes its own review of the request accordingly;
- the maintenance-incident bot (`MaintenanceChecker` in
  `check_maintenance_incidents.py`), which accepts maintenance incidents. It
  also asks the devel project for a review when the author is not covered by
  a package maintainer, and asks `factory-source` for a review when an
  incident targets the release project `openSUSE:CPE:SLE-12`.

Structure (one module per component):

- `Verdicts` (`verdicts.dfy`): the tri-state verdict and the loop of
  `check_one_request` that folds per-action results into one verdict. The
  decline is sticky, `continue` skips an action and `break` ends the loop
  with a decline. `Summary` is an order-free reference definition of the
  loop, and `RunIsSummary` proves that the loop computes it.
- `BuildService` (`build_service.dfy`): requests, actions, reviews and owner
  records. `Remote` holds every HTTP read the bots make as an immutable map:
  source fingerprints (`verifymd5`), link information, revision histories,
  open requests, owner search results and the answers of `add_review`. For
  source fingerprints, links and histories, a missing key stands for the
  HTTP error the bot catches at that point. The bots do not guard the reads
  of open requests and owners, so for those two maps a missing key is an
  empty answer.
- `Reviews` (`reviews.dfy`): the review records on the server, with
  `get_review_state` and `_set_review` as functions on them.
- `SourceInFactory` and `SourceInFactoryProperties` (`source_in_factory.dfy`):
  `_check_factory`, `_check_requests`, `_check_package`,
  `_get_linktarget_self` and the per-action rules of `check_one_request` as
  functions, plus the request-level properties.
- `MaintenanceIncidents` (`maintenance_incidents.dfy`): the maintainer filter,
  maintainer coverage, the package name rule, `needs_maintainer_review`, the
  sentinel rule and the reviews the bot adds.
- `Checkers` (`checker.dfy`): the class `Checker`, which holds the requests,
  the server's review records and the log of added reviews. Its methods
  (`CheckRequests`, `SetReview`, `CheckOneSourceRequest`,
  `CheckOneIncidentRequest`, …) are proved against the functions above. Dafny has no class inheritance, so the subclass `MaintenanceChecker`
  is modelled as a `Policy` of the same class: `MaintenancePolicy` replaces
  `check_one_request` and empties the review messages, as the subclass does.
  The module also has the batch-level specification (`AfterBatch`) and the
  proof that running a batch twice changes no review (`BatchIdempotent`).

Behaviour of the code worth knowing:

- A package that the reference project does not have is not automatically
  ignored. `_check_package` goes on to `_check_requests`, which declines
  when no open request carries the same sources (`NewPackageIsDeclined`).
- A release whose package is not a link into its target project is declined
  by `break`. Later actions of the request are not looked at
  (`HaltDeclinesRequest`).
- `_check_requests` compares possibly absent fingerprints. An absent source
  fingerprint therefore matches an open request whose fingerprint is also
  absent (`Option` equality in `MatchesAny`).
- For an incident action the target project passed to `_check_package` is
  unused: every check runs against the reference project under the source
  package name.
- The history oracle lists every revision oldest first. The query's
  `limit=5` returns the newest five (`HistoryWindow`). Their order does not
  affect the result.

## Model

| member | source | states |
|---|---|---|
| Verdicts.Combine | check_source_in_factory.py:117-118 | the accumulator update: the result is declined iff either side is, a None result keeps `overall`, and an undecided `overall` takes the result |
| Verdicts.RunIsSummary | check_source_in_factory.py:87-119 | the loop with `continue` and `break` equals the order-free reference: decline if any action declines or breaks, else accept if any accepts, else None |
| Verdicts.DeclineIsSticky | check_source_in_factory.py:117-118 | one declining action makes the whole request declined, wherever it stands and whatever follows |
| Verdicts.RunIgnoreIff | check_source_in_factory.py:88-119 | starting from None, the request stays None exactly when every action is skipped or yields None |
| Verdicts.RunAcceptIff | check_source_in_factory.py:88-119 | starting from None, the request is accepted exactly when some action accepts and none declines |
| Verdicts.NeutralStepIsInvisible | check_source_in_factory.py:94-118 | a skipped action or one yielding None can be removed without changing the verdict; unhandled actions do not stop their siblings |
| Verdicts.RunIgnoresOrder | check_source_in_factory.py:87-119 | two action lists with the same per-action results, in any order, get the same verdict |
| BuildService.Fingerprint | check_source_in_factory.py:188-200 | `_get_verifymd5`: a non-empty revision asks for that revision's `verifymd5`; an absent or empty revision asks for the head's; none when the read fails |
| BuildService.EmptyRevisionMeansHead | check_source_in_factory.py:190-191 | an empty revision is falsy and is not sent, so it reads the same sources as no revision at all |
| BuildService.LinkTarget | check_source_in_factory.py:209-221 | corrected link lookup: a package without linkinfo reads like a failed lookup, `(None, None)`; project and package are present together |
| BuildService.LinkTargetAsWritten | check_source_in_factory.py:209-221 | link lookup as written: `None` instead of a pair exactly when the package has no linkinfo; otherwise the same pair as the corrected lookup |
| Reviews.FirstReviewBy | check_source_in_factory.py:230-233 | the index of the first review addressed to the user, or none when no review is |
| Reviews.ReviewState | check_source_in_factory.py:224-233 | `get_review_state`: the empty string when the request is unknown or has no review by the user, else the state of the first such review |
| Reviews.ChangeReviewState | check_source_in_factory.py:79-81 | the first review by the user takes the new state and message and stays addressed to the user; every other review, of this request or any other, is unchanged |
| Reviews.SetReviewEffect | check_source_in_factory.py:70-85 | `_set_review` changes the records only with a reviewer set, outside a dry run and when the review is `new`, and then the first review by the user takes the state with the configured message or the state name; every other review is unchanged |
| Reviews.SetReviewIdempotent | check_source_in_factory.py:70-85 | after `_set_review` with any state but `new`, a second `_set_review` for the same request changes nothing |
| Reviews.SetReviewKeepsConcluded | check_source_in_factory.py:74-85 | `_set_review` never changes a review that is not in state `new` |
| SourceInFactory.HistoryWindow | check_source_in_factory.py:148 | the history query returns the newest five revisions, or all of them when there are fewer |
| SourceInFactory.InHistory | check_source_in_factory.py:156-166 | the scan finds `rev` iff some revision that has a srcmd5 carries exactly `rev` |
| SourceInFactory.CheckFactory | check_source_in_factory.py:136-166 | None iff the reference package is absent or (its head differs and its history cannot be read); True iff its head or one of the five newest revisions equals `rev`; False otherwise |
| SourceInFactory.MatchesAny | check_source_in_factory.py:172-175 | an open request matches iff one of its actions has source fingerprint `rev` |
| SourceInFactory.FirstMatchingState | check_source_in_factory.py:171-185 | none iff no open request matches; otherwise the state of the first matching request |
| SourceInFactory.FirstMatchDecides | check_source_in_factory.py:171-185 | any matching request that follows only non-matching ones is the one whose state is returned |
| SourceInFactory.CheckOpenRequests | check_source_in_factory.py:168-185 | False iff no open request carries `rev`; True iff the first one that does is `new`; None when it is in any other state |
| SourceInFactory.CheckPackageCases | check_source_in_factory.py:121-133 | accept iff the reference project or an open request accepts; decline iff the reference project does not accept and no open request matches, new packages included |
| SourceInFactory.LinkTargetSelf | check_source_in_factory.py:203-207 | a name is returned iff the package links within its own project, and it is the linked package |
| SourceInFactory.ReleaseStep | check_source_in_factory.py:93-110 | skip iff the package is `patchinfo`; halt iff the package, after following same-project links, is not a link into the action's target project; otherwise check the head sources of the original package under the linked name |
| SourceInFactory.SourceStep | check_source_in_factory.py:89-116 | a submit is `_check_package` of its source fingerprint under the target package, an incident under the source package; so either is accepted when that head has its sources; only releases skip or halt; unknown types yield None |
| SourceInFactoryProperties.SourceVerdictCases | check_source_in_factory.py:87-119 | a request is declined iff some action declines or breaks, and ignored iff every action is skipped or yields None |
| SourceInFactoryProperties.HaltDeclinesRequest | check_source_in_factory.py:103-106 | a release that is not a link into its target declines the request, whatever the actions after it are |
| SourceInFactoryProperties.NeutralActionIsInvisible | check_source_in_factory.py:93-118 | a `patchinfo` release or an action of an unhandled type leaves the request's verdict as if it were absent |
| SourceInFactoryProperties.NonLinkReleaseDeclines | check_source_in_factory.py:97-106 | a release of a package without link information is declined |
| SourceInFactoryProperties.SubmitInHistoryIsAccepted | check_source_in_factory.py:111-113 | a submit whose sources are one of the five newest revisions of the reference package, but not its head, is accepted |
| SourceInFactoryProperties.NewPackageIsDeclined | check_source_in_factory.py:121-133 | a package absent from the reference project gets None from `_check_factory` but is declined when no open request carries its sources |
| SourceInFactoryProperties.ReleaseStepAsWritten | check_source_in_factory.py:93-110 | the release branch as written raises TypeError exactly when the package is not `patchinfo` and either lookup meets a package without linkinfo: the first at line 97 (via line 205), or the second at line 102 for the followed same-project link. Otherwise it agrees with the corrected step |
| SourceInFactoryProperties.NonLinkReleaseCrashes | check_source_in_factory.py:203-221 | releasing a package without linkinfo raises TypeError as written, where the corrected step declines |
| MaintenanceIncidents.Maintainers | check_maintenance_incidents.py:48-55 | a name is listed iff some owner entry has a person of that name with role `maintainer` |
| MaintenanceIncidents.IncidentPackage | check_maintenance_incidents.py:81-84 | the checked name is the link target package when the source package links anywhere, else the source package |
| MaintenanceIncidents.IncidentPackageAsWritten | check_maintenance_incidents.py:81-84 | the lookup as written agrees with the corrected one except for packages without linkinfo |
| MaintenanceIncidents.NonLinkIncidentCrashes | check_maintenance_incidents.py:82 | for a source package without linkinfo the unpacking raises TypeError as written; corrected, the source package name is used |
| MaintenanceIncidents.IsCovered | check_maintenance_incidents.py:86-95 | `foundone` is true iff the author is a maintainer or some existing review is by a maintainer |
| MaintenanceIncidents.NeedsReviewSpec | check_maintenance_incidents.py:73-100 | `needs_maintainer_review` holds each package once, and exactly the packages of incidents that have maintainers and whose author is not covered |
| MaintenanceIncidents.IncidentVerdict | check_maintenance_incidents.py:105-115 | never a decline; accept iff the request has an incident and, when one targets the sentinel release project, the `factory-source` review was granted |
| MaintenanceIncidents.DevelReviews | check_maintenance_incidents.py:57-68 | one devel-project review per owner entry, addressed to its project and package, with the fixed message |
| Checkers.BatchIdempotent | check_source_in_factory.py:57-85 | running `check_requests` a second time over the same requests changes no review |
| Checkers.BatchSettles | check_source_in_factory.py:57-85 | after a batch, no request of it with a verdict still has a `new` review by the checker |
| Checkers.BatchKeepsConcluded | check_source_in_factory.py:70-85 | a review not in state `new` keeps its state, whatever later requests of the batch are handled |
| Checkers.SettledBatchIsNoop | check_source_in_factory.py:57-68 | a batch whose requests are all ignored or already concluded changes nothing |
| Checkers.MaintenanceMessageIsStateName | check_maintenance_incidents.py:45 | the incident bot concludes a review as `accepted` with the state name as message |
| Checkers.Checker.constructor | check_source_in_factory.py:39-46 | the default reference project is `openSUSE:Factory`, the factory-source messages are set and the incident bot's are empty |
| Checkers.Checker.SetRequestIds | check_source_in_factory.py:48-55 | the fetched requests are appended to the list to check |
| Checkers.Checker.CheckRequests | check_source_in_factory.py:57-68 | the review records become the batch specification of the old records, and the added reviews are those of every request, in order |
| Checkers.Checker.SetReview | check_source_in_factory.py:70-85 | the records become `SetReviewEffect` of the old records |
| Checkers.Checker.CheckOneRequest | check_maintenance_incidents.py:70-121 | the verdict and added reviews of the configured bot |
| Checkers.Checker.CheckOneSourceRequest | check_source_in_factory.py:87-119 | the loop with `continue` and `break` returns the verdict of the fold over the actions |
| Checkers.Checker.CheckOneIncidentRequest | check_maintenance_incidents.py:70-121 | returns `IncidentVerdict` and appends the `factory-source` review (if any) and then the devel-project reviews |
| Checkers.Checker.ScanIncidents | check_maintenance_incidents.py:74-110 | the loop's final `overall`, `add_factory_source` and `needs_maintainer_review` equal their specifications |
| Checkers.Checker.AddDevelProjectReviews | check_maintenance_incidents.py:117-119 | one `add_devel_project_review` per package, in order |
| Checkers.Checker.AddDevelProjectReview | check_maintenance_incidents.py:57-68 | appends one review per owner entry of the package |
| Checkers.Checker.AddReview | check_maintenance_incidents.py:114 | the call is recorded, and its answer is whether the server grants that review |

## Findings

| source | as written | input that shows it | evidently intended | confidence | as-written member | corrected member |
|---|---|---|---|---|---|---|
| check_source_in_factory.py:218-221 | `_get_linktarget` falls off its end and returns `None` for a package without `<linkinfo>`. Unpacking that into `prj, pkg` (line 205, and again at line 102) raises TypeError. This ends the whole batch. | a `maintenance_release` action whose source package (not `patchinfo`) exists but is not a link | read it like a failed lookup, `(None, None)`, so the action is declined as "not a link to" its target | high; not executed | SourceInFactoryProperties.NonLinkReleaseCrashes | SourceInFactoryProperties.NonLinkReleaseDeclines |
| check_maintenance_incidents.py:82 | the same `None` is unpacked into `(linkprj, linkpkg)` and raises TypeError | a `maintenance_incident` action whose source package exists but is not a link | use the source package's own name, as the comment at lines 78-80 and the check at line 83 intend | high; not executed | MaintenanceIncidents.NonLinkIncidentCrashes | MaintenanceIncidents.IncidentPackage |

The rest of the model uses the corrected lookup, `BuildService.LinkTarget`.

## Left out

- HTTP and XML transport (`http_GET`, `makeurl`, `ET.parse`, `get_request_list`, `change_review_state`'s request) is replaced by the maps of `Remote` and the review records of `Checker`. Transport errors that the bots do not catch (a failed request GET, a failed owner search, a failed request list) are not modelled. Every such read answers.
- Logging, both `CommandLineInterface` classes, option parsing, and the search query of `do_review` (and the undefined `set_request_ids_search_review`) are left out. They are configuration and output, not decisions.
- `add_review` is not defined in the files modelled. It is modelled as a recorded call whose boolean answer comes from `Remote.grantedReviews`. The review it adds to the request on the server is not modelled.
- The order in which Python iterates over the set `needs_maintainer_review` is not modelled. The model adds the packages in the order they were first found. The same reviews are added, possibly in another order.
- A `<linkinfo>` without a `project` or `package` attribute, an empty `<srcmd5/>` element in a history, and a failed `change_review_state` are not modelled.
- Checkers.Checker.CheckRequests: the TypeError of the findings, which would end the batch, is not part of the class. The class uses the corrected lookup, and the crash is modelled only by the as-written functions.
- `trellobridge.py`, `freezer.py` and `aditool.py` are not part of this model. They are network and reporting tools outside the decision engine.
