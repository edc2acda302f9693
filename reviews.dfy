/**
 * The review records on the server and the two operations the bots perform on
 * them: reading the state of the review addressed to the bot's user
 * (`get_review_state`) and concluding that review (`_set_review`).
 */
module Reviews {
  import opened Wrappers
  import opened BuildService

  /** The reviews of each request, by request id, as the server holds them. */
  type Store = map<int, seq<Review>>

  /** Index of the first review addressed to `user`, if there is one. */
  function FirstReviewBy(reviews: seq<Review>, user: string): (k: Option<nat>)
    ensures k.Some? ==> k.value < |reviews| && reviews[k.value].byUser == Some(user)
    ensures k.Some? ==> forall j :: 0 <= j < k.value ==> reviews[j].byUser != Some(user)
    ensures k.None? ==> forall j :: 0 <= j < |reviews| ==> reviews[j].byUser != Some(user)
    decreases |reviews|
  {
    if reviews == [] then None
    else if reviews[0].byUser == Some(user) then Some(0)
    else match FirstReviewBy(reviews[1..], user)
      case None => None
      case Some(k) => Some(k + 1)
  }

  /**
   * `get_review_state`: the state of the first review addressed to `user`; the
   * empty string when the request has none (or cannot be read).
   */
  function ReviewState(store: Store, id: int, user: string): (s: string)
    ensures id !in store ==> s == ""
    ensures id in store && (forall j :: 0 <= j < |store[id]| ==> store[id][j].byUser != Some(user)) ==> s == ""
    ensures id in store && FirstReviewBy(store[id], user).Some? ==>
              s == store[id][FirstReviewBy(store[id], user).value].state
  {
    if id !in store then ""
    else match FirstReviewBy(store[id], user)
      case None => ""
      case Some(k) => store[id][k].state
  }

  /**
   * The server side of `change_review_state`: the first review addressed to
   * `user` takes the new state and message; nothing else changes.
   */
  function ChangeReviewState(store: Store, id: int, user: string, state: string, message: string): (s: Store)
    ensures s.Keys == store.Keys
    ensures forall other :: other in store && other != id ==> s[other] == store[other]
    ensures id in store ==> |s[id]| == |store[id]|
    ensures id in store && FirstReviewBy(store[id], user).Some? ==>
              ReviewState(s, id, user) == state &&
              s[id][FirstReviewBy(store[id], user).value].message == message &&
              s[id][FirstReviewBy(store[id], user).value].byUser == Some(user)
    ensures id in store ==>
              forall j :: 0 <= j < |store[id]| &&
                          (FirstReviewBy(store[id], user).None? || j != FirstReviewBy(store[id], user).value) ==>
                s[id][j] == store[id][j]
    ensures ReviewState(store, id, user) == "" ==> ReviewState(s, id, user) == "" || ReviewState(s, id, user) == state
  {
    if id !in store then store
    else match FirstReviewBy(store[id], user)
      case None => store
      case Some(k) =>
        var updated := store[id][k := store[id][k].(state := state, message := message)];
        SameUsersSameFirst(store[id], updated, user);
        store[id := updated]
  }

  /** Reviews addressed to the same users have the same first review for `user`. */
  lemma {:induction false} SameUsersSameFirst(a: seq<Review>, b: seq<Review>, user: string)
    requires |a| == |b|
    requires forall j :: 0 <= j < |a| ==> a[j].byUser == b[j].byUser
    ensures FirstReviewBy(a, user) == FirstReviewBy(b, user)
    decreases |a|
  {
    if a != [] && a[0].byUser != Some(user) {
      SameUsersSameFirst(a[1..], b[1..], user);
    }
  }

  /** The comment sent with a new state: the configured message for it, else its name. */
  function ReviewMessage(messages: map<string, string>, state: string): string {
    if state in messages then messages[state] else state
  }

  /** Whether `user` names a reviewer: Python treats both None and "" as unset. */
  predicate UserSet(user: Option<string>) {
    user.Some? && user.value != ""
  }

  /**
   * `_set_review`: with a reviewer configured and outside a dry run, a review
   * that is still `new` takes `state`; in every other case nothing changes.
   */
  function SetReviewEffect(user: Option<string>, dryrun: bool, messages: map<string, string>,
                           store: Store, id: int, state: string): (s: Store)
    ensures s.Keys == store.Keys
    ensures id in store ==> |s[id]| == |store[id]|
    ensures s != store ==> UserSet(user) && !dryrun && ReviewState(store, id, user.value) == "new"
    ensures UserSet(user) && !dryrun && ReviewState(store, id, user.value) == "new" ==>
              id in store && FirstReviewBy(store[id], user.value).Some? &&
              ReviewState(s, id, user.value) == state &&
              s[id][FirstReviewBy(store[id], user.value).value].message == ReviewMessage(messages, state) &&
              s[id][FirstReviewBy(store[id], user.value).value].state == state &&
              s[id][FirstReviewBy(store[id], user.value).value].byUser == user
    ensures forall other :: other != id && other in store ==> s[other] == store[other]
    ensures UserSet(user) && id in store ==>
              forall j :: 0 <= j < |store[id]| &&
                          (FirstReviewBy(store[id], user.value).None? || j != FirstReviewBy(store[id], user.value).value) ==>
                s[id][j] == store[id][j]
  {
    if UserSet(user) && !dryrun && ReviewState(store, id, user.value) == "new" then
      ChangeReviewState(store, id, user.value, state, ReviewMessage(messages, state))
    else store
  }

  /**
   * Re-running `_set_review` after it has concluded a review (with any state
   * other than `new`) changes nothing: a concluded review is never touched again.
   */
  lemma SetReviewIdempotent(user: Option<string>, dryrun: bool, messages: map<string, string>,
                            store: Store, id: int, state: string, again: string)
    requires state != "new"
    ensures var once := SetReviewEffect(user, dryrun, messages, store, id, state);
            SetReviewEffect(user, dryrun, messages, once, id, again) == once
  {
    var once := SetReviewEffect(user, dryrun, messages, store, id, state);
    if UserSet(user) && !dryrun && ReviewState(store, id, user.value) == "new" {
      assert ReviewState(once, id, user.value) == state;
    }
  }

  /**
   * A concluded review stays concluded: `_set_review` on any request leaves every
   * review whose state is not `new` in that state.
   */
  lemma SetReviewKeepsConcluded(user: Option<string>, dryrun: bool, messages: map<string, string>,
                                store: Store, id: int, state: string, other: int, who: string)
    requires ReviewState(store, other, who) != "new"
    ensures ReviewState(SetReviewEffect(user, dryrun, messages, store, id, state), other, who)
            == ReviewState(store, other, who)
  {
    var s := SetReviewEffect(user, dryrun, messages, store, id, state);
    if s != store && other == id && who != user.value {
      var k := FirstReviewBy(store[id], user.value).value;
      assert s[id] == store[id][k := store[id][k].(state := state, message := ReviewMessage(messages, state))];
      SameUsersSameFirst(store[id], s[id], who);
    }
  }
}
