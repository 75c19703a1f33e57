/**
 * The manual-review workflow for accounts whose primary photo looks like another account's:
 * forwarding an account to review, handing the next queued account to an admin (with its
 * candidate duplicates refreshed from the similarity search), and applying an admin's
 * decision with compensating rollbacks.
 *
 * The users store, the photo storage and the review queue are the fields of `ReviewStore`.
 * Collaborators whose work is not modelled (disabling an account, promoting a photo, purging
 * photos, extracting face embeddings, the similarity search) are given as outcome parameters.
 */
module Review {
  import opened Wrappers
  import opened Records
  import Auth
  import Webhook

  const DecisionDuplicate := "duplicate"
  const DecisionRetry := "retry"
  const DecisionNotDuplicate := "not_duplicate"

  /** How a collaborator call ended. */
  datatype Outcome = Succeeded | UserDisabled | Failed(reason: string)

  datatype SearchOutcome = Found(ids: seq<string>) | SearchFailed(reason: string)

  /** The exceptions the workflow raises. */
  datatype ReviewError =
    | UserNotFound
    | NoData
    | CandidateRequiresDuplicate            // "most similar users are only allowed with decision=duplicate"
    | InvalidDecision                       // "invalid decision"
    | AlreadyDisabled                       // a collaborator raised UserDisabled where it is not swallowed
    | CollaboratorFailed(reason: string)
    | SearchError(reason: string)
    | ComparedNone                          // TypeError: a stored `disabled_at` of None compared with 0
    | NoSimilarUser                         // IndexError: `similar_users[0]` of an empty list
    | WebhookFailed(cause: Webhook.WebhookError)
    | ForwardedToManualReview

  function Raise(o: Outcome): ReviewError
    requires !o.Succeeded?
  {
    if o.UserDisabled? then AlreadyDisabled else CollaboratorFailed(o.reason)
  }

  datatype Duplicate = Duplicate(userId: string, primaryPhoto: Photo)

  datatype UserForReview = UserForReview(
    userId: string, ip: string, retries: Nullable<int>, primaryPhoto: Option<Photo>,
    possibleDuplicates: seq<Duplicate>)

  /** `(None, 0)` or the allocated account with the queue length the store reports. */
  datatype Allocation = Allocation(user: Option<UserForReview>, queueLength: nat)

  type Users = map<string, UserRecord>
  type Photos = map<string, Photo>

  datatype Snapshot = Snapshot(users: Users, reviewPhotos: Photos, primaryPhotos: Photos, queue: seq<string>)

  // ---------------------------------------------------------------------------------------
  // The store operations the workflow calls, on values

  /** A record is on review when it has candidates, or a review count and a recorded ip. */
  function OnReview(u: UserRecord): (on: bool)
    ensures !on <==> |u.possibleDuplicateWith| == 0
                     && (u.duplicateReviewCount.Absent? || u.duplicateReviewCount.Null? || u.ip == "")
  {
    |u.possibleDuplicateWith| > 0 || (u.duplicateReviewCount.Value? && u.ip != "")
  }

  /** `user_reviewed`: records the admin and the retry flag on the account; nothing else changes. */
  function MarkReviewed(users: Users, id: string, adminId: string, retry: bool): (r: Users)
    ensures r.Keys == users.Keys
    ensures forall x :: x in users && x != id ==> r[x] == users[x]
    ensures id in users ==> r[id] == users[id].(review := Reviewed(adminId, retry))
  {
    if id in users then users[id := users[id].(review := Reviewed(adminId, retry))] else users
  }

  /** Restoring the pre-call record undoes a review mark. */
  lemma RollbackUndoesMark(users: Users, id: string, adminId: string, retry: bool)
    requires id in users
    ensures MarkReviewed(users, id, adminId, retry)[id := users[id]] == users
  {
    var r := MarkReviewed(users, id, adminId, retry)[id := users[id]];
    assert forall x :: x in r <==> x in users;
    assert forall x :: x in users ==> r[x] == users[x];
  }

  /** What disabling an account leaves in the users store: its `disabled_at` is set. */
  function Disable(users: Users, id: string, now: int): (r: Users)
    ensures r.Keys == users.Keys
    ensures forall x :: x in users && x != id ==> r[x] == users[x]
    ensures id in users ==> r[id] == users[id].(disabledAt := Value(now))
  {
    if id in users then users[id := users[id].(disabledAt := Value(now))] else users
  }

  /** The list without any occurrence of `x`. */
  function Without(s: seq<string>, x: string): (r: seq<string>)
    ensures forall y :: y in r <==> y in s && y != x
    ensures |r| <= |s|
  {
    if s == [] then []
    else if s[0] == x then Without(s[1..], x)
    else [s[0]] + Without(s[1..], x)
  }

  /** `pop_possible_duplicate_with`: the candidate leaves the account's list. */
  function DropCandidate(users: Users, id: string, candidate: string): (r: Users)
    ensures r.Keys == users.Keys
    ensures forall x :: x in users && x != id ==> r[x] == users[x]
    ensures id in users ==>
              r[id] == users[id].(possibleDuplicateWith := Without(users[id].possibleDuplicateWith, candidate))
  {
    if id in users
    then users[id := users[id].(possibleDuplicateWith := Without(users[id].possibleDuplicateWith, candidate))]
    else users
  }

  /** `add_possible_duplicate_with`: appends, in order, the ids the list does not hold yet. */
  function AddAll(a: seq<string>, b: seq<string>): (r: seq<string>)
    ensures forall x :: x in r <==> x in a || x in b
    ensures |r| >= |a| && r[..|a|] == a
    decreases |b|
  {
    if b == [] then a
    else if b[0] in a then AddAll(a, b[1..])
    else
      var r := AddAll(a + [b[0]], b[1..]);
      assert r[..|a|] == (r[..|a| + 1])[..|a|];
      r
  }

  /** Python's `list.remove(x)` guarded by `x in list`: the first occurrence goes. */
  function RemoveFirst(s: seq<string>, x: string): (r: seq<string>)
    ensures x !in s ==> r == s
    ensures x in s ==> |r| == |s| - 1
    ensures multiset(r) == multiset(s) - multiset{x}
  {
    if s == [] then s
    else
      assert s == [s[0]] + s[1..];
      if s[0] == x then s[1..] else [s[0]] + RemoveFirst(s[1..], x)
  }

  // ---------------------------------------------------------------------------------------
  // Candidate duplicates

  /** `fetch_duplicate` keeps an id whose primary photo exists and who is not disabled. */
  predicate Eligible(users: Users, primaryPhotos: Photos, id: string)
  {
    id in primaryPhotos && !(id in users && users[id].disabledAt.Value? && users[id].disabledAt.value > 0)
  }

  /** `user.get("disabled_at", 0) > 0` raises when the record stores None. */
  predicate ComparesNone(users: Users, primaryPhotos: Photos, id: string)
  {
    id in primaryPhotos && id in users && users[id].disabledAt.Null?
  }

  /** `fetch_duplicate`. */
  function FetchDuplicate(users: Users, primaryPhotos: Photos, id: string): (r: Result<Option<Duplicate>, ReviewError>)
    ensures r.Err? <==> ComparesNone(users, primaryPhotos, id)
    ensures r.Ok? ==> (r.value.Some? <==> Eligible(users, primaryPhotos, id))
    ensures r.Ok? && r.value.Some? ==> r.value.value == Duplicate(id, primaryPhotos[id])
  {
    if id !in primaryPhotos then Ok(None)
    else if id in users && users[id].disabledAt.Null? then Err(ComparedNone)
    else if id in users && users[id].disabledAt.Value? && users[id].disabledAt.value > 0 then Ok(None)
    else Ok(Some(Duplicate(id, primaryPhotos[id])))
  }

  function Ids(ds: seq<Duplicate>): (r: seq<string>)
    ensures |r| == |ds| && forall i :: 0 <= i < |ds| ==> r[i] == ds[i].userId
  {
    seq(|ds|, i requires 0 <= i < |ds| => ds[i].userId)
  }

  /**
   * `[d for id in ids if (d := fetch_duplicate(id)) is not None and id not in exclude]`:
   * every id is fetched, in order, even an excluded one.
   */
  function CollectDuplicates(users: Users, primaryPhotos: Photos, ids: seq<string>, exclude: seq<string>)
    : (r: Result<seq<Duplicate>, ReviewError>)
    ensures r.Err? <==> exists id :: id in ids && ComparesNone(users, primaryPhotos, id)
    ensures r.Ok? ==> forall id :: id in Ids(r.value) <==> id in ids && id !in exclude && Eligible(users, primaryPhotos, id)
    ensures r.Ok? ==> forall d :: d in r.value ==> d.userId in primaryPhotos && d.primaryPhoto == primaryPhotos[d.userId]
    ensures r.Ok? ==> |r.value| <= |ids|
    decreases |ids|
  {
    if ids == [] then Ok([])
    else
      match FetchDuplicate(users, primaryPhotos, ids[0])
      case Err(e) => Err(e)
      case Ok(d) =>
        match CollectDuplicates(users, primaryPhotos, ids[1..], exclude)
        case Err(e) =>
          assert forall id :: id in ids[1..] ==> id in ids;
          Err(e)
        case Ok(rest) =>
          var kept := if d.Some? && ids[0] !in exclude then [d.value] + rest else rest;
          assert forall id :: id in ids <==> id == ids[0] || id in ids[1..];
          assert Ids(kept) == (if d.Some? && ids[0] !in exclude then [ids[0]] + Ids(rest) else Ids(rest));
          Ok(kept)
  }

  /** The candidates handed to the admin, and the ids added to the stored list, if any. */
  datatype Refreshed = Refreshed(duplicates: Result<seq<Duplicate>, ReviewError>, added: Option<seq<string>>)

  /**
   * The search part of `next_user_for_review`: the account's own id leaves the results once,
   * the results that were not stored candidates and survive `fetch_duplicate` are returned,
   * and all of them are to be added to the stored list.
   */
  function Searched(users: Users, primaryPhotos: Photos, stored: seq<string>, userId: string, ids: seq<string>)
    : (r: Refreshed)
    ensures r.duplicates.Ok? <==> r.added.Some?
    ensures r.duplicates.Err? <==> exists id :: id in RemoveFirst(ids, userId) && ComparesNone(users, primaryPhotos, id)
    ensures r.added.Some? ==> r.added.value == RemoveFirst(ids, userId)
    ensures r.added.Some? ==> multiset(r.added.value) == multiset(ids) - multiset{userId}
    ensures r.added.Some? ==>
              forall id :: id in Ids(r.duplicates.value) <==>
                id in r.added.value && id !in stored && Eligible(users, primaryPhotos, id)
  {
    var extra := RemoveFirst(ids, userId);
    match CollectDuplicates(users, primaryPhotos, extra, stored)
    case Err(e) => Refreshed(Err(e), None)
    case Ok(news) => Refreshed(Ok(news), Some(extra))
  }

  /**
   * The candidate part of `next_user_for_review`: the stored candidates that survive
   * `fetch_duplicate`; only when none does, the similarity search.
   */
  function Refresh(users: Users, primaryPhotos: Photos, user: UserRecord, userId: string, search: SearchOutcome)
    : (r: Refreshed)
    ensures var existing := CollectDuplicates(users, primaryPhotos, user.possibleDuplicateWith, []);
            && (existing.Err? ==> r == Refreshed(existing, None))
            && (existing.Ok? && |existing.value| > 0 ==> r == Refreshed(existing, None))
            && (r.added.Some? ==> search.Found? && existing == Ok([]))
            && (existing == Ok([]) && search.Found? ==>
                  r == Searched(users, primaryPhotos, user.possibleDuplicateWith, userId, search.ids))
            && (existing == Ok([]) && search.SearchFailed? ==> r == Refreshed(Err(SearchError(search.reason)), None))
    ensures r.duplicates.Ok? ==> forall id :: id in Ids(r.duplicates.value) ==> Eligible(users, primaryPhotos, id)
  {
    match CollectDuplicates(users, primaryPhotos, user.possibleDuplicateWith, [])
    case Err(e) => Refreshed(Err(e), None)
    case Ok(existing) =>
      if |existing| > 0 then Refreshed(Ok(existing), None)
      else
        match search
        case SearchFailed(reason) => Refreshed(Err(SearchError(reason)), None)
        case Found(ids) => Searched(users, primaryPhotos, user.possibleDuplicateWith, userId, ids)
  }

  // ---------------------------------------------------------------------------------------
  // The review queue

  /** A queued account whose review photo is gone while its primary photo exists. */
  predicate Stale(reviewPhotos: Photos, primaryPhotos: Photos, id: string)
  {
    !Present(reviewPhotos, id) && Present(primaryPhotos, id)
  }

  /** The position of the first queued account that is not stale, or the queue's length. */
  function FirstFresh(reviewPhotos: Photos, primaryPhotos: Photos, q: seq<string>): (k: nat)
    ensures k <= |q|
    ensures forall i :: 0 <= i < k ==> Stale(reviewPhotos, primaryPhotos, q[i])
    ensures k < |q| ==> !Stale(reviewPhotos, primaryPhotos, q[k])
  {
    if q == [] || !Stale(reviewPhotos, primaryPhotos, q[0]) then 0
    else 1 + FirstFresh(reviewPhotos, primaryPhotos, q[1..])
  }

  /** Any position before which all entries are stale and at which one is not is FirstFresh's. */
  lemma {:induction false} FirstFreshIsUnique(reviewPhotos: Photos, primaryPhotos: Photos, q: seq<string>, k: nat)
    requires k <= |q|
    requires forall i :: 0 <= i < k ==> Stale(reviewPhotos, primaryPhotos, q[i])
    requires k < |q| ==> !Stale(reviewPhotos, primaryPhotos, q[k])
    ensures FirstFresh(reviewPhotos, primaryPhotos, q) == k
  {
    if k > 0 {
      assert Stale(reviewPhotos, primaryPhotos, q[0]);
      assert forall i :: 0 <= i < k - 1 ==> q[1..][i] == q[i + 1];
      FirstFreshIsUnique(reviewPhotos, primaryPhotos, q[1..], k - 1);
    }
  }

  /** Every account of `ids` marked reviewed without retry, in order. */
  function MarkAll(users: Users, ids: seq<string>, adminId: string): (r: Users)
    ensures r.Keys == users.Keys
    ensures forall x :: x in users ==>
              r[x] == if x in ids then users[x].(review := Reviewed(adminId, false)) else users[x]
  {
    if ids == [] then users
    else
      var init := ids[..|ids| - 1];
      assert forall x :: x in ids <==> x in init || x == ids[|ids| - 1];
      MarkReviewed(MarkAll(users, init, adminId), ids[|ids| - 1], adminId, false)
  }

  /** Marking one more queued account extends the run by that account. */
  lemma MarkAllStep(users: Users, q: seq<string>, k: nat, adminId: string)
    requires k < |q|
    ensures MarkAll(users, q[..k + 1], adminId) == MarkReviewed(MarkAll(users, q[..k], adminId), q[k], adminId, false)
  {
    assert q[..k + 1][..k] == q[..k];
  }

  function PhotoOf(photos: Photos, id: string): Option<Photo>
  {
    if id in photos then Some(photos[id]) else None
  }

  class ReviewStore {
    var users: Users
    var reviewPhotos: Photos
    var primaryPhotos: Photos
    var queue: seq<string>

    constructor (users: Users, reviewPhotos: Photos, primaryPhotos: Photos, queue: seq<string>)
      ensures State() == Snapshot(users, reviewPhotos, primaryPhotos, queue)
    {
      this.users := users;
      this.reviewPhotos := reviewPhotos;
      this.primaryPhotos := primaryPhotos;
      this.queue := queue;
    }

    function State(): Snapshot
      reads this
    {
      Snapshot(users, reviewPhotos, primaryPhotos, queue)
    }

    /**
     * `primary_photo_to_review`: marks the account for review, stores its photo and notifies the
     * subscriber. It never ends normally: a failed notification rolls the mark back and is
     * re-raised, a delivered one raises ForwardedToManualReview.
     */
    method PrimaryPhotoToReview(now: int, currentUser: Auth.Token, userId: string, user: UserRecord, photo: Photo,
                                similarUsers: seq<string>, ip: string, url: string,
                                network: nat -> Webhook.Transport)
      returns (err: ReviewError)
      modifies this
      ensures similarUsers == [] ==> err == NoSimilarUser && State() == old(State())
      ensures similarUsers != [] ==>
                && reviewPhotos == old(reviewPhotos)[userId := photo]
                && primaryPhotos == old(primaryPhotos)
                && var d := Webhook.CallbackDelivery(url, Some(user), network);
                   && (d.result.Raised? ==>
                         err == WebhookFailed(d.result.error) && users == old(users) && queue == old(queue))
                   && (d.result.Returned? ==>
                         && err == ForwardedToManualReview
                         && users == old(users)[userId := Lookup(old(users), userId).(
                                                  ip := ip, possibleDuplicateWith := similarUsers,
                                                  duplicateReviewCount := ReviewCount(user), review := Pending)]
                         && queue == old(queue) + [userId])
    {
      if similarUsers == [] {
        return NoSimilarUser;
      }
      var usersBefore, queueBefore := users, queue;
      // The collaborator writes the review fields into the stored record (or a new one); the
      // count is read from the caller's copy of the record.
      users := users[userId := Lookup(users, userId).(ip := ip, possibleDuplicateWith := similarUsers,
                                                      duplicateReviewCount := ReviewCount(user), review := Pending)];
      queue := queue + [userId];
      reviewPhotos := reviewPhotos[userId := photo];
      var sent, d := Webhook.Callback(url, currentUser, Some(now), None, Some(user), "", true, network);
      if d.result.Raised? {
        users, queue := usersBefore, queueBefore;
        return WebhookFailed(d.result.error);
      }
      return ForwardedToManualReview;
    }

    /**
     * `make_decision`. `candidate` is `most_similar_user_to_duplicate` ("" when not given);
     * `disable` is how disabling (`primary_photo_declined`) ends, `extract` the embedding
     * lookup or extraction, `promote` `primary_photo_passed`, `purge` the photo deletion of a retry.
     */
    method MakeDecision(now: int, adminId: string, userId: string, decision: string, candidate: string,
                        disable: Outcome, extract: Outcome, promote: Outcome, purge: Outcome)
      returns (r: Result<(), ReviewError>)
      modifies this
      ensures queue == old(queue)
      // Preconditions of the workflow: nothing changes when they fail.
      ensures userId !in old(users) ==> r == Err(UserNotFound) && State() == old(State())
      ensures userId in old(users) && !OnReview(old(users)[userId]) ==> r == Err(NoData) && State() == old(State())
      // A ruling on one candidate.
      ensures userId in old(users) && OnReview(old(users)[userId]) && candidate != "" ==>
                var listed := candidate in old(users)[userId].possibleDuplicateWith;
                && (!listed ==> r == Err(NoData) && State() == old(State()))
                && (listed && decision != DecisionDuplicate ==> r == Err(CandidateRequiresDuplicate) && State() == old(State()))
                && (listed && decision == DecisionDuplicate ==>
                      && users == DropCandidate(if disable.Succeeded? then Disable(old(users), candidate, now) else old(users),
                                                userId, candidate)
                      && reviewPhotos == old(reviewPhotos) && primaryPhotos == old(primaryPhotos)
                      && r == (if disable.Failed? then Err(CollaboratorFailed(disable.reason)) else Ok(())))
      // A terminal decision on the account itself.
      ensures userId in old(users) && OnReview(old(users)[userId]) && candidate == "" ==>
                var marked := MarkReviewed(old(users), userId, adminId, decision == DecisionRetry);
                && (!Present(old(reviewPhotos), userId) ==> r == Err(UserNotFound) && State() == old(State()))
                && (Present(old(reviewPhotos), userId) && decision == DecisionDuplicate ==>
                      && primaryPhotos == old(primaryPhotos)
                      && (disable.Succeeded? ==>
                            r == Ok(()) && users == Disable(marked, userId, now)
                            && reviewPhotos == old(reviewPhotos) - {userId})
                      && (disable.UserDisabled? ==> r == Ok(()) && users == marked && reviewPhotos == old(reviewPhotos))
                      && (disable.Failed? ==> r == Err(CollaboratorFailed(disable.reason)) && State() == old(State())))
                && (Present(old(reviewPhotos), userId) && decision == DecisionRetry ==>
                      && users == marked
                      && (purge.Succeeded? ==>
                            r == Ok(()) && reviewPhotos == old(reviewPhotos) - {userId}
                            && primaryPhotos == old(primaryPhotos) - {userId})
                      && (!purge.Succeeded? ==>
                            r == Err(Raise(purge)) && reviewPhotos == old(reviewPhotos)
                            && primaryPhotos == old(primaryPhotos)))
                && (Present(old(reviewPhotos), userId) && decision == DecisionNotDuplicate ==>
                      && (extract.Succeeded? && promote.Succeeded? ==>
                            && r == Ok(()) && users == marked
                            && primaryPhotos == old(primaryPhotos)[userId := old(reviewPhotos)[userId]]
                            && reviewPhotos == old(reviewPhotos) - {userId})
                      && (!extract.Succeeded? ==> r == Err(Raise(extract)) && State() == old(State()))
                      && (extract.Succeeded? && !promote.Succeeded? ==> r == Err(Raise(promote)) && State() == old(State())))
                && ((Present(old(reviewPhotos), userId) && decision != DecisionDuplicate && decision != DecisionRetry
                     && decision != DecisionNotDuplicate) ==> r == Err(InvalidDecision) && State() == old(State()))
    {
      if userId !in users {
        return Err(UserNotFound);
      }
      var user := users[userId];
      if !OnReview(user) {
        return Err(NoData);
      }
      if candidate != "" {
        if candidate !in user.possibleDuplicateWith {
          return Err(NoData);
        }
        if decision != DecisionDuplicate {
          return Err(CandidateRequiresDuplicate);
        }
        if disable.Succeeded? {
          users := Disable(users, candidate, now);
        }
        // The candidate goes whether or not disabling worked.
        users := DropCandidate(users, userId, candidate);
        return if disable.Failed? then Err(CollaboratorFailed(disable.reason)) else Ok(());
      }
      if !Present(reviewPhotos, userId) {
        return Err(UserNotFound);
      }
      var photo := reviewPhotos[userId];
      if decision == DecisionDuplicate {
        users := MarkReviewed(users, userId, adminId, false);
        match disable {
          case Succeeded =>
            users := Disable(users, userId, now);
            reviewPhotos := reviewPhotos - {userId};
            r := Ok(());
          case UserDisabled =>
            r := Ok(());
          case Failed(reason) =>
            RollbackUndoesMark(old(users), userId, adminId, false);
            users := users[userId := user];
            r := Err(CollaboratorFailed(reason));
        }
      } else if decision == DecisionRetry {
        users := MarkReviewed(users, userId, adminId, true);
        if !purge.Succeeded? {
          return Err(Raise(purge));
        }
        reviewPhotos := reviewPhotos - {userId};
        primaryPhotos := primaryPhotos - {userId};
        r := Ok(());
      } else if decision == DecisionNotDuplicate {
        if !extract.Succeeded? {
          // The rollback writes back the record that is still in place.
          users := users[userId := user];
          assert users == old(users);
          return Err(Raise(extract));
        }
        users := MarkReviewed(users, userId, adminId, false);
        if !promote.Succeeded? {
          RollbackUndoesMark(old(users), userId, adminId, false);
          users := users[userId := user];
          return Err(Raise(promote));
        }
        primaryPhotos := primaryPhotos[userId := photo];
        reviewPhotos := reviewPhotos - {userId};
        r := Ok(());
      } else {
        r := Err(InvalidDecision);
      }
    }

    /**
     * The stale entries at the head of the queue: each is popped and its account marked
     * reviewed without retry.
     */
    method SkipStale(adminId: string)
      modifies this
      ensures reviewPhotos == old(reviewPhotos) && primaryPhotos == old(primaryPhotos)
      ensures var k := FirstFresh(old(reviewPhotos), old(primaryPhotos), old(queue));
              queue == old(queue)[k..] && users == MarkAll(old(users), old(queue)[..k], adminId)
    {
      ghost var q0, users0 := queue, users;
      ghost var k := 0;
      while queue != [] && Stale(reviewPhotos, primaryPhotos, queue[0])
        invariant k <= |q0| && queue == q0[k..]
        invariant forall i :: 0 <= i < k ==> Stale(reviewPhotos, primaryPhotos, q0[i])
        invariant users == MarkAll(users0, q0[..k], adminId)
        invariant reviewPhotos == old(reviewPhotos) && primaryPhotos == old(primaryPhotos)
        decreases |queue|
      {
        var stale := queue[0];
        queue := queue[1..];
        MarkAllStep(users0, q0, k, adminId);
        users := MarkReviewed(users, stale, adminId, false);
        k := k + 1;
      }
      FirstFreshIsUnique(reviewPhotos, primaryPhotos, q0, k);
    }

    /**
     * `next_user_for_review`: pops the queue, marking reviewed every stale account on the way
     * (the source recurses once per stale entry; here a loop bounded by the queue's length),
     * and returns the first fresh one with its candidates refreshed.
     */
    method NextUserForReview(adminId: string, search: SearchOutcome) returns (r: Result<Allocation, ReviewError>)
      modifies this
      ensures reviewPhotos == old(reviewPhotos) && primaryPhotos == old(primaryPhotos)
      ensures var k := FirstFresh(old(reviewPhotos), old(primaryPhotos), old(queue));
              var marked := MarkAll(old(users), old(queue)[..k], adminId);
              && (k == |old(queue)| ==> r == Ok(Allocation(None, 0)) && queue == [] && users == marked)
              && (k < |old(queue)| ==>
                    var id := old(queue)[k];
                    var user := Lookup(marked, id);
                    var out := Refresh(marked, old(primaryPhotos), user, id, search);
                    && queue == old(queue)[k + 1..]
                    && users == (if out.added.Some?
                                 then marked[id := user.(possibleDuplicateWith :=
                                                           AddAll(user.possibleDuplicateWith, out.added.value))]
                                 else marked)
                    && (out.duplicates.Err? ==> r == Err(out.duplicates.error))
                    && (out.duplicates.Ok? ==>
                          r == Ok(Allocation(Some(UserForReview(id, user.ip, ReviewCount(user),
                                                                PhotoOf(old(reviewPhotos), id), out.duplicates.value)),
                                             |queue|))))
    {
      ghost var k := FirstFresh(reviewPhotos, primaryPhotos, queue);
      ghost var rest := queue[k..];
      ghost var marked := MarkAll(users, queue[..k], adminId);
      assert |rest| == |queue| - k;
      assert rest != [] ==> rest[0] == queue[k] && rest[1..] == queue[k + 1..];
      SkipStale(adminId);
      assert queue == rest && users == marked;
      r := AllocateHead(search);
    }

    /** The part of `next_user_for_review` after the stale accounts: pop the head and refresh it. */
    method AllocateHead(search: SearchOutcome) returns (r: Result<Allocation, ReviewError>)
      modifies this
      ensures reviewPhotos == old(reviewPhotos) && primaryPhotos == old(primaryPhotos)
      ensures old(queue) == [] ==> r == Ok(Allocation(None, 0)) && queue == [] && users == old(users)
      ensures old(queue) != [] ==>
                var id := old(queue)[0];
                var user := Lookup(old(users), id);
                var out := Refresh(old(users), old(primaryPhotos), user, id, search);
                && queue == old(queue)[1..]
                && users == (if out.added.Some?
                             then old(users)[id := user.(possibleDuplicateWith :=
                                                           AddAll(user.possibleDuplicateWith, out.added.value))]
                             else old(users))
                && (out.duplicates.Err? ==> r == Err(out.duplicates.error))
                && (out.duplicates.Ok? ==>
                      r == Ok(Allocation(Some(UserForReview(id, user.ip, ReviewCount(user),
                                                            PhotoOf(old(reviewPhotos), id), out.duplicates.value)),
                                         |queue|)))
    {
      if queue == [] {
        return Ok(Allocation(None, 0));
      }
      var id := queue[0];
      queue := queue[1..];
      var user := Lookup(users, id);
      var out := Refresh(users, primaryPhotos, user, id, search);
      if out.added.Some? {
        users := users[id := user.(possibleDuplicateWith := AddAll(user.possibleDuplicateWith, out.added.value))];
      }
      if out.duplicates.Err? {
        return Err(out.duplicates.error);
      }
      r := Ok(Allocation(Some(UserForReview(id, user.ip, ReviewCount(user), PhotoOf(reviewPhotos, id),
                                            out.duplicates.value)), |queue|));
    }

  }
}
