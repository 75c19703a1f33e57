# Account review API: authentication, manual review and webhooks

A Dafny model of three decision cores of the `api/` service, a Flask backend that checks the
credentials of each request, runs a manual-review workflow for accounts whose face photo looks
like another account's, and notifies a subscriber when an account changes.

- `auth.dfy` (module `Auth`): the request guard built by `wrapped_auth_required`. It reads the
  bearer token (section 2.1 of RFC 6750). It dispatches on the JWT issuer claim (section 4.1.1
  of RFC 7519) to the service's own HS256 tokens (section 3.2 of RFC 7518) or to Firebase. It
  may rewrite the identity through a signed metadata token. Last, it checks the user id of the
  route. The phone-migration short-circuit builds an identity from headers alone. Signature and
  expiry checks are a `Decoder` parameter that yields a claims map or a rejection. `Token` is
  a class, and `ModifyWithMetadata` updates its `userId` and `metadata` fields in place. The
  pure function `Link` specifies that update.
- `webhook.dfy` (module `Webhook`): the account-updated callback and the phone-migration
  callback.
  - Each builds its payload and classifies response statuses (sections 15.5 and 15.6 of
    RFC 9110; 429 from section 4 of RFC 6585).
  - Each runs under the `backoff.on_exception` policy: a constant interval, at most 15 tries,
    and only timeouts, connection errors and HTTP errors retried. The account-updated callback
    also has a giveup predicate for 401 and 404.
  - `Backoff` is the recursive specification of that policy. `Retry` is the loop that
    implements it.
  - The network is a function `nat -> Transport`: what the i-th try meets.
- `review.dfy` (module `Review`): the manual-review state machine. `ReviewStore` is a class
  holding four fields:
  - the users store: a map to `UserRecord`;
  - the review photos;
  - the primary photos;
  - the review queue, a `seq<string>`.

  `MakeDecision`, `NextUserForReview` and `PrimaryPhotoToReview` update those fields. The
  collaborators whose work lies outside the core are outcome parameters:
  - disabling an account (`primary_photo_declined`);
  - promoting a photo (`primary_photo_passed`);
  - purging photos;
  - embedding extraction;
  - the similarity search;
  - the webhook's network.

  Disabling, promoting, purging and extraction each end `Succeeded`, `UserDisabled` or
  `Failed`. The search ends `Found(ids)` or `SearchFailed`. The network yields one `Transport`
  per try.
- `records.dfy` (module `Records`): the user record as the store keeps it. Python's "missing
  key / None / value" distinction is the datatype `Nullable`.
- `wrappers.dfy` (module `Wrappers`): `Option` and `Result`.

The code and the written description of the service differ in several places. The model
follows the code:
- A stored `disabled_at` of None makes `fetch_duplicate` raise a TypeError. The error
  propagates out of `next_user_for_review` (`ComparedNone`); the candidate is not silently
  dropped.
- The account-updated callback turns a 401 into `UnauthorizedFromWebhook`, which is not a
  retried exception. Its giveup predicate therefore matters only for 404.
- The phone-migration callback parses the body as JSON before it checks the status. A body
  that is not JSON therefore raises at once and is not retried, whatever the status.
- A terminal `duplicate` decision disables the account itself. The candidate list is only
  passed to the disabling collaborator as part of the reason. The model disables the named
  account only.
- `next_user_for_review` runs the similarity search when no stored candidate survives
  `fetch_duplicate`, not only when the stored list is empty. It returns only the search
  results that were not stored already.

## Model

| member | source | states |
|---|---|---|
| Records.ReviewCount | api/review.py:31 | a missing `duplicate_review_count` reads as 0, a stored None stays None, and a stored value is returned as it is |
| Auth.BearerPrefixStripped | api/auth.py:80-81 | a header `Bearer <t>` yields exactly the token `t` |
| Auth.ReplaceFirst | api/auth.py:81 | `replace(pat, rep, 1)`: a string that starts with the pattern has that prefix replaced. A string shorter than the pattern is unchanged. The result keeps the length, or changes it by exactly one replacement. `ReplaceFirstAt` states where the replacement happens |
| Auth.BearerToken | api/auth.py:80-81 | no Authorization header gives ""; a header `Bearer <t>` gives `t` |
| Auth.Token.IsIce | api/auth.py:42-43 | holds exactly when the provider is "ice" |
| Auth.ReplaceFirstAt | api/auth.py:81 | when the pattern first occurs at position i, the result is the text before i, then the replacement, then the text after that occurrence |
| Auth.ReplaceFirstAbsent | api/auth.py:80-81 | a header that nowhere contains `Bearer ` is taken whole as the token |
| Auth.ParseIce | api/auth.py:121-130 | succeeds iff the HS256 claims decode and hold `sub`, `email` and `role`; the identity is (sub, email, role, "ice") |
| Auth.ParseFirebase | api/auth.py:132-141 | succeeds iff the Firebase claims decode and hold `uid`; email and role default to ""; the provider is "firebase" |
| Auth.ParseBearer | api/auth.py:90-94 | issuer `ice.io/access` selects the ice parser and any other issuer the Firebase one; the provider is "ice" iff the issuer is `ice.io/access` |
| Auth.Link | api/auth.py:150-175 | an empty metadata token keeps the id. A foreign issuer fails with InvalidIssuer whatever the ids. A non-empty caller id owning none of the non-empty `sub`/`firebaseId`/`iceId` fails with NotOwner. On success the caller owns the metadata (unless its id is empty). The id is kept iff `registeredWithProvider` selects no non-empty id; otherwise it becomes that id, which is non-empty and itself an owner. Conversely, a token that decodes to metadata-issuer claims with a `sub` succeeds when the caller id is empty or owns them: Keep when no id is selected, else Rewrite to the selected id. An empty caller id skips the ownership check |
| Auth.LinkIdempotent | api/auth.py:159-173 | linking a second time with the same metadata token succeeds and leaves the id where the first link put it |
| Auth.Token.constructor | api/auth.py:29-40 | every field is set from its argument and `metadata` starts as "" |
| Auth.Token.ModifyWithMetadata | api/auth.py:150-175 | on failure the token is untouched. On success `userId` is the linked id, and `metadata` becomes the metadata token exactly when the id was rewritten. No other field changes |
| Auth.Resolve | api/auth.py:90-97 | a resolved identity is the parsed bearer identity plus the link of its id; a failure comes from parsing or from linking |
| Auth.AuthRequired | api/auth.py:45-119 | migration builds the identity from the headers and the path id, with defaults "" and false. No token gives 401 INVALID_TOKEN "Unauthorized". A parse or link failure gives 401 INVALID_TOKEN with the error. A path id that is not the linked id gives 403 OPERATION_NOT_ALLOWED. Otherwise the handler runs with the linked identity, with language and device id "" and both migration flags false, and `IsIce()` holds iff the issuer is `ice.io/access` |
| Webhook.Backoff | api/webhook.py:36-45 | between 1 and 15 tries. The delivered outcome is that of the last try. Every earlier outcome was a retried exception. Fewer than 15 tries means the last outcome was not retried |
| Webhook.Retry | api/webhook.py:36-45 | the retry loop delivers exactly what `Backoff` specifies |
| Webhook.ExhaustsWhenAlwaysRetried | api/webhook.py:36-45 | when every try raises a retried exception, all 15 tries are made and the last one's error is raised |
| Webhook.AlwaysRaisedExhausts | api/webhook.py:92-100 | a try that always raises the same retried error ends after 15 tries with that error |
| Webhook.AccountUpdatedAttempt | api/webhook.py:68-74 | a response below 400 returns. 401 raises UnauthorizedFromWebhook. Any other status from 400 to 599 re-raises the HTTPError. Timeouts and connection failures raise the retried request errors |
| Webhook.CheckStatusCode | api/webhook.py:6-10 | gives up exactly on an HTTP error whose status is 401 or 404; never when there is no error with a response |
| Webhook.DisabledFlag | api/webhook.py:52-54 | `disabled` holds iff a user is given whose `disabled_at` is neither None nor at most 0; a user without the key raises a KeyError |
| Webhook.CallbackGivesUpOn404 | api/webhook.py:6-10 | the giveup predicate stops the account-updated callback after a first 404 |
| Webhook.CallbackStopsOn401 | api/webhook.py:68-74 | a first 401 ends the account-updated callback with UnauthorizedFromWebhook after one try |
| Webhook.CallbackExhaustsOn500 | api/webhook.py:36-45 | a subscriber that always answers 500 receives 15 requests, and the HTTPError is raised |
| Webhook.LastUpdatedAt | api/webhook.py:55-59 | one entry per given upload time, so 0 to 2 entries, the primary photo's first and the secondary one's last |
| Webhook.Callback | api/webhook.py:46-74 | nothing is sent when the URL is empty or `disabled_at` is missing. The target is the explicit user id when non-empty, otherwise the caller's. `X-User-ID` is the raw user id, and the bearer and metadata headers come from the caller. `disabled` is the flag and `potentiallyDuplicate` is passed through. `lastUpdatedAt` has one entry per given timestamp, primary first. The delivery is the retried account-updated attempt |
| Webhook.MigrateAttempt | api/webhook.py:111-124 | a body that is not JSON raises at once. 400, 409 and 429 map one-to-one to BadRequest, Conflict and RateLimit. Other error statuses re-raise the HTTPError. Success returns the `loginSession`. A JSON success reply without `loginSession` raises a KeyError (`MissingKey`), which is not retried |
| Webhook.MigrationRetries404 | api/webhook.py:92-100 | with no giveup predicate, a constant 404 is retried 15 times |
| Webhook.MigrationClassifiedStatusesStop | api/webhook.py:116-122 | 400, 409 and 429 end the migration callback after one try, each as its own error kind |
| Webhook.CallbackMigratePhoneLogin | api/webhook.py:101-124 | an empty URL sends nothing. Otherwise the request carries the user id, email, device id and language, and the delivery is the retried migration attempt. A returned delivery carries a login session |
| Review.OnReview | api/review.py:65-68 | an account is not on review exactly when its candidate list is empty and its review count is missing or None, or its ip is empty |
| Review.MarkReviewed | api/review.py:92 | `user_reviewed` sets the review mark of the named account and changes no other record |
| Review.RollbackUndoesMark | api/review.py:99 | writing back the pre-call record restores the users store exactly |
| Review.Disable | api/review.py:76 | disabling sets `disabled_at` of the named account only |
| Review.Without | api/review.py:79 | the candidate list without the popped id, every other id kept |
| Review.DropCandidate | api/review.py:79 | `pop_possible_duplicate_with` removes the candidate from the named account's list and changes no other record |
| Review.AddAll | api/review.py:147 | `add_possible_duplicate_with` keeps the stored list as a prefix; the result holds exactly the ids of both lists |
| Review.RemoveFirst | api/review.py:145 | the account's own id leaves the search results once: the multiset loses one copy and nothing else |
| Review.FetchDuplicate | api/review.py:151-158 | a stored None `disabled_at` raises. Otherwise a candidate is kept iff its primary photo exists and it is not disabled, and it is kept with that photo |
| Review.CollectDuplicates | api/review.py:137 | fails iff some listed id compares None. Otherwise the kept ids are exactly the listed, non-excluded, eligible ones, each with its primary photo |
| Review.Searched | api/review.py:144-147 | the ids to store are the search results with the first copy of the account's own id removed, in order. Fetching fails exactly when one of them has a stored None `disabled_at`. Otherwise the candidates returned are exactly those ids that were not stored and are eligible |
| Review.Refresh | api/review.py:137-147 | a failure fetching the stored candidates is raised. Surviving stored candidates are returned as they are. When none survives, the search runs: a failed search is an error, and a found one gives what `Searched` gives. Only then is anything added to the stored list. Every returned candidate is eligible |
| Review.FirstFresh | api/review.py:129-136 | the position of the first queued account that is not stale; every account before it is stale |
| Review.FirstFreshIsUnique | api/review.py:129-136 | any position with only stale accounts before it and a fresh one (or the end) at it is that first fresh position |
| Review.MarkAll | api/review.py:135 | marking a run of accounts sets the review mark of exactly those accounts, without retry |
| Review.MarkAllStep | api/review.py:135-136 | marking one more stale account extends the marked run by exactly that account |
| Review.ReviewStore.PrimaryPhotoToReview | api/review.py:40-59 | an empty similar-user list raises before any change. Otherwise the review photo is stored. A failed notification restores the record and the queue and re-raises. A delivered one leaves the account marked for review and queued, and raises UserForwardedToManualReview. The stored record (a blank one if none) gets the ip, the similar users as candidates, the review count from the caller's record and a pending mark; its other fields stay |
| Review.ReviewStore.MakeDecision | api/review.py:61-121 | an unknown account, an account not on review, a candidate not listed, a candidate with a decision other than `duplicate`, a missing review photo or an unknown decision fail with no change. A candidate ruling removes the candidate whatever disabling does, and re-raises a failure. `duplicate`, `retry` and `not_duplicate` mark the account, disable it, purge it or promote its photo; a failure rolls the record back to the pre-call one, except for `retry`, which has no rollback. The queue is never touched |
| Review.ReviewStore.SkipStale | api/review.py:128-136 | pops exactly the stale accounts at the head of the queue and marks each reviewed without retry; the photos do not change |
| Review.ReviewStore.AllocateHead | api/review.py:125-149 | an empty queue gives `(None, 0)` with no change. Otherwise the head is popped and returned with its user data, its review photo, its refreshed candidates and the remaining queue length, or the refresh error is raised. The search results are added to the stored list when the search ran. The photos do not change |
| Review.ReviewStore.NextUserForReview | api/review.py:124-149 | an empty queue after the stale accounts gives `(None, 0)`. Otherwise the first fresh account is popped and returned with its refreshed candidates, its review photo and the remaining queue length. The search results are added to its stored list when the search ran |

## Left out

- `api/gunicorn.conf.py`: process hooks, metrics cleanup and background workers, which hold no
  decision logic.
- Signature, expiry and format checks of JWTs, and the Firebase SDK with its lazily created
  client (`_get_firebase_client`). These are the `Decoder` parameter.
- Flask's `request`, `current_app` and configuration. The URLs, headers and route id are
  parameters. Header names are compared exactly, not case-insensitively.
- The `X-API-Key` header of both callbacks: a configuration secret that no decision reads.
- The HTTP transport (`requests.post`, `raise_for_status`, `.json()`). A try meets a
  `Transport` value. A JSON body is a flat map from strings to strings, so a JSON value that
  is not an object is not modelled.
- The `max_time` wall-clock bound of both retry policies and the 0.1 s sleep between tries.
  Only the try count is modelled.
- The ISO-8601 formatting of nanosecond timestamps in `lastUpdatedAt`. The model keeps the
  timestamps, their number and their order.
- Face-embedding lookup and extraction, `float` coercion, distance thresholds and
  `find_similar_users`. The search is an outcome parameter, `Found(ids)` or `SearchFailed`.
- The photo storage (MinIO) and the users store beyond the keys the core reads and writes. The
  face metadata that `mark_user_for_manual_review` stores is not modelled.
- The collaborators' own effects are taken as follows:
  - `mark_user_for_manual_review` writes into the stored record (a blank one if none) the ip,
    the similar users as candidates, the review count read from the caller's record with
    default 0, and a pending review mark. It also appends the id to the queue;
  - `primary_photo_passed` only installs the review photo as the primary photo;
  - `add_possible_duplicate_with` appends to the stored list, in order, the ids it does not
    hold yet;
  - `pop_possible_duplicate_with` removes every occurrence of the candidate from the list;
  - `put_review_photo` does not fail;
  - `rollback_manual_review`, given only the id, restores the exact pre-call record and queue,
    and keeps the review photo;
  - `rollback_reviewed` writes back the pre-call record;
  - disabling sets `disabled_at` of the named account only;
  - `delete_review_photo` does not fail;
  - `delete_user_photos_and_metadata` removes both photos of the account;
  - `user_reviewed` sets only the review mark. So the candidate list is not cleared after a
    successful `not_duplicate` decision, which the written description of the service expects;
  - `allocate_review_user` reports the queue length after its pop, and its atomicity across
    admins is a property of the store.
- Review.ReviewStore.NextUserForReview: an account the store does not know is read as an empty
  record whose `ip` is "" where the service reports None. A queued id that is the empty string
  is treated like any other id, where the service would stop as on an empty queue.
- Review.ReviewStore.MakeDecision: reading the candidate's primary photo is folded into the
  outcome of disabling it. Embedding lookup and extraction are one outcome.
- Webhook.Callback: a metadata record without `uploaded_at` (a KeyError) is not modelled. Each
  metadata record is its timestamp or nothing.
- Logging and metrics calls.
