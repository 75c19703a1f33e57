/**
 * The webhook notifier: the account-updated callback and the phone-migration callback, each
 * wrapped in a constant-interval retry (at most 15 tries; only timeouts, connection failures
 * and HTTP error statuses are retried). The HTTP transport is left abstract: `network(i)` is
 * what the i-th try of the request meets (a timeout, a failed connection, or a response).
 */
module Webhook {
  import opened Wrappers
  import opened Records
  import Auth

  /** At most this many tries; backoff.constant waits 0.1 s between them, which is not modelled. */
  const MaxTries := 15

  datatype Body = NotJson | JsonObject(fields: map<string, string>)

  datatype Transport = TimedOut | ConnectionFailed | Responded(status: int, body: Body)

  /** The three `requests` exceptions that the retry policy retries; only HttpError has a response. */
  datatype RequestError = Timeout | ConnectionError | HttpError(status: int)

  /** Everything a callback can raise. */
  datatype WebhookError =
    | Request(cause: RequestError)
    | UnauthorizedFromWebhook        // 401 on the account-updated callback
    | BadRequest                     // 400 on the phone-migration callback
    | Conflict                       // 409 on the phone-migration callback
    | RateLimit                      // 429 on the phone-migration callback
    | InvalidJson                    // the phone-migration response is not JSON
    | MissingKey(name: string)       // a KeyError

  /** `raise_for_status` raises for client and server errors (section 15.5 and 15.6 of RFC 9110). */
  predicate IsErrorStatus(status: int)
  {
    400 <= status < 600
  }

  /** `_check_status_code`: the giveup predicate of the account-updated callback. */
  function CheckStatusCode(e: Option<RequestError>): (giveup: bool)
    ensures e.None? ==> !giveup
    ensures giveup <==> e.Some? && e.value.HttpError? && (e.value.status == 401 || e.value.status == 404)
  {
    match e
    case None => false
    case Some(HttpError(status)) => status == 401 || status == 404
    case Some(_) => false
  }

  /** One call of a decorated callback: it returns (a login session or None) or raises. */
  datatype CallResult = Returned(session: Option<string>) | Raised(error: WebhookError)

  /** The last call's outcome and how many calls were made. */
  datatype Delivery = Delivery(result: CallResult, tries: nat)

  /** The retry policy goes on after this outcome (unless the tries are used up). */
  predicate Retried(r: CallResult, giveupOn: bool)
  {
    r.Raised? && r.error.Request? && !(giveupOn && CheckStatusCode(Some(r.error.cause)))
  }

  /**
   * `backoff.on_exception(backoff.constant, (Timeout, ConnectionError, HTTPError), max_tries = 15)`
   * from the n-th call on (1-based); `results(i)` is the outcome of call i + 1.
   */
  function Backoff(results: nat -> CallResult, giveupOn: bool, n: nat): (d: Delivery)
    requires 1 <= n <= MaxTries
    ensures n <= d.tries <= MaxTries
    ensures d.result == results(d.tries - 1)
    ensures forall i :: n - 1 <= i < d.tries - 1 ==> Retried(results(i), giveupOn)
    ensures d.tries < MaxTries ==> !Retried(d.result, giveupOn)
    decreases MaxTries - n
  {
    var r := results(n - 1);
    if Retried(r, giveupOn) && n < MaxTries then Backoff(results, giveupOn, n + 1) else Delivery(r, n)
  }

  /** The retry loop itself: call after call until an outcome is not retried or 15 calls are made. */
  method Retry(results: nat -> CallResult, giveupOn: bool) returns (d: Delivery)
    ensures d == Backoff(results, giveupOn, 1)
  {
    var tries := 1;
    var r := results(0);
    while Retried(r, giveupOn) && tries < MaxTries
      invariant 1 <= tries <= MaxTries
      invariant r == results(tries - 1)
      invariant Backoff(results, giveupOn, tries) == Backoff(results, giveupOn, 1)
      decreases MaxTries - tries
    {
      tries := tries + 1;
      r := results(tries - 1);
    }
    d := Delivery(r, tries);
  }

  /** A run where every call is retried uses all 15 tries and raises the last error. */
  lemma ExhaustsWhenAlwaysRetried(results: nat -> CallResult, giveupOn: bool)
    requires forall i :: Retried(results(i), giveupOn)
    ensures Backoff(results, giveupOn, 1).tries == MaxTries
    ensures Backoff(results, giveupOn, 1).result == results(MaxTries - 1)
  {
    var d := Backoff(results, giveupOn, 1);
    assert Retried(results(d.tries - 1), giveupOn);
  }

  /** A run where every call raises the same retried error raises it after 15 tries. */
  lemma AlwaysRaisedExhausts(results: nat -> CallResult, giveupOn: bool, e: WebhookError)
    requires Retried(Raised(e), giveupOn)
    requires forall i: nat :: results(i) == Raised(e)
    ensures Backoff(results, giveupOn, 1) == Delivery(Raised(e), MaxTries)
  {
    ExhaustsWhenAlwaysRetried(results, giveupOn);
  }

  // ---------------------------------------------------------------------------------------
  // The account-updated callback

  /** One request of the account-updated callback, after the payload was built. */
  function AccountUpdatedAttempt(t: Transport): (r: CallResult)
    ensures r.Returned? <==> t.Responded? && !IsErrorStatus(t.status)
    ensures r.Returned? ==> r.session == None
    ensures r == Raised(UnauthorizedFromWebhook) <==> t.Responded? && t.status == 401
    ensures t.Responded? && IsErrorStatus(t.status) && t.status != 401 ==> r == Raised(Request(HttpError(t.status)))
    ensures !t.Responded? ==> r.Raised? && r.error.Request? && !r.error.cause.HttpError?
  {
    match t
    case TimedOut => Raised(Request(Timeout))
    case ConnectionFailed => Raised(Request(ConnectionError))
    case Responded(status, _) =>
      if !IsErrorStatus(status) then Returned(None)
      else if status == 401 then Raised(UnauthorizedFromWebhook)
      else Raised(Request(HttpError(status)))
  }

  function AccountUpdatedResults(network: nat -> Transport): nat -> CallResult
  {
    (i: nat) => AccountUpdatedAttempt(network(i))
  }

  /** The `disabled` flag; a record without the `disabled_at` key raises a KeyError. */
  function DisabledFlag(user: Option<UserRecord>): (r: Result<bool, WebhookError>)
    ensures r.Err? <==> user.Some? && user.value.disabledAt.Absent?
    ensures r.Ok? ==> (r.value <==> user.Some? && user.value.disabledAt.Value? && user.value.disabledAt.value > 0)
  {
    match user
    case None => Ok(false)
    case Some(u) =>
      match u.disabledAt
      case Absent => Err(MissingKey("disabled_at"))
      case Null => Ok(false)
      case Value(at) => Ok(at > 0)
  }

  /** The POST of the account-updated callback; timestamps stand for their ISO-8601 text. */
  datatype AccountUpdate = AccountUpdate(
    queryUserId: string,          // ?userId=
    bearer: Option<string>,       // Authorization: Bearer <raw token>
    metadataHeader: string,       // X-Account-Metadata
    userIdHeader: string,         // X-User-ID
    lastUpdatedAt: seq<int>,
    disabled: bool,
    potentiallyDuplicate: bool)

  /** What the decorated account-updated callback delivers. */
  function CallbackDelivery(url: string, user: Option<UserRecord>, network: nat -> Transport): Delivery
  {
    if url == "" then Delivery(Returned(None), 1)
    else if DisabledFlag(user).Err? then Delivery(Raised(DisabledFlag(user).error), 1)
    else Backoff(AccountUpdatedResults(network), true, 1)
  }

  /** A 404 ends the account-updated callback after its first request. */
  lemma CallbackGivesUpOn404(url: string, user: Option<UserRecord>, network: nat -> Transport, body: Body)
    requires url != "" && DisabledFlag(user).Ok?
    requires network(0) == Responded(404, body)
    ensures CallbackDelivery(url, user, network) == Delivery(Raised(Request(HttpError(404))), 1)
  {
    assert AccountUpdatedResults(network)(0) == Raised(Request(HttpError(404)));
  }

  /** A 401 ends it too, as UnauthorizedFromWebhook, which is not a retried exception. */
  lemma CallbackStopsOn401(url: string, user: Option<UserRecord>, network: nat -> Transport, body: Body)
    requires url != "" && DisabledFlag(user).Ok?
    requires network(0) == Responded(401, body)
    ensures CallbackDelivery(url, user, network) == Delivery(Raised(UnauthorizedFromWebhook), 1)
  {
    assert AccountUpdatedResults(network)(0) == Raised(UnauthorizedFromWebhook);
  }

  /** A subscriber that always answers 500 gets 15 requests, then the HTTPError is raised. */
  lemma CallbackExhaustsOn500(url: string, user: Option<UserRecord>, network: nat -> Transport, body: Body)
    requires url != "" && DisabledFlag(user).Ok?
    requires forall i :: network(i) == Responded(500, body)
    ensures CallbackDelivery(url, user, network) == Delivery(Raised(Request(HttpError(500))), MaxTries)
  {
    var results := AccountUpdatedResults(network);
    forall i: nat ensures results(i) == Raised(Request(HttpError(500))) {
      assert network(i) == Responded(500, body);
    }
    AlwaysRaisedExhausts(results, true, Request(HttpError(500)));
  }

  /** The `lastUpdatedAt` list: one entry per given upload time, the primary photo's first. */
  method LastUpdatedAt(primaryUploadedAt: Option<int>, secondaryUploadedAt: Option<int>) returns (ts: seq<int>)
    ensures |ts| == (if primaryUploadedAt.Some? then 1 else 0) + (if secondaryUploadedAt.Some? then 1 else 0)
    ensures primaryUploadedAt.Some? ==> ts[0] == primaryUploadedAt.value
    ensures secondaryUploadedAt.Some? ==> ts[|ts| - 1] == secondaryUploadedAt.value
  {
    ts := [];
    if primaryUploadedAt.Some? {
      ts := [primaryUploadedAt.value];
    }
    if secondaryUploadedAt.Some? {
      ts := ts + [secondaryUploadedAt.value];
    }
  }

  /**
   * `callback`: with no URL configured nothing is sent; otherwise the payload is built once
   * (the decorated function rebuilds the same one on every try) and the request is retried.
   */
  method Callback(url: string, currentUser: Auth.Token, primaryUploadedAt: Option<int>,
                  secondaryUploadedAt: Option<int>, user: Option<UserRecord>, userId: string,
                  potentiallyDuplicate: bool, network: nat -> Transport)
    returns (sent: Option<AccountUpdate>, d: Delivery)
    ensures d == CallbackDelivery(url, user, network)
    ensures sent.Some? <==> url != "" && DisabledFlag(user).Ok?
    ensures sent.Some? ==>
              var p := sent.value;
              && p.queryUserId == (if userId != "" then userId else currentUser.userId)
              && p.userIdHeader == userId
              && p.bearer == currentUser.rawToken && p.metadataHeader == currentUser.metadata
              && p.disabled == DisabledFlag(user).value
              && p.potentiallyDuplicate == potentiallyDuplicate
              && |p.lastUpdatedAt| == (if primaryUploadedAt.Some? then 1 else 0) + (if secondaryUploadedAt.Some? then 1 else 0)
              && (primaryUploadedAt.Some? ==> p.lastUpdatedAt[0] == primaryUploadedAt.value)
              && (secondaryUploadedAt.Some? ==> p.lastUpdatedAt[|p.lastUpdatedAt| - 1] == secondaryUploadedAt.value)
  {
    if url == "" {
      return None, Delivery(Returned(None), 1);
    }
    var disabled := DisabledFlag(user);
    if disabled.Err? {
      return None, Delivery(Raised(disabled.error), 1);
    }
    var lastUpdated := LastUpdatedAt(primaryUploadedAt, secondaryUploadedAt);
    var target := if userId != "" then userId else currentUser.userId;
    sent := Some(AccountUpdate(target, currentUser.rawToken, currentUser.metadata, userId,
                               lastUpdated, disabled.value, potentiallyDuplicate));
    d := Retry(AccountUpdatedResults(network), true);
  }

  // ---------------------------------------------------------------------------------------
  // The phone-migration callback

  /**
   * One request of the phone-migration callback. The body is parsed as JSON before the status
   * is checked, so a body that is not JSON raises whatever the status.
   */
  function MigrateAttempt(t: Transport): (r: CallResult)
    ensures r.Returned? <==> t.Responded? && t.body.JsonObject? && !IsErrorStatus(t.status)
                             && "loginSession" in t.body.fields
    ensures r.Returned? ==> r.session == Some(t.body.fields["loginSession"])
    ensures t.Responded? && t.body.NotJson? ==> r == Raised(InvalidJson)
    ensures t.Responded? && t.body.JsonObject? && !IsErrorStatus(t.status) && "loginSession" !in t.body.fields ==>
              r == Raised(MissingKey("loginSession"))
    ensures t.Responded? && t.body.JsonObject? ==>
              && (r == Raised(BadRequest) <==> t.status == 400)
              && (r == Raised(Conflict) <==> t.status == 409)
              && (r == Raised(RateLimit) <==> t.status == 429)
              && (IsErrorStatus(t.status) && t.status != 400 && t.status != 409 && t.status != 429
                  ==> r == Raised(Request(HttpError(t.status))))
    ensures !t.Responded? ==> r.Raised? && r.error.Request? && !r.error.cause.HttpError?
  {
    match t
    case TimedOut => Raised(Request(Timeout))
    case ConnectionFailed => Raised(Request(ConnectionError))
    case Responded(status, body) =>
      if body.NotJson? then Raised(InvalidJson)
      else if !IsErrorStatus(status) then
        (if "loginSession" in body.fields then Returned(Some(body.fields["loginSession"]))
         else Raised(MissingKey("loginSession")))
      else if status == 400 then Raised(BadRequest)
      else if status == 409 then Raised(Conflict)
      else if status == 429 then Raised(RateLimit)
      else Raised(Request(HttpError(status)))
  }

  function MigrateResults(network: nat -> Transport): nat -> CallResult
  {
    (i: nat) => MigrateAttempt(network(i))
  }

  datatype MigrationRequest = MigrationRequest(
    queryUserId: string, userIdHeader: string, email: string, deviceUniqueId: string, language: string)

  /** The phone-migration callback has no giveup predicate: a 404 or 401 is retried like a 500. */
  lemma MigrationRetries404(network: nat -> Transport, fields: map<string, string>)
    requires forall i :: network(i) == Responded(404, JsonObject(fields))
    ensures Backoff(MigrateResults(network), false, 1) == Delivery(Raised(Request(HttpError(404))), MaxTries)
  {
    var results := MigrateResults(network);
    forall i: nat ensures results(i) == Raised(Request(HttpError(404))) {
      assert network(i) == Responded(404, JsonObject(fields));
    }
    AlwaysRaisedExhausts(results, false, Request(HttpError(404)));
  }

  /** Bad request, conflict and rate limit end the loop at once, each as its own error kind. */
  lemma MigrationClassifiedStatusesStop(network: nat -> Transport, fields: map<string, string>, status: int)
    requires status == 400 || status == 409 || status == 429
    requires network(0) == Responded(status, JsonObject(fields))
    ensures var d := Backoff(MigrateResults(network), false, 1);
            d.tries == 1
            && d.result == Raised(if status == 400 then BadRequest else if status == 409 then Conflict else RateLimit)
  {
    assert MigrateResults(network)(0) == MigrateAttempt(network(0));
  }

  /** `callback_migrate_phone_login`: returns the subscriber's `loginSession` on success. */
  method CallbackMigratePhoneLogin(url: string, currentUser: Auth.Token, userId: string, network: nat -> Transport)
    returns (sent: Option<MigrationRequest>, d: Delivery)
    ensures url == "" ==> sent == None && d == Delivery(Returned(None), 1)
    ensures url != "" ==>
              && sent == Some(MigrationRequest(userId, userId, currentUser.email, currentUser.deviceUniqueId,
                                               currentUser.language))
              && d == Backoff(MigrateResults(network), false, 1)
    ensures d.result.Returned? && url != "" ==> d.result.session.Some?
  {
    if url == "" {
      return None, Delivery(Returned(None), 1);
    }
    sent := Some(MigrationRequest(userId, userId, currentUser.email, currentUser.deviceUniqueId, currentUser.language));
    d := Retry(MigrateResults(network), false);
    assert d.result == MigrateResults(network)(d.tries - 1) == MigrateAttempt(network(d.tries - 1));
  }
}
