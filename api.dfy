/** The cloud API client EzvizCloudChinaApi (custom_components/ezviz_cloud/api.py).

    The network is a scripted oracle: `network(n)` is the outcome of the n-th
    HTTP exchange the client makes. Wall-clock time is an integer number of
    milliseconds that advances only when the client waits, and every wait is
    logged. The client's log `trace` records each HTTP attempt (endpoint,
    form parameters, timeout) and each wait, in order. */
module Api {
  import opened Const
  import opened Common

  const TokenUrl: string := "https://open.ys7.com/api/lapp/token/get"
  const DevicesUrl: string := "https://open.ys7.com/api/lapp/device/list"
  const StatusUrl: string := "https://open.ys7.com/api/lapp/device/scene/switch/status"
  const SetUrl: string := "https://open.ys7.com/api/lapp/device/" + SetPath
  const CaptureUrl: string := "https://open.ys7.com/api/lapp/device/capture"

  /** The path fragment that selects the short command timeout. */
  const SetPath: string := "scene/switch/set"

  /** `_retry_backoff`, in milliseconds. */
  const RetryBackoffMs: seq<nat> := [500, 1000, 2000]

  /** A token counts as expiring when fewer than 30 minutes remain. */
  const TokenMarginMs: int := 1800000

  /** The pause between setting privacy and reading it back. */
  const SetSettleMs: nat := 200

  /** Snapshot retries: one retry, after a fixed 500 ms pause. */
  const CaptureMaxRetries: nat := 1
  const CaptureRetryMs: nat := 500

  /** A form parameter value. */
  datatype Param = PStr(s: string) | PInt(i: int)

  /** What one HTTP exchange produces. `body` is the decoded JSON of `text`,
      or `None` whenever decoding the reply as JSON would raise: text that is
      not JSON, or a content type that is not a JSON one. */
  datatype Outcome =
    | Reply(status: int, contentType: string, text: string, body: Option<Json>)
    | TimedOut
    | ClientFailure

  /** One entry of the client's log. */
  datatype Event =
    | Attempt(url: string, params: map<string, Param>, timeout: int)
    | Wait(ms: nat)

  /** How `_request` reads one outcome (api.py:81-124, :126, :137). */
  datatype Verdict =
    | HttpStatusError
    | Malformed
    | ApiSuccess(data: Json)
    | ExpiredToken
    | ApiRejected
    | Timeout
    | TransportError

  // ---------------------------------------------------------------------------
  // Request set-up and classification
  // ---------------------------------------------------------------------------

  /** The timeout `_request` uses: the caller's, or 5 s for the privacy "set"
      endpoint and 8 s for everything else. */
  function RequestTimeout(url: string, timeout: Option<int>): (t: int)
    ensures timeout.Some? ==> t == timeout.value
    ensures timeout.None? ==> t == HomekitCommandTimeout || t == ApiTimeout
    ensures timeout.None? ==> (t == HomekitCommandTimeout <==> Contains(url, SetPath))
  {
    match timeout
    case Some(t) => t
    case None => if Contains(url, SetPath) then HomekitCommandTimeout else ApiTimeout
  }

  /** Without an explicit timeout, the privacy "set" call gets the short
      command timeout and the token, device-list and snapshot calls the
      ordinary one. */
  lemma DefaultTimeouts()
    ensures RequestTimeout(SetUrl, None) == HomekitCommandTimeout
    ensures RequestTimeout(TokenUrl, None) == ApiTimeout
    ensures RequestTimeout(DevicesUrl, None) == ApiTimeout
    ensures RequestTimeout(CaptureUrl, None) == ApiTimeout
  {
    SetUrlHasSetPath();
    NoSetPath(TokenUrl);
    NoSetPath(DevicesUrl);
    NoSetPath(CaptureUrl);
  }

  lemma SetUrlHasSetPath()
    ensures Contains(SetUrl, SetPath)
  {
    ContainsSuffix("https://open.ys7.com/api/lapp/device/", SetPath);
  }

  /** The token, device-list and snapshot endpoints have no 'w' in them. */
  lemma NoSetPath(url: string)
    requires url == TokenUrl || url == DevicesUrl || url == CaptureUrl
    ensures !Contains(url, SetPath)
  {
    MissingChar(url, SetPath, 'w');
  }

  /** Which verdicts `_request` retries with a backoff pause: every failure
      except an expired token on a data endpoint, which refreshes first. */
  predicate Retried(url: string, v: Verdict) {
    !v.ApiSuccess? && (url == TokenUrl || v != ExpiredToken)
  }

  /** Failures whose retry is made inside the `try` of api.py:75 (an HTTP
      error status, api.py:89, or an API error code other than the expired
      token, api.py:120), so that a failed retry is caught once more by the
      handler of api.py:148. */
  predicate Refused(v: Verdict) {
    v == HttpStatusError || v == ApiRejected
  }

  /** Failures that only a handler retries: a time-out (api.py:126), a
      client error (api.py:137) and a body that is not JSON, whose error
      raised at api.py:98 is caught at api.py:148. */
  predicate Broken(v: Verdict) {
    v == Timeout || v == TransportError || v == Malformed
  }

  /** The form parameters after `_request` has attached the token. */
  function WithToken(url: string, params: map<string, Param>, token: Option<string>): (sent: map<string, Param>)
    ensures sent.Keys == if url != TokenUrl && Truthy(token) then params.Keys + {"accessToken"} else params.Keys
    ensures url != TokenUrl && Truthy(token) ==> sent["accessToken"] == PStr(token.value)
    ensures forall k :: k in params && k != "accessToken" ==> sent[k] == params[k]
    ensures url == TokenUrl || !Truthy(token) ==> sent == params
  {
    if url != TokenUrl && Truthy(token) then params["accessToken" := PStr(token.value)] else params
  }

  /** Attaching the same token again changes nothing: a resend made while
      the token is unchanged sends what the first attempt sent. */
  lemma WithTokenTwice(url: string, params: map<string, Param>, token: Option<string>)
    ensures WithToken(url, WithToken(url, params, token), token) == WithToken(url, params, token)
  {
  }

  /** `data.get("data", {})` of a successful body. */
  function Payload(fields: map<string, Json>): (data: Json)
    ensures "data" in fields ==> data == fields["data"]
    ensures "data" !in fields ==> data == JObj(map[])
  {
    if "data" in fields then fields["data"] else JObj(map[])
  }

  function Classify(o: Outcome): (v: Verdict)
    ensures v.ApiSuccess? <==>
      o.Reply? && o.status == 200 && o.body.Some? && o.body.value.JObj? &&
      Get(o.body.value.fields, "code") == Some(JStr("200"))
    ensures v.ApiSuccess? ==> v.data == Payload(o.body.value.fields)
    ensures v == ExpiredToken <==>
      o.Reply? && o.status == 200 && o.body.Some? && o.body.value.JObj? &&
      Get(o.body.value.fields, "code") == Some(JStr("10002"))
    ensures v == HttpStatusError <==> o.Reply? && o.status != 200
    ensures v == Timeout <==> o.TimedOut?
    ensures v == TransportError <==> o.ClientFailure?
    ensures v == Malformed <==> o.Reply? && o.status == 200 && (o.body.None? || !o.body.value.JObj?)
    ensures v == ApiRejected <==>
      o.Reply? && o.status == 200 && o.body.Some? && o.body.value.JObj? &&
      Get(o.body.value.fields, "code") != Some(JStr("200")) &&
      Get(o.body.value.fields, "code") != Some(JStr("10002"))
  {
    match o
    case TimedOut => Timeout
    case ClientFailure => TransportError
    case Reply(status, _, _, body) =>
      if status != 200 then HttpStatusError
      else if body.None? || !body.value.JObj? then Malformed
      else
        var code := Get(body.value.fields, "code");
        if code == Some(JStr("200")) then ApiSuccess(Payload(body.value.fields))
        else if code == Some(JStr("10002")) then ExpiredToken
        else ApiRejected
  }

  /** `_retry_backoff[min(retry_count, len(_retry_backoff) - 1)]`. */
  function BackoffMs(retryCount: nat): (ms: nat)
    ensures ms in RetryBackoffMs
    ensures retryCount < ApiRetryAttempts ==> ms == 500 || ms == 1000
  {
    RetryBackoffMs[if retryCount < |RetryBackoffMs| - 1 then retryCount else |RetryBackoffMs| - 1]
  }

  /** The retries still allowed at a given retry counter. */
  function RetriesLeft(retryCount: nat): nat {
    if retryCount < ApiRetryAttempts then ApiRetryAttempts - retryCount else 0
  }

  // ---------------------------------------------------------------------------
  // Attempt counts
  // ---------------------------------------------------------------------------

  /** Attempts made when every attempt fails with an error whose retry sits
      inside the `try` of api.py:75, so that a failed retry is caught again
      by the handler at api.py:148 and retried once more. This is also the
      most a token request can take. */
  function NestedRetryAttempts(retryCount: nat): (n: nat)
    ensures n >= 1
    decreases RetriesLeft(retryCount)
  {
    if retryCount >= ApiRetryAttempts then 1 else 1 + 2 * NestedRetryAttempts(retryCount + 1)
  }

  /** Attempts made when every attempt times out: those retries run inside
      the handler and are not caught again. */
  function TimeoutAttempts(retryCount: nat): (n: nat)
    ensures n >= 1
    decreases RetriesLeft(retryCount)
  {
    if retryCount >= ApiRetryAttempts then 1 else 1 + TimeoutAttempts(retryCount + 1)
  }

  /** The most attempts a request to a non-token endpoint can take,
      counting the token requests made by the refresh at api.py:109. */
  function ApiRequestBound(retryCount: nat): (n: nat)
    ensures n > NestedRetryAttempts(0)
    decreases RetriesLeft(retryCount)
  {
    if retryCount >= ApiRetryAttempts then 1 + NestedRetryAttempts(0)
    else 1 + NestedRetryAttempts(0) + 2 * ApiRequestBound(retryCount + 1)
  }

  function RequestBound(url: string, retryCount: nat): (n: nat)
    ensures n >= 1
  {
    if url == TokenUrl then NestedRetryAttempts(retryCount) else ApiRequestBound(retryCount)
  }

  /** The bound for the retry made by a handler at a given counter. */
  function RetryBound(url: string, retryCount: nat): nat {
    if retryCount < ApiRetryAttempts then RequestBound(url, retryCount + 1) else 0
  }

  /** A call that sees only HTTP errors makes 7 attempts, one that sees only
      timeouts makes 3, and no call to a data endpoint makes more than 56. */
  lemma AttemptCounts()
    ensures NestedRetryAttempts(0) == 7
    ensures TimeoutAttempts(0) == 3
    ensures ApiRequestBound(0) == 56
  {
  }

  /** All waits in `trace` from position `k` on are retry backoffs. */
  ghost predicate BackoffsSince(trace: seq<Event>, k: nat) {
    forall i :: k <= i < |trace| && trace[i].Wait? ==> trace[i].ms == 500 || trace[i].ms == 1000
  }

  // ---------------------------------------------------------------------------
  // Token freshness
  // ---------------------------------------------------------------------------

  /** The test of `ensure_token_valid` (api.py:166-167): refresh when no
      token is held or the current time is past the expiry minus 30 minutes.
      A stored expiry that is not a number makes the subtraction raise. */
  function NeedsRefresh(token: Option<string>, expiresAt: Option<int>, nowMs: int): (r: Fallible<bool>)
    ensures r.Fail? <==> Truthy(token) && expiresAt.None?
    ensures r.Fail? ==> r.error == Unexpected
    ensures r == Ok(false) <==> Truthy(token) && expiresAt.Some? && nowMs <= expiresAt.value - TokenMarginMs
  {
    if !Truthy(token) then Ok(true)
    else match expiresAt
      case None => Fail(Unexpected)
      case Some(e) => Ok(nowMs > e - TokenMarginMs)
  }

  /** The test of `get_token` (api.py:177): serve the cached token when not
      forced, a token is held and the current time is before the expiry
      minus 30 minutes. */
  function ServesCached(force: bool, token: Option<string>, expiresAt: Option<int>, nowMs: int): (r: Fallible<bool>)
    ensures r.Fail? <==> !force && Truthy(token) && expiresAt.None?
    ensures r.Fail? ==> r.error == Unexpected
    ensures r == Ok(true) <==> !force && Truthy(token) && expiresAt.Some? && nowMs < expiresAt.value - TokenMarginMs
  {
    if force || !Truthy(token) then Ok(false)
    else match expiresAt
      case None => Fail(Unexpected)
      case Some(e) => Ok(nowMs < e - TokenMarginMs)
  }

  /** The two freshness tests agree except at the exact boundary: whenever
      `ensure_token_valid` decides to refresh, `get_token` does not serve the
      cached token, and at `now == expiry - 30 min` the first keeps the token
      while the second would fetch a new one. */
  lemma {:induction false} FreshnessBoundary(token: Option<string>, expiresAt: Option<int>, nowMs: int)
    ensures NeedsRefresh(token, expiresAt, nowMs) == Ok(true) ==> ServesCached(false, token, expiresAt, nowMs) == Ok(false)
    ensures NeedsRefresh(token, expiresAt, nowMs) == Ok(false) && ServesCached(false, token, expiresAt, nowMs) == Ok(false)
        <==> Truthy(token) && expiresAt.Some? && nowMs == expiresAt.value - TokenMarginMs
  {
  }

  /** `data.get("accessToken")`. A non-string value is read as absent. */
  function TokenField(fields: map<string, Json>): (t: Option<string>)
    ensures t.Some? <==> "accessToken" in fields && fields["accessToken"].JStr?
    ensures t.Some? ==> fields["accessToken"] == JStr(t.value)
  {
    if "accessToken" in fields && fields["accessToken"].JStr? then Some(fields["accessToken"].s) else None
  }

  /** `data.get("expireTime")`. A non-number value is read as absent. */
  function ExpiryField(fields: map<string, Json>): (e: Option<int>)
    ensures e.Some? <==> "expireTime" in fields && fields["expireTime"].JNum?
    ensures e.Some? ==> fields["expireTime"] == JNum(e.value)
  {
    if "expireTime" in fields && fields["expireTime"].JNum? then Some(fields["expireTime"].n) else None
  }

  /** A token request answered by `o` at once succeeds: the reply is a
      success whose data carries a non-empty string `accessToken`. */
  predicate GrantsToken(o: Outcome) {
    var v := Classify(o);
    v.ApiSuccess? && v.data.JObj? && Truthy(TokenField(v.data.fields))
  }

  // ---------------------------------------------------------------------------
  // Finding: ensure_token_valid re-acquires its own lock
  // ---------------------------------------------------------------------------

  /** One step on an asyncio.Lock, which is not reentrant. */
  datatype LockStep = Acquired | WaitsForever

  function Acquire(held: bool): (s: LockStep)
    ensures s == WaitsForever <==> held
  {
    if held then WaitsForever else Acquired
  }

  /** `ensure_token_valid` as written (api.py:159-170): it takes
      `_token_lock` and, when a refresh is due, calls `get_token`, whose first
      step (api.py:174) takes the same lock. The result is the outcome of that
      second acquisition, or `Acquired` when no refresh is attempted. */
  function EnsureTokenValidAsWritten(token: Option<string>, expiresAt: Option<int>, nowMs: int): (s: LockStep)
    ensures s == WaitsForever <==> NeedsRefresh(token, expiresAt, nowMs) == Ok(true)
  {
    var held := Acquire(false) == Acquired;
    match NeedsRefresh(token, expiresAt, nowMs)
    case Ok(true) => Acquire(held)
    case _ => Acquired
  }

  /** A call on a client that holds no token yet (one used before
      `get_token`, or one whose token was cleared by a token response without
      `accessToken`, api.py:188-192), and any call within 30 minutes of
      expiry, never returns. In the integration, whose setup fetches a token
      first, this is the first call within 30 minutes of expiry. */
  lemma EnsureTokenValidAsWrittenHangs(expiresAt: int, nowMs: int)
    ensures EnsureTokenValidAsWritten(None, Some(expiresAt), nowMs) == WaitsForever
    ensures nowMs > expiresAt - TokenMarginMs ==> EnsureTokenValidAsWritten(Some("t"), Some(expiresAt), nowMs) == WaitsForever
  {
  }

  // ---------------------------------------------------------------------------
  // Response shaping
  // ---------------------------------------------------------------------------

  /** The JSON values Python's `len` accepts. */
  predicate HasLength(j: Json) {
    j.JStr? || j.JArr? || j.JObj?
  }

  /** `get_devices` after its request (api.py:209-224): a dict holding
      `deviceInfos` gives that value, a list gives itself, anything else and
      an API error give the empty list. The debug message takes `len` of
      the result, which raises a TypeError (not caught there) when
      `deviceInfos` holds a number, a boolean or null. */
  function DeviceList(response: Fallible<Json>): (devices: Fallible<Json>)
    ensures devices.Ok? ==> HasLength(devices.value)
    ensures devices.Fail? ==> devices.error == Unexpected
    ensures response.Fail? ==> devices == Ok(JArr([]))
    ensures response.Ok? && response.value.JArr? ==> devices == response
    ensures (response.Ok? && response.value.JObj? && "deviceInfos" in response.value.fields) ==>
              (devices.Ok? <==> HasLength(response.value.fields["deviceInfos"])) &&
              (devices.Ok? ==> devices.value == response.value.fields["deviceInfos"])
    ensures (response.Ok? && !response.value.JArr? &&
             !(response.value.JObj? && "deviceInfos" in response.value.fields)) ==>
              devices == Ok(JArr([]))
  {
    match response
    case Fail(_) => Ok(JArr([]))
    case Ok(data) =>
      match data
      case JObj(f) =>
        if "deviceInfos" in f then
          (if HasLength(f["deviceInfos"]) then Ok(f["deviceInfos"]) else Fail(Unexpected))
        else Ok(JArr([]))
      case JArr(_) => Ok(data)
      case _ => Ok(JArr([]))
  }

  /** `data.get("enable") == 1`; Python's `True == 1` makes a boolean true
      count as well. */
  predicate EnableIsOne(v: Option<Json>) {
    v == Some(JNum(1)) || v == Some(JBool(true))
  }

  /** `get_privacy_status` after its request (api.py:245-254): an API error
      reads as "off"; a payload that is not a dict makes `.get` raise an
      error that is not an API error. */
  function PrivacyFromResponse(response: Fallible<Json>): (status: Fallible<bool>)
    ensures status != Fail(ApiError)
    ensures response.Fail? ==> status == Ok(false)
    ensures status == Ok(true) <==> response.Ok? && response.value.JObj? && EnableIsOne(Get(response.value.fields, "enable"))
    ensures status.Fail? <==> response.Ok? && !response.value.JObj?
  {
    match response
    case Fail(_) => Ok(false)
    case Ok(data) =>
      match data
      case JObj(f) => Ok(EnableIsOne(Get(f, "enable")))
      case _ => Fail(Unexpected)
  }

  /** The `enable` form value of `set_privacy` (api.py:262). */
  function EnableFlag(enable: bool): (flag: int)
    ensures flag == 0 || flag == 1
    ensures flag == 1 <==> enable
  {
    if enable then 1 else 0
  }

  /** A device that stores the flag it was sent reads back the state that
      was set. */
  lemma EnableRoundTrip(enable: bool)
    ensures PrivacyFromResponse(Ok(JObj(map["enable" := JNum(EnableFlag(enable))]))) == Ok(enable)
  {
  }

  /** `set_privacy` after its set request (api.py:266-297): success iff the
      set request did not raise; the read-back only decides which message
      is logged. */
  function SetPrivacyResult(setResponse: Fallible<Json>, verification: Fallible<bool>, enable: bool): (ok: bool)
    ensures ok <==> setResponse.Ok?
  {
    match setResponse
    case Fail(_) => false
    case Ok(_) =>
      // a matching read, a mismatching read and a read that raises all
      // return True (api.py:280-290)
      true
  }

  /** The form parameters of a snapshot request. The source writes them into
      the query string; `{None}` formats as "None". */
  function CaptureQuery(token: Option<string>, serial: string, channel: int): map<string, Param> {
    map["accessToken" := PStr(if token.Some? then token.value else "None"),
        "deviceSerial" := PStr(serial),
        "channelNo" := PInt(channel)]
  }

  /** A snapshot request carries exactly three parameters: the token, or
      "None" without one, the serial and the channel. (Kept apart from
      `CaptureQuery` so that the snapshot loop's proofs do not carry it.) */
  lemma CaptureQueryFields(token: Option<string>, serial: string, channel: int)
    ensures CaptureQuery(token, serial, channel).Keys == {"accessToken", "deviceSerial", "channelNo"}
    ensures CaptureQuery(token, serial, channel)["accessToken"] == PStr(if token.Some? then token.value else "None")
    ensures CaptureQuery(token, serial, channel)["deviceSerial"] == PStr(serial)
    ensures CaptureQuery(token, serial, channel)["channelNo"] == PInt(channel)
  {
  }

  /** A reply with status 200 (api.py:315). */
  predicate Is200(o: Outcome) {
    o.Reply? && o.status == 200
  }

  /** A snapshot reply that `get_device_capture` returns: status 200 and a
      content type mentioning "image" (api.py:315, :328-331). */
  predicate IsImage(o: Outcome) {
    o.Reply? && o.status == 200 && Contains(o.contentType, "image")
  }

  /** A 200 snapshot reply that is no image but mentions "10002", the
      expired-token code (api.py:336). */
  predicate AsksRefresh(o: Outcome) {
    Is200(o) && !IsImage(o) && Contains(o.text, "10002")
  }

  /** A 200 snapshot reply that is no image and does not mention "10002". */
  predicate Rejects(o: Outcome) {
    Is200(o) && !IsImage(o) && !Contains(o.text, "10002")
  }

  /** The token a token reply hands out, if it grants one. */
  function GrantedToken(o: Outcome): Option<string> {
    if GrantsToken(o) then TokenField(Classify(o).data.fields) else None
  }

  // ---------------------------------------------------------------------------
  // The client
  // ---------------------------------------------------------------------------

  class Client {
    const appKey: string
    const appSecret: string
    /** The cloud service: the outcome of the n-th HTTP exchange. */
    const network: nat -> Outcome

    var accessToken: Option<string>
    var tokenExpiresAt: Option<int>
    /** `_token_lock`, held or not. */
    var tokenLockHeld: bool
    /** `time.time()` in milliseconds. */
    var clockMs: int
    /** HTTP exchanges made so far; the next one is `network(attempts)`. */
    var attempts: nat
    ghost var trace: seq<Event>

    constructor (appKey: string, appSecret: string, network: nat -> Outcome, clockMs: int)
      ensures this.appKey == appKey && this.appSecret == appSecret && this.network == network
      ensures this.clockMs == clockMs
      ensures accessToken == None && tokenExpiresAt == Some(0) && !tokenLockHeld
      ensures attempts == 0 && trace == []
    {
      this.appKey := appKey;
      this.appSecret := appSecret;
      this.network := network;
      this.clockMs := clockMs;
      accessToken := None;
      tokenExpiresAt := Some(0);
      tokenLockHeld := false;
      attempts := 0;
      trace := [];
    }

    /** Every exchange from the k-th on is refused. */
    ghost predicate AllRefusedFrom(k: nat) {
      forall i: nat :: k <= i ==> Refused(Classify(network(i)))
    }

    /** A run of refusals from exchange k on is one from every later
        exchange on. */
    lemma RefusedLater(k: nat, m: nat)
      requires k <= m && AllRefusedFrom(k)
      ensures AllRefusedFrom(m)
    {
    }

    /** Every exchange from the k-th on is broken. */
    ghost predicate AllBrokenFrom(k: nat) {
      forall i: nat :: k <= i ==> Broken(Classify(network(i)))
    }

    /** No exchange from the k-th on reports an expired token. */
    ghost predicate NoExpiryFrom(k: nat) {
      forall i: nat :: k <= i ==> Classify(network(i)) != ExpiredToken
    }

    /** None of the exchanges numbered from a up to, not including, b
        succeeded. */
    ghost predicate NoneSucceeded(a: int, b: int) {
      forall i: nat :: a <= i < b ==> !Classify(network(i)).ApiSuccess?
    }

    /** A failed exchange followed by a run of failed ones is a run. */
    lemma NoneSucceededFrom(a: nat, b: int)
      requires !Classify(network(a)).ApiSuccess? && NoneSucceeded(a + 1, b)
      ensures NoneSucceeded(a, b)
    {
    }

    /** One HTTP exchange. */
    method Exchange(url: string, params: map<string, Param>, timeout: int) returns (o: Outcome)
      modifies this
      ensures o == network(old(attempts)) && attempts == old(attempts) + 1
      ensures trace == old(trace) + [Attempt(url, params, timeout)]
      ensures accessToken == old(accessToken) && tokenExpiresAt == old(tokenExpiresAt)
      ensures tokenLockHeld == old(tokenLockHeld) && clockMs == old(clockMs)
    {
      o := network(attempts);
      attempts := attempts + 1;
      trace := trace + [Attempt(url, params, timeout)];
    }

    /** `asyncio.sleep`. */
    method Pause(ms: nat)
      modifies this
      ensures trace == old(trace) + [Wait(ms)] && clockMs == old(clockMs) + ms
      ensures attempts == old(attempts)
      ensures accessToken == old(accessToken) && tokenExpiresAt == old(tokenExpiresAt)
      ensures tokenLockHeld == old(tokenLockHeld)
    {
      clockMs := clockMs + ms;
      trace := trace + [Wait(ms)];
    }

    /** The last exchange made succeeded, and `data` is its payload. */
    ghost predicate LastSucceededWith(data: Json)
      reads this
    {
      attempts > 0 && Classify(network(attempts - 1)) == ApiSuccess(data)
    }

    /** The last exchange made did not succeed. */
    ghost predicate LastFailed()
      reads this
    {
      attempts > 0 && !Classify(network(attempts - 1)).ApiSuccess?
    }

    /** `_request` (api.py:48-157). `params` is the caller's dict, passed
        by value: each call attaches the token it holds to its own copy, and
        the retries of this call resend that copy. */
    method Request(url: string, params: map<string, Param>, retryCount: nat, timeout: Option<int>)
      returns (r: Fallible<Json>)
      requires url != TokenUrl ==> !tokenLockHeld
      modifies this
      decreases if url == TokenUrl then 0 else 3, RetriesLeft(retryCount), 4
      ensures tokenLockHeld == old(tokenLockHeld) && clockMs >= old(clockMs)
      ensures old(trace) <= trace && BackoffsSince(trace, |old(trace)|)
      ensures old(attempts) < attempts <= old(attempts) + RequestBound(url, retryCount)
      // a token request leaves the stored token alone
      ensures url == TokenUrl ==> accessToken == old(accessToken) && tokenExpiresAt == old(tokenExpiresAt)
      ensures url == TokenUrl && r.Fail? ==> LastFailed()
      // the first attempt carries the token held on entry and the chosen timeout
      ensures |trace| > |old(trace)|
      ensures trace[|old(trace)|] == Attempt(url, WithToken(url, params, old(accessToken)), RequestTimeout(url, timeout))
      // a value is returned only from a successful body, and it is that body's data
      ensures r.Ok? ==> LastSucceededWith(r.value)
      ensures r.Fail? ==> r.error == ApiError
      ensures Classify(network(old(attempts))).ApiSuccess? ==>
                (r == Ok(Classify(network(old(attempts))).data) &&
                 attempts == old(attempts) + 1 && |trace| == |old(trace)| + 1)
      // an expired token on a data endpoint is refreshed at once, without a pause
      ensures (url != TokenUrl && Classify(network(old(attempts))) == ExpiredToken) ==>
                (|trace| > |old(trace)| + 1 && trace[|old(trace)| + 1].Attempt? &&
                 trace[|old(trace)| + 1].url == TokenUrl)
      // any other failure pauses for the backoff before retrying, while retries remain
      ensures (Retried(url, Classify(network(old(attempts)))) && retryCount < ApiRetryAttempts) ==>
                (|trace| > |old(trace)| + 1 && trace[|old(trace)| + 1] == Wait(BackoffMs(retryCount)))
      // then sends the same request again, and a success of that retry is the result
      ensures (Retried(url, Classify(network(old(attempts)))) && retryCount < ApiRetryAttempts) ==>
                (|trace| > |old(trace)| + 2 &&
                 trace[|old(trace)| + 2] == Attempt(url, WithToken(url, params, old(accessToken)), RequestTimeout(url, timeout)))
      ensures (Retried(url, Classify(network(old(attempts)))) && retryCount < ApiRetryAttempts &&
               Classify(network(old(attempts) + 1)).ApiSuccess?) ==>
                r == Ok(Classify(network(old(attempts) + 1)).data)
      // and raises after that one attempt once they are spent
      ensures (Retried(url, Classify(network(old(attempts)))) && retryCount >= ApiRetryAttempts) ==>
                (r.Fail? && attempts == old(attempts) + 1 && |trace| == |old(trace)| + 1)
      ensures AllRefusedFrom(old(attempts)) ==>
                (r.Fail? && attempts == old(attempts) + NestedRetryAttempts(retryCount))
      ensures AllBrokenFrom(old(attempts)) ==>
                (r.Fail? && attempts == old(attempts) + TimeoutAttempts(retryCount))
      // with no expired token ahead, the result is a success exactly when
      // one of the attempts made succeeded, and that one is the last
      ensures (url == TokenUrl || NoExpiryFrom(old(attempts))) ==>
                if r.Ok? then old(attempts) < attempts && NoneSucceeded(old(attempts), attempts - 1)
                else NoneSucceeded(old(attempts), attempts)
    {
      var t := RequestTimeout(url, timeout);
      var sent := WithToken(url, params, accessToken);
      WithTokenTwice(url, params, accessToken);
      var outcome := Exchange(url, sent, t);
      r := HandleOutcome(url, sent, retryCount, t, Classify(outcome));
      if !Classify(outcome).ApiSuccess? && (url == TokenUrl || NoExpiryFrom(old(attempts))) {
        NoneSucceededFrom(old(attempts), if r.Ok? then attempts - 1 else attempts);
      }
    }

    /** What `_request` does with the outcome of its exchange (api.py:79-157):
        a success returns its payload, an expired token on a data endpoint
        is refreshed, anything else is retried. `params` is the dict as
        sent, token included. */
    method HandleOutcome(url: string, params: map<string, Param>, retryCount: nat, timeout: int, verdict: Verdict)
      returns (r: Fallible<Json>)
      requires url != TokenUrl ==> !tokenLockHeld
      requires attempts > 0 && verdict == Classify(network(attempts - 1))
      modifies this
      decreases if url == TokenUrl then 0 else 3, RetriesLeft(retryCount), 3
      ensures tokenLockHeld == old(tokenLockHeld) && clockMs >= old(clockMs)
      ensures old(trace) <= trace && BackoffsSince(trace, |old(trace)|)
      ensures old(attempts) <= attempts < old(attempts) + RequestBound(url, retryCount)
      ensures url == TokenUrl ==> accessToken == old(accessToken) && tokenExpiresAt == old(tokenExpiresAt)
      ensures url == TokenUrl && r.Fail? ==> LastFailed()
      ensures r.Ok? ==> LastSucceededWith(r.value)
      ensures r.Fail? ==> r.error == ApiError
      ensures verdict.ApiSuccess? ==> r == Ok(verdict.data) && attempts == old(attempts) && |trace| == |old(trace)|
      ensures (url != TokenUrl && verdict == ExpiredToken) ==>
                (|trace| > |old(trace)| && trace[|old(trace)|].Attempt? && trace[|old(trace)|].url == TokenUrl)
      ensures (Retried(url, verdict) && retryCount < ApiRetryAttempts) ==>
                (|trace| > |old(trace)| + 1 && trace[|old(trace)|] == Wait(BackoffMs(retryCount)) &&
                 trace[|old(trace)| + 1] == Attempt(url, WithToken(url, params, old(accessToken)), timeout))
      ensures (Retried(url, verdict) && retryCount < ApiRetryAttempts && Classify(network(old(attempts))).ApiSuccess?) ==>
                r == Ok(Classify(network(old(attempts))).data)
      ensures (Retried(url, verdict) && retryCount >= ApiRetryAttempts) ==>
                (r.Fail? && attempts == old(attempts) && |trace| == |old(trace)|)
      ensures (Refused(verdict) && AllRefusedFrom(old(attempts))) ==>
                (r.Fail? && attempts + 1 == old(attempts) + NestedRetryAttempts(retryCount))
      ensures (Broken(verdict) && AllBrokenFrom(old(attempts))) ==>
                (r.Fail? && attempts + 1 == old(attempts) + TimeoutAttempts(retryCount))
      // with no expired token ahead, the later attempts relay a success in
      // the same way
      ensures (url == TokenUrl || (verdict != ExpiredToken && NoExpiryFrom(old(attempts)))) ==>
                if r.Ok? then NoneSucceeded(old(attempts), attempts - 1)
                else NoneSucceeded(old(attempts), attempts)
    {
      if verdict.ApiSuccess? {
        r := Ok(verdict.data);
      } else if Broken(verdict) {
        // the handlers of api.py:126 and :137; the error raised at api.py:98
        // is caught at api.py:148
        r := RetryOrRaise(url, params, retryCount, timeout);
      } else if verdict == ExpiredToken && url != TokenUrl {
        r := RefreshAndRetry(url, params, retryCount, timeout);
      } else {
        // an HTTP error, or an API error other than an expired token on a
        // data endpoint: the retry at api.py:89 or :120
        r := RetryNested(url, params, retryCount, timeout);
      }
    }

    /** `_request` as the token request and the endpoint methods call it:
        retry counter 0, and only the facts those callers rely on. */
    method Post(url: string, params: map<string, Param>, timeout: Option<int>) returns (r: Fallible<Json>)
      requires url != TokenUrl ==> !tokenLockHeld
      modifies this
      decreases if url == TokenUrl then 0 else 3, RetriesLeft(0), 5
      ensures tokenLockHeld == old(tokenLockHeld) && clockMs >= old(clockMs)
      ensures old(trace) <= trace && BackoffsSince(trace, |old(trace)|)
      ensures old(attempts) < attempts <= old(attempts) + RequestBound(url, 0)
      ensures url == TokenUrl ==> accessToken == old(accessToken) && tokenExpiresAt == old(tokenExpiresAt)
      ensures url == TokenUrl && r.Fail? ==> LastFailed()
      ensures |trace| > |old(trace)|
      ensures trace[|old(trace)|] == Attempt(url, WithToken(url, params, old(accessToken)), RequestTimeout(url, timeout))
      ensures r.Ok? ==> LastSucceededWith(r.value)
      ensures r.Fail? ==> r.error == ApiError
      ensures Classify(network(old(attempts))).ApiSuccess? ==>
                (r == Ok(Classify(network(old(attempts))).data) &&
                 attempts == old(attempts) + 1 && |trace| == |old(trace)| + 1)
      ensures AllRefusedFrom(old(attempts)) ==> r.Fail? && attempts == old(attempts) + NestedRetryAttempts(0)
      ensures AllBrokenFrom(old(attempts)) ==> r.Fail? && attempts == old(attempts) + TimeoutAttempts(0)
      // with no expired token ahead, the result is a success exactly when
      // one of the attempts made succeeded, and that one is the last
      ensures (url == TokenUrl || NoExpiryFrom(old(attempts))) ==>
                if r.Ok? then old(attempts) < attempts && NoneSucceeded(old(attempts), attempts - 1)
                else NoneSucceeded(old(attempts), attempts)
    {
      r := Request(url, params, 0, timeout);
    }

    /** The three handlers of api.py:126-157, which act alike: while
        retries remain, pause for the backoff and call again with the
        counter raised; otherwise raise. */
    method RetryOrRaise(url: string, params: map<string, Param>, retryCount: nat, timeout: int)
      returns (r: Fallible<Json>)
      requires url != TokenUrl ==> !tokenLockHeld
      requires url == TokenUrl ==> LastFailed()
      modifies this
      decreases if url == TokenUrl then 0 else 3, RetriesLeft(retryCount), 0
      ensures tokenLockHeld == old(tokenLockHeld) && clockMs >= old(clockMs)
      ensures old(trace) <= trace && BackoffsSince(trace, |old(trace)|)
      ensures old(attempts) <= attempts <= old(attempts) + RetryBound(url, retryCount)
      ensures url == TokenUrl ==> accessToken == old(accessToken) && tokenExpiresAt == old(tokenExpiresAt)
      ensures url == TokenUrl && r.Fail? ==> LastFailed()
      ensures r.Ok? ==> LastSucceededWith(r.value)
      ensures r.Fail? ==> r.error == ApiError
      ensures retryCount < ApiRetryAttempts ==>
                (|trace| > |old(trace)| && trace[|old(trace)|] == Wait(BackoffMs(retryCount)))
      // the retry resends the same request, and its success is the result
      ensures retryCount < ApiRetryAttempts ==>
                (|trace| > |old(trace)| + 1 &&
                 trace[|old(trace)| + 1] == Attempt(url, WithToken(url, params, old(accessToken)), timeout))
      ensures retryCount < ApiRetryAttempts && Classify(network(old(attempts))).ApiSuccess? ==>
                (r == Ok(Classify(network(old(attempts))).data) && attempts == old(attempts) + 1)
      ensures retryCount >= ApiRetryAttempts ==>
                (r.Fail? && trace == old(trace) && attempts == old(attempts))
      ensures AllRefusedFrom(old(attempts)) ==>
                (r.Fail? && attempts == old(attempts) + (if retryCount < ApiRetryAttempts then NestedRetryAttempts(retryCount + 1) else 0))
      ensures AllBrokenFrom(old(attempts)) ==>
                (r.Fail? && attempts == old(attempts) + (if retryCount < ApiRetryAttempts then TimeoutAttempts(retryCount + 1) else 0))
      // with no expired token ahead, the result is a success exactly when
      // one of the attempts made succeeded, and that one is the last
      ensures (url == TokenUrl || NoExpiryFrom(old(attempts))) ==>
                if r.Ok? then old(attempts) < attempts && NoneSucceeded(old(attempts), attempts - 1)
                else NoneSucceeded(old(attempts), attempts)
    {
      if retryCount < ApiRetryAttempts {
        Pause(BackoffMs(retryCount));
        r := Request(url, params, retryCount + 1, Some(timeout));
      } else {
        r := Fail(ApiError);
      }
    }

    /** A retry made inside the `try` of api.py:75 (at api.py:89, :113 and
        :120): when it fails, its error is caught by the handler at
        api.py:148 of the same call, which retries once more. */
    method RetryNested(url: string, params: map<string, Param>, retryCount: nat, timeout: int)
      returns (r: Fallible<Json>)
      requires url != TokenUrl ==> !tokenLockHeld
      requires url == TokenUrl ==> LastFailed()
      modifies this
      decreases if url == TokenUrl then 0 else 3, RetriesLeft(retryCount), 1
      ensures tokenLockHeld == old(tokenLockHeld) && clockMs >= old(clockMs)
      ensures old(trace) <= trace && BackoffsSince(trace, |old(trace)|)
      ensures old(attempts) <= attempts <= old(attempts) + 2 * RetryBound(url, retryCount)
      ensures url == TokenUrl ==> accessToken == old(accessToken) && tokenExpiresAt == old(tokenExpiresAt)
      ensures url == TokenUrl && r.Fail? ==> LastFailed()
      ensures r.Ok? ==> LastSucceededWith(r.value)
      ensures r.Fail? ==> r.error == ApiError
      ensures retryCount < ApiRetryAttempts ==>
                (|trace| > |old(trace)| && trace[|old(trace)|] == Wait(BackoffMs(retryCount)))
      ensures retryCount < ApiRetryAttempts ==>
                (|trace| > |old(trace)| + 1 &&
                 trace[|old(trace)| + 1] == Attempt(url, WithToken(url, params, old(accessToken)), timeout))
      // a retry that succeeds is returned, and the handler does not run again
      ensures retryCount < ApiRetryAttempts && Classify(network(old(attempts))).ApiSuccess? ==>
                (r == Ok(Classify(network(old(attempts))).data) && attempts == old(attempts) + 1)
      ensures retryCount >= ApiRetryAttempts ==>
                (r.Fail? && trace == old(trace) && attempts == old(attempts))
      ensures AllRefusedFrom(old(attempts)) ==>
                (r.Fail? && attempts == old(attempts) + (if retryCount < ApiRetryAttempts then 2 * NestedRetryAttempts(retryCount + 1) else 0))
      // with no expired token ahead, the result is a success exactly when
      // one of the attempts made succeeded, and that one is the last
      ensures (url == TokenUrl || NoExpiryFrom(old(attempts))) ==>
                if r.Ok? then old(attempts) < attempts && NoneSucceeded(old(attempts), attempts - 1)
                else NoneSucceeded(old(attempts), attempts)
    {
      r := RetryOrRaise(url, params, retryCount, timeout);
      if r.Fail? {
        r := RetryOrRaise(url, params, retryCount, timeout);
      }
    }

    /** The expired-token branch (api.py:106-113): a forced refresh, then a
        retry without a pause while retries remain; a failed refresh or a
        failed retry is caught at api.py:148. */
    method RefreshAndRetry(url: string, params: map<string, Param>, retryCount: nat, timeout: int)
      returns (r: Fallible<Json>)
      requires url != TokenUrl && !tokenLockHeld
      modifies this
      decreases 3, RetriesLeft(retryCount), 2
      ensures !tokenLockHeld && clockMs >= old(clockMs)
      ensures old(trace) <= trace && BackoffsSince(trace, |old(trace)|)
      ensures old(attempts) < attempts <= old(attempts) + NestedRetryAttempts(0) + 2 * RetryBound(url, retryCount)
      ensures |trace| > |old(trace)| && trace[|old(trace)|].Attempt? && trace[|old(trace)|].url == TokenUrl
      // a refresh granted at once is followed by the retry, with the new
      // token and no pause in between
      ensures GrantsToken(network(old(attempts))) && retryCount < ApiRetryAttempts ==>
                |trace| > |old(trace)| + 1 &&
                trace[|old(trace)| + 1] ==
                  Attempt(url, WithToken(url, params, TokenField(Classify(network(old(attempts))).data.fields)), timeout)
      // and a success of that retry is the result
      ensures GrantsToken(network(old(attempts))) && retryCount < ApiRetryAttempts &&
              Classify(network(old(attempts) + 1)).ApiSuccess? ==>
                r == Ok(Classify(network(old(attempts) + 1)).data)
      // a failed refresh, and a failed retry, fall back to the handler of
      // api.py:148, which pauses and retries once more
      ensures AllRefusedFrom(old(attempts)) ==>
                r.Fail? &&
                attempts == old(attempts) + NestedRetryAttempts(0) +
                            (if retryCount < ApiRetryAttempts then NestedRetryAttempts(retryCount + 1) else 0)
      ensures GrantsToken(network(old(attempts))) && retryCount < ApiRetryAttempts && AllRefusedFrom(old(attempts) + 1) ==>
                r.Fail? && attempts == old(attempts) + 1 + 2 * NestedRetryAttempts(retryCount + 1)
      // with the token granted at once and no expired token after it, the
      // result is a success exactly when one of the later attempts succeeded
      ensures GrantsToken(network(old(attempts))) && NoExpiryFrom(old(attempts) + 1) ==>
                if r.Ok? then old(attempts) + 1 < attempts && NoneSucceeded(old(attempts) + 1, attempts - 1)
                else NoneSucceeded(old(attempts) + 1, attempts)
      ensures r.Ok? ==> LastSucceededWith(r.value)
      ensures r.Fail? ==> r.error == ApiError
    {
      ghost var start := attempts;
      var refreshed := ForceRefresh();
      if AllRefusedFrom(start) {
        RefusedLater(start, attempts);
      }
      r := RetryAfterRefresh(url, params, retryCount, timeout, refreshed.Ok?);
    }

    /** What follows the forced refresh of api.py:109: the retry while
        retries remain and the refresh succeeded (api.py:111-113), and the
        handler of api.py:148 when the refresh or the retry failed. */
    method RetryAfterRefresh(url: string, params: map<string, Param>, retryCount: nat, timeout: int, refreshed: bool)
      returns (r: Fallible<Json>)
      requires url != TokenUrl && !tokenLockHeld
      modifies this
      decreases 3, RetriesLeft(retryCount), 1
      ensures !tokenLockHeld && clockMs >= old(clockMs)
      ensures old(trace) <= trace && BackoffsSince(trace, |old(trace)|)
      ensures old(attempts) <= attempts <= old(attempts) + 2 * RetryBound(url, retryCount)
      // after a successful refresh the same request goes out at once
      ensures refreshed && retryCount < ApiRetryAttempts ==>
                |trace| > |old(trace)| &&
                trace[|old(trace)|] == Attempt(url, WithToken(url, params, old(accessToken)), timeout)
      ensures refreshed && retryCount < ApiRetryAttempts && Classify(network(old(attempts))).ApiSuccess? ==>
                r == Ok(Classify(network(old(attempts))).data)
      // after a failed refresh the handler pauses for the backoff first
      ensures !refreshed && retryCount < ApiRetryAttempts ==>
                |trace| > |old(trace)| && trace[|old(trace)|] == Wait(BackoffMs(retryCount))
      ensures AllRefusedFrom(old(attempts)) ==>
                r.Fail? &&
                attempts == old(attempts) +
                            (if refreshed && retryCount < ApiRetryAttempts then NestedRetryAttempts(retryCount + 1) else 0) +
                            (if retryCount < ApiRetryAttempts then NestedRetryAttempts(retryCount + 1) else 0)
      // with no expired token ahead, the result is a success exactly when
      // one of the attempts made succeeded, and that one is the last
      ensures (url == TokenUrl || NoExpiryFrom(old(attempts))) ==>
                if r.Ok? then old(attempts) < attempts && NoneSucceeded(old(attempts), attempts - 1)
                else NoneSucceeded(old(attempts), attempts)
      ensures r.Ok? ==> LastSucceededWith(r.value)
      ensures r.Fail? ==> r.error == ApiError
    {
      ghost var start := attempts;
      if refreshed && retryCount < ApiRetryAttempts {
        r := Request(url, params, retryCount + 1, Some(timeout));
        if r.Fail? {
          if AllRefusedFrom(start) {
            RefusedLater(start, attempts);
          }
          r := RetryOrRaise(url, params, retryCount, timeout);
        }
      } else {
        r := RetryOrRaise(url, params, retryCount, timeout);
      }
    }

    /** `get_token` (api.py:172-198). Taking `_token_lock` requires that it is
        free: the lock is not reentrant. */
    method GetToken(force: bool) returns (r: Fallible<string>)
      requires !tokenLockHeld
      modifies this
      decreases 2, 0, 0
      ensures !tokenLockHeld && clockMs >= old(clockMs)
      ensures old(trace) <= trace && BackoffsSince(trace, |old(trace)|)
      ensures old(attempts) <= attempts <= old(attempts) + NestedRetryAttempts(0)
      ensures ServesCached(force, old(accessToken), old(tokenExpiresAt), old(clockMs)) == Ok(true) ==>
                (r == Ok(old(accessToken).value) && attempts == old(attempts) && trace == old(trace) &&
                 accessToken == old(accessToken) && tokenExpiresAt == old(tokenExpiresAt))
      ensures ServesCached(force, old(accessToken), old(tokenExpiresAt), old(clockMs)) == Ok(false) ==>
                (attempts > old(attempts) && |trace| > |old(trace)| &&
                 trace[|old(trace)|] == Attempt(TokenUrl, TokenParams(), ApiTimeout))
      ensures r.Ok? ==> accessToken == Some(r.value) && r.value != ""
      ensures (attempts > old(attempts) && Classify(network(attempts - 1)).ApiSuccess? &&
               Classify(network(attempts - 1)).data.JObj?) ==>
                (accessToken == TokenField(Classify(network(attempts - 1)).data.fields) &&
                 tokenExpiresAt == ExpiryField(Classify(network(attempts - 1)).data.fields))
      ensures r.Fail? ==>
                ((accessToken == old(accessToken) && tokenExpiresAt == old(tokenExpiresAt)) || !Truthy(accessToken))
      // a token request that fails leaves both fields as they were
      ensures attempts > old(attempts) && LastFailed() ==>
                accessToken == old(accessToken) && tokenExpiresAt == old(tokenExpiresAt)
      // a first exchange that hands out a token ends the refresh at once
      ensures ServesCached(force, old(accessToken), old(tokenExpiresAt), old(clockMs)) == Ok(false) &&
              GrantsToken(network(old(attempts))) ==>
                r.Ok? && attempts == old(attempts) + 1 && |trace| == |old(trace)| + 1
      ensures ServesCached(force, old(accessToken), old(tokenExpiresAt), old(clockMs)) == Ok(false) &&
              AllRefusedFrom(old(attempts)) ==>
                r.Fail? && attempts == old(attempts) + NestedRetryAttempts(0)
      ensures r.Fail? ==>
                (r.error == Unexpected <==> ServesCached(force, old(accessToken), old(tokenExpiresAt), old(clockMs)).Fail?)
    {
      tokenLockHeld := true;
      r := RefreshLocked(force);
      tokenLockHeld := false;
    }

    /** `get_token(force_refresh=True)` (api.py:109, :339), with the facts
        its two callers rely on. */
    method ForceRefresh() returns (r: Fallible<string>)
      requires !tokenLockHeld
      modifies this
      decreases 2, 1, 0
      ensures !tokenLockHeld && clockMs >= old(clockMs)
      ensures old(trace) <= trace && BackoffsSince(trace, |old(trace)|)
      ensures old(attempts) < attempts <= old(attempts) + NestedRetryAttempts(0)
      ensures |trace| > |old(trace)| && trace[|old(trace)|] == Attempt(TokenUrl, TokenParams(), ApiTimeout)
      ensures r.Ok? ==> accessToken == Some(r.value)
      ensures GrantsToken(network(old(attempts))) ==>
                r.Ok? && attempts == old(attempts) + 1 && |trace| == |old(trace)| + 1 &&
                accessToken == TokenField(Classify(network(old(attempts))).data.fields)
      ensures AllRefusedFrom(old(attempts)) ==> r.Fail? && attempts == old(attempts) + NestedRetryAttempts(0)
    {
      r := GetToken(true);
    }

    /** The form parameters of the token request. */
    function TokenParams(): map<string, Param> {
      map["appKey" := PStr(appKey), "appSecret" := PStr(appSecret)]
    }

    /** The body of `get_token` under `_token_lock` (api.py:175-198): serve
        the cached token while it is fresh, otherwise fetch a new one. */
    method RefreshLocked(force: bool) returns (r: Fallible<string>)
      requires tokenLockHeld
      modifies this
      decreases 1, 1, 0
      ensures tokenLockHeld && clockMs >= old(clockMs)
      ensures old(trace) <= trace && BackoffsSince(trace, |old(trace)|)
      ensures old(attempts) <= attempts <= old(attempts) + NestedRetryAttempts(0)
      ensures ServesCached(force, old(accessToken), old(tokenExpiresAt), old(clockMs)) == Ok(true) ==>
                (r == Ok(old(accessToken).value) && attempts == old(attempts) && trace == old(trace) &&
                 accessToken == old(accessToken) && tokenExpiresAt == old(tokenExpiresAt))
      ensures ServesCached(force, old(accessToken), old(tokenExpiresAt), old(clockMs)) == Fail(Unexpected) ==>
                (r == Fail(Unexpected) && attempts == old(attempts) && trace == old(trace) &&
                 accessToken == old(accessToken) && tokenExpiresAt == old(tokenExpiresAt))
      ensures ServesCached(force, old(accessToken), old(tokenExpiresAt), old(clockMs)) == Ok(false) ==>
                (attempts > old(attempts) && |trace| > |old(trace)| &&
                 trace[|old(trace)|] == Attempt(TokenUrl, TokenParams(), ApiTimeout))
      ensures r.Ok? ==> accessToken == Some(r.value) && r.value != ""
      ensures (attempts > old(attempts) && Classify(network(attempts - 1)).ApiSuccess? &&
               Classify(network(attempts - 1)).data.JObj?) ==>
                (accessToken == TokenField(Classify(network(attempts - 1)).data.fields) &&
                 tokenExpiresAt == ExpiryField(Classify(network(attempts - 1)).data.fields))
      ensures r.Fail? ==>
                ((accessToken == old(accessToken) && tokenExpiresAt == old(tokenExpiresAt)) || !Truthy(accessToken))
      // a token request that fails leaves both fields as they were
      ensures attempts > old(attempts) && LastFailed() ==>
                accessToken == old(accessToken) && tokenExpiresAt == old(tokenExpiresAt)
      // a first exchange that hands out a token ends the refresh at once
      ensures ServesCached(force, old(accessToken), old(tokenExpiresAt), old(clockMs)) == Ok(false) &&
              GrantsToken(network(old(attempts))) ==>
                r.Ok? && attempts == old(attempts) + 1 && |trace| == |old(trace)| + 1
      ensures ServesCached(force, old(accessToken), old(tokenExpiresAt), old(clockMs)) == Ok(false) &&
              AllRefusedFrom(old(attempts)) ==>
                r.Fail? && attempts == old(attempts) + NestedRetryAttempts(0)
      ensures r.Fail? ==>
                (r.error == Unexpected <==> ServesCached(force, old(accessToken), old(tokenExpiresAt), old(clockMs)).Fail?)
    {
      var cached := ServesCached(force, accessToken, tokenExpiresAt, clockMs);
      if cached.Fail? {
        return Fail(Unexpected);
      }
      if cached.value {
        return Ok(accessToken.value);
      }
      r := FetchToken();
    }

    /** The token request proper (api.py:181-198). On a response whose data
        lacks a token both fields are still overwritten before the error is
        raised; on a failed request neither is. */
    method FetchToken() returns (r: Fallible<string>)
      requires tokenLockHeld
      modifies this
      decreases 1, 0, 0
      ensures tokenLockHeld && clockMs >= old(clockMs)
      ensures old(trace) <= trace && BackoffsSince(trace, |old(trace)|)
      ensures old(attempts) < attempts <= old(attempts) + NestedRetryAttempts(0)
      ensures |trace| > |old(trace)| && trace[|old(trace)|] == Attempt(TokenUrl, TokenParams(), ApiTimeout)
      ensures r.Ok? ==> accessToken == Some(r.value) && r.value != ""
      ensures (Classify(network(attempts - 1)).ApiSuccess? && Classify(network(attempts - 1)).data.JObj?) ==>
                (accessToken == TokenField(Classify(network(attempts - 1)).data.fields) &&
                 tokenExpiresAt == ExpiryField(Classify(network(attempts - 1)).data.fields))
      ensures r.Fail? ==>
                ((accessToken == old(accessToken) && tokenExpiresAt == old(tokenExpiresAt)) || !Truthy(accessToken))
      // a token request that fails leaves both fields as they were
      ensures LastFailed() ==> accessToken == old(accessToken) && tokenExpiresAt == old(tokenExpiresAt)
      ensures GrantsToken(network(old(attempts))) ==>
                r.Ok? && attempts == old(attempts) + 1 && |trace| == |old(trace)| + 1
      ensures AllRefusedFrom(old(attempts)) ==> r.Fail? && attempts == old(attempts) + NestedRetryAttempts(0)
      ensures r.Fail? ==> r.error == ApiError
    {
      DefaultTimeouts();
      var response := Post(TokenUrl, TokenParams(), None);
      if response.Fail? {
        assert LastFailed();
        return Fail(ApiError);
      }
      assert LastSucceededWith(response.value);
      match response.value
      case JObj(fields) =>
        accessToken := TokenField(fields);
        tokenExpiresAt := ExpiryField(fields);
        if !Truthy(accessToken) {
          return Fail(ApiError);
        }
        r := Ok(accessToken.value);
      case _ =>
        // `data.get` raises inside the try and is re-raised as an API error
        r := Fail(ApiError);
    }

    /** `ensure_token_valid` with the lock taken once: the refresh runs the
        body of `get_token` under the lock already held instead of taking it
        a second time (see EnsureTokenValidAsWritten). */
    method EnsureTokenValid() returns (r: Fallible<string>)
      requires !tokenLockHeld
      modifies this
      ensures !tokenLockHeld && clockMs >= old(clockMs)
      ensures old(trace) <= trace && BackoffsSince(trace, |old(trace)|)
      ensures old(attempts) <= attempts <= old(attempts) + NestedRetryAttempts(0)
      ensures NeedsRefresh(old(accessToken), old(tokenExpiresAt), old(clockMs)) == Ok(false) ==>
                (r == Ok(old(accessToken).value) && attempts == old(attempts) && trace == old(trace) &&
                 accessToken == old(accessToken) && tokenExpiresAt == old(tokenExpiresAt))
      ensures NeedsRefresh(old(accessToken), old(tokenExpiresAt), old(clockMs)) == Ok(true) ==>
                (attempts > old(attempts) && |trace| > |old(trace)| &&
                 trace[|old(trace)|] == Attempt(TokenUrl, TokenParams(), ApiTimeout))
      ensures r.Ok? ==> accessToken == Some(r.value) && r.value != ""
      ensures r.Fail? ==>
                ((accessToken == old(accessToken) && tokenExpiresAt == old(tokenExpiresAt)) || !Truthy(accessToken))
      // a fresh token never fails; a missing expiry raises a TypeError
      ensures r.Fail? ==> NeedsRefresh(old(accessToken), old(tokenExpiresAt), old(clockMs)) != Ok(false)
      ensures r.Fail? ==>
                (r.error == Unexpected <==> NeedsRefresh(old(accessToken), old(tokenExpiresAt), old(clockMs)).Fail?)
    {
      tokenLockHeld := true;
      var need := NeedsRefresh(accessToken, tokenExpiresAt, clockMs);
      if need.Fail? {
        r := Fail(Unexpected);
      } else if need.value {
        FreshnessBoundary(accessToken, tokenExpiresAt, clockMs);
        r := RefreshLocked(false);
      } else {
        r := Ok(accessToken.value);
      }
      tokenLockHeld := false;
    }

    /** Some attempt logged from position `from` on went to `url` with the
        given timeout and carried every one of `params`. */
    ghost predicate AttemptedSince(from: nat, url: string, params: map<string, Param>, timeout: int)
      reads this
    {
      exists k :: from <= k < |trace| && trace[k].Attempt? && trace[k].url == url &&
        trace[k].timeout == timeout && params.Keys <= trace[k].params.Keys &&
        (forall key :: key in params ==> trace[k].params[key] == params[key])
    }

    /** With no expired token from exchange `from` on, the listing `r` is
        the shaped payload of the one exchange since then that succeeded,
        the last one, or the empty list when none of them succeeded. */
    ghost predicate ListingRelayed(from: nat, r: Fallible<Json>)
      reads this
    {
      NoExpiryFrom(from) ==>
        if NoneSucceeded(from, attempts) then r == Ok(JArr([]))
        else from < attempts && NoneSucceeded(from, attempts - 1) &&
             Classify(network(attempts - 1)).ApiSuccess? &&
             r == DeviceList(Ok(Classify(network(attempts - 1)).data))
    }

    /** The same for a privacy status: the reading of the one successful
        exchange, or false when none succeeded. */
    ghost predicate StatusRelayed(from: nat, r: Fallible<bool>)
      reads this
    {
      NoExpiryFrom(from) ==>
        if NoneSucceeded(from, attempts) then r == Ok(false)
        else from < attempts && NoneSucceeded(from, attempts - 1) &&
             Classify(network(attempts - 1)).ApiSuccess? &&
             r == PrivacyFromResponse(Ok(Classify(network(attempts - 1)).data))
    }

    /** `get_devices` (api.py:200-224). The token check runs outside the
        `try`, so its errors reach the caller; an API error of the listing
        request itself gives the empty list. */
    method GetDevices() returns (r: Fallible<Json>)
      requires !tokenLockHeld
      modifies this
      ensures !tokenLockHeld && clockMs >= old(clockMs)
      ensures old(trace) <= trace && BackoffsSince(trace, |old(trace)|)
      ensures old(attempts) <= attempts <= old(attempts) + NestedRetryAttempts(0) + ApiRequestBound(0)
      ensures r.Ok? ==> HasLength(r.value)
      // whatever is listed is the payload of the last, successful exchange
      ensures r.Ok? && r.value != JArr([]) ==> exists d :: LastSucceededWith(d) && r == DeviceList(Ok(d))
      // the listing's own API errors never surface; only the token check's do
      ensures r == Fail(ApiError) ==> NeedsRefresh(old(accessToken), old(tokenExpiresAt), old(clockMs)) == Ok(true)
      ensures r.Ok? ==> AttemptedSince(|old(trace)|, DevicesUrl, DeviceListParams(), ApiTimeout)
      // with a fresh token, a listing answered at once is returned shaped,
      // and a listing that keeps failing gives the empty list
      ensures NeedsRefresh(old(accessToken), old(tokenExpiresAt), old(clockMs)) == Ok(false) && Classify(network(old(attempts))).ApiSuccess? ==>
                r == DeviceList(Ok(Classify(network(old(attempts))).data))
      ensures NeedsRefresh(old(accessToken), old(tokenExpiresAt), old(clockMs)) == Ok(false) && AllRefusedFrom(old(attempts)) ==> r == Ok(JArr([]))
      // with a fresh token, the listing relays the attempts made
      ensures NeedsRefresh(old(accessToken), old(tokenExpiresAt), old(clockMs)) == Ok(false) ==> ListingRelayed(old(attempts), r)
    {
      ghost var wasFresh := NeedsRefresh(accessToken, tokenExpiresAt, clockMs) == Ok(false);
      var token := EnsureTokenValid();
      if token.Fail? {
        return Fail(token.error);
      }
      assert wasFresh ==> attempts == old(attempts);
      r := ListDevices();
    }

    /** The body of `get_devices` after the token check (api.py:203-223):
        the listing request, whose API error reads as no devices. */
    method ListDevices() returns (r: Fallible<Json>)
      requires !tokenLockHeld
      modifies this
      ensures !tokenLockHeld && clockMs >= old(clockMs)
      ensures old(trace) <= trace && BackoffsSince(trace, |old(trace)|)
      ensures old(attempts) < attempts <= old(attempts) + ApiRequestBound(0)
      ensures r.Ok? ==> HasLength(r.value)
      ensures r.Fail? ==> r.error == Unexpected
      ensures r.Ok? && r.value != JArr([]) ==> exists d :: LastSucceededWith(d) && r == DeviceList(Ok(d))
      ensures AttemptedSince(|old(trace)|, DevicesUrl, DeviceListParams(), ApiTimeout)
      ensures Classify(network(old(attempts))).ApiSuccess? ==> r == DeviceList(Ok(Classify(network(old(attempts))).data))
      ensures AllRefusedFrom(old(attempts)) ==> r == Ok(JArr([]))
      ensures ListingRelayed(old(attempts), r)
    {
      ghost var mark := |trace|;
      DefaultTimeouts();
      var response := Post(DevicesUrl, DeviceListParams(), None);
      assert trace[mark].params == WithToken(DevicesUrl, DeviceListParams(), old(accessToken));
      r := DeviceList(response);
      if response.Ok? {
        assert LastSucceededWith(response.value);
      }
    }

    /** The form parameters of the device listing (api.py:204-207). */
    function DeviceListParams(): map<string, Param> {
      map["pageStart" := PInt(0), "pageSize" := PInt(50)]
    }

    /** The form parameters of the privacy status query (api.py:240-243). */
    function StatusParams(serial: string, channel: int): map<string, Param> {
      map["deviceSerial" := PStr(serial), "channelNo" := PInt(channel)]
    }

    /** `get_privacy_status` (api.py:236-254): true only when the device
        reports `enable == 1`; an API error reads as false. */
    method GetPrivacyStatus(serial: string, channel: int) returns (r: Fallible<bool>)
      requires !tokenLockHeld
      modifies this
      ensures !tokenLockHeld && clockMs >= old(clockMs)
      ensures old(trace) <= trace && BackoffsSince(trace, |old(trace)|)
      ensures old(attempts) <= attempts <= old(attempts) + NestedRetryAttempts(0) + ApiRequestBound(0)
      ensures r == Ok(true) ==> exists d :: LastSucceededWith(d) && d.JObj? && EnableIsOne(Get(d.fields, "enable"))
      ensures r == Fail(ApiError) ==> NeedsRefresh(old(accessToken), old(tokenExpiresAt), old(clockMs)) == Ok(true)
      ensures r == Fail(Unexpected) ==>
                NeedsRefresh(old(accessToken), old(tokenExpiresAt), old(clockMs)).Fail? ||
                exists d :: LastSucceededWith(d) && !d.JObj?
      ensures r.Ok? ==> AttemptedSince(|old(trace)|, StatusUrl, StatusParams(serial, channel), HomekitCommandTimeout)
      // with a fresh token, a status answered at once is read by
      // PrivacyFromResponse, and a query that keeps failing reads false
      ensures NeedsRefresh(old(accessToken), old(tokenExpiresAt), old(clockMs)) == Ok(false) && Classify(network(old(attempts))).ApiSuccess? ==>
                r == PrivacyFromResponse(Ok(Classify(network(old(attempts))).data))
      ensures NeedsRefresh(old(accessToken), old(tokenExpiresAt), old(clockMs)) == Ok(false) && AllRefusedFrom(old(attempts)) ==> r == Ok(false)
      // with a fresh token, the status relays the attempts made
      ensures NeedsRefresh(old(accessToken), old(tokenExpiresAt), old(clockMs)) == Ok(false) ==> StatusRelayed(old(attempts), r)
    {
      ghost var wasFresh := NeedsRefresh(accessToken, tokenExpiresAt, clockMs) == Ok(false);
      var token := EnsureTokenValid();
      if token.Fail? {
        return Fail(token.error);
      }
      assert wasFresh ==> attempts == old(attempts);
      r := ReadPrivacy(serial, channel);
    }

    /** The body of `get_privacy_status` after the token check
        (api.py:240-254): the status query, whose API error reads as false. */
    method ReadPrivacy(serial: string, channel: int) returns (r: Fallible<bool>)
      requires !tokenLockHeld
      modifies this
      ensures !tokenLockHeld && clockMs >= old(clockMs)
      ensures old(trace) <= trace && BackoffsSince(trace, |old(trace)|)
      ensures old(attempts) < attempts <= old(attempts) + ApiRequestBound(0)
      ensures r != Fail(ApiError)
      ensures r == Ok(true) ==> exists d :: LastSucceededWith(d) && d.JObj? && EnableIsOne(Get(d.fields, "enable"))
      ensures r == Fail(Unexpected) ==> exists d :: LastSucceededWith(d) && !d.JObj?
      ensures AttemptedSince(|old(trace)|, StatusUrl, StatusParams(serial, channel), HomekitCommandTimeout)
      ensures Classify(network(old(attempts))).ApiSuccess? ==>
                r == PrivacyFromResponse(Ok(Classify(network(old(attempts))).data))
      ensures AllRefusedFrom(old(attempts)) ==> r == Ok(false)
      ensures StatusRelayed(old(attempts), r)
    {
      ghost var mark := |trace|;
      var response := Post(StatusUrl, StatusParams(serial, channel), Some(HomekitCommandTimeout));
      assert trace[mark].params == WithToken(StatusUrl, StatusParams(serial, channel), old(accessToken));
      r := PrivacyFromResponse(response);
      if response.Ok? {
        assert LastSucceededWith(response.value);
      }
    }

    /** The form parameters of the privacy command (api.py:259-263). */
    function SetParams(serial: string, enable: bool, channel: int): map<string, Param> {
      map["deviceSerial" := PStr(serial), "enable" := PInt(EnableFlag(enable)), "channelNo" := PInt(channel)]
    }

    /** `set_privacy` (api.py:256-297): send the command with the short
        timeout, pause 200 ms and read the state back. Success means only
        that the command did not raise: the read-back, whatever it says or
        raises, is logged and ignored. */
    method SetPrivacy(serial: string, enable: bool, channel: int) returns (r: Fallible<bool>)
      requires !tokenLockHeld
      modifies this
      ensures !tokenLockHeld && clockMs >= old(clockMs)
      ensures old(trace) <= trace
      ensures old(attempts) <= attempts <= old(attempts) + 2 * NestedRetryAttempts(0) + 2 * ApiRequestBound(0)
      // success is reported exactly when the settling pause was taken, which
      // happens only after the command went through
      ensures r.Ok? ==> (r.value <==> exists i :: |old(trace)| <= i < |trace| && trace[i] == Wait(SetSettleMs))
      ensures r.Ok? ==> AttemptedSince(|old(trace)|, SetUrl, SetParams(serial, enable, channel), HomekitCommandTimeout)
      // only the token check, which runs outside the `try`, can raise
      ensures r.Fail? ==> NeedsRefresh(old(accessToken), old(tokenExpiresAt), old(clockMs)) != Ok(false)
      // with a fresh token, a command accepted at once succeeds and a
      // command that keeps failing reports failure
      ensures NeedsRefresh(old(accessToken), old(tokenExpiresAt), old(clockMs)) == Ok(false) && Classify(network(old(attempts))).ApiSuccess? ==> r == Ok(true)
      ensures NeedsRefresh(old(accessToken), old(tokenExpiresAt), old(clockMs)) == Ok(false) && AllRefusedFrom(old(attempts)) ==> r == Ok(false)
      // with no expired token ahead, success is reported exactly when one of
      // the attempts made succeeded
      ensures NeedsRefresh(old(accessToken), old(tokenExpiresAt), old(clockMs)) == Ok(false) && NoExpiryFrom(old(attempts)) ==>
                (r == Ok(true) <==> !NoneSucceeded(old(attempts), attempts))
    {
      ghost var wasFresh := NeedsRefresh(accessToken, tokenExpiresAt, clockMs) == Ok(false);
      var token := EnsureTokenValid();
      if token.Fail? {
        return Fail(token.error);
      }
      assert wasFresh ==> attempts == old(attempts);
      var sent := SendPrivacy(serial, enable, channel);
      r := Ok(sent);
    }

    /** The body of `set_privacy` after the token check (api.py:266-297):
        the command, and after it went through, the settling pause and the
        verification read. */
    method SendPrivacy(serial: string, enable: bool, channel: int) returns (ok: bool)
      requires !tokenLockHeld
      modifies this
      ensures !tokenLockHeld && clockMs >= old(clockMs)
      ensures old(trace) <= trace
      ensures old(attempts) <= attempts <= old(attempts) + NestedRetryAttempts(0) + 2 * ApiRequestBound(0)
      ensures ok <==> exists i :: |old(trace)| <= i < |trace| && trace[i] == Wait(SetSettleMs)
      ensures AttemptedSince(|old(trace)|, SetUrl, SetParams(serial, enable, channel), HomekitCommandTimeout)
      ensures Classify(network(old(attempts))).ApiSuccess? ==> ok
      ensures AllRefusedFrom(old(attempts)) ==> !ok
      // with no expired token ahead, the command went through exactly when
      // one of the attempts made succeeded: the read-back follows only then
      ensures NoExpiryFrom(old(attempts)) ==> (ok <==> !NoneSucceeded(old(attempts), attempts))
    {
      var response := Post(SetUrl, SetParams(serial, enable, channel), Some(HomekitCommandTimeout));
      ghost var sent := trace;
      var verification := Ok(false);
      if response.Ok? {
        verification := SettleAndVerify(serial, channel);
      } else {
        forall i | |old(trace)| <= i < |trace|
          ensures trace[i] != Wait(SetSettleMs)
        {
          assert BackoffsSince(trace, |old(trace)|);
        }
      }
      assert AttemptedSince(|old(trace)|, SetUrl, SetParams(serial, enable, channel), HomekitCommandTimeout) by {
        assert trace[|old(trace)|] == sent[|old(trace)|];
      }
      ok := SetPrivacyResult(response, verification, enable);
    }

    /** The settling pause and the verification read of `set_privacy`
        (api.py:272-276), made after the command went through. */
    method SettleAndVerify(serial: string, channel: int) returns (verification: Fallible<bool>)
      requires !tokenLockHeld
      modifies this
      ensures !tokenLockHeld && clockMs >= old(clockMs)
      ensures old(trace) <= trace && |trace| > |old(trace)| && trace[|old(trace)|] == Wait(SetSettleMs)
      ensures old(attempts) <= attempts <= old(attempts) + NestedRetryAttempts(0) + ApiRequestBound(0)
    {
      Pause(SetSettleMs);
      ghost var paused := trace;
      verification := GetPrivacyStatus(serial, channel);
      assert trace[|old(trace)|] == paused[|old(trace)|];
    }

    /** `get_device_capture` (api.py:299-360): up to two GET requests for a
        snapshot with the token in the query. A non-200 status, a timeout
        or a client error is retried once after 500 ms; a non-image body
        mentioning "10002" forces a token refresh and is retried at once
        with the new token. Every error after the token check becomes an
        API error. The image bytes are modelled as the response text. */
    method GetDeviceCapture(serial: string, channel: int) returns (r: Fallible<string>)
      requires !tokenLockHeld
      modifies this
      ensures !tokenLockHeld && clockMs >= old(clockMs)
      ensures old(trace) <= trace && BackoffsSince(trace, |old(trace)|)
      ensures old(attempts) <= attempts <= old(attempts) + 2 * NestedRetryAttempts(0) + CaptureMaxRetries + 1
      // an image is the body of the last exchange, a 200 reply whose content
      // type mentions "image", fetched with the token held at the end
      ensures r.Ok? ==>
                (attempts > 0 && network(attempts - 1).Reply? && network(attempts - 1).status == 200 &&
                 Contains(network(attempts - 1).contentType, "image") && network(attempts - 1).text == r.value &&
                 |trace| > 0 && trace[|trace| - 1] == Attempt(CaptureUrl, CaptureQuery(accessToken, serial, channel), ApiTimeout))
      // only the token check, which runs outside the `try`, raises anything but an API error
      ensures r == Fail(Unexpected) ==> NeedsRefresh(old(accessToken), old(tokenExpiresAt), old(clockMs)).Fail?
      // with a fresh token, an image served at once is returned
      ensures NeedsRefresh(old(accessToken), old(tokenExpiresAt), old(clockMs)) == Ok(false) && IsImage(network(old(attempts))) ==> r == Ok(network(old(attempts)).text)
      // and, with a fresh token, the snapshot loop runs from the first
      // exchange: its retry after a failed request, its refusal of a
      // non-image body and its refresh on "10002"
      ensures NeedsRefresh(old(accessToken), old(tokenExpiresAt), old(clockMs)) == Ok(false) ==> CaptureRan(old(attempts), |old(trace)|, old(accessToken), serial, channel, r)
    {
      ghost var wasFresh := NeedsRefresh(accessToken, tokenExpiresAt, clockMs) == Ok(false);
      var token := EnsureTokenValid();
      if token.Fail? {
        return Fail(token.error);
      }
      assert wasFresh ==> attempts == old(attempts);
      r := CaptureLoop(serial, channel);
    }

    /** The guarantees of CaptureLoop below about a run begun at exchange
        `from`, with `mark` events logged and `token` held, gathered in one
        predicate: the first request carries that token, a failed request is
        retried once after the pause, a non-image 200 reply raises unless it
        mentions "10002", and that one forces a token request whose token
        the next snapshot request carries. */
    ghost predicate CaptureRan(from: nat, mark: nat, token: Option<string>, serial: string, channel: int, r: Fallible<string>)
      reads this
    {
      // the first snapshot request carries `token`
      (|trace| > mark &&
         trace[mark] == Attempt(CaptureUrl, CaptureQuery(token, serial, channel), ApiTimeout)) &&
      (IsImage(network(from)) ==> r == Ok(network(from).text)) &&
      // a non-200 reply, a timeout or a client error is followed by the
      // 500 ms pause and the same request again, whose image is returned
      // and whose failure raises
      (!Is200(network(from)) ==>
         |trace| > mark + 2 && trace[mark + 1] == Wait(CaptureRetryMs) &&
         trace[mark + 2] == Attempt(CaptureUrl, CaptureQuery(token, serial, channel), ApiTimeout)) &&
      (!Is200(network(from)) && IsImage(network(from + 1)) ==>
         r == Ok(network(from + 1).text)) &&
      (!Is200(network(from)) && !Is200(network(from + 1)) ==>
         r == Fail(ApiError) && attempts == from + 2) &&
      // a 200 reply that is not an image raises, unless it mentions "10002":
      // then a forced token request follows, and a token granted at once is
      // used for the second snapshot request
      (Rejects(network(from)) ==>
         r == Fail(ApiError) && attempts == from + 1) &&
      (AsksRefresh(network(from)) ==>
         |trace| > mark + 1 && trace[mark + 1] == Attempt(TokenUrl, TokenParams(), ApiTimeout)) &&
      (AsksRefresh(network(from)) && GrantsToken(network(from + 1)) ==>
         |trace| > mark + 2 &&
         trace[mark + 2] ==
           Attempt(CaptureUrl, CaptureQuery(GrantedToken(network(from + 1)), serial, channel), ApiTimeout) &&
         (IsImage(network(from + 2)) ==> r == Ok(network(from + 2).text)))
    }

    /** The snapshot loop of `get_device_capture` (api.py:305-356), run
        after the token check; every error in it becomes an API error. */
    method CaptureLoop(serial: string, channel: int) returns (r: Fallible<string>)
      requires !tokenLockHeld
      modifies this
      ensures !tokenLockHeld && clockMs >= old(clockMs)
      ensures old(trace) <= trace && BackoffsSince(trace, |old(trace)|)
      ensures old(attempts) <= attempts <= old(attempts) + NestedRetryAttempts(0) + CaptureMaxRetries + 1
      ensures r.Ok? ==>
                (attempts > 0 && IsImage(network(attempts - 1)) && network(attempts - 1).text == r.value &&
                 |trace| > 0 && trace[|trace| - 1] == Attempt(CaptureUrl, CaptureQuery(accessToken, serial, channel), ApiTimeout))
      ensures r.Fail? ==> r.error == ApiError
      // the first snapshot request carries the token held on entry
      ensures |trace| > |old(trace)| &&
              trace[|old(trace)|] == Attempt(CaptureUrl, CaptureQuery(old(accessToken), serial, channel), ApiTimeout)
      ensures IsImage(network(old(attempts))) ==> r == Ok(network(old(attempts)).text)
      // a non-200 reply, a timeout or a client error is followed by the
      // 500 ms pause and the same request again, whose image is returned
      // and whose failure raises
      ensures !Is200(network(old(attempts))) ==>
                |trace| > |old(trace)| + 2 && trace[|old(trace)| + 1] == Wait(CaptureRetryMs) &&
                trace[|old(trace)| + 2] == Attempt(CaptureUrl, CaptureQuery(old(accessToken), serial, channel), ApiTimeout)
      ensures !Is200(network(old(attempts))) && IsImage(network(old(attempts) + 1)) ==>
                r == Ok(network(old(attempts) + 1).text)
      ensures !Is200(network(old(attempts))) && !Is200(network(old(attempts) + 1)) ==>
                r == Fail(ApiError) && attempts == old(attempts) + 2
      // a 200 reply that is not an image raises, unless it mentions "10002":
      // then a forced token request follows, and a token granted at once is
      // used for the second snapshot request
      ensures Rejects(network(old(attempts))) ==>
                r == Fail(ApiError) && attempts == old(attempts) + 1
      ensures AsksRefresh(network(old(attempts))) ==>
                |trace| > |old(trace)| + 1 && trace[|old(trace)| + 1] == Attempt(TokenUrl, TokenParams(), ApiTimeout)
      ensures AsksRefresh(network(old(attempts))) && GrantsToken(network(old(attempts) + 1)) ==>
                |trace| > |old(trace)| + 2 &&
                trace[|old(trace)| + 2] ==
                  Attempt(CaptureUrl, CaptureQuery(GrantedToken(network(old(attempts) + 1)), serial, channel), ApiTimeout) &&
                (IsImage(network(old(attempts) + 2)) ==> r == Ok(network(old(attempts) + 2).text))
    {
      var query := CaptureQuery(accessToken, serial, channel);
      ghost var first := network(attempts);
      ghost var second := network(attempts + 1);
      var retry: nat := 0;
      while retry <= CaptureMaxRetries
        invariant !tokenLockHeld && clockMs >= old(clockMs)
        invariant old(trace) <= trace && BackoffsSince(trace, |old(trace)|)
        // the last pass always ends the call, so the loop never runs out
        invariant retry <= CaptureMaxRetries
        invariant old(attempts) + retry <= attempts <= old(attempts) + retry + (if retry > 0 then NestedRetryAttempts(0) else 0)
        invariant query == CaptureQuery(accessToken, serial, channel)
        invariant retry == 0 ==> attempts == old(attempts) && |trace| == |old(trace)| && accessToken == old(accessToken)
        invariant retry > 0 ==>
                    !IsImage(first) && |trace| > |old(trace)| &&
                    trace[|old(trace)|] == Attempt(CaptureUrl, CaptureQuery(old(accessToken), serial, channel), ApiTimeout)
        invariant retry > 0 && !Is200(first) ==>
                    attempts == old(attempts) + 1 && accessToken == old(accessToken) &&
                    |trace| == |old(trace)| + 2 && trace[|old(trace)| + 1] == Wait(CaptureRetryMs)
        invariant retry > 0 && Is200(first) ==>
                    AsksRefresh(first) &&
                    |trace| > |old(trace)| + 1 && trace[|old(trace)| + 1] == Attempt(TokenUrl, TokenParams(), ApiTimeout) &&
                    (GrantsToken(second) ==>
                       attempts == old(attempts) + 2 && |trace| == |old(trace)| + 2 && accessToken == GrantedToken(second))
      {
        var result;
        result, query := CaptureStep(serial, channel, query, retry < CaptureMaxRetries);
        if result.Some? {
          return result.value;
        }
        retry := retry + 1;
      }
      r := Fail(ApiError);
    }

    /** One pass of the snapshot loop (api.py:313-350). `more` says whether
        a retry remains. Returns the call's result when the pass ends it,
        and the query for the next pass. */
    method CaptureStep(serial: string, channel: int, query: map<string, Param>, more: bool)
      returns (result: Option<Fallible<string>>, next: map<string, Param>)
      requires !tokenLockHeld && query == CaptureQuery(accessToken, serial, channel)
      modifies this
      ensures !tokenLockHeld && clockMs >= old(clockMs)
      ensures old(trace) <= trace && BackoffsSince(trace, |old(trace)|)
      ensures old(attempts) + 1 <= attempts <= old(attempts) + 1 + NestedRetryAttempts(0)
      ensures next == CaptureQuery(accessToken, serial, channel)
      ensures |trace| > |old(trace)| && trace[|old(trace)|] == Attempt(CaptureUrl, query, ApiTimeout)
      ensures result.Some? && result.value.Ok? ==>
                attempts == old(attempts) + 1 && IsImage(network(old(attempts))) &&
                result.value.value == network(old(attempts)).text && |trace| == |old(trace)| + 1 &&
                accessToken == old(accessToken)
      ensures result.Some? && result.value.Fail? ==> result.value.error == ApiError
      ensures result.None? ==> more && !IsImage(network(old(attempts)))
      ensures IsImage(network(old(attempts))) ==> result == Some(Ok(network(old(attempts)).text))
      // a failed exchange: the pause while a retry remains, otherwise the error
      ensures !Is200(network(old(attempts))) ==>
                attempts == old(attempts) + 1 && accessToken == old(accessToken) &&
                (if more then result.None? && |trace| == |old(trace)| + 2 && trace[|old(trace)| + 1] == Wait(CaptureRetryMs)
                 else result == Some(Fail(ApiError)))
      // a 200 reply that is not an image: a refresh for "10002" while a retry
      // remains, otherwise the error
      ensures Is200(network(old(attempts))) && !IsImage(network(old(attempts))) &&
              !(Contains(network(old(attempts)).text, "10002") && more) ==>
                result == Some(Fail(ApiError)) && attempts == old(attempts) + 1
      ensures AsksRefresh(network(old(attempts))) && more ==>
                |trace| > |old(trace)| + 1 && trace[|old(trace)| + 1] == Attempt(TokenUrl, TokenParams(), ApiTimeout) &&
                (GrantsToken(network(old(attempts) + 1)) ==>
                   result.None? && attempts == old(attempts) + 2 && |trace| == |old(trace)| + 2 &&
                   accessToken == GrantedToken(network(old(attempts) + 1)))
    {
      next := query;
      var outcome := Exchange(CaptureUrl, query, ApiTimeout);
      if outcome.Reply? && outcome.status == 200 {
        if Contains(outcome.contentType, "image") {
          return Some(Ok(outcome.text)), next;
        }
        if Contains(outcome.text, "10002") && more {
          var refreshed := ForceRefresh();
          if refreshed.Fail? {
            return Some(Fail(ApiError)), CaptureQuery(accessToken, serial, channel);
          }
          next := CaptureQuery(accessToken, serial, channel);
          result := None;
        } else {
          result := Some(Fail(ApiError));
        }
      } else if more {
        Pause(CaptureRetryMs);
        result := None;
      } else {
        result := Some(Fail(ApiError));
      }
    }
  }
}
