# EZVIZ Cloud (China) integration for Home Assistant — a Dafny model

This project models the decision logic of the `ezviz_cloud` Home Assistant
integration. The integration drives EZVIZ cameras through the EZVIZ open
cloud API at open.ys7.com. The model covers three parts:

- **The API client** `EzvizCloudChinaApi` (`api.dfy`, module `Api`). It
  covers:
  - request set-up: timeout choice and token attachment;
  - classification of each HTTP outcome;
  - the retry engine of `_request`, whose retries nest;
  - the access-token cache and its two freshness tests;
  - the result shaping of `get_devices`, `get_privacy_status` and
    `set_privacy`;
  - the snapshot loop of `get_device_capture`.

  The network is a scripted oracle: `network(n)` is the outcome of the n-th
  HTTP exchange. Time is an integer count of milliseconds, and it advances
  only through the client's own pauses. The client keeps a log of every
  attempt and every pause.
- **The poll-and-reconcile pass** `update_devices`, the polling-interval
  clamp, and the `set_privacy_mode` service (`integration.dfy`, module
  `Integration`).
  - Each config entry is a class `Entry` holding its device cache.
  - A pass is specified by the pure function `Pass`. The method
    `Entry.UpdateDevices` is proved equal to it.
  - Lemmas about `Pass` state what a pass guarantees. A second identical
    pass changes nothing but the timestamp.
- **The privacy switch** `EzvizPrivacySwitch` (`switch.dfy`, module
  `Switch`). It has:
  - the shown state, the pending state and the two in-progress flags;
  - the push and pull updates, the optimistic turn-on/turn-off, the
    revert, and the command retry loop `_execute_privacy_command`
    (specified by `Command`);
  - the callback that routes a status change to the first switch of the
    device.

`const.dfy` holds the integration's constants. `common.dfy` holds the value
types shared by the modules: exceptions as `ErrorKind`, results as
`Fallible`, decoded JSON as `Json`, and the substring test as `Contains`.

Where the model's reading of the code differs from the integration's own
description, the code is followed. Three such differences:

- `get_devices` does not always return a list. It returns
  `data["deviceInfos"]` unchecked, and its debug line takes `len` of that
  value, which raises a TypeError when the value is a number, a boolean or
  null (`Api.DeviceList`).
- The token check at the start of every client call runs outside the
  `try`, so its errors reach the caller.
- The switch's commands never update the shared cache. Only a later poll
  pass does.

## Model

| member | source | states |
|---|---|---|
| Api.RequestTimeout | custom_components/ezviz_cloud/api.py:51-56 | an explicit timeout is kept; otherwise the timeout is 5 s exactly when the URL contains "scene/switch/set", and 8 s otherwise |
| Api.DefaultTimeouts | custom_components/ezviz_cloud/api.py:51-56 | the set-privacy endpoint gets 5 s by default; the token, device-list and snapshot endpoints get 8 s |
| Api.WithToken | custom_components/ezviz_cloud/api.py:69-71 | `accessToken` is added, holding the token, exactly when the URL is not the token URL and a non-empty token is held; all other parameters are kept |
| Api.WithTokenTwice | custom_components/ezviz_cloud/api.py:69-71 | attaching a token to a dict that already carries that same token changes nothing, so a resend made while the token is unchanged carries what the first attempt sent |
| Api.Payload | custom_components/ezviz_cloud/api.py:124 | a successful body yields its `data` field, or `{}` when there is none |
| Api.Classify | custom_components/ezviz_cloud/api.py:81-124 | success exactly for a 200 reply whose JSON object has code "200"; expired token exactly for code "10002"; HTTP error exactly for a non-200 status; timeout and client error exactly for those outcomes; an unreadable body exactly for a 200 reply without a JSON object; an API rejection exactly for a JSON object whose code is neither "200" nor "10002" |
| Api.BackoffMs | custom_components/ezviz_cloud/api.py:86 | the backoff is always an entry of [500, 1000, 2000] ms, and 500 or 1000 ms whenever a retry is still allowed |
| Api.NestedRetryAttempts | custom_components/ezviz_cloud/api.py:85-90 | at least one attempt; each retry inside the `try` may run twice, because its failure is caught again at :148 |
| Api.TimeoutAttempts | custom_components/ezviz_cloud/api.py:126-135 | at least one attempt; timeout retries run in the handler and are not caught again |
| Api.ApiRequestBound | custom_components/ezviz_cloud/api.py:106-113 | a data request's attempt bound exceeds the token request's, since a refresh adds a whole token request |
| Api.AttemptCounts | custom_components/ezviz_cloud/api.py:85-157 | a request that sees only HTTP errors makes 7 attempts, one that sees only timeouts makes 3, and no data request makes more than 56 |
| Api.NeedsRefresh | custom_components/ezviz_cloud/api.py:166-167 | a refresh is due exactly when no token is held or now > expiry − 30 min; a held token with a missing expiry raises a non-API error |
| Api.ServesCached | custom_components/ezviz_cloud/api.py:177-178 | the cached token is served exactly when not forced, a token is held and now < expiry − 30 min |
| Api.FreshnessBoundary | custom_components/ezviz_cloud/api.py:166-178 | whenever a refresh is due the cache is not served, and the two tests disagree exactly at now == expiry − 30 min |
| Api.TokenField | custom_components/ezviz_cloud/api.py:188 | the stored token is the response's string `accessToken`, absent otherwise |
| Api.ExpiryField | custom_components/ezviz_cloud/api.py:189 | the stored expiry is the response's numeric `expireTime`, absent otherwise |
| Api.Acquire | custom_components/ezviz_cloud/api.py:174 | taking the non-reentrant lock waits forever exactly when it is already held |
| Api.EnsureTokenValidAsWritten | custom_components/ezviz_cloud/api.py:159-174 | as written, the call blocks forever exactly when a refresh is due |
| Api.EnsureTokenValidAsWrittenHangs | custom_components/ezviz_cloud/api.py:159-174 | a call on a client without a token (used before `get_token`, or after a token response without `accessToken` cleared it), and every call within 30 minutes of expiry, never returns |
| Api.DeviceList | custom_components/ezviz_cloud/api.py:209-224 | a dict holding `deviceInfos` yields that value (a TypeError when it has no length); a list yields itself; any other shape and an API error yield [] |
| Api.PrivacyFromResponse | custom_components/ezviz_cloud/api.py:245-254 | true exactly when the payload is a dict with `enable == 1`; an API error reads false; a non-dict payload raises a non-API error |
| Api.EnableFlag | custom_components/ezviz_cloud/api.py:262 | the command sends 1 for enable and 0 otherwise |
| Api.EnableRoundTrip | custom_components/ezviz_cloud/api.py:248-262 | reading back the flag that was sent gives the state that was set |
| Api.SetPrivacyResult | custom_components/ezviz_cloud/api.py:266-297 | success exactly when the set request did not raise, whatever the verification read says |
| Api.CaptureQueryFields | custom_components/ezviz_cloud/api.py:305 | the snapshot query carries exactly the token (the text "None" when absent), the serial and the channel |
| Api.Client.constructor | custom_components/ezviz_cloud/api.py:33-46 | no token, expiry 0, lock free, empty log |
| Api.Client.Exchange | custom_components/ezviz_cloud/api.py:76-79 | one exchange consumes the next scripted outcome and logs the attempt |
| Api.Client.Pause | custom_components/ezviz_cloud/api.py:88 | a pause advances the clock by its length and logs it |
| Api.Client.Request | custom_components/ezviz_cloud/api.py:48-157 | see the list after this table |
| Api.Client.HandleOutcome | custom_components/ezviz_cloud/api.py:79-157 | a success is returned with no further attempt; an expired token on a data endpoint is followed at once by a token request; any other failure, while retries remain, pauses for the backoff and resends its own copy of the dict with the same timeout, and a success of that retry is the result; once retries are spent it raises with no attempt; when every outcome is refused (HTTP error or API error code) or every outcome is broken (timeout, client error, unreadable body), the attempts are one fewer than `Request`'s counts; with no expired token ahead, a failure means none of the exchanges, the judged one included, succeeded, and a success means only the last one did |
| Api.Client.RetryOrRaise | custom_components/ezviz_cloud/api.py:126-157 | while retries remain, pause for the backoff first and then resend its own copy of the dict with the same timeout and the counter raised, and a success of that retry is the result; otherwise raise without an attempt; all-refused and all-broken outcomes take the retry's `NestedRetryAttempts` and `TimeoutAttempts`; with no expired token ahead, the result is a success exactly when one of the attempts made succeeded, and then it is the last |
| Api.Client.RetryNested | custom_components/ezviz_cloud/api.py:85-122 | the backoff, then its own copy of the dict resent; a successful retry is the result and the handler does not run again; a failed one runs the handler's retry once more, doubling the attempts under all-refused outcomes; with no expired token ahead, the result is a success exactly when one of the attempts made succeeded, and then it is the last |
| Api.Client.RefreshAndRetry | custom_components/ezviz_cloud/api.py:106-113 | first a forced token request; when it grants a token, the very next exchange is the retry with the new token, with no pause between, and a success of that retry is the result; a failure falls back to the handler at :148; all-refused outcomes take exactly the token request's attempts plus the retries'; after a token granted at once and with no expired token after it, the result is a success exactly when one of the later attempts succeeded, and then it is the last |
| Api.Client.RetryAfterRefresh | custom_components/ezviz_cloud/api.py:109-157 | after the forced refresh: with a token and retries left, the retry with the token now held comes first and its success is the result; after a failed refresh the handler at :148 pauses for the backoff first; a failed retry also falls back to that handler; with no expired token ahead, the result is a success exactly when one of the attempts made succeeded, and then it is the last |
| Api.Client.GetToken | custom_components/ezviz_cloud/api.py:172-198 | the lock must be free; see the list after this table |
| Api.Client.RefreshLocked | custom_components/ezviz_cloud/api.py:175-198 | the same as GetToken, with the lock already held: a failed request leaves both fields unchanged, a granted token ends the call after one exchange; a missing expiry raises a non-API error without any request |
| Api.Client.FetchToken | custom_components/ezviz_cloud/api.py:180-198 | the token request with the 8 s timeout; a response lacking `accessToken` overwrites both fields before raising; a failed request changes neither; a first reply granting a token succeeds after that one exchange |
| Api.Client.EnsureTokenValid | custom_components/ezviz_cloud/api.py:159-170 | corrected version: the lock is taken once; no request when the token is fresh; otherwise a token request; a fresh token never fails |
| Api.Client.GetDevices | custom_components/ezviz_cloud/api.py:200-224 | the result always has a length; a non-empty result is the shaped payload of the last exchange, which succeeded; the listing endpoint was asked with the page parameters; an API error of the listing is never surfaced, only the token check's; with a fresh token, a first successful exchange gives its shaped payload and all-refused outcomes give the empty list; with a fresh token and no expired token ahead, the result is the shaped payload of the one successful exchange, the last, and the empty list when no attempt succeeded |
| Api.Client.ListDevices | custom_components/ezviz_cloud/api.py:203-223 | the listing request after the token check: the same facts as GetDevices, from the state on entry, and never an API error |
| Api.Client.GetPrivacyStatus | custom_components/ezviz_cloud/api.py:236-254 | true only after a successful exchange whose dict has enable == 1; queried with the 5 s timeout and the serial and channel; with a fresh token, a first successful exchange gives the enable test of its payload and all-refused outcomes give false; with a fresh token and no expired token ahead, the result is the reading of the one successful exchange, the last, and false when no attempt succeeded |
| Api.Client.ReadPrivacy | custom_components/ezviz_cloud/api.py:240-254 | the status query after the token check: the same facts as GetPrivacyStatus, from the state on entry, and never an API error |
| Api.Client.SetPrivacy | custom_components/ezviz_cloud/api.py:256-297 | true exactly when the 200 ms settle pause was taken, i.e. when the set request went through; only the token check can raise; with a fresh token, a first successful exchange gives true and all-refused outcomes give false; with a fresh token and no expired token ahead, true exactly when one of the attempts made succeeded |
| Api.Client.SendPrivacy | custom_components/ezviz_cloud/api.py:266-297 | the set request is always made; true exactly when the settling pause was taken; a first successful exchange gives true and all-refused outcomes give false; with no expired token ahead, true exactly when one of the attempts made succeeded, the read-back being made only after a success |
| Api.Client.SettleAndVerify | custom_components/ezviz_cloud/api.py:272-276 | the 200 ms settling pause comes first; the read that follows, token check included, makes at most a token request's and a status query's attempts |
| Api.Client.GetDeviceCapture | custom_components/ezviz_cloud/api.py:299-360 | see the list after this table |
| Api.Client.CaptureLoop | custom_components/ezviz_cloud/api.py:305-356 | see the list after this table |
| Api.Client.CaptureStep | custom_components/ezviz_cloud/api.py:313-350 | one pass: an image ends the call with its bytes; a failed exchange pauses 500 ms while a retry remains and raises otherwise; a 200 reply that is not an image raises, unless it mentions "10002" while a retry remains, when a forced token request follows and a granted token goes into the next query |
| Integration.SerialOf | custom_components/ezviz_cloud/__init__.py:324-329 | a serial exactly for a dict entry whose `deviceSerial` is a non-empty string |
| Integration.StatusOf | custom_components/ezviz_cloud/__init__.py:333-339 | true is "on"; false and an API error are "off"; only another exception aborts |
| Integration.DeviceName | custom_components/ezviz_cloud/__init__.py:375 | the entry's `deviceName`, else the serial |
| Integration.ChangeNotes | custom_components/ezviz_cloud/__init__.py:363-393 | a change always fires the event; it calls the callback first exactly when one is registered, and ends with the webhook exactly when a URL is set |
| Integration.Step | custom_components/ezviz_cloud/__init__.py:322-396 | see the list after this table |
| Integration.Run | custom_components/ezviz_cloud/__init__.py:322-396 | the loop only adds listed configured serials, only appends notes, and queries only selected serials |
| Integration.Pass | custom_components/ezviz_cloud/__init__.py:292-408 | see the list after this table |
| Integration.RunFrame | custom_components/ezviz_cloud/__init__.py:322-329 | a serial the listing does not select keeps its entry, or stays absent |
| Integration.RunCompletes | custom_components/ezviz_cloud/__init__.py:333-339 | the loop completes exactly when every selected serial's query returns or raises an API error |
| Integration.Writes | custom_components/ezviz_cloud/__init__.py:342-396 | the listing's writes cover exactly the selected serials, each with its reported status |
| Integration.StepWrites | custom_components/ezviz_cloud/__init__.py:342-396 | an answered step applies exactly its entry's write to the cache |
| Integration.RunWrites | custom_components/ezviz_cloud/__init__.py:322-396 | a completed loop leaves the old cache overridden by the listing's writes |
| Integration.RunQuiet | custom_components/ezviz_cloud/__init__.py:349-350 | a loop over a cache that already agrees with every reply announces nothing |
| Integration.PassIdempotent | custom_components/ezviz_cloud/__init__.py:292-408 | with the cloud unchanged and every query answered, a second pass only restamps the update time |
| Integration.Entry.constructor | custom_components/ezviz_cloud/__init__.py:222-229 | empty cache, no callback, no update time |
| Integration.Entry.RegisterCallback | custom_components/ezviz_cloud/switch.py:51 | the callback is registered; the cache is untouched |
| Integration.Entry.ProcessDevice | custom_components/ezviz_cloud/__init__.py:322-396 | one in-place iteration equals `Step` |
| Integration.Entry.RecordKnown | custom_components/ezviz_cloud/__init__.py:349-396 | a device already cached gets the new status and listing entry; the notes grow by `ChangeNotes` exactly when the status changed |
| Integration.Entry.UpdateDevices | custom_components/ezviz_cloud/__init__.py:292-408 | the in-place pass yields exactly `Pass` of the old cache |
| Integration.EffectiveInterval | custom_components/ezviz_cloud/__init__.py:232-239 | the option if set, else the data value, else 20 s; anything above 60 becomes 30, so the result is at most 60 |
| Integration.Plan | custom_components/ezviz_cloud/__init__.py:463-483 | a successful walk ends at the entry that succeeded |
| Integration.PlanMeaning | custom_components/ezviz_cloud/__init__.py:463-483 | see the list after this table |
| Integration.FindEntry | custom_components/ezviz_cloud/__init__.py:463-483 | the search loop computes exactly `Plan` |
| Integration.RefreshEntry | custom_components/ezviz_cloud/__init__.py:474-476 | the succeeding entry runs one `Pass`; other entries are unchanged |
| Integration.SetPrivacyMode | custom_components/ezviz_cloud/__init__.py:455-491 | the calls and the result are `Plan`'s, with enable true exactly for "on"; only a registered succeeding entry is refreshed, by one pass |
| Switch.Target | custom_components/ezviz_cloud/switch.py:169 | a command for enable waits for "on" exactly when enable is true |
| Switch.Push | custom_components/ezviz_cloud/switch.py:121-142 | see the list after this table |
| Switch.Pull | custom_components/ezviz_cloud/switch.py:144-159 | while a command runs, nothing changes; otherwise the shown state is the cache's (a missing serial reads off); pending and flags are untouched |
| Switch.Revert | custom_components/ezviz_cloud/switch.py:281-300 | shows the cache's state (missing reads off), clears pending, keeps the flags |
| Switch.Begin | custom_components/ezviz_cloud/switch.py:166-174 | shows the target at once, marks it pending, and sets the command's flag |
| Switch.Turn | custom_components/ezviz_cloud/switch.py:161-229 | see the list after this table |
| Switch.TurnWrites | custom_components/ezviz_cloud/switch.py:174 | the optimistic state is written first; a failure last writes the cache's state; a duplicate writes nothing |
| Switch.Remove | custom_components/ezviz_cloud/switch.py:312-317 | clears pending and both flags and keeps the shown state |
| Switch.PushSettles | custom_components/ezviz_cloud/switch.py:121-142 | a second identical push changes and writes nothing |
| Switch.RevertTwice | custom_components/ezviz_cloud/switch.py:182-190 | the failure path's double revert equals one revert |
| Switch.RevertAgreesWithPull | custom_components/ezviz_cloud/switch.py:153-154 | the "unknown" and "off" defaults make revert and pull read the cache alike |
| Switch.PendingOutlivesSuccess | custom_components/ezviz_cloud/switch.py:166-194 | after a success the target stays pending, and neither a confirming push nor a pull clears it |
| Switch.FailureShowsCache | custom_components/ezviz_cloud/switch.py:179-194 | a failed command leaves the cache's state, nothing pending and no flag, which a pull keeps |
| Switch.CommandBounds | custom_components/ezviz_cloud/switch.py:231-279 | between 1 and max_retries+1 set calls; every pause is 500 ms or (a+1)·1000 ms for an attempt a below max_retries |
| Switch.CommandSucceeds | custom_components/ezviz_cloud/switch.py:231-279 | True exactly when some attempt's set returns true and its read raises or matches, with no earlier non-API exception |
| Switch.AllRefused | custom_components/ezviz_cloud/switch.py:258-263 | when every set returns false: False, max_retries+1 calls, pauses 1 s, 2 s, … |
| Switch.PrivacySwitch.constructor | custom_components/ezviz_cloud/switch.py:61-81 | off, nothing pending, no command, nothing written |
| Switch.PrivacySwitch.UpdateFromPrivacyStatus | custom_components/ezviz_cloud/switch.py:121-142 | the switch moves by `Push` and writes its state exactly on a flip |
| Switch.PrivacySwitch.Update | custom_components/ezviz_cloud/switch.py:144-159 | the switch moves by `Pull` of the entry's cache and writes nothing |
| Switch.PrivacySwitch.RevertState | custom_components/ezviz_cloud/switch.py:281-300 | the switch moves by `Revert` of the entry's cache and writes it |
| Switch.PrivacySwitch.ExecutePrivacyCommand | custom_components/ezviz_cloud/switch.py:231-279 | the loop's result, pauses and call count are exactly `Command`'s |
| Switch.PrivacySwitch.RunAttempt | custom_components/ezviz_cloud/switch.py:234-276 | one attempt either ends the command with `Command`'s result or continues it after its pauses |
| Switch.PrivacySwitch.Toggle | custom_components/ezviz_cloud/switch.py:161-229 | the switch moves by `Turn` with the command's outcome and writes `TurnWrites`; it raises exactly when a started command fails |
| Switch.PrivacySwitch.TurnOn | custom_components/ezviz_cloud/switch.py:161-194 | as Toggle for enable = true, and the entry's cache is unchanged |
| Switch.PrivacySwitch.TurnOff | custom_components/ezviz_cloud/switch.py:196-229 | as Toggle for enable = false, and the entry's cache is unchanged |
| Switch.PrivacySwitch.WillRemove | custom_components/ezviz_cloud/switch.py:312-317 | the switch moves by `Remove` |
| Switch.FirstMatch | custom_components/ezviz_cloud/switch.py:44-48 | the first position holding the serial, or none when no switch has it |
| Switch.HandleDeviceUpdate | custom_components/ezviz_cloud/switch.py:42-48 | the first switch of the device moves by `Push` and appends to its published log exactly what that update writes; every other switch is unchanged |

Longer rows:

- **Api.Client.Request** guarantees the following:
  - the first attempt carries the token held on entry and the chosen
    timeout;
  - a value is returned only from a successful body, and it is that
    body's data;
  - an expired token on a data endpoint is followed at once by a token
    request, with no pause;
  - any other failure pauses for `BackoffMs` while retries remain, and
    raises after that one attempt once they are spent;
  - after that pause the same request is sent again, with the same
    parameters, token and timeout, and a success of that retry is the
    result;
  - all pauses are 500 or 1000 ms;
  - when every outcome is refused (a non-200 status or an API error code
    other than "10002"), the call takes `NestedRetryAttempts` attempts;
    when every outcome is broken (a timeout, a client error or a body
    that is not a JSON object), it takes `TimeoutAttempts`;
  - with no expired token ahead (or on the token endpoint), the result is
    a success exactly when one of the attempts made succeeded, and then
    that attempt is the last;
  - a token request leaves the stored token alone.
- **Api.Client.GetToken**:
  - a fresh cached token is returned with no request and no change;
  - otherwise the token request is made;
  - on success both fields are taken from the response;
  - a failed request leaves both unchanged; a response without
    `accessToken` leaves the token empty;
  - a first reply granting a token ends the call after that one exchange;
  - a missing expiry raises a non-API error.
- **Api.Client.GetDeviceCapture**:
  - an image is the text of the last exchange, which was a 200 reply
    whose content type mentions "image", requested with the token held at
    the end;
  - the attempts are bounded by two token requests plus two snapshot
    requests;
  - every pause is a 500 or 1000 ms backoff;
  - only the token check raises anything but an API error;
  - with a fresh token, an image as the first reply is the result;
  - with a fresh token, the guarantees of CaptureLoop below about the
    first request, the retry after a failed request, the refusal of a
    non-image 200 reply and the refresh on "10002" hold from the call's
    entry; `CaptureRan` gathers them.
- **Api.Client.CaptureLoop**:
  - the snapshot loop after the token check, with the guarantees above
    that do not depend on the token check;
  - the first request carries the token held on entry, and an image as
    its reply is the result;
  - a failed first exchange (not a 200 reply, a timeout or a client
    error) is followed by the 500 ms pause and the same request again;
    an image then is the result, and a second failure raises after two
    attempts;
  - a 200 first reply that is not an image raises after that one
    attempt, unless it mentions "10002";
  - a "10002" reply is followed at once by a forced token request; when
    that grants a token, the next request carries the new token and an
    image in reply is the result.
- **Integration.Step**:
  - entries that are not selected, and aborted passes, change nothing;
  - a processed serial ends with the reported status and the latest
    listing entry;
  - no other cache entry changes;
  - an unseen serial is added silently;
  - notes are appended exactly when a known serial's status changed, and
    they are `ChangeNotes`;
  - a non-API exception aborts, leaving the cache and notes as they were.
- **Integration.Pass**:
  - nothing is configured: no change and no query;
  - the listing raised or is not a list: no change;
  - no cache entry is removed, and only configured serials are added;
  - notes are only appended;
  - only configured serials are queried;
  - the update time is either kept or set to now.
- **Integration.PlanMeaning**:
  - only entries caching the serial are called, in order;
  - the walk stops at the first call that returns true;
  - when none does, every entry caching the serial was called.
- **Switch.Push**:
  - the shown state becomes `status == on`;
  - a matching shown state changes nothing, even with something pending;
  - a flip clears pending and both flags exactly when pending equals the
    new status.
- **Switch.Turn**:
  - a duplicate command changes nothing;
  - otherwise the command's flag ends cleared and the other flag is kept;
  - success shows the target and leaves it pending;
  - failure shows the cache's state with nothing pending.

## Findings

| source | as written | input that shows it | evidently intended | confidence | as-written member | corrected member |
|---|---|---|---|---|---|---|
| custom_components/ezviz_cloud/api.py:159-174 | `ensure_token_valid` holds `_token_lock` (an `asyncio.Lock`, not reentrant) and, when a refresh is due, calls `get_token`, which tries to take the same lock first | a client used before `get_token`, or one whose token a response without `accessToken` cleared (api.py:188-192); in the integration, whose setup fetches a token first (__init__.py:218), the first call at most 30 minutes before expiry: every `get_devices`, `get_privacy_status`, `set_privacy` and `get_device_capture` then waits forever | the refresh runs under the lock already held, taking it once | not executed | Api.EnsureTokenValidAsWritten, Api.EnsureTokenValidAsWrittenHangs | Api.Client.EnsureTokenValid |

`Api.Client.GetToken` requires the lock to be free, so a call to it while
the lock is held is rejected by the verifier. The corrected
`EnsureTokenValid` calls `RefreshLocked`, which is `get_token`'s body under
the lock already held. All client calls in the model go through it.

## Left out

- Network I/O: the aiohttp session and its creation, closing, headers and
  `__del__`. Every exchange is one scripted `Outcome`.
- JSON decoding: a reply carries its decoded body, or none when decoding
  would raise (text that is not JSON, or a content type that is not a JSON
  one). Floating-point numbers are not modelled; every JSON number
  is an integer.
- Time: `time.time()` is an integer clock in milliseconds that only the
  client's pauses advance. Seconds-valued sleeps are logged in
  milliseconds.
- Concurrency: `_request_semaphore`, `update_lock`, `_command_lock` and the
  interleaving of coroutines. `_token_lock` is kept as a boolean, for the
  finding above.
- `get_device_info`, `get_live_stream_url`, `get_rtsp_stream_url` and
  `close`. No integration decision depends on them.
- Api.Client.GetDeviceCapture: the image bytes are modelled as the
  response text.
- Logging, icons, `available`, `device_info`, `extra_state_attributes`
  and `_last_command_time`: presentation only. `async_write_ha_state` is
  recorded in the ghost log `published`.
- The pass's counters `device_count` and `status_changes`: they only feed
  a log line.
- `send_webhook_notification` is network I/O. The pass records the
  webhook request as a `Webhook` note. The sending, its message format and
  its errors are not modelled. Neither is a raising callback, which is
  caught and changes nothing.
- In the pass, the switch and the service, the client calls are scripted
  results rather than calls into `Api.Client`:
  - the device listing is a `Fallible<Json>`;
  - the privacy query is a function of the serial;
  - `set_privacy` in the service is a function of the entry;
  - the switch's set and read-back calls are functions of the attempt.

  The client's own behaviour for those calls is proved in `Api`.
- Integration.SetPrivacyMode: the hass.data entries are given as a
  sequence of distinct `Entry` objects, and "the config entry can still be
  looked up" as a predicate.
- Switch.PrivacySwitch.TurnOn and Switch.PrivacySwitch.TurnOff: the
  `HomeAssistantError` is reported as a boolean. An exception raised by the
  command itself (task cancellation) is not modelled:
  `_execute_privacy_command` catches everything else.
- Switch.HandleDeviceUpdate: the switches are required to be distinct
  objects, as the platform creates a new one per configured serial.
- Translations, file writes, the event-bus listener, platform forwarding,
  `async_setup_entry` and `async_unload_entry` wiring: setup plumbing.
  Only the interval selection is modelled.
- config_flow.py, card.py, camera.py and binary_sensor.py: not part of
  this model. They are UI and entity wrappers over the parts modelled
  here.
- Api.TokenField, Api.ExpiryField: a token that is not a string and an
  expiry that is not a number are read as absent. Python would store such
  values as they are; a boolean `expireTime` would even be subtracted as
  the number 0 or 1 by the freshness test.
- Api.Client.RetryNested, Api.Client.RetryAfterRefresh: a resend made
  after the stored token was cleared carries the outer frame's token. In
  Python every nested `_request` call writes into the one `params` dict,
  so such a resend carries the token the innermost call attached; the
  model passes the dict by value. The two agree whenever a token is held
  at the resend, since `_request` attaches it again.
