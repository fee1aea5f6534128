/** The poll-and-reconcile pass, the polling interval and the
    `set_privacy_mode` service (custom_components/ezviz_cloud/__init__.py).

    Each config entry keeps a cache from device serial to its last known
    privacy status and device record. A pass lists the account's devices,
    asks the cloud for the privacy status of every configured one, and
    updates the cache; a status that changes for a device already in the
    cache is announced to the switch platform's callback, on the event bus
    and to the webhook. The client calls the pass makes are scripted: the
    listing is a value and the status query a function of the serial. */
module Integration {
  import opened Const
  import opened Common

  /** One cache entry: `{"privacy_status": ..., "info": device}`. */
  datatype DeviceRecord = DeviceRecord(privacy: Privacy, info: Json)

  /** The announcements of a status change, in the order they are made:
      the switch callback, the `ezviz_cloud_privacy_changed` event and the
      webhook request. `name` is `device.get("deviceName", device_sn)`. */
  datatype Note =
    | Callback(serial: string, status: Privacy)
    | Event(serial: string, name: Json, before: Privacy, after: Privacy)
    | Webhook(url: string, serial: string, name: Json, before: Privacy, after: Privacy)

  /** What a pass depends on besides the cache: the configured serials,
      whether the switch platform has registered its callback, and the
      webhook URL of the entry. */
  datatype Setup = Setup(configured: seq<string>, hasCallback: bool, webhookUrl: Option<string>)

  /** The cache and its bookkeeping, as one value. */
  datatype Snapshot = Snapshot(devices: map<string, DeviceRecord>, notes: seq<Note>, lastUpdate: Option<int>)

  /** The state threaded through the device loop: the cache, the
      announcements so far, the serials whose status was queried, and
      whether an exception has ended the pass. */
  datatype PassState = PassState(devices: map<string, DeviceRecord>, notes: seq<Note>, queried: seq<string>, aborted: bool)

  /** The result of a whole pass. */
  datatype PassOutcome = PassOutcome(snapshot: Snapshot, queried: seq<string>)

  // ---------------------------------------------------------------------------
  // One device of the listing
  // ---------------------------------------------------------------------------

  /** `device.get("deviceSerial")` of a dict entry, when it is a non-empty
      string; a listing entry that is not a dict, or whose serial is missing,
      empty or not a string, can never match a configured serial. */
  function SerialOf(item: Json): (sn: Option<string>)
    ensures sn.Some? <==> item.JObj? && "deviceSerial" in item.fields && item.fields["deviceSerial"].JStr? &&
                          item.fields["deviceSerial"].s != ""
    ensures sn.Some? ==> item.fields["deviceSerial"] == JStr(sn.value) && sn.value != ""
  {
    match item
    case JObj(f) =>
      if "deviceSerial" in f && f["deviceSerial"].JStr? && f["deviceSerial"].s != "" then Some(f["deviceSerial"].s)
      else None
    case _ => None
  }

  /** The listing entry is processed: its serial is set and configured. */
  predicate Selected(item: Json, configured: seq<string>) {
    SerialOf(item).Some? && SerialOf(item).value in configured
  }

  /** The status a pass records (__init__.py:333-339): true is "on", false
      and an API error are "off"; any other exception propagates. */
  function StatusOf(reply: Fallible<bool>): (status: Fallible<Privacy>)
    ensures status.Fail? <==> reply == Fail(Unexpected)
    ensures status == Ok(On) <==> reply == Ok(true)
    ensures status.Fail? ==> status.error == Unexpected
  {
    match reply
    case Ok(enabled) => Ok(if enabled then On else Off)
    case Fail(ApiError) => Ok(Off)
    case Fail(Unexpected) => Fail(Unexpected)
  }

  /** `device.get("deviceName", device_sn)`. */
  function DeviceName(item: Json, sn: string): (name: Json)
    ensures item.JObj? && "deviceName" in item.fields ==> name == item.fields["deviceName"]
    ensures !(item.JObj? && "deviceName" in item.fields) ==> name == JStr(sn)
  {
    if item.JObj? && "deviceName" in item.fields then item.fields["deviceName"] else JStr(sn)
  }

  /** The announcements of one status change (__init__.py:351-393): the
      callback when one is registered, always the event, and the webhook
      when a URL is set. A callback or webhook that raises is caught and
      changes nothing, so only the request is recorded. */
  function ChangeNotes(setup: Setup, sn: string, name: Json, before: Privacy, after: Privacy): (notes: seq<Note>)
    ensures Event(sn, name, before, after) in notes
    ensures Callback(sn, after) in notes <==> setup.hasCallback
    ensures Truthy(setup.webhookUrl) ==> notes[|notes| - 1] == Webhook(setup.webhookUrl.value, sn, name, before, after)
    ensures !Truthy(setup.webhookUrl) ==> forall n :: n in notes ==> !n.Webhook?
    ensures |notes| == 1 + (if setup.hasCallback then 1 else 0) + (if Truthy(setup.webhookUrl) then 1 else 0)
    ensures setup.hasCallback ==> notes[0] == Callback(sn, after)
  {
    (if setup.hasCallback then [Callback(sn, after)] else []) +
    [Event(sn, name, before, after)] +
    (if Truthy(setup.webhookUrl) then [Webhook(setup.webhookUrl.value, sn, name, before, after)] else [])
  }

  /** One iteration of the device loop (__init__.py:322-396). */
  function Step(ps: PassState, item: Json, setup: Setup, status: string -> Fallible<bool>): (r: PassState)
    ensures ps.aborted || !Selected(item, setup.configured) ==> r == ps
    ensures r.devices.Keys == ps.devices.Keys + (if r.queried == ps.queried || r.aborted then {} else {SerialOf(item).value})
    ensures ps.notes <= r.notes && ps.queried <= r.queried
    ensures !ps.aborted && Selected(item, setup.configured) ==>
              r.queried == ps.queried + [SerialOf(item).value] &&
              (r.aborted <==> StatusOf(status(SerialOf(item).value)).Fail?)
    // a processed device holds the reported status and the latest listing entry
    ensures !ps.aborted && Selected(item, setup.configured) && !r.aborted ==>
              r.devices[SerialOf(item).value] ==
                DeviceRecord(StatusOf(status(SerialOf(item).value)).value, item)
    // nothing else in the cache changes
    ensures forall sn :: sn in ps.devices && Some(sn) != SerialOf(item) ==> r.devices[sn] == ps.devices[sn]
    ensures r.aborted ==> r.devices == ps.devices && r.notes == ps.notes
    // a new serial is added silently; a known one is announced iff its status changed
    ensures r.notes != ps.notes <==>
              !ps.aborted && Selected(item, setup.configured) && !r.aborted &&
              SerialOf(item).value in ps.devices &&
              ps.devices[SerialOf(item).value].privacy != StatusOf(status(SerialOf(item).value)).value
    ensures r.notes != ps.notes ==>
              r.notes == ps.notes + ChangeNotes(setup, SerialOf(item).value, DeviceName(item, SerialOf(item).value),
                                                ps.devices[SerialOf(item).value].privacy,
                                                StatusOf(status(SerialOf(item).value)).value)
  {
    if ps.aborted || !Selected(item, setup.configured) then ps
    else
      var sn := SerialOf(item).value;
      var queried := ps.queried + [sn];
      match StatusOf(status(sn))
      case Fail(_) => ps.(queried := queried, aborted := true)
      case Ok(p) =>
        if sn !in ps.devices then
          ps.(devices := ps.devices[sn := DeviceRecord(p, item)], queried := queried)
        else
          var previous := ps.devices[sn].privacy;
          if previous == p then
            ps.(devices := ps.devices[sn := DeviceRecord(previous, item)], queried := queried)
          else
            ps.(devices := ps.devices[sn := DeviceRecord(p, item)],
                notes := ps.notes + ChangeNotes(setup, sn, DeviceName(item, sn), previous, p),
                queried := queried)
  }

  /** The serials of the processed entries of a listing. */
  function Serials(items: seq<Json>, configured: seq<string>): (s: set<string>)
    ensures forall sn :: sn in s ==> sn in configured
  {
    if items == [] then {}
    else (if Selected(items[0], configured) then {SerialOf(items[0]).value} else {}) + Serials(items[1..], configured)
  }

  /** The device loop from a given state over the rest of the listing. */
  function Run(ps: PassState, items: seq<Json>, setup: Setup, status: string -> Fallible<bool>): (r: PassState)
    ensures ps.aborted ==> r == ps
    ensures ps.devices.Keys <= r.devices.Keys <= ps.devices.Keys + Serials(items, setup.configured)
    ensures ps.notes <= r.notes && ps.queried <= r.queried
    ensures forall k :: |ps.queried| <= k < |r.queried| ==> r.queried[k] in Serials(items, setup.configured)
    decreases |items|
  {
    if items == [] then ps else Run(Step(ps, items[0], setup, status), items[1..], setup, status)
  }

  /** The whole pass (__init__.py:292-408). With no configured device it
      does nothing; a device listing that raises or is not a list ends it
      at once; an exception while processing the devices ends it keeping
      the updates already made, without stamping the update time. */
  function Pass(s: Snapshot, setup: Setup, listing: Fallible<Json>, status: string -> Fallible<bool>, nowMs: int): (r: PassOutcome)
    ensures setup.configured == [] ==> r == PassOutcome(s, [])
    ensures !(listing.Ok? && listing.value.JArr?) ==> r == PassOutcome(s, [])
    // no cache entry is ever removed, and only configured serials are added
    ensures s.devices.Keys <= r.snapshot.devices.Keys
    ensures forall sn :: sn in r.snapshot.devices && sn !in s.devices ==> sn in setup.configured
    // announcements are only ever appended
    ensures s.notes <= r.snapshot.notes
    // only configured serials are queried
    ensures forall k :: 0 <= k < |r.queried| ==> r.queried[k] in setup.configured
    ensures r.snapshot.lastUpdate == s.lastUpdate || r.snapshot.lastUpdate == Some(nowMs)
  {
    if setup.configured == [] then PassOutcome(s, [])
    else match listing
      case Ok(JArr(items)) =>
        var ps := Run(PassState(s.devices, s.notes, [], false), items, setup, status);
        PassOutcome(Snapshot(ps.devices, ps.notes, if ps.aborted then s.lastUpdate else Some(nowMs)), ps.queried)
      case _ => PassOutcome(s, [])
  }

  // ---------------------------------------------------------------------------
  // Properties of the device loop
  // ---------------------------------------------------------------------------

  /** A serial the listing does not select keeps its cache entry, or stays
      absent. */
  lemma {:induction false} RunFrame(ps: PassState, items: seq<Json>, setup: Setup, status: string -> Fallible<bool>, sn: string)
    requires sn !in Serials(items, setup.configured)
    ensures sn in ps.devices ==> sn in Run(ps, items, setup, status).devices &&
                                 Run(ps, items, setup, status).devices[sn] == ps.devices[sn]
    ensures sn !in ps.devices ==> sn !in Run(ps, items, setup, status).devices
    decreases |items|
  {
    if items != [] {
      var next := Step(ps, items[0], setup, status);
      assert Serials(items, setup.configured) ==
        (if Selected(items[0], setup.configured) then {SerialOf(items[0]).value} else {}) + Serials(items[1..], setup.configured);
      RunFrame(next, items[1..], setup, status, sn);
    }
  }

  /** Every selected serial has a status the pass can record. */
  ghost predicate AllAnswered(items: seq<Json>, setup: Setup, status: string -> Fallible<bool>) {
    forall sn :: sn in Serials(items, setup.configured) ==> StatusOf(status(sn)).Ok?
  }

  /** A pass runs to the end exactly when every selected serial's query
      returns or raises an API error. */
  lemma {:induction false} RunCompletes(ps: PassState, items: seq<Json>, setup: Setup, status: string -> Fallible<bool>)
    requires !ps.aborted
    ensures !Run(ps, items, setup, status).aborted <==> AllAnswered(items, setup, status)
    decreases |items|
  {
    if items != [] {
      var next := Step(ps, items[0], setup, status);
      assert Serials(items, setup.configured) ==
        (if Selected(items[0], setup.configured) then {SerialOf(items[0]).value} else {}) + Serials(items[1..], setup.configured);
      if !next.aborted {
        RunCompletes(next, items[1..], setup, status);
      }
    }
  }

  /** The cache write of one listing entry whose status is known. */
  function WriteOf(item: Json, setup: Setup, status: string -> Fallible<bool>): (w: map<string, DeviceRecord>)
    requires Selected(item, setup.configured) ==> StatusOf(status(SerialOf(item).value)).Ok?
    ensures w.Keys == if Selected(item, setup.configured) then {SerialOf(item).value} else {}
    ensures forall sn :: sn in w ==> w[sn] == DeviceRecord(StatusOf(status(sn)).value, item)
  {
    if Selected(item, setup.configured)
    then map[SerialOf(item).value := DeviceRecord(StatusOf(status(SerialOf(item).value)).value, item)]
    else map[]
  }

  /** The cache writes of a listing, later entries overriding earlier ones:
      each selected serial ends with its reported status and its last
      listing entry. */
  function Writes(items: seq<Json>, setup: Setup, status: string -> Fallible<bool>): (w: map<string, DeviceRecord>)
    requires AllAnswered(items, setup, status)
    ensures w.Keys == Serials(items, setup.configured)
    ensures forall sn :: sn in w ==> w[sn].privacy == StatusOf(status(sn)).value
    decreases |items|
  {
    if items == [] then map[]
    else
      assert Serials(items, setup.configured) ==
        (if Selected(items[0], setup.configured) then {SerialOf(items[0]).value} else {}) + Serials(items[1..], setup.configured);
      WriteOf(items[0], setup, status) + Writes(items[1..], setup, status)
  }

  /** One step of a running loop applies the entry's write. */
  lemma StepWrites(ps: PassState, item: Json, setup: Setup, status: string -> Fallible<bool>)
    requires !ps.aborted
    requires Selected(item, setup.configured) ==> StatusOf(status(SerialOf(item).value)).Ok?
    ensures !Step(ps, item, setup, status).aborted
    ensures Step(ps, item, setup, status).devices == ps.devices + WriteOf(item, setup, status)
  {
    var r := Step(ps, item, setup, status);
    var w := WriteOf(item, setup, status);
    assert r.devices.Keys == (ps.devices + w).Keys;
    forall sn | sn in r.devices
      ensures r.devices[sn] == (ps.devices + w)[sn]
    {
    }
  }

  /** Map override is associative. */
  lemma OverrideAssoc<K, V>(a: map<K, V>, b: map<K, V>, c: map<K, V>)
    ensures (a + b) + c == a + (b + c)
  {
  }

  /** A completed device loop leaves the cache as it was, overridden by the
      listing's writes. */
  lemma {:induction false} RunWrites(ps: PassState, items: seq<Json>, setup: Setup, status: string -> Fallible<bool>)
    requires !ps.aborted && AllAnswered(items, setup, status)
    ensures Run(ps, items, setup, status).devices == ps.devices + Writes(items, setup, status)
    decreases |items|
  {
    if items == [] {
      assert ps.devices + map[] == ps.devices;
    } else {
      assert Serials(items, setup.configured) ==
        (if Selected(items[0], setup.configured) then {SerialOf(items[0]).value} else {}) + Serials(items[1..], setup.configured);
      StepWrites(ps, items[0], setup, status);
      var next := Step(ps, items[0], setup, status);
      RunWrites(next, items[1..], setup, status);
      OverrideAssoc(ps.devices, WriteOf(items[0], setup, status), Writes(items[1..], setup, status));
    }
  }

  /** The cache already holds the reported status of every selected serial. */
  ghost predicate Settled(devices: map<string, DeviceRecord>, items: seq<Json>, setup: Setup, status: string -> Fallible<bool>) {
    forall sn :: sn in Serials(items, setup.configured) ==>
      StatusOf(status(sn)).Ok? && sn in devices && devices[sn].privacy == StatusOf(status(sn)).value
  }

  /** When the cache already agrees with every reported status, the loop
      announces nothing. */
  lemma {:induction false} RunQuiet(ps: PassState, items: seq<Json>, setup: Setup, status: string -> Fallible<bool>)
    requires !ps.aborted && Settled(ps.devices, items, setup, status)
    ensures Run(ps, items, setup, status).notes == ps.notes
    ensures !Run(ps, items, setup, status).aborted
    decreases |items|
  {
    if items != [] {
      var next := Step(ps, items[0], setup, status);
      assert Serials(items, setup.configured) ==
        (if Selected(items[0], setup.configured) then {SerialOf(items[0]).value} else {}) + Serials(items[1..], setup.configured);
      assert next.notes == ps.notes;
      assert Settled(next.devices, items[1..], setup, status);
      RunQuiet(next, items[1..], setup, status);
    }
  }

  /** Polling twice with nothing changed in the cloud, every query
      answered: the second pass leaves the cache as the first left it,
      announces nothing, and only stamps the new time. */
  lemma PassIdempotent(s: Snapshot, setup: Setup, items: seq<Json>, status: string -> Fallible<bool>, now1: int, now2: int)
    requires setup.configured != [] && AllAnswered(items, setup, status)
    ensures Pass(s, setup, Ok(JArr(items)), status, now1).snapshot.lastUpdate == Some(now1)
    ensures Pass(Pass(s, setup, Ok(JArr(items)), status, now1).snapshot, setup, Ok(JArr(items)), status, now2).snapshot ==
            Pass(s, setup, Ok(JArr(items)), status, now1).snapshot.(lastUpdate := Some(now2))
  {
    var ps := PassState(s.devices, s.notes, [], false);
    var run1 := Run(ps, items, setup, status);
    RunCompletes(ps, items, setup, status);
    RunWrites(ps, items, setup, status);
    var w := Writes(items, setup, status);
    var ps2 := PassState(run1.devices, run1.notes, [], false);
    assert Settled(run1.devices, items, setup, status);
    RunQuiet(ps2, items, setup, status);
    RunWrites(ps2, items, setup, status);
    assert (s.devices + w) + w == s.devices + w;
  }

  // ---------------------------------------------------------------------------
  // The entry
  // ---------------------------------------------------------------------------

  /** `hass.data[DOMAIN][entry_id]` together with the parts of the config
      entry a pass reads. */
  class Entry {
    /** `entry.data[CONF_DEVICES]`. */
    const configured: seq<string>
    /** `webhook_url`. */
    const webhookUrl: Option<string>
    /** `device_callbacks` is set. */
    var hasCallback: bool
    /** `devices`: the shared cache. */
    var devices: map<string, DeviceRecord>
    /** Announcements made so far. */
    var notes: seq<Note>
    /** `last_update`, in milliseconds. */
    var lastUpdate: Option<int>

    /** The entry as stored by `async_setup_entry` (__init__.py:222-229). */
    constructor (configured: seq<string>, webhookUrl: Option<string>)
      ensures this.configured == configured && this.webhookUrl == webhookUrl
      ensures !hasCallback && devices == map[] && notes == [] && lastUpdate == None
    {
      this.configured := configured;
      this.webhookUrl := webhookUrl;
      hasCallback := false;
      devices := map[];
      notes := [];
      lastUpdate := None;
    }

    function Settings(): Setup
      reads this
    {
      Setup(configured, hasCallback, webhookUrl)
    }

    function Current(): Snapshot
      reads this
    {
      Snapshot(devices, notes, lastUpdate)
    }

    /** The switch platform stores its callback (switch.py:51). */
    method RegisterCallback()
      modifies this
      ensures hasCallback
      ensures Current() == old(Current())
    {
      hasCallback := true;
    }

    /** One iteration of the device loop (__init__.py:322-396). `aborted`
        reports an exception other than an API error from the status query. */
    method ProcessDevice(item: Json, status: string -> Fallible<bool>, queriedBefore: seq<string>)
      returns (queried: seq<string>, aborted: bool)
      modifies this
      ensures hasCallback == old(hasCallback) && lastUpdate == old(lastUpdate)
      ensures PassState(devices, notes, queried, aborted) ==
              Step(PassState(old(devices), old(notes), queriedBefore, false), item, Settings(), status)
    {
      queried := queriedBefore;
      aborted := false;
      var sn := SerialOf(item);
      if sn.Some? && sn.value in configured {
        queried := queried + [sn.value];
        var st := StatusOf(status(sn.value));
        if st.Fail? {
          aborted := true;
          return;
        }
        var p := st.value;
        if sn.value !in devices {
          devices := devices[sn.value := DeviceRecord(p, item)];
        } else {
          RecordKnown(sn.value, p, item);
        }
      }
    }

    /** A device already in the cache (__init__.py:349-396): a changed
        status is stored and announced, and the listing entry replaces the
        cached one. */
    method RecordKnown(sn: string, p: Privacy, item: Json)
      requires sn in devices
      modifies this
      ensures hasCallback == old(hasCallback) && lastUpdate == old(lastUpdate)
      ensures devices == old(devices)[sn := DeviceRecord(p, item)]
      ensures var previous := old(devices[sn].privacy);
        notes == old(notes) + (if previous == p then [] else ChangeNotes(Settings(), sn, DeviceName(item, sn), previous, p))
    {
      var previous := devices[sn].privacy;
      if previous != p {
        devices := devices[sn := devices[sn].(privacy := p)];
        if hasCallback {
          notes := notes + [Callback(sn, p)];
        }
        notes := notes + [Event(sn, DeviceName(item, sn), previous, p)];
        if Truthy(webhookUrl) {
          notes := notes + [Webhook(webhookUrl.value, sn, DeviceName(item, sn), previous, p)];
        }
      }
      devices := devices[sn := devices[sn].(info := item)];
    }

    /** `update_devices` (__init__.py:292-408), given the result of
        `get_devices` and the replies of `get_privacy_status`. Returns the
        serials queried, in order. */
    method UpdateDevices(listing: Fallible<Json>, status: string -> Fallible<bool>, nowMs: int) returns (queried: seq<string>)
      modifies this
      ensures hasCallback == old(hasCallback)
      ensures PassOutcome(Current(), queried) == Pass(old(Current()), Settings(), listing, status, nowMs)
    {
      queried := [];
      if configured == [] {
        return;
      }
      if !(listing.Ok? && listing.value.JArr?) {
        return;
      }
      var items := listing.value.items;
      ghost var setup := Settings();
      ghost var start := PassState(devices, notes, [], false);
      var i := 0;
      while i < |items|
        invariant 0 <= i <= |items| && setup == Settings()
        invariant lastUpdate == old(lastUpdate)
        invariant Run(PassState(devices, notes, queried, false), items[i..], setup, status) == Run(start, items, setup, status)
      {
        ghost var before := PassState(devices, notes, queried, false);
        assert items[i..][1..] == items[i + 1..];
        var aborted;
        queried, aborted := ProcessDevice(items[i], status, queried);
        if aborted {
          // the exception leaves the loop and is caught at __init__.py:407
          return;
        }
        i := i + 1;
      }
      lastUpdate := Some(nowMs);
    }
  }

  // ---------------------------------------------------------------------------
  // Polling interval
  // ---------------------------------------------------------------------------

  /** The polling interval of `async_setup_entry` (__init__.py:232-239): the
      options value, else the data value, else 20 s; anything above 60 s
      becomes 30 s. */
  function EffectiveInterval(options: Option<int>, data: Option<int>): (seconds: int)
    ensures seconds <= 60
    ensures options.Some? ==> (seconds == options.value || (options.value > 60 && seconds == 30))
    ensures options.None? && data.Some? ==> (seconds == data.value || (data.value > 60 && seconds == 30))
    ensures options.None? && data.None? ==> seconds == DefaultUpdateInterval
  {
    var chosen := match options
      case Some(o) => o
      case None => match data
        case Some(d) => d
        case None => DefaultUpdateInterval;
    if chosen > 60 then 30 else chosen
  }

  // ---------------------------------------------------------------------------
  // The set_privacy_mode service
  // ---------------------------------------------------------------------------

  /** The service's walk over the entries from index `i`: every entry
      whose cache holds the serial gets a `set_privacy` call until one
      returns true. `setPrivacy(k, enable)` is that call's result on entry k.
      Returns the entries called and the one that succeeded. */
  function Plan(caches: seq<set<string>>, sn: Option<string>, setPrivacy: (nat, bool) -> Fallible<bool>, enable: bool, i: nat)
    : (p: (seq<nat>, Option<nat>))
    ensures p.1.Some? ==> p.0 != [] && p.1.value == p.0[|p.0| - 1]
    decreases |caches| - i
  {
    if i >= |caches| then ([], None)
    else if sn.Some? && sn.value in caches[i] then
      if setPrivacy(i, enable) == Ok(true) then ([i], Some(i))
      else var rest := Plan(caches, sn, setPrivacy, enable, i + 1); ([i] + rest.0, rest.1)
    else Plan(caches, sn, setPrivacy, enable, i + 1)
  }

  /** What the walk means: only entries caching the serial are called, in
      order; the walk stops at the first call that returns true, and when
      none does every entry caching the serial was called. */
  lemma {:induction false} PlanMeaning(caches: seq<set<string>>, sn: Option<string>, setPrivacy: (nat, bool) -> Fallible<bool>, enable: bool, i: nat)
    ensures var p := Plan(caches, sn, setPrivacy, enable, i);
      && (forall k :: k in p.0 ==> i <= k < |caches| && sn.Some? && sn.value in caches[k])
      && (p.1.Some? ==> setPrivacy(p.1.value, enable) == Ok(true))
      && (p.1.Some? ==> forall k :: k in p.0 && k != p.1.value ==> k < p.1.value && setPrivacy(k, enable) != Ok(true))
      && (p.1.Some? ==> forall k :: i <= k < p.1.value && k < |caches| && sn.Some? && sn.value in caches[k] ==> k in p.0)
      && (p.1.None? ==> forall k :: i <= k < |caches| && sn.Some? && sn.value in caches[k] ==>
                          k in p.0 && setPrivacy(k, enable) != Ok(true))
    decreases |caches| - i
  {
    if i < |caches| {
      PlanMeaning(caches, sn, setPrivacy, enable, i + 1);
      var rest := Plan(caches, sn, setPrivacy, enable, i + 1);
      if sn.Some? && sn.value in caches[i] && setPrivacy(i, enable) != Ok(true) {
        assert Plan(caches, sn, setPrivacy, enable, i) == ([i] + rest.0, rest.1);
        assert forall k :: k in [i] + rest.0 <==> k == i || k in rest.0;
        if rest.1.Some? {
          assert rest.1.value in rest.0;
        }
      }
    }
  }

  /** The search loop of __init__.py:463-483, on the entries' cached serials. */
  method FindEntry(caches: seq<set<string>>, sn: Option<string>, setPrivacy: (nat, bool) -> Fallible<bool>, enable: bool)
    returns (calls: seq<nat>, found: Option<nat>)
    ensures (calls, found) == Plan(caches, sn, setPrivacy, enable, 0)
  {
    ghost var walk := Plan(caches, sn, setPrivacy, enable, 0);
    calls := [];
    found := None;
    assert walk.0 == calls + walk.0;
    var i := 0;
    while i < |caches|
      invariant 0 <= i <= |caches|
      invariant walk.0 == calls + Plan(caches, sn, setPrivacy, enable, i).0
      invariant walk.1 == Plan(caches, sn, setPrivacy, enable, i).1
    {
      ghost var rest := Plan(caches, sn, setPrivacy, enable, i + 1);
      if sn.Some? && sn.value in caches[i] {
        var reply := setPrivacy(i, enable);
        if reply == Ok(true) {
          // the `break` of __init__.py:479
          calls, found := calls + [i], Some(i);
          return;
        }
        assert (calls + [i]) + rest.0 == calls + ([i] + rest.0);
        calls := calls + [i];
      }
      i := i + 1;
    }
    assert calls + [] == calls;
  }

  /** The cached serials of each entry. */
  function Caches(entries: seq<Entry>): (c: seq<set<string>>)
    reads set e | e in entries
    ensures |c| == |entries|
    ensures forall k :: 0 <= k < |entries| ==> c[k] == entries[k].devices.Keys
  {
    if entries == [] then [] else [entries[0].devices.Keys] + Caches(entries[1..])
  }

  /** The refresh after a successful command (__init__.py:474-476): one
      pass on entry k, leaving the other entries alone. */
  method RefreshEntry(entries: seq<Entry>, k: nat, listing: Fallible<Json>, status: string -> Fallible<bool>, nowMs: int)
    requires k < |entries|
    requires forall i, j :: 0 <= i < j < |entries| ==> entries[i] != entries[j]
    modifies entries[k]
    ensures forall j :: 0 <= j < |entries| && j != k ==> entries[j].Current() == old(entries[j].Current())
    ensures entries[k].Current() == Pass(old(entries[k].Current()), old(entries[k].Settings()), listing, status, nowMs).snapshot
  {
    var _ := entries[k].UpdateDevices(listing, status, nowMs);
  }

  /** `async_set_privacy_mode` (__init__.py:455-491). `setPrivacy(k, enable)`
      is the result of `set_privacy` through entry k's client, `registered(k)`
      whether entry k's config entry can still be looked up, and `listing`
      and `status` script the refresh pass run on the entry that succeeds.
      The entries are the distinct values of `hass.data[DOMAIN]`. */
  method SetPrivacyMode(entries: seq<Entry>, sn: Option<string>, mode: Option<string>,
                        setPrivacy: (nat, bool) -> Fallible<bool>, registered: nat -> bool,
                        listing: Fallible<Json>, status: string -> Fallible<bool>, nowMs: int)
    returns (success: bool, calls: seq<nat>)
    requires forall j, k :: 0 <= j < k < |entries| ==> entries[j] != entries[k]
    modifies set e | e in entries
    ensures var plan := Plan(old(Caches(entries)), sn, setPrivacy, mode == Some("on"), 0);
            calls == plan.0 && (success <==> plan.1.Some?) && (success ==> plan.1.value == calls[|calls| - 1])
    ensures forall j :: 0 <= j < |calls| ==> calls[j] < |entries|
    // only the entry that succeeded is refreshed, by one pass
    ensures forall k :: 0 <= k < |entries| && !(success && k == calls[|calls| - 1] && registered(k)) ==>
              entries[k].Current() == old(entries[k].Current())
    ensures success && registered(calls[|calls| - 1]) ==>
              entries[calls[|calls| - 1]].Current() ==
              Pass(old(entries[calls[|calls| - 1]].Current()), old(entries[calls[|calls| - 1]].Settings()), listing, status, nowMs).snapshot
  {
    PlanMeaning(Caches(entries), sn, setPrivacy, mode == Some("on"), 0);
    var found;
    calls, found := FindEntry(Caches(entries), sn, setPrivacy, mode == Some("on"));
    assert forall j :: 0 <= j < |calls| ==> calls[j] in calls;
    success := found.Some?;
    if success && registered(found.value) {
      RefreshEntry(entries, found.value, listing, status, nowMs);
    }
  }
}
