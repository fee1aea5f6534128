/** The privacy switch of a camera (custom_components/ezviz_cloud/switch.py).

    The switch shows `isOn` and remembers the state a command is waiting
    for (`pending`) and whether a turn-on or turn-off is in progress. It is
    moved by the cache of its config entry (a push from the poll pass, a
    pull on update) and by the user's commands, which show the target
    state at once, send it with retries, and fall back to the cache when
    the command fails. The switch reads the cache and never writes it.

    The calls a command makes through the client are scripted:
    `sent(a)` is the result of `set_privacy` in attempt `a` and
    `readBack(a)` that of the verifying `get_privacy_status`. Every
    `async_write_ha_state` is recorded in the ghost log `published` as
    the state it shows. */
module Switch {
  import opened Const
  import opened Common
  import Integration

  /** The default `max_retries` of `_execute_privacy_command`. */
  const MaxRetries: nat := 2

  /** The pause before the verifying read, in milliseconds. */
  const SettleMs: nat := 500

  /** The pause after a failed attempt: `(attempt + 1) * 1.0` seconds. */
  function RetryWaitMs(attempt: nat): nat {
    (attempt + 1) * 1000
  }

  // ---------------------------------------------------------------------------
  // The switch's state as a value
  // ---------------------------------------------------------------------------

  /** `_attr_is_on`, `_pending_state`, `_is_turning_on`, `_is_turning_off`. */
  datatype View = View(isOn: bool, pending: Option<Privacy>, turningOn: bool, turningOff: bool)

  /** The privacy value a command with `enable` asks for. */
  function Target(enable: bool): (p: Privacy)
    ensures (p == On) == enable
  {
    if enable then On else Off
  }

  /** The in-progress flag of the command with `enable`. */
  function Turning(v: View, enable: bool): bool {
    if enable then v.turningOn else v.turningOff
  }

  /** Whether the cache shows the device with privacy on. A serial missing
      from the cache reads as off, both where the default is "unknown"
      (switch.py:153) and where it is PRIVACY_OFF (switch.py:287). */
  predicate CachedOn(devices: map<string, Integration.DeviceRecord>, sn: string) {
    sn in devices && devices[sn].privacy == On
  }

  /** `update_from_privacy_status` (switch.py:121-142): the push from the
      poll pass. The shown state follows the status; a flip that reaches
      the pending state ends the wait and clears both flags. */
  function Push(v: View, status: Privacy): (w: View)
    ensures w.isOn == (status == On)
    ensures v.isOn == (status == On) ==> w == v
    ensures v.isOn != (status == On) && v.pending == Some(status) ==>
              w.pending.None? && !w.turningOn && !w.turningOff
    ensures v.isOn != (status == On) && v.pending != Some(status) ==>
              w.pending == v.pending && w.turningOn == v.turningOn && w.turningOff == v.turningOff
  {
    var on := status == On;
    if v.isOn == on && v.pending.None? then v
    else if v.isOn != on then
      if v.pending == Some(status) then View(on, None, false, false)
      else v.(isOn := on)
    else v
  }

  /** Whether a push writes the state: only when the shown state flips. */
  predicate PushWrites(v: View, status: Privacy) {
    v.isOn != (status == On)
  }

  /** `async_update` (switch.py:144-159): the pull from the cache, skipped
      while a command is in progress. */
  function Pull(v: View, cachedOn: bool): (w: View)
    ensures v.turningOn || v.turningOff ==> w == v
    ensures !v.turningOn && !v.turningOff ==> w.isOn == cachedOn
    ensures w.pending == v.pending && w.turningOn == v.turningOn && w.turningOff == v.turningOff
  {
    if v.turningOn || v.turningOff then v
    else if v.isOn != cachedOn then v.(isOn := cachedOn)
    else v
  }

  /** `_revert_state` (switch.py:281-300): show the cached state and stop
      waiting; the flags are left to the caller. */
  function Revert(v: View, cachedOn: bool): (w: View)
    ensures w.isOn == cachedOn && w.pending.None?
    ensures w.turningOn == v.turningOn && w.turningOff == v.turningOff
  {
    v.(isOn := cachedOn, pending := None)
  }

  /** The optimistic start of a command (switch.py:168-174 and 203-209). */
  function Begin(v: View, enable: bool): (w: View)
    ensures w.isOn == enable && w.pending == Some(Target(enable))
    ensures Turning(w, enable) && Turning(w, !enable) == Turning(v, !enable)
  {
    if enable then View(true, Some(On), true, v.turningOff)
    else View(false, Some(Off), v.turningOn, true)
  }

  /** `async_turn_on` / `async_turn_off` (switch.py:161-229) as a change of
      the view, given whether the command succeeded and what the cache
      shows. A failed command reverts twice: once before raising (:182,
      :217) and once more in the handler that catches that raise (:190,
      :225). The `finally` clears the command's flag. */
  function Turn(v: View, enable: bool, ok: bool, cachedOn: bool): (w: View)
    ensures Turning(v, enable) ==> w == v
    ensures !Turning(v, enable) ==> !Turning(w, enable) && Turning(w, !enable) == Turning(v, !enable)
    ensures !Turning(v, enable) && ok ==> w.isOn == enable && w.pending == Some(Target(enable))
    ensures !Turning(v, enable) && !ok ==> w.isOn == cachedOn && w.pending.None?
  {
    if Turning(v, enable) then v
    else
      var started := Begin(v, enable);
      var settled := if ok then started else Revert(Revert(started, cachedOn), cachedOn);
      if enable then settled.(turningOn := false) else settled.(turningOff := false)
  }

  /** What a command publishes: the optimistic state, then the reverted
      state twice when it fails; nothing when it is already in progress. */
  function TurnWrites(v: View, enable: bool, ok: bool, cachedOn: bool): (ws: seq<bool>)
    ensures Turning(v, enable) ==> ws == []
    ensures !Turning(v, enable) ==> ws != [] && ws[0] == enable
    ensures !Turning(v, enable) && !ok ==> ws[|ws| - 1] == cachedOn
  {
    if Turning(v, enable) then [] else [enable] + (if ok then [] else [cachedOn, cachedOn])
  }

  /** `async_will_remove_from_hass` (switch.py:312-317). */
  function Remove(v: View): (w: View)
    ensures w.isOn == v.isOn && w.pending.None? && !w.turningOn && !w.turningOff
  {
    View(v.isOn, None, false, false)
  }

  // ---------------------------------------------------------------------------
  // Properties of the transitions
  // ---------------------------------------------------------------------------

  /** A second push of the same status changes nothing and writes nothing. */
  lemma PushSettles(v: View, status: Privacy)
    ensures Push(Push(v, status), status) == Push(v, status)
    ensures !PushWrites(Push(v, status), status)
  {
  }

  /** Reverting twice, as the failure path does, is reverting once. */
  lemma RevertTwice(v: View, cachedOn: bool)
    ensures Revert(Revert(v, cachedOn), cachedOn) == Revert(v, cachedOn)
  {
  }

  /** Outside a command, the revert and the pull read the cache alike. */
  lemma RevertAgreesWithPull(v: View, cachedOn: bool)
    requires !v.turningOn && !v.turningOff
    ensures Revert(v, cachedOn).isOn == Pull(v, cachedOn).isOn
  {
  }

  /** A successful command leaves its target pending, and a push that
      confirms the target does not clear it: the pending state survives
      until the shown state flips away and back, a failure reverts it, or
      the switch is removed. */
  lemma PendingOutlivesSuccess(v: View, enable: bool, cachedOn: bool)
    requires !Turning(v, enable)
    ensures var w := Turn(v, enable, true, cachedOn);
      && w.pending == Some(Target(enable))
      && Push(w, Target(enable)) == w
      && Pull(w, cachedOn).pending == w.pending
  {
  }

  /** A failed command leaves nothing pending and, outside other commands,
      shows what the pull would show. */
  lemma FailureShowsCache(v: View, enable: bool, cachedOn: bool)
    requires !v.turningOn && !v.turningOff
    ensures var w := Turn(v, enable, false, cachedOn);
      && w == View(cachedOn, None, false, false)
      && Pull(w, cachedOn) == w
  {
  }

  // ---------------------------------------------------------------------------
  // The command retry loop, as a specification
  // ---------------------------------------------------------------------------

  /** The result of `_execute_privacy_command`: whether it returned True,
      the pauses it made in milliseconds, and how many `set_privacy` calls
      it sent. */
  datatype CommandRun = CommandRun(ok: bool, waits: seq<nat>, calls: nat)

  /** Attempt `a` confirms the command: the set call returned true and the
      verifying read either raised or showed the requested state. */
  predicate Confirms(enable: bool, sent: nat -> Fallible<bool>, readBack: nat -> Fallible<bool>, a: nat) {
    sent(a) == Ok(true) && (readBack(a).Fail? || readBack(a).value == enable)
  }

  /** The pauses the loop may make: the settle pause and the retry pauses. */
  predicate AllowedWait(w: nat, maxRetries: nat) {
    w == SettleMs || exists a: nat :: a < maxRetries && w == RetryWaitMs(a)
  }

  /** The loop of `_execute_privacy_command` (switch.py:231-279) from
      attempt `a` on. */
  function Command(enable: bool, maxRetries: nat, sent: nat -> Fallible<bool>, readBack: nat -> Fallible<bool>, a: nat)
    : CommandRun
    decreases maxRetries + 1 - a
  {
    if a > maxRetries then CommandRun(false, [], 0)
    else
      var retry := if a < maxRetries then [RetryWaitMs(a)] else [];
      match sent(a)
      case Fail(Unexpected) => CommandRun(false, [], 1)
      case Fail(ApiError) =>
        if a < maxRetries then After(retry, 1, Command(enable, maxRetries, sent, readBack, a + 1))
        else CommandRun(false, [], 1)
      case Ok(false) => After(retry, 1, Command(enable, maxRetries, sent, readBack, a + 1))
      case Ok(true) =>
        if Confirms(enable, sent, readBack, a) then CommandRun(true, [SettleMs], 1)
        else After([SettleMs] + retry, 1, Command(enable, maxRetries, sent, readBack, a + 1))
  }

  /** The run `rest` preceded by attempts that paused for `waits` and sent
      `calls` set calls. */
  function After(waits: seq<nat>, calls: nat, rest: CommandRun): CommandRun {
    CommandRun(rest.ok, waits + rest.waits, calls + rest.calls)
  }

  /** Preceding a run in two steps is preceding it once. */
  lemma AfterAfter(waits: seq<nat>, calls: nat, pauses: seq<nat>, more: nat, rest: CommandRun)
    ensures After(waits, calls, After(pauses, more, rest)) == After(waits + pauses, calls + more, rest)
  {
    assert waits + (pauses + rest.waits) == (waits + pauses) + rest.waits;
  }

  /** The command sends between one and `maxRetries + 1` set calls and
      pauses only for the settle time or a retry of an earlier attempt. */
  lemma {:induction false} CommandBounds(enable: bool, maxRetries: nat, sent: nat -> Fallible<bool>,
                                         readBack: nat -> Fallible<bool>, a: nat)
    requires a <= maxRetries
    ensures var c := Command(enable, maxRetries, sent, readBack, a);
      && 1 <= c.calls <= maxRetries + 1 - a
      && forall w :: w in c.waits ==> AllowedWait(w, maxRetries)
    decreases maxRetries - a
  {
    if a < maxRetries {
      CommandBounds(enable, maxRetries, sent, readBack, a + 1);
    }
  }

  /** The command returns True exactly when some attempt confirms and no
      earlier attempt raised an exception other than the API error. */
  lemma {:induction false} CommandSucceeds(enable: bool, maxRetries: nat, sent: nat -> Fallible<bool>,
                                           readBack: nat -> Fallible<bool>, a: nat)
    ensures Command(enable, maxRetries, sent, readBack, a).ok <==>
            exists k :: a <= k <= maxRetries && Confirms(enable, sent, readBack, k) &&
                        forall j :: a <= j < k ==> sent(j) != Fail(Unexpected)
    decreases maxRetries + 1 - a
  {
    if a <= maxRetries {
      CommandSucceeds(enable, maxRetries, sent, readBack, a + 1);
      if Command(enable, maxRetries, sent, readBack, a).ok {
        if !Confirms(enable, sent, readBack, a) {
          var k :| a + 1 <= k <= maxRetries && Confirms(enable, sent, readBack, k) &&
                   forall j :: a + 1 <= j < k ==> sent(j) != Fail(Unexpected);
          assert forall j :: a <= j < k ==> sent(j) != Fail(Unexpected);
        }
      } else {
        forall k | a <= k <= maxRetries && Confirms(enable, sent, readBack, k)
          ensures exists j :: a <= j < k && sent(j) == Fail(Unexpected)
        {
          if sent(a) == Fail(Unexpected) {
            assert k != a;
          } else {
            assert k != a;
          }
        }
      }
    }
  }

  /** When every set call is refused, the command sends `maxRetries + 1`
      of them, pauses 1 s, 2 s, … between them and returns False. */
  lemma {:induction false} AllRefused(enable: bool, maxRetries: nat, sent: nat -> Fallible<bool>,
                                      readBack: nat -> Fallible<bool>, a: nat)
    requires a <= maxRetries
    requires forall j :: a <= j <= maxRetries ==> sent(j) == Ok(false)
    ensures var c := Command(enable, maxRetries, sent, readBack, a);
      && !c.ok && c.calls == maxRetries + 1 - a
      && c.waits == seq(maxRetries - a, i requires 0 <= i < maxRetries - a => RetryWaitMs(a + i))
    decreases maxRetries - a
  {
    var c := Command(enable, maxRetries, sent, readBack, a);
    if a < maxRetries {
      AllRefused(enable, maxRetries, sent, readBack, a + 1);
      var rest := Command(enable, maxRetries, sent, readBack, a + 1);
      assert c.waits == [RetryWaitMs(a)] + rest.waits;
    }
  }

  // ---------------------------------------------------------------------------
  // The switch entity
  // ---------------------------------------------------------------------------

  /** `EzvizPrivacySwitch` (switch.py:54-319). `entry` is the config entry
      whose cache the switch reads. */
  class PrivacySwitch {
    const serial: string
    const entry: Integration.Entry
    var isOn: bool
    var pending: Option<Privacy>
    var turningOn: bool
    var turningOff: bool
    /** The states written by `async_write_ha_state`, oldest first. */
    ghost var published: seq<bool>

    /** `__init__` (switch.py:61-81): off, nothing pending, no command. */
    constructor (entry: Integration.Entry, serial: string)
      ensures this.entry == entry && this.serial == serial
      ensures Current() == View(false, None, false, false) && published == []
    {
      this.entry := entry;
      this.serial := serial;
      isOn := false;
      pending := None;
      turningOn := false;
      turningOff := false;
      published := [];
    }

    function Current(): View
      reads this
    {
      View(isOn, pending, turningOn, turningOff)
    }

    /** What the entry's cache says about this switch's device. */
    predicate CacheOn()
      reads entry
    {
      CachedOn(entry.devices, serial)
    }

    /** `update_from_privacy_status` (switch.py:121-142). */
    method UpdateFromPrivacyStatus(status: Privacy)
      modifies this
      ensures Current() == Push(old(Current()), status)
      ensures published == old(published) + (if PushWrites(old(Current()), status) then [status == On] else [])
    {
      var on := status == On;
      if isOn == on && pending.None? {
        return;
      }
      if isOn != on {
        isOn := on;
        if pending == Some(status) {
          pending := None;
          turningOn := false;
          turningOff := false;
        }
        published := published + [isOn];
      }
    }

    /** `async_update` (switch.py:144-159); it writes nothing itself. */
    method Update()
      modifies this
      ensures Current() == Pull(old(Current()), CacheOn())
      ensures published == old(published)
    {
      if turningOn || turningOff {
        return;
      }
      var on := serial in entry.devices && entry.devices[serial].privacy == On;
      if isOn != on {
        isOn := on;
      }
    }

    /** `_revert_state` (switch.py:281-300). */
    method RevertState()
      modifies this
      ensures Current() == Revert(old(Current()), CacheOn())
      ensures published == old(published) + [CacheOn()]
    {
      var on := serial in entry.devices && entry.devices[serial].privacy == On;
      isOn := on;
      pending := None;
      published := published + [isOn];
    }

    /** `_execute_privacy_command` (switch.py:231-279): up to
        `maxRetries + 1` attempts; a set call that returns true is checked
        by a read 500 ms later, and a failed attempt is followed by a pause
        of `(attempt + 1)` seconds unless it was the last. */
    method ExecutePrivacyCommand(enable: bool, maxRetries: nat, sent: nat -> Fallible<bool>, readBack: nat -> Fallible<bool>)
      returns (ok: bool, waits: seq<nat>, calls: nat)
      ensures CommandRun(ok, waits, calls) == Command(enable, maxRetries, sent, readBack, 0)
    {
      ghost var whole := Command(enable, maxRetries, sent, readBack, 0);
      ghost var rest := whole;
      ok, waits, calls := false, [], 0;
      var attempt := 0;
      var verdict: Option<bool> := None;
      assert whole.waits == waits + whole.waits;
      while attempt <= maxRetries && verdict.None?
        invariant attempt <= maxRetries + 1
        invariant verdict.None? ==> rest == Command(enable, maxRetries, sent, readBack, attempt)
        invariant verdict.None? ==> whole == After(waits, calls, rest)
        invariant verdict.Some? ==> whole == CommandRun(verdict.value, waits, calls)
      {
        var pauses;
        verdict, pauses := RunAttempt(enable, maxRetries, sent, readBack, attempt);
        rest := Command(enable, maxRetries, sent, readBack, attempt + 1);
        AfterAfter(waits, calls, pauses, 1, rest);
        calls, waits := calls + 1, waits + pauses;
        attempt := attempt + 1;
      }
      if verdict.Some? {
        ok := verdict.value;
      } else {
        assert waits + [] == waits;
      }
    }

    /** One pass of the loop body of `_execute_privacy_command`
        (switch.py:234-276): `verdict` is the value the command returns
        when the attempt ends it, and `pauses` the waits it made. */
    method RunAttempt(enable: bool, maxRetries: nat, sent: nat -> Fallible<bool>, readBack: nat -> Fallible<bool>, attempt: nat)
      returns (verdict: Option<bool>, pauses: seq<nat>)
      requires attempt <= maxRetries
      ensures verdict.Some? ==> Command(enable, maxRetries, sent, readBack, attempt) == CommandRun(verdict.value, pauses, 1)
      ensures verdict.None? ==>
                Command(enable, maxRetries, sent, readBack, attempt) ==
                After(pauses, 1, Command(enable, maxRetries, sent, readBack, attempt + 1))
    {
      var reply := sent(attempt);
      match reply
      case Fail(Unexpected) =>
        return Some(false), [];
      case Fail(ApiError) =>
        if attempt < maxRetries {
          return None, [RetryWaitMs(attempt)];
        }
        return Some(false), [];
      case Ok(_) =>
      pauses := [];
      if reply.value {
        var current := readBack(attempt);
        if current.Fail? || current.value == enable {
          return Some(true), [SettleMs];
        }
        pauses := [SettleMs];
      }
      if attempt < maxRetries {
        pauses := pauses + [RetryWaitMs(attempt)];
      }
      verdict := None;
    }

    /** The body shared by `async_turn_on` and `async_turn_off`. */
    method Toggle(enable: bool, sent: nat -> Fallible<bool>, readBack: nat -> Fallible<bool>) returns (raised: bool)
      modifies this
      ensures var run := Command(enable, MaxRetries, sent, readBack, 0);
        && Current() == Turn(old(Current()), enable, run.ok, CacheOn())
        && published == old(published) + TurnWrites(old(Current()), enable, run.ok, CacheOn())
        && raised == (!Turning(old(Current()), enable) && !run.ok)
    {
      if (enable && turningOn) || (!enable && turningOff) {
        return false;
      }
      if enable {
        turningOn := true;
      } else {
        turningOff := true;
      }
      pending := Some(Target(enable));
      isOn := enable;
      published := published + [isOn];
      var ok, _, _ := ExecutePrivacyCommand(enable, MaxRetries, sent, readBack);
      raised := !ok;
      if !ok {
        RevertState();
        // the HomeAssistantError raised at :183 / :218 is caught at :189 / :224
        RevertState();
      }
      if enable {
        turningOn := false;
      } else {
        turningOff := false;
      }
    }

    /** `async_turn_on` (switch.py:161-194). `raised` is whether it raises
        HomeAssistantError. The shared cache is not written. */
    method TurnOn(sent: nat -> Fallible<bool>, readBack: nat -> Fallible<bool>) returns (raised: bool)
      modifies this
      ensures var run := Command(true, MaxRetries, sent, readBack, 0);
        && Current() == Turn(old(Current()), true, run.ok, CacheOn())
        && published == old(published) + TurnWrites(old(Current()), true, run.ok, CacheOn())
        && raised == (!old(turningOn) && !run.ok)
      ensures unchanged(entry)
    {
      raised := Toggle(true, sent, readBack);
    }

    /** `async_turn_off` (switch.py:196-229), the mirror image of `TurnOn`. */
    method TurnOff(sent: nat -> Fallible<bool>, readBack: nat -> Fallible<bool>) returns (raised: bool)
      modifies this
      ensures var run := Command(false, MaxRetries, sent, readBack, 0);
        && Current() == Turn(old(Current()), false, run.ok, CacheOn())
        && published == old(published) + TurnWrites(old(Current()), false, run.ok, CacheOn())
        && raised == (!old(turningOff) && !run.ok)
      ensures unchanged(entry)
    {
      raised := Toggle(false, sent, readBack);
    }

    /** `async_will_remove_from_hass` (switch.py:312-317). */
    method WillRemove()
      modifies this
      ensures Current() == Remove(old(Current()))
      ensures published == old(published)
    {
      pending := None;
      turningOn := false;
      turningOff := false;
    }
  }

  // ---------------------------------------------------------------------------
  // The callback registered with the entry
  // ---------------------------------------------------------------------------

  /** The serials of the platform's switches, in order. */
  function Serials(switches: seq<PrivacySwitch>): (s: seq<string>)
    ensures |s| == |switches|
    ensures forall i :: 0 <= i < |switches| ==> s[i] == switches[i].serial
  {
    if switches == [] then [] else [switches[0].serial] + Serials(switches[1..])
  }

  /** The first position of `sn` in `serials` from `i` on. */
  function FirstMatch(serials: seq<string>, sn: string, i: nat): (k: Option<nat>)
    ensures k.Some? ==> i <= k.value < |serials| && serials[k.value] == sn &&
                        forall j :: i <= j < k.value ==> serials[j] != sn
    ensures k.None? ==> forall j :: i <= j < |serials| ==> serials[j] != sn
    decreases |serials| - i
  {
    if i >= |serials| then None
    else if serials[i] == sn then Some(i)
    else FirstMatch(serials, sn, i + 1)
  }

  /** `handle_device_update` (switch.py:42-48): the push reaches the first
      switch of the device and no other. The switches are the distinct
      entities the platform created. */
  method HandleDeviceUpdate(switches: seq<PrivacySwitch>, sn: string, status: Privacy)
    requires forall i, j :: 0 <= i < j < |switches| ==> switches[i] != switches[j]
    modifies set s | s in switches
    ensures var k := FirstMatch(Serials(switches), sn, 0);
      forall j :: 0 <= j < |switches| && k != Some(j) ==>
        switches[j].Current() == old(switches[j].Current()) && switches[j].published == old(switches[j].published)
    ensures var k := FirstMatch(Serials(switches), sn, 0);
      k.Some? ==> switches[k.value].Current() == Push(old(switches[k.value].Current()), status)
    ensures var k := FirstMatch(Serials(switches), sn, 0);
      k.Some? ==>
        switches[k.value].published ==
        old(switches[k.value].published) + (if PushWrites(old(switches[k.value].Current()), status) then [status == On] else [])
  {
    var i := 0;
    while i < |switches|
      invariant 0 <= i <= |switches|
      invariant FirstMatch(Serials(switches), sn, 0) == FirstMatch(Serials(switches), sn, i)
      invariant forall j :: 0 <= j < |switches| ==>
                  switches[j].Current() == old(switches[j].Current()) && switches[j].published == old(switches[j].published)
    {
      if switches[i].serial == sn {
        switches[i].UpdateFromPrivacyStatus(status);
        return;
      }
      i := i + 1;
    }
  }
}
