/** The parts of the Telit GE910 modem driver that keep state of their own
    (struct ge910_data): the SIM-presence flag driven by #QSS status codes,
    the two AT channels, the mux and the device channel that shutdown
    releases, and the one timer slot. What goes over the serial line is
    recorded as calls, not performed. */
module Ge910 {

  const NumDlc: nat := 2
  const NumTimeout: nat := 1
  const EnableSimTimeout: nat := 0
  const SetupDlc: nat := 0
  const GprsDlc: nat := 1

  /** errno values returned by the driver callbacks (Linux numbering). */
  const EIO: int := 5
  const EINPROGRESS: int := 115

  /** How open_device ends: NULL before a channel is kept (no "Modem"
      string, no options table, or the tty does not open), NULL after
      g_at_chat_new fails on the opened channel, or a chat. */
  datatype OpenOutcome = NoChannel | NoChat | ChatOpened

  /** The calls the driver makes into oFono, GLib and GAtChat. */
  datatype Call =
    | SetPowered(on: bool)               // ofono_modem_set_powered
    | SimInsertedNotify(inserted: bool)  // ofono_sim_inserted_notify
    | Warn(status: int)                  // ofono_warn about an unknown status
    | SourceRemove(id: nat)              // g_source_remove
    | ChatUnref(dlc: nat)                // g_at_chat_unref(data->dlcs[dlc])
    | MuxUnref                           // g_at_mux_unref
    | ChannelUnref                       // g_io_channel_unref
    | Send(dlc: nat, command: string)    // g_at_chat_send
    | TimeoutAdd(seconds: nat)           // g_timeout_add_seconds(ge910_enable_sim_det)

  /** The channel releases open_device makes: once after g_at_chat_new,
      and once more when no chat was made. */
  function OpenReleases(open: OpenOutcome): (calls: seq<Call>)
    ensures calls == [] <==> open.NoChannel?
    ensures forall c :: c in calls ==> c == ChannelUnref
  {
    match open
    case NoChannel => []
    case NoChat => [ChannelUnref, ChannelUnref]
    case ChatOpened => [ChannelUnref]
  }

  /** switch_sim_state_status as a transition of have_sim: 0 means no SIM,
      1 and 2 a SIM still being unlocked, 3 a SIM ready; anything else is
      only reported. */
  function SimTransition(haveSim: bool, status: int): (r: (bool, seq<Call>))
    ensures status == 0 ==> !r.0
    ensures status == 3 ==> r.0
    ensures status != 0 && status != 3 ==> r.0 == haveSim
    ensures r.0 != haveSim <==> |r.1| > 0 && r.1[|r.1| - 1] == SimInsertedNotify(r.0)
    ensures (status == 0 || status == 3) ==> |r.1| <= 2
  {
    match status
    case 0 => if haveSim then (false, [SimInsertedNotify(false)]) else (haveSim, [])
    case 1 => (haveSim, [])
    case 2 => (haveSim, [])
    case 3 => if !haveSim then (true, [SetPowered(true), SimInsertedNotify(true)]) else (haveSim, [])
    case _ => (haveSim, [Warn(status)])
  }

  /** A repeated status 3 does nothing the second time. */
  lemma ReadyIsIdempotent(haveSim: bool)
    ensures SimTransition(SimTransition(haveSim, 3).0, 3) == (true, [])
  {
  }

  /** Status 0 clears the flag and notifies removal only when a SIM was
      recorded. */
  lemma NotInsertedClears(haveSim: bool)
    ensures SimTransition(haveSim, 0) == (false, if haveSim then [SimInsertedNotify(false)] else [])
  {
  }

  /** Statuses 1 and 2 change nothing; an unknown status only warns. */
  lemma OtherStatusesKeepFlag(haveSim: bool, status: int)
    requires status != 0 && status != 3
    ensures SimTransition(haveSim, status).0 == haveSim
    ensures SimInsertedNotify(true) !in SimTransition(haveSim, status).1
    ensures SimInsertedNotify(false) !in SimTransition(haveSim, status).1
    ensures SetPowered(true) !in SimTransition(haveSim, status).1
    ensures status !in {1, 2} ==> SimTransition(haveSim, status).1 == [Warn(status)]
  {
  }

  /** The modem is powered on only when a SIM becomes ready. */
  lemma PoweredOnlyWhenSimBecomesReady(haveSim: bool, status: int)
    ensures SetPowered(true) in SimTransition(haveSim, status).1 <==> status == 3 && !haveSim
  {
  }

  /** The flag and the calls after a series of status reports. */
  function Run(haveSim: bool, statuses: seq<int>): (r: (bool, seq<Call>))
    decreases |statuses|
  {
    if statuses == [] then (haveSim, [])
    else
      var first := SimTransition(haveSim, statuses[0]);
      var rest := Run(first.0, statuses[1..]);
      (rest.0, first.1 + rest.1)
  }

  /** The arguments of the inserted notifications among calls, in order. */
  function Notifications(calls: seq<Call>): (n: seq<bool>)
    ensures |n| <= |calls|
  {
    if calls == [] then []
    else (if calls[0].SimInsertedNotify? then [calls[0].inserted] else []) + Notifications(calls[1..])
  }

  lemma {:induction false} NotificationsAppend(a: seq<Call>, b: seq<Call>)
    ensures Notifications(a + b) == Notifications(a) + Notifications(b)
    decreases |a|
  {
    if a != [] {
      assert (a + b)[0] == a[0];
      assert (a + b)[1..] == a[1..] + b;
      NotificationsAppend(a[1..], b);
    } else {
      assert a + b == b;
    }
  }

  /** One status report notifies at most once, and then it reports the new
      flag, which differs from the old one. */
  lemma TransitionNotifications(haveSim: bool, status: int)
    ensures var r := SimTransition(haveSim, status);
            Notifications(r.1) == (if r.0 != haveSim then [r.0] else [])
  {
    var r := SimTransition(haveSim, status);
    if r.1 != [] {
      assert r.1[1..] == [] || r.1[1..] == [SimInsertedNotify(true)];
      if r.1[1..] != [] {
        assert r.1[1..][1..] == [];
      }
    }
  }

  /** No two neighbouring notifications carry the same value. */
  predicate Alternates(n: seq<bool>)
  {
    forall i :: 0 <= i < |n| - 1 ==> n[i] != n[i + 1]
  }

  lemma AlternatesCons(x: bool, m: seq<bool>)
    requires Alternates(m) && (|m| > 0 ==> m[0] != x)
    ensures Alternates([x] + m)
  {
    var n := [x] + m;
    forall i | 0 <= i < |n| - 1
      ensures n[i] != n[i + 1]
    {
      if i > 0 {
        assert n[i] == m[i - 1] && n[i + 1] == m[i];
      }
    }
  }

  /** Run unfolded once. */
  lemma RunStep(haveSim: bool, statuses: seq<int>)
    requires statuses != []
    ensures var first := SimTransition(haveSim, statuses[0]);
            var rest := Run(first.0, statuses[1..]);
            Run(haveSim, statuses) == (rest.0, first.1 + rest.1)
  {
  }

  /** Over any series of status reports the inserted notifications
      alternate, the first one contradicts the starting flag, and the last
      one equals the final flag: oFono never hears the same news twice in a
      row. */
  lemma {:induction false} NotificationsAlternate(haveSim: bool, statuses: seq<int>)
    ensures var r := Run(haveSim, statuses);
            var n := Notifications(r.1);
            Alternates(n) &&
            (|n| > 0 ==> n[0] != haveSim && n[|n| - 1] == r.0) &&
            (|n| == 0 ==> r.0 == haveSim)
    decreases |statuses|
  {
    if statuses != [] {
      var first := SimTransition(haveSim, statuses[0]);
      NotificationsAlternate(first.0, statuses[1..]);
      RunNotifications(haveSim, statuses);
      if first.0 != haveSim {
        AlternatesCons(first.0, Notifications(Run(first.0, statuses[1..]).1));
      }
    } else {
      assert Notifications([]) == [];
    }
  }

  /** The notifications of a series: those of the first report, then
      those of the rest. */
  lemma RunNotifications(haveSim: bool, statuses: seq<int>)
    requires statuses != []
    ensures var first := SimTransition(haveSim, statuses[0]);
            var rest := Run(first.0, statuses[1..]);
            Run(haveSim, statuses).0 == rest.0 &&
            Notifications(Run(haveSim, statuses).1) ==
              (if first.0 != haveSim then [first.0] else []) + Notifications(rest.1)
  {
    var first := SimTransition(haveSim, statuses[0]);
    var rest := Run(first.0, statuses[1..]);
    RunStep(haveSim, statuses);
    NotificationsAppend(first.1, rest.1);
    TransitionNotifications(haveSim, statuses[0]);
  }

  /** g_source_remove for every non-zero slot, in slot order. */
  function RemovedSources(ids: seq<nat>): (calls: seq<Call>)
    ensures |calls| <= |ids|
    ensures forall c :: c in calls ==> c.SourceRemove? && c.id != 0 && c.id in ids
    ensures forall i :: 0 <= i < |ids| && ids[i] != 0 ==> SourceRemove(ids[i]) in calls
    decreases |ids|
  {
    if ids == [] then []
    else
      var last := ids[|ids| - 1];
      var prev := RemovedSources(ids[..|ids| - 1]);
      assert forall i :: 0 <= i < |ids| - 1 ==> ids[..|ids| - 1][i] == ids[i];
      prev + (if last != 0 then [SourceRemove(last)] else [])
  }

  /** g_at_chat_unref for every open channel, in channel order. */
  function UnrefedDlcs(open: seq<bool>): (calls: seq<Call>)
    ensures |calls| <= |open|
    ensures forall c :: c in calls ==> c.ChatUnref? && c.dlc < |open| && open[c.dlc]
    ensures forall i :: 0 <= i < |open| && open[i] ==> ChatUnref(i) in calls
    decreases |open|
  {
    if open == [] then []
    else
      var n := |open| - 1;
      var prev := UnrefedDlcs(open[..n]);
      assert forall i :: 0 <= i < n ==> open[..n][i] == open[i];
      prev + (if open[n] then [ChatUnref(n)] else [])
  }

  /** The calls shutdown_device makes from a given state. */
  function ShutdownCalls(sources: seq<nat>, open: seq<bool>, mux: bool, device: bool): seq<Call>
  {
    RemovedSources(sources) + UnrefedDlcs(open) +
    (if mux then [MuxUnref] else []) + (if device then [ChannelUnref] else [])
  }

  /** shutdown_device leaves the timer slots as they were, so shutting down
      again (or ge910_remove afterwards) removes the same timer sources a
      second time. */
  lemma SecondShutdownRemovesAgain(sources: seq<nat>, open: seq<bool>, mux: bool, device: bool)
    ensures ShutdownCalls(sources, seq(|open|, _ => false), false, false) == RemovedSources(sources)
    ensures forall i :: 0 <= i < |sources| && sources[i] != 0 ==>
              SourceRemove(sources[i]) in ShutdownCalls(sources, open, mux, device) &&
              SourceRemove(sources[i]) in ShutdownCalls(sources, seq(|open|, _ => false), false, false)
  {
    ClosedChannelsNotReleased(seq(|open|, _ => false));
  }

  lemma {:induction false} ClosedChannelsNotReleased(open: seq<bool>)
    requires forall i :: 0 <= i < |open| ==> !open[i]
    ensures UnrefedDlcs(open) == []
    decreases |open|
  {
    if open != [] {
      ClosedChannelsNotReleased(open[..|open| - 1]);
    }
  }

  /** The commands ge910_enable queues on the setup channel before the mux
      is started, the LED command only when OFONO_TELIT_STATUS is set. */
  function EnableCalls(statusLed: bool): (calls: seq<Call>)
    ensures |calls| == if statusLed then 9 else 8
    ensures calls[|calls| - 1] == Send(SetupDlc, "AT+CMUX=0,0,5,128")
  {
    (if statusLed then [Send(SetupDlc, "AT#SLED=2")] else []) +
    [Send(SetupDlc, "ATE0 +CMEE=1"),
     Send(SetupDlc, "AT#SELINT=2"),
     Send(SetupDlc, "AT#SIMDET=0"),
     TimeoutAdd(10),
     Send(SetupDlc, "AT#QSS=0"),
     Send(SetupDlc, "AT+CGREG=0"),
     Send(SetupDlc, "AT&C0"),
     Send(SetupDlc, "AT+CMUX=0,0,5,128")]
  }

  /** struct ge910_data. A channel, the mux and the device are reduced to
      whether they are held (non-NULL); a timer slot holds a GLib source id,
      0 for none. */
  class Ge910Data {
    const dlcs: array<bool>
    const timeoutSources: array<nat>
    var haveSim: bool
    var device: bool
    var mux: bool

    ghost predicate Valid()
      reads this
    {
      dlcs.Length == NumDlc && timeoutSources.Length == NumTimeout
    }

    /** ge910_probe: g_try_new0 clears everything, then every timer slot is
      set to 0. */
    constructor Probe()
      ensures Valid() && fresh(dlcs) && fresh(timeoutSources)
      ensures forall i :: 0 <= i < NumTimeout ==> timeoutSources[i] == 0
      ensures forall i :: 0 <= i < NumDlc ==> !dlcs[i]
      ensures !haveSim && !device && !mux
    {
      dlcs := new bool[NumDlc](_ => false);
      timeoutSources := new nat[NumTimeout];
      haveSim := false;
      device := false;
      mux := false;
      new;
      var i := 0;
      while i < NumTimeout
        invariant 0 <= i <= NumTimeout
        invariant forall k :: 0 <= k < i ==> timeoutSources[k] == 0
        invariant forall k :: 0 <= k < NumDlc ==> !dlcs[k]
        invariant !haveSim && !device && !mux
      {
        timeoutSources[i] := 0;
        i := i + 1;
      }
    }

    /** switch_sim_state_status. */
    method SwitchSimStateStatus(status: int) returns (calls: seq<Call>)
      modifies this
      ensures (haveSim, calls) == SimTransition(old(haveSim), status)
      ensures device == old(device) && mux == old(mux)
    {
      calls := [];
      match status {
        case 0 =>
          if haveSim {
            calls := [SimInsertedNotify(false)];
            haveSim := false;
          }
        case 1 =>
        case 2 =>
        case 3 =>
          if !haveSim {
            calls := [SetPowered(true), SimInsertedNotify(true)];
            haveSim := true;
          }
        case _ =>
          calls := [Warn(status)];
      }
    }

    /** The timer loop shared by shutdown_device and ge910_remove. */
    method RemoveTimeouts() returns (calls: seq<Call>)
      requires Valid()
      ensures calls == RemovedSources(timeoutSources[..])
    {
      calls := [];
      var i := 0;
      while i < NumTimeout
        invariant 0 <= i <= NumTimeout
        invariant calls == RemovedSources(timeoutSources[..i])
      {
        assert timeoutSources[..i + 1][..i] == timeoutSources[..i];
        if timeoutSources[i] != 0 {
          calls := calls + [SourceRemove(timeoutSources[i])];
        }
        i := i + 1;
      }
      assert timeoutSources[..i] == timeoutSources[..];
    }

    /** shutdown_device: release every held channel, the mux and the
      device; the timer slots are not cleared. */
    method ShutdownDevice() returns (calls: seq<Call>)
      requires Valid()
      modifies this, dlcs
      ensures Valid() && haveSim == old(haveSim)
      ensures forall i :: 0 <= i < NumDlc ==> !dlcs[i]
      ensures !mux && !device
      ensures timeoutSources[..] == old(timeoutSources[..])
      ensures calls == ShutdownCalls(old(timeoutSources[..]), old(dlcs[..]), old(mux), old(device))
    {
      calls := RemoveTimeouts();
      ghost var removed := calls;
      var i := 0;
      while i < NumDlc
        invariant 0 <= i <= NumDlc
        invariant forall k :: 0 <= k < i ==> !dlcs[k]
        invariant forall k :: i <= k < NumDlc ==> dlcs[k] == old(dlcs[k])
        invariant calls == removed + UnrefedDlcs(old(dlcs[..])[..i])
        invariant mux == old(mux) && device == old(device) && haveSim == old(haveSim)
      {
        assert old(dlcs[..])[..i + 1][..i] == old(dlcs[..])[..i];
        if dlcs[i] {
          calls := calls + [ChatUnref(i)];
          dlcs[i] := false;
        }
        i := i + 1;
      }
      assert old(dlcs[..])[..i] == old(dlcs[..]);
      if mux {
        calls := calls + [MuxUnref];
        mux := false;
      }
      if device {
        calls := calls + [ChannelUnref];
        device := false;
      }
    }

    /** ge910_enable_sim_det, run once by the 10-second timer: enable SIM
      detection, clear the slot and return FALSE so the timer stops. */
    method EnableSimDet() returns (again: bool, calls: seq<Call>)
      requires Valid()
      modifies timeoutSources
      ensures !again && timeoutSources[EnableSimTimeout] == 0
      ensures calls == [Send(SetupDlc, "AT#SIMDET=1")]
    {
      calls := [Send(SetupDlc, "AT#SIMDET=1")];
      timeoutSources[EnableSimTimeout] := 0;
      again := false;
    }

    /** ge910_enable: open the setup channel with open_device, queue the
      initialisation, arm the SIM detection timer (GLib answers with
      timerId), forget any SIM and start CMUX. open_device keeps the tty
      channel as data->device as soon as it is opened and releases the
      caller's reference once the chat exists; when no chat can be made
      it releases the channel once more and clears data->device. */
    method Enable(open: OpenOutcome, statusLed: bool, timerId: nat) returns (ret: int, calls: seq<Call>)
      requires Valid() && timerId > 0
      modifies this, dlcs, timeoutSources
      ensures Valid()
      ensures dlcs[SetupDlc] == open.ChatOpened? && dlcs[GprsDlc] == old(dlcs[GprsDlc])
      ensures device == (if open.NoChannel? then old(device) else open.ChatOpened?)
      ensures mux == old(mux)
      ensures !open.ChatOpened? ==> (ret == -EIO && calls == OpenReleases(open) && haveSim == old(haveSim) &&
                                     timeoutSources[..] == old(timeoutSources[..]))
      ensures open.ChatOpened? ==> (ret == -EINPROGRESS && calls == OpenReleases(open) + EnableCalls(statusLed) &&
                                    !haveSim && timeoutSources[EnableSimTimeout] == timerId)
    {
      dlcs[SetupDlc] := open.ChatOpened?;
      if open.NoChannel? {
        return -EIO, [];
      }
      device := true;
      calls := [ChannelUnref];
      if open.NoChat? {
        device := false;
        return -EIO, calls + [ChannelUnref];
      }
      var init := [];
      if statusLed {
        init := init + [Send(SetupDlc, "AT#SLED=2")];
      }
      init := init + [Send(SetupDlc, "ATE0 +CMEE=1"), Send(SetupDlc, "AT#SELINT=2")];
      init := init + [Send(SetupDlc, "AT#SIMDET=0"), TimeoutAdd(10)];
      timeoutSources[EnableSimTimeout] := timerId;
      init := init + [Send(SetupDlc, "AT#QSS=0"), Send(SetupDlc, "AT+CGREG=0"), Send(SetupDlc, "AT&C0")];
      haveSim := false;
      init := init + [Send(SetupDlc, "AT+CMUX=0,0,5,128")];
      calls := calls + init;
      ret := -EINPROGRESS;
    }

    /** ge910_disable. */
    method Disable() returns (ret: int, calls: seq<Call>)
      requires Valid()
      modifies this, dlcs
      ensures Valid() && ret == -EINPROGRESS
      ensures forall i :: 0 <= i < NumDlc ==> !dlcs[i]
      ensures !mux && !device && timeoutSources[..] == old(timeoutSources[..])
      ensures calls == ShutdownCalls(old(timeoutSources[..]), old(dlcs[..]), old(mux), old(device)) +
                       [SetPowered(false)]
    {
      calls := ShutdownDevice();
      calls := calls + [SetPowered(false)];
      ret := -EINPROGRESS;
    }

    /** ge910_set_online: the command sent on the setup channel. */
    method SetOnline(online: bool) returns (calls: seq<Call>)
      ensures calls == [Send(SetupDlc, if online then "AT+CFUN=1,0" else "AT+CFUN=4,0")]
    {
      calls := [Send(SetupDlc, if online then "AT+CFUN=1,0" else "AT+CFUN=4,0")];
    }

    /** ge910_remove: remove the pending timers before the data is freed. */
    method Remove() returns (calls: seq<Call>)
      requires Valid()
      ensures calls == RemovedSources(timeoutSources[..])
    {
      calls := RemoveTimeouts();
    }
  }

  /** Enabling, then disabling before the 10-second timer fires, then
      removing the driver: the timer source is removed by the shutdown and
      again by ge910_remove, because neither clears the slot; and the tty
      channel is released by open_device and again by the shutdown,
      because data->device keeps it after open_device gave up its
      reference. */
  method EnableDisableRemove(timerId: nat) returns (enabling: seq<Call>, first: seq<Call>, second: seq<Call>)
    requires timerId > 0
    ensures ChannelUnref in enabling && ChannelUnref in first
    ensures SourceRemove(timerId) in first && SourceRemove(timerId) in second
  {
    var data := new Ge910Data.Probe();
    var ret;
    ret, enabling := data.Enable(ChatOpened, false, timerId);
    assert enabling[0] == ChannelUnref;
    assert data.timeoutSources[..][EnableSimTimeout] == timerId;
    ret, first := data.Disable();
    assert data.timeoutSources[..][EnableSimTimeout] == timerId;
    second := data.Remove();
  }
}
