// components/bluepad32_component/bt/uni_bt_sdp.c: the lock that lets one SDP query run at a time,
// and the timer that is meant to release it, over all runs of the Bluetooth host.

module SdpLock {
  import opened Wrappers
  import opened DeviceTable
  import opened BluetoothHost

  // ----- Between events no device is in VendorFetched -----

  predicate Settled(ds: Devices) { forall i: Index :: !ds[i].state.VendorFetched? }

  predicate SettledBut(ds: Devices, i: Index) { forall j: Index :: j != i ==> !ds[j].state.VendorFetched? }

  lemma {:induction false} DisconnectAllKeepsStates(t: Table, slots: seq<Index>, links: map<nat, Link>)
    ensures forall j: Index :: DisconnectAll(t, slots, links).devices[j].state == t.devices[j].state
    decreases |slots|
  {
    if slots != [] {
      DisconnectAllKeepsStates(t, slots[1..], links);
    }
  }

  lemma {:induction false} FreeAllStates(t: Table, slots: seq<Index>)
    ensures forall j: Index :: FreeAll(t, slots).devices[j] == BLANK || FreeAll(t, slots).devices[j].state == t.devices[j].state
    ensures slots != [] ==> FreeAll(t, slots).devices[slots[0]] == BLANK
    decreases |slots|
  {
    if slots != [] {
      FreeAllStates(t, slots[1..]);
    }
  }

  lemma LineageStarts(ds: Devices, i: Index)
    ensures Lineage(ds, i) != [] && Lineage(ds, i)[0] == i
  {
    if Descends(ds, i) {
      var n: nat :| Ends(ds, i, n) && Lineage(ds, i) == Chain(ds, i, n);
    }
  }

  lemma RemoveBlanks(t: Table, i: Index, links: map<nat, Link>)
    ensures var t' := Remove(t, i, links);
            && t'.devices[i] == BLANK
            && forall j: Index :: t'.devices[j] == BLANK || t'.devices[j].state == t.devices[j].state
  {
    var gone := Disconnect(t, i, links);
    DisconnectAllKeepsStates(t, Lineage(t.devices, i), links);
    LineageStarts(gone.devices, i);
    FreeAllStates(gone, Lineage(gone.devices, i));
  }

  lemma RemoveSettles(t: Table, i: Index, links: map<nat, Link>)
    requires SettledBut(t.devices, i)
    ensures Settled(Remove(t, i, links).devices)
  {
    RemoveBlanks(t, i, links);
  }

  lemma ReadyCompleteSettles(t: Table, i: Index, accepted: bool, links: map<nat, Link>)
    requires Settled(t.devices)
    ensures Settled(ReadyComplete(t, i, accepted, links).0.devices)
  {
    RemoveSettles(Put(t, i, t.devices[i].(connTimer := false)), i, links);
  }

  lemma ReadyCompleteWithChildSettles(t: Table, i: Index, a: Answers)
    requires Settled(t.devices)
    ensures Settled(ReadyCompleteWithChild(t, i, a).devices)
  {
    ReadyCompleteSettles(t, i, a.deviceAccepted, a.links);
    var (t1, taken) := ReadyComplete(t, i, a.deviceAccepted, a.links);
    var (t2, slot) := CreateVirtual(t1, i, a.virtualEnabled);
    if slot.Some? {
      ReadyCompleteSettles(Connect(t2, slot.value), slot.value, a.childAccepted, a.links);
    }
  }

  lemma SetReadySettles(t: Table, i: Index, a: Answers)
    requires Settled(t.devices)
    ensures Settled(SetReady(t, i, a).devices)
  {
    var t1 := WithState(t, i, PendingReady);
    ReadyCompleteWithChildSettles(t1, i, a);
    ReadyCompleteSettles(t1, i, a.deviceAccepted, a.links);
  }

  lemma SdpStartSettles(h: Host, i: Index, a: Answers)
    requires Settled(h.table.devices)
    ensures Settled(SdpStart(h, i, a).table.devices)
  {
    RemoveSettles(h.table, i, a.links);
    RemoveSettles(WithState(h.table, i, VendorRequested), i, a.links);
  }

  lemma DescriptorFetchedSettles(t: Table, i: Index, a: Answers)
    requires Settled(t.devices)
    ensures Settled(DescriptorFetchedStep(t, i, a).devices)
  {
    SetReadySettles(t, i, a);
  }

  lemma SdpEndSettles(h: Host, i: Index, a: Answers)
    requires SettledBut(h.table.devices, i)
    ensures Settled(SdpEnd(h, i, a).table.devices)
  {
    DescriptorFetchedSettles(WithState(h.table, i, DescriptorFetched), i, a);
  }

  lemma StartDescriptorQuerySettles(h: Host, i: Index, a: Answers)
    requires SettledBut(h.table.devices, i) && h.sdp.Some?
    ensures Settled(StartDescriptorQuery(h, i, a).table.devices)
  {
    SdpEndSettles(h, i, a);
    RemoveSettles(WithState(h.table, i, DescriptorRequested), i, a.links);
  }

  lemma WirelessSettles(h: Host, i: Index, a: Answers)
    requires Settled(h.table.devices)
    requires h.table.devices[i].state.NameFetched? && h.table.devices[i].name == Some(WirelessController)
    ensures Settled(Fsm(h, i, a).table.devices)
  {
    SdpStartSettles(h.(table := Put(h.table, i, h.table.devices[i].(sdpQuery := BeforeConnect))), i, a);
  }

  lemma NameFetchedSettles(h: Host, i: Index, a: Answers)
    requires Settled(h.table.devices)
    requires h.table.devices[i].state.NameFetched? && h.table.devices[i].name != Some(WirelessController)
    ensures Settled(Fsm(h, i, a).table.devices)
  {
    var d := h.table.devices[i];
    var e := if d.name == Some(Recognized)
             then GuessType(d, a.guessed).(sdpQuery := NotNeeded, state := DescriptorFetched) else d;
    var h1 := h.(table := Put(h.table, i, e));
    SetReadySettles(h1.table, i, a);
    SdpStartSettles(h1, i, a);
  }

  lemma FsmSettles(h: Host, i: Index, a: Answers)
    requires SettledBut(h.table.devices, i)
    requires h.table.devices[i].state.VendorFetched? ==> h.sdp.Some?
    ensures Settled(Fsm(h, i, a).table.devices)
  {
    match h.table.devices[i].state {
      case NameFetched =>
        if h.table.devices[i].name == Some(WirelessController) {
          WirelessSettles(h, i, a);
        } else {
          NameFetchedSettles(h, i, a);
        }
      case VendorFetched => StartDescriptorQuerySettles(h, i, a);
      case DescriptorFetched => DescriptorFetchedSettles(h.table, i, a);
      case InterruptConnected =>
        SdpStartSettles(h, i, a);
        SetReadySettles(h.table, i, a);
      case _ =>
    }
  }

  lemma IncomingSettles(t: Table, e: Event, a: Answers)
    requires Settled(t.devices) && e.IncomingConnection?
    ensures Settled(OnIncoming(t, e, a).devices)
  {
    var known := ByAddress(t.devices, e.addr);
    if known.Some? {
      RemoveSettles(t, known.value, a.links);
    }
  }

  lemma EntrySettles(h: Host, e: Event, a: Answers)
    requires Settled(h.table.devices) && FsmEntry(h, e, a).Some?
    ensures Settled(Step(h, e, a).table.devices)
  {
    var (t, i) := FsmEntry(h, e, a).value;
    EntryState(h, e, a);
    FsmSettles(h.(table := t), i, a);
    if e.RemoteName? {
      RemoteNameEntry(h, e, a);
    } else {
      EntryTable(h, e, a);
    }
  }

  lemma RemovalsSettle(t: Table, i: Index, links: map<nat, Link>)
    requires Settled(t.devices)
    ensures Settled(Remove(t, i, links).devices) && Settled(Disconnect(t, i, links).devices)
  {
    RemoveSettles(t, i, links);
    DisconnectAllKeepsStates(t, Lineage(t.devices, i), links);
  }

  lemma RemovalEventsSettle(h: Host, e: Event, a: Answers)
    requires Settled(h.table.devices)
    requires e.ChannelOpened? || e.ChannelClosed? || e.HciDisconnected? || e.DisconnectCommand? || e.ServiceDisconnect?
             || e.ConnectionTimeout?
    requires FsmEntry(h, e, a).None?
    ensures Settled(Step(h, e, a).table.devices)
  {
    forall i: Index {
      RemovalsSettle(h.table, i, a.links);
    }
    if e.ConnectionTimeout? {
      RemoveSettles(Put(h.table, e.i, h.table.devices[e.i].(connTimer := false)), e.i, a.links);
    }
  }

  /** Whoever enters VendorFetched leaves it in the same step. */
  lemma StepSettles(h: Host, e: Event, a: Answers)
    requires Settled(h.table.devices)
    ensures Settled(Step(h, e, a).table.devices)
  {
    if FsmEntry(h, e, a).Some? {
      EntrySettles(h, e, a);
    } else {
      match e {
        case IncomingConnection(_, _, _, _, _) => IncomingSettles(h.table, e, a);
        case InquiryResult(_, _, _) =>
        case ConnectionRequest(_) =>
        case ConnectionComplete(_, _, _) =>
        case RemoteName(_, _) =>
        case NameTimeout(_) =>
        case SdpTimeout =>
        case PidQueryComplete =>
        case HidQueryComplete =>
          if h.sdp.Some? {
            SdpEndSettles(h, h.sdp.value, a);
          }
        case ParserReady(i, _) =>
          ReadyCompleteWithChildSettles(h.table, i, a);
          ReadyCompleteSettles(h.table, i, a.deviceAccepted, a.links);
        case _ => RemovalEventsSettle(h, e, a);
      }
    }
  }

  /** In every run from boot, whatever the events: between events nobody is in VendorFetched. */
  lemma {:induction false} RunSettles(h: Host, es: seq<(Event, Answers)>)
    requires Settled(h.table.devices)
    ensures Settled(Run(h, es).table.devices)
    decreases |es|
  {
    if es != [] {
      StepSettles(h, es[0].0, es[0].1);
      RunSettles(Step(h, es[0].0, es[0].1), es[1..]);
    }
  }

  // ----- Lock and timer -----

  /** The timer runs exactly while the lock is held, on behalf of the holder. */
  predicate LockOk(h: Host) { h.sdp == h.timer }

  /** The state machine is about to ask for a HID descriptor and will be refused. */
  predicate RefusedAt(h: Host, i: Index, a: Answers) {
    var d := h.table.devices[i];
    d.state.VendorFetched? && d.parser.needsDescriptor && h.sdp.Some? && !a.sdpAccepts
  }

  /** The query at uni_bt_sdp.c line 278 is made by this event, when the VID/PID result is in, and is not accepted. */
  predicate Refused(h: Host, e: Event, a: Answers) {
    && e.PidQueryComplete? && h.sdp.Some? && !a.sdpAccepts
    && GuessType(h.table.devices[h.sdp.value], a.guessed).parser.needsDescriptor
  }

  /** The four things that can happen to the lock while device i is handled. */
  predicate LockMoves(h: Host, r: Host, i: Index, refused: bool) {
    if refused then r.sdp == h.sdp && r.timer.None? && r.queries == h.queries
    else
      || (r.sdp == h.sdp && r.timer == h.timer && r.queries == h.queries)
      || (r.sdp.None? && r.timer.None? && r.queries == h.queries)
      || (h.sdp.None? && r.sdp == Some(i) && r.timer == Some(i) && r.queries == h.queries + [i])
  }

  lemma FsmMovesLock(h: Host, i: Index, a: Answers)
    ensures LockMoves(h, Fsm(h, i, a), i, RefusedAt(h, i, a))
  {
  }

  /** The events that run the state machine: on which table, and for which device. */
  function FsmEntry(h: Host, e: Event, a: Answers): Option<(Table, Index)> {
    var t := h.table;
    match e
    case ChannelOpened(addr, ok, psm, cid) =>
      var known := ByAddress(t.devices, addr);
      if ok && known.Some? then Some((Opened(t, known.value, psm, cid), known.value)) else None
    case InquiryResult(addr, supported, name) =>
      var known := ByAddress(t.devices, addr);
      if !supported then None
      else if known.Some? then
        if t.devices[known.value].state.Ready? then None else Some((t, known.value))
      else
        var (t1, slot) := Create(t, addr);
        if slot.None? then None
        else Some((Put(t1, slot.value, t1.devices[slot.value].(state := if name.Some? then NameFetched else Discovered,
                                                               name := name)), slot.value))
    case RemoteName(addr, reply) =>
      var known := ByAddress(t.devices, addr);
      if known.None? || t.devices[known.value].state.PendingReady? || t.devices[known.value].state.Ready? then None
      else Some((Put(t, known.value, t.devices[known.value].(name := Some(reply), state := NameFetched)), known.value))
    case NameTimeout(i) =>
      if !t.devices[i].nameTimer then None
      else Some((Put(t, i, t.devices[i].(nameTimer := false, name := Some(OtherName), state := NameFetched)), i))
    case PidQueryComplete =>
      if h.sdp.None? then None
      else
        var i := h.sdp.value;
        Some((Put(t, i, GuessType(t.devices[i], a.guessed).(state := VendorFetched)), i))
    case _ => None
  }

  lemma StepEntersFsm(h: Host, e: Event, a: Answers)
    requires Settled(h.table.devices)
    ensures match FsmEntry(h, e, a)
            case Some((t, i)) =>
              var r := Fsm(h.(table := t), i, a);
              && Step(h, e, a).sdp == r.sdp && Step(h, e, a).timer == r.timer && Step(h, e, a).queries == r.queries
              && (Refused(h, e, a) <==> RefusedAt(h.(table := t), i, a))
            case None => !Refused(h, e, a)
  {
    EntryState(h, e, a);
  }

  /** Between events nobody is in VendorFetched: the state machine is entered there by VID/PID results alone. */
  lemma EntryState(h: Host, e: Event, a: Answers)
    requires Settled(h.table.devices)
    ensures match FsmEntry(h, e, a)
            case Some((t, i)) => t.devices[i].state.VendorFetched? <==> e.PidQueryComplete?
            case None => true
  {
  }

  /** Without the state machine, the lock only moves when a query or its time is over. */
  lemma OtherEventsAndLock(h: Host, e: Event, a: Answers)
    requires FsmEntry(h, e, a).None?
    ensures var r := Step(h, e, a);
            && r.queries == h.queries
            && (if e.SdpTimeout? then r == OnSdpTimeout(h)
                else if e.HidQueryComplete? && h.sdp.Some? then r.sdp.None? && r.timer.None?
                else r.sdp == h.sdp && r.timer == h.timer)
  {
  }

  /** Refusal is exactly what breaks the lock, and the lock is never taken over while it is held. */
  lemma StepLock(h: Host, e: Event, a: Answers)
    requires LockOk(h) && Settled(h.table.devices)
    ensures LockOk(Step(h, e, a)) <==> !Refused(h, e, a)
    ensures Step(h, e, a).sdp != h.sdp ==> h.sdp.None? || Step(h, e, a).sdp.None?
    ensures Step(h, e, a).queries != h.queries
            ==> h.sdp.None? && Step(h, e, a).sdp.Some? && Step(h, e, a).queries == h.queries + [Step(h, e, a).sdp.value]
  {
    StepEntersFsm(h, e, a);
    match FsmEntry(h, e, a) {
      case Some((t, i)) => FsmMovesLock(h.(table := t), i, a);
      case None => OtherEventsAndLock(h, e, a);
    }
  }

  ghost predicate LockAlwaysOk(h: Host, es: seq<(Event, Answers)>)
    decreases |es|
  {
    LockOk(h) && (es != [] ==> LockAlwaysOk(Step(h, es[0].0, es[0].1), es[1..]))
  }

  ghost predicate NeverRefused(h: Host, es: seq<(Event, Answers)>)
    decreases |es|
  {
    es != [] ==> !Refused(h, es[0].0, es[0].1) && NeverRefused(Step(h, es[0].0, es[0].1), es[1..])
  }

  /** The lock and its timer agree throughout a run exactly when no HID descriptor query is refused. */
  lemma {:induction false} LockHoldsIff(h: Host, es: seq<(Event, Answers)>)
    requires LockOk(h) && Settled(h.table.devices)
    ensures LockAlwaysOk(h, es) <==> NeverRefused(h, es)
    decreases |es|
  {
    if es != [] {
      StepLock(h, es[0].0, es[0].1);
      StepSettles(h, es[0].0, es[0].1);
      if LockOk(Step(h, es[0].0, es[0].1)) {
        LockHoldsIff(Step(h, es[0].0, es[0].1), es[1..]);
      }
    }
  }

  datatype TimeoutOutcome = NoHolder | OtherHolder | Released

  function SdpTimeoutOutcome(h: Host): TimeoutOutcome
    requires h.timer.Some?
  {
    if h.sdp.None? then NoHolder else if h.sdp != h.timer then OtherHolder else Released
  }

  lemma {:induction false} RunKeepsLock(h: Host, es: seq<(Event, Answers)>)
    requires LockOk(h) && Settled(h.table.devices) && NeverRefused(h, es)
    ensures LockOk(Run(h, es))
    decreases |es|
  {
    if es != [] {
      StepLock(h, es[0].0, es[0].1);
      StepSettles(h, es[0].0, es[0].1);
      RunKeepsLock(Step(h, es[0].0, es[0].1), es[1..]);
    }
  }

  /**
   * In such a run a held lock has its timer armed for the holder, the timeout handler finds neither
   * of the situations it calls unexpected, and when the timer fires the lock is free.
   */
  lemma LockAlwaysReleased(es: seq<(Event, Answers)>, a: Answers)
    requires NeverRefused(BOOT, es)
    ensures var h := Run(BOOT, es);
            && h.timer == h.sdp
            && (h.sdp.Some? ==> SdpTimeoutOutcome(h) == Released && Step(h, SdpTimeout, a).sdp.None?)
  {
    RunKeepsLock(BOOT, es);
  }

  // ----- The leak -----

  /** After a refusal the lock is held without a timer. */
  predicate Leaked(h: Host) { h.sdp.Some? && h.timer.None? }

  predicate QueryResult(e: Event) { e.PidQueryComplete? || e.HidQueryComplete? }

  lemma RefusalLeaks(h: Host, e: Event, a: Answers)
    requires LockOk(h) && Settled(h.table.devices) && Refused(h, e, a)
    ensures Leaked(Step(h, e, a))
  {
    StepEntersFsm(h, e, a);
    var (t, i) := FsmEntry(h, e, a).value;
    FsmMovesLock(h.(table := t), i, a);
  }

  lemma FsmKeepsHeld(h: Host, i: Index, a: Answers)
    requires h.sdp.Some? && !h.table.devices[i].state.VendorFetched?
    ensures Fsm(h, i, a).sdp == h.sdp && Fsm(h, i, a).timer == h.timer && Fsm(h, i, a).queries == h.queries
  {
  }

  /** Between query results a held lock can only be freed by its timer. */
  lemma StepKeepsHeld(h: Host, e: Event, a: Answers)
    requires h.sdp.Some? && Settled(h.table.devices) && !QueryResult(e)
    ensures var r := Step(h, e, a);
            && r.queries == h.queries
            && (if e.SdpTimeout? then r == OnSdpTimeout(h) else r.sdp == h.sdp && r.timer == h.timer)
  {
    StepEntersFsm(h, e, a);
    EntryState(h, e, a);
    match FsmEntry(h, e, a) {
      case Some((t, i)) => FsmKeepsHeld(h.(table := t), i, a);
      case None => OtherEventsAndLock(h, e, a);
    }
  }

  predicate NoQueryResult(es: seq<(Event, Answers)>) { forall k :: 0 <= k < |es| ==> !QueryResult(es[k].0) }

  /** A leaked lock is for good: without a query result nothing frees it, and no VID/PID query is ever started again. */
  lemma {:induction false} LeakIsPermanent(h: Host, es: seq<(Event, Answers)>)
    requires Leaked(h) && Settled(h.table.devices) && NoQueryResult(es)
    ensures var r := Run(h, es);
            Settled(r.table.devices) && r.sdp == h.sdp && r.timer.None? && r.queries == h.queries
    decreases |es|
  {
    if es != [] {
      StepKeepsHeld(h, es[0].0, es[0].1);
      StepSettles(h, es[0].0, es[0].1);
      LeakIsPermanent(Step(h, es[0].0, es[0].1), es[1..]);
    }
  }

  /** The state machine will start an SDP query for this device. */
  predicate NeedsQuery(d: Device) {
    || (d.state.NameFetched? && d.name == Some(WirelessController))
    || (d.state.NameFetched? && d.name != Some(Recognized) && d.incoming && !d.sdpQuery.NotNeeded?)
    || (d.state.InterruptConnected? && d.name.Some? && !d.incoming && d.sdpQuery.AfterConnect?)
  }

  lemma HeldLockRemoves(h: Host, i: Index, a: Answers)
    requires h.sdp.Some? && NeedsQuery(h.table.devices[i])
    ensures Fsm(h, i, a).table.devices[i] == BLANK
  {
    var d := h.table.devices[i];
    RemoveBlanks(h.table, i, a.links);
    RemoveBlanks(Put(h.table, i, d.(sdpQuery := BeforeConnect)), i, a.links);
    assert Put(h.table, i, d) == h.table;
  }

  lemma EntryTable(h: Host, e: Event, a: Answers)
    requires FsmEntry(h, e, a).Some? && !e.RemoteName?
    ensures var (t, i) := FsmEntry(h, e, a).value; Step(h, e, a) == Fsm(h.(table := t), i, a)
  {
  }

  lemma RemoteNameEntry(h: Host, e: Event, a: Answers)
    requires FsmEntry(h, e, a).Some? && e.RemoteName?
    ensures var (t, i) := FsmEntry(h, e, a).value;
            Step(h, e, a).table == StopNameTimer(Fsm(h.(table := t), i, a).table, i)
  {
  }

  lemma StepRemovesNeedy(h: Host, e: Event, a: Answers)
    requires h.sdp.Some? && FsmEntry(h, e, a).Some?
    requires var (t, i) := FsmEntry(h, e, a).value; NeedsQuery(t.devices[i])
    ensures var (t, i) := FsmEntry(h, e, a).value; Step(h, e, a).table.devices[i] == BLANK
  {
    var (t, i) := FsmEntry(h, e, a).value;
    HeldLockRemoves(h.(table := t), i, a);
    if e.RemoteName? {
      RemoteNameEntry(h, e, a);
    } else {
      EntryTable(h, e, a);
    }
  }

  /** However long after the leak, a device that needs a query is removed in the step that would start it. */
  lemma LaterDeviceRemoved(h: Host, es: seq<(Event, Answers)>, e: Event, a: Answers)
    requires Leaked(h) && Settled(h.table.devices) && NoQueryResult(es)
    requires FsmEntry(Run(h, es), e, a).Some?
    requires var (t, i) := FsmEntry(Run(h, es), e, a).value; NeedsQuery(t.devices[i])
    ensures var (t, i) := FsmEntry(Run(h, es), e, a).value;
            Step(Run(h, es), e, a).table.devices[i] == BLANK
  {
    LeakIsPermanent(h, es);
    StepRemovesNeedy(Run(h, es), e, a);
  }

  // ----- Concrete runs -----

  const QUERYING := Answers(map[], true, None, Parser(NoSetup, true), true, true, true)

  const REFUSING := QUERYING.(sdpAccepts := false)

  /** A gamepad whose VID/PID query is under way, alone in the table. */
  const ASKED := Host(Table([Created(1).(name := Some(WirelessController), sdpQuery := BeforeConnect,
                                         state := VendorRequested), BLANK, BLANK, BLANK], []),
                      Some(0), Some(0), [0])

  lemma ResultThenRefusal()
    ensures var h := Step(ASKED, PidQueryComplete, REFUSING);
            && h.sdp == Some(0) && h.timer.None? && h.queries == [0]
            && h.table == Table([BLANK, BLANK, BLANK, BLANK], [Freed(0, false)])
  {
    var fetched := GuessType(ASKED.table.devices[0], REFUSING.guessed).(state := VendorFetched);
    var h := ASKED.(table := Put(ASKED.table, 0, fetched));
    assert Step(ASKED, PidQueryComplete, REFUSING) == StartDescriptorQuery(h, 0, REFUSING);
    var t := WithState(h.table, 0, DescriptorRequested);
    RemoveChildless(t, 0, map[]);
    assert FreeOne(DisconnectOne(t, 0, map[]), 0).devices == [BLANK, BLANK, BLANK, BLANK];
  }

  /** Two events reach the leak: a gamepad is found, its VID/PID result arrives, the next query is refused. */
  lemma LeakIsReachable()
    ensures var es := [(InquiryResult(1, true, Some(WirelessController)), QUERYING), (PidQueryComplete, REFUSING)];
            && AlwaysPlausible(BOOT, es) && NeverHarmful(BOOT, es)
            && Leaked(Run(BOOT, es)) && Settled(Run(BOOT, es).table.devices)
            && Run(BOOT, es).table == Table([BLANK, BLANK, BLANK, BLANK], [Freed(0, false)])
  {
    InquiryStartsQuery(1, QUERYING);
    RunTwo(BOOT, (InquiryResult(1, true, Some(WirelessController)), QUERYING), (PidQueryComplete, REFUSING));
    ResultThenRefusal();
  }

  /** And the next gamepad of that name is removed in the event that finds it. */
  lemma NextGamepadRemoved(h: Host, a: Answers)
    requires Leaked(h) && h.table.devices == BOOT.table.devices
    ensures Step(h, InquiryResult(2, true, Some(WirelessController)), a).table.devices[0] == BLANK
  {
    var e := InquiryResult(2, true, Some(WirelessController));
    assert FreeSlot(h.table.devices) == Some(0) && ByAddress(h.table.devices, 2).None?;
    StepRemovesNeedy(h, e, a);
  }

  /** The lock outlives its device: a device removed during its query leaves the lock dangling. */
  lemma LockCanDangle()
    ensures var es := [(InquiryResult(1, true, Some(WirelessController)), QUERYING), (DisconnectCommand(0), QUERYING)];
            var h := Run(BOOT, es);
            && AlwaysPlausible(BOOT, es) && NeverRefused(BOOT, es)
            && Dangling(h) && h.table.devices[0] == BLANK && h.table.log == [Freed(0, false)]
  {
    var e0, e1 := InquiryResult(1, true, Some(WirelessController)), DisconnectCommand(0);
    var h1 := Step(BOOT, e0, QUERYING);
    InquiryStartsQuery(1, QUERYING);
    RunTwo(BOOT, (e0, QUERYING), (e1, QUERYING));
    RemoveChildless(h1.table, 0, map[]);
    assert AtIndex(0) == Some(0);
  }

  lemma RunTwo(h: Host, x: (Event, Answers), y: (Event, Answers))
    ensures Run(h, [x, y]) == Step(Step(h, x.0, x.1), y.0, y.1)
    ensures AlwaysPlausible(h, [x, y]) <==> Plausible(h, x.0) && Plausible(Step(h, x.0, x.1), y.0)
    ensures NeverHarmful(h, [x, y]) <==> !Harmful(h, x.0, x.1) && !Harmful(Step(h, x.0, x.1), y.0, y.1)
    ensures NeverRefused(h, [x, y]) <==> !Refused(h, x.0, x.1) && !Refused(Step(h, x.0, x.1), y.0, y.1)
  {
    var h1 := Step(h, x.0, x.1);
    var both, last := [x, y], [y];
    assert both[1..] == last && last[1..] == [];
    assert Run(h1, last) == Run(Step(h1, y.0, y.1), last[1..]);
    assert AlwaysPlausible(h1, last) <==> Plausible(h1, y.0) && AlwaysPlausible(Step(h1, y.0, y.1), last[1..]);
    assert NeverHarmful(h1, last) <==> !Harmful(h1, y.0, y.1) && NeverHarmful(Step(h1, y.0, y.1), last[1..]);
    assert NeverRefused(h1, last) <==> !Refused(h1, y.0, y.1) && NeverRefused(Step(h1, y.0, y.1), last[1..]);
  }

  lemma InquiryStartsQuery(addr: nat, a: Answers)
    requires addr != 0 && a.sdpAccepts
    ensures Step(BOOT, InquiryResult(addr, true, Some(WirelessController)), a)
         == Host(Table([Created(addr).(name := Some(WirelessController), sdpQuery := BeforeConnect,
                                       state := VendorRequested), BLANK, BLANK, BLANK], []),
                 Some(0), Some(0), [0])
  {
    assert FreeSlot(BOOT.table.devices) == Some(0);
    assert ByAddress(BOOT.table.devices, addr).None?;
  }
}
