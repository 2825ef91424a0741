// components/bluepad32_component/bt: what the host does for a device when an event concerning it
// arrives, in terms of the device before and after.

module Connecting {
  import opened Wrappers
  import opened DeviceTable
  import opened BluetoothHost
  import opened SdpLock
  import opened Tenancy

  predicate Elsewhere(t: Table, u: Table, i: Index) { forall k: Index :: k != i ==> u.devices[k] == t.devices[k] }

  predicate LockUntouched(h: Host, r: Host) { r.sdp == h.sdp && r.timer == h.timer && r.queries == h.queries }

  // ----- The name is in -----

  /** The device whose name event e brings, and that name: told, made up after a timeout, or found with it. */
  function NameArrives(h: Host, e: Event): Option<(Index, Name)> {
    var t := h.table;
    match e
    case RemoteName(addr, reply) =>
      var known := ByAddress(t.devices, addr);
      if known.None? || t.devices[known.value].state.PendingReady? || t.devices[known.value].state.Ready? then None
      else Some((known.value, reply))
    case NameTimeout(i) => if t.devices[i].nameTimer then Some((i, OtherName)) else None
    case InquiryResult(addr, supported, name) =>
      var slot := FreeSlot(t.devices);
      if supported && ByAddress(t.devices, addr).None? && slot.Some? && name.Some? then Some((slot.value, name.value))
      else None
    case _ => None
  }

  /** The device has announced its own connection; one just found by inquiry has not. */
  predicate Announced(h: Host, e: Event, i: Index) { !e.InquiryResult? && h.table.devices[i].incoming }

  /** The device as the name finds it. */
  function Found(h: Host, e: Event, i: Index): Device {
    if e.InquiryResult? then Created(e.addr) else h.table.devices[i]
  }

  /** The device once it has the name. */
  function Named(h: Host, e: Event, i: Index, name: Name): Device {
    Found(h, e, i).(name := Some(name), state := NameFetched,
                    nameTimer := e.RemoteName? && h.table.devices[i].nameTimer)
  }

  lemma NameStep(h: Host, e: Event, a: Answers, i: Index, name: Name)
    requires NameArrives(h, e) == Some((i, name))
    ensures var r := Fsm(h.(table := Put(h.table, i, Named(h, e, i, name))), i, a);
            Step(h, e, a) == if e.RemoteName? then r.(table := StopNameTimer(r.table, i)) else r
  {
    if e.InquiryResult? {
      var t := Create(h.table, e.addr).0;
      assert Put(t, i, Named(h, e, i, name)) == Put(h.table, i, Named(h, e, i, name));
    }
  }

  /**
   * A device this host connects to itself is called as soon as its name is known, unless it is a
   * "Wireless Controller": its control channel is requested, and nothing else happens, whether or not
   * the name is one that tells the model.
   */
  lemma NamedIsCalled(h: Host, e: Event, a: Answers, i: Index, name: Name)
    requires NameArrives(h, e) == Some((i, name)) && name != WirelessController && !Announced(h, e, i)
    requires a.channel.Some?
    ensures var r, d := Step(h, e, a), Found(h, e, i);
            var d' := r.table.devices[i];
            && d'.state.ControlRequested? && d'.controlCid == a.channel.value && d'.interruptCid == d.interruptCid
            && d'.addr == d.addr && d'.name == Some(name) && d'.connected == d.connected && !d'.incoming
            && d'.connTimer == d.connTimer && !d'.nameTimer
            && d'.sdpQuery == (if name.Recognized? then NotNeeded else d.sdpQuery)
            && d'.hasType == (d.hasType || name.Recognized?)
            && r.table.log == h.table.log && Elsewhere(h.table, r.table, i) && LockUntouched(h, r)
  {
    NameStep(h, e, a, i, name);
    CallFsm(h.(table := Put(h.table, i, Named(h, e, i, name))), i, a);
  }

  lemma CallFsm(h: Host, i: Index, a: Answers)
    requires var d := h.table.devices[i]; d.state.NameFetched? && !d.incoming && d.name.Some? && d.name != Some(WirelessController)
    requires a.channel.Some?
    ensures var d := h.table.devices[i];
            var typed := if d.name == Some(Recognized) then GuessType(d, a.guessed).(sdpQuery := NotNeeded) else d;
            Fsm(h, i, a)
            == h.(table := Put(h.table, i, typed.(controlCid := a.channel.value, state := ControlRequested)))
  {
  }

  /** The parser the device has once its model has been guessed. */
  function ParserOf(d: Device, a: Answers): Parser { GuessType(d, a.guessed).parser }

  /**
   * A device that announced itself, with a name that tells its model and a parser that is ready at once,
   * is ready if the platform takes it, and gone if not.
   */
  lemma NamedIsReady(h: Host, e: Event, a: Answers, i: Index)
    requires NameArrives(h, e) == Some((i, Recognized)) && Announced(h, e, i)
    requires ParserOf(Found(h, e, i), a).setup in {NoSetup, ReadyAtOnce}
    ensures var r, d := Step(h, e, a), h.table.devices[i];
            var d' := r.table.devices[i];
            && LockUntouched(h, r)
            && if a.deviceAccepted then
                 && d'.state.Ready? && !d'.connTimer && d'.sdpQuery.NotNeeded? && d'.hasType
                 && d'.addr == d.addr && d'.controlCid == d.controlCid && d'.connected == d.connected
                 && r.table.log == h.table.log && Elsewhere(h.table, r.table, i)
               else d' == BLANK && GivenBack(h.table, r.table, i)
  {
    var t := Put(h.table, i, Named(h, e, i, Recognized));
    NameStep(h, e, a, i, Recognized);
    ReadyFsm(h.(table := t), i, a);
    GivenBackSplits(h.table, t, Fsm(h.(table := t), i, a).table, i);
  }

  lemma ReadyFsm(h: Host, i: Index, a: Answers)
    requires var d := h.table.devices[i]; d.state.NameFetched? && d.incoming && d.name == Some(Recognized)
    requires ParserOf(h.table.devices[i], a).setup in {NoSetup, ReadyAtOnce}
    ensures var d, r := h.table.devices[i], Fsm(h, i, a);
            && LockUntouched(h, r)
            && if a.deviceAccepted then
                 r.table == Put(h.table, i, GuessType(d, a.guessed).(sdpQuery := NotNeeded, connTimer := false,
                                                                     state := ConnState.Ready))
               else r.table.devices[i] == BLANK && Grows(h.table, r.table) && GivenBack(h.table, r.table, i)
  {
    var d := h.table.devices[i];
    var e := GuessType(d, a.guessed).(sdpQuery := NotNeeded, state := DescriptorFetched);
    var t := Put(h.table, i, e);
    assert Fsm(h, i, a) == h.(table := SetReady(t, i, a));
    SetReadyAtOnce(t, i, a);
    if a.deviceAccepted {
      PutTwice(h.table, i, e, e.(connTimer := false, state := ConnState.Ready));
    } else {
      var f := e.(connTimer := false, state := PendingReady);
      PutTwice(h.table, i, e, f);
      RemoveBlanks(Put(h.table, i, f), i, a.links);
      EditThenRemoveKeeps(h.table, i, f, a.links);
    }
  }

  lemma PutTwice(t: Table, i: Index, d: Device, e: Device)
    ensures Put(Put(t, i, d), i, e) == Put(t, i, e)
  {
  }

  /** A parser that is ready at once leaves the verdict to the platform. */
  lemma SetReadyAtOnce(t: Table, i: Index, a: Answers)
    requires !t.devices[i].state.PendingReady? && t.devices[i].parser.setup in {NoSetup, ReadyAtOnce}
    ensures var d := t.devices[i].(connTimer := false);
            SetReady(t, i, a) == if a.deviceAccepted then Put(t, i, d.(state := ConnState.Ready))
                                 else Remove(Put(t, i, d.(state := PendingReady)), i, a.links)
  {
    var pending := t.devices[i].(state := PendingReady);
    var d := pending.(connTimer := false);
    PutTwice(t, i, pending, d);
    PutTwice(t, i, d, d.(state := ConnState.Ready));
    assert SetReady(t, i, a) == ReadyComplete(Put(t, i, pending), i, a.deviceAccepted, a.links).0;
  }

  /** A device whose vendor and product have to be asked for before anything else. */
  predicate AskedFirst(h: Host, e: Event, i: Index, name: Name) {
    || name.WirelessController?
    || (name.OtherName? && Announced(h, e, i) && !h.table.devices[i].sdpQuery.NotNeeded?)
  }

  /**
   * Such a device takes the lock if it is free, and its query is started; if the SDP client refuses, or
   * the lock is taken, the device is gone.
   */
  lemma NamedIsAsked(h: Host, e: Event, a: Answers, i: Index, name: Name)
    requires NameArrives(h, e) == Some((i, name)) && AskedFirst(h, e, i, name)
    ensures var r, d := Step(h, e, a), Found(h, e, i);
            var d' := r.table.devices[i];
            && (if h.sdp.Some? then LockUntouched(h, r)
                else r.sdp == Some(i) && r.timer == Some(i) && r.queries == h.queries + [i])
            && if h.sdp.None? && a.sdpAccepts then
                 && d'.state.VendorRequested? && d'.addr == d.addr && d'.name == Some(name)
                 && d'.sdpQuery == (if name.WirelessController? then BeforeConnect else d.sdpQuery)
                 && d'.incoming == Announced(h, e, i) && d'.controlCid == d.controlCid
                 && r.table.log == h.table.log && Elsewhere(h.table, r.table, i)
               else d' == BLANK && GivenBack(h.table, r.table, i)
  {
    var t := Put(h.table, i, Named(h, e, i, name));
    NameStep(h, e, a, i, name);
    AskFsm(h.(table := t), i, a);
    GivenBackSplits(h.table, t, Fsm(h.(table := t), i, a).table, i);
  }

  lemma AskFsm(h: Host, i: Index, a: Answers)
    requires NeedsQuery(h.table.devices[i]) && h.table.devices[i].state.NameFetched?
    ensures var d, r := h.table.devices[i], Fsm(h, i, a);
            var e := if d.name == Some(WirelessController) then d.(sdpQuery := BeforeConnect) else d;
            && (if h.sdp.Some? then LockUntouched(h, r)
                else r.sdp == Some(i) && r.timer == Some(i) && r.queries == h.queries + [i])
            && if h.sdp.None? && a.sdpAccepts then r.table == Put(h.table, i, e.(state := VendorRequested))
               else r.table.devices[i] == BLANK && Grows(h.table, r.table) && GivenBack(h.table, r.table, i)
  {
    var d := h.table.devices[i];
    var e := if d.name == Some(WirelessController) then d.(sdpQuery := BeforeConnect) else d;
    var h1 := h.(table := Put(h.table, i, e));
    assert Fsm(h, i, a) == SdpStart(h1, i, a);
    Asked(h1, i, a);
    PutKeeps(h.table, i, e);
    PutTwice(h.table, i, e, e.(state := VendorRequested));
    GivenBackSplits(h.table, h1.table, SdpStart(h1, i, a).table, i);
    SdpStartKeeps(h1, i, a);
    GrowsOn(h.table, h1.table, SdpStart(h1, i, a).table);
  }

  lemma Asked(h: Host, i: Index, a: Answers)
    ensures var r := SdpStart(h, i, a);
            && (if h.sdp.Some? then LockUntouched(h, r)
                else r.sdp == Some(i) && r.timer == Some(i) && r.queries == h.queries + [i])
            && if h.sdp.None? && a.sdpAccepts then r.table == WithState(h.table, i, VendorRequested)
               else r.table.devices[i] == BLANK && Grows(h.table, r.table) && GivenBack(h.table, r.table, i)
  {
    var d := h.table.devices[i].(state := VendorRequested);
    RemoveBlanks(h.table, i, a.links);
    RemoveKeeps(h.table, i, a.links);
    RemoveBlanks(Put(h.table, i, d), i, a.links);
    EditThenRemoveKeeps(h.table, i, d, a.links);
  }

  // ----- Where a device this host called may become ready -----

  lemma FsmMakesReady(h: Host, j: Index, a: Answers, i: Index)
    requires var d := Fsm(h, j, a).table.devices[i]; d.addr != 0 && d.parent.None? && d.state.Ready?
    requires !h.table.devices[i].state.Ready? && (i == j && Occupied(h.table, i) ==> !h.table.devices[i].incoming)
    ensures i == j && Occupied(h.table, i)
    ensures h.table.devices[i].state in {VendorFetched, DescriptorFetched, InterruptConnected}
  {
    FsmKeeps(h, j, a);
    if h.table.devices[j].state.NameFetched? && i == j {
      NotReadyOnName(h, j, a);
    }
  }

  lemma NotReadyOnName(h: Host, i: Index, a: Answers)
    requires h.table.devices[i].state.NameFetched? && !h.table.devices[i].incoming
    ensures var d := Fsm(h, i, a).table.devices[i]; d == BLANK || !d.state.Ready?
  {
    if NeedsQuery(h.table.devices[i]) {
      AskFsm(h, i, a);
    }
  }

  /**
   * Of a device this host calls, an inquiry result, a name or a name timeout makes ready only one whose
   * queries or whose channels were done when the event began. A name alone never does.
   */
  lemma CalledReadyOnlyWhenDone(h: Host, e: Event, a: Answers, i: Index)
    requires Settled(h.table.devices) && (e.InquiryResult? || e.RemoteName? || e.NameTimeout?)
    requires !h.table.devices[i].state.Ready? && (Occupied(h.table, i) ==> !h.table.devices[i].incoming)
    requires var d := Step(h, e, a).table.devices[i]; d.addr != 0 && d.parent.None? && d.state.Ready?
    ensures e.InquiryResult? && Occupied(h.table, i)
    ensures h.table.devices[i].state in {DescriptorFetched, InterruptConnected}
  {
    OnlyThroughFsm(h, e, a, i);
    var (t, j) := FsmEntry(h, e, a).value;
    EntryState(h, e, a);
    EntryDevice(h, e, a, i);
    DeviceAfter(h, e, a, i);
    FsmMakesReady(h.(table := t), j, a, i);
  }

  lemma DeviceAfter(h: Host, e: Event, a: Answers, i: Index)
    requires FsmEntry(h, e, a).Some?
    ensures var (t, j) := FsmEntry(h, e, a).value;
            var d, d' := Fsm(h.(table := t), j, a).table.devices[i], Step(h, e, a).table.devices[i];
            d' == d || d' == d.(nameTimer := false)
  {
    if e.RemoteName? {
      RemoteNameEntry(h, e, a);
    } else {
      EntryTable(h, e, a);
    }
  }

  lemma OnlyThroughFsm(h: Host, e: Event, a: Answers, i: Index)
    requires e.InquiryResult? || e.RemoteName? || e.NameTimeout?
    requires Step(h, e, a).table.devices[i].state != h.table.devices[i].state
    ensures FsmEntry(h, e, a).Some?
  {
  }

  /** What such an event does to the device before the state machine sees it. */
  lemma EntryDevice(h: Host, e: Event, a: Answers, i: Index)
    requires (e.InquiryResult? || e.RemoteName? || e.NameTimeout?) && FsmEntry(h, e, a).Some?
    ensures var (t, j) := FsmEntry(h, e, a).value;
            && (i != j ==> t.devices[i] == h.table.devices[i])
            && (t == h.table || t.devices[j].state in {NameFetched, Discovered})
            && (e.InquiryResult? && t != h.table ==> !t.devices[j].incoming)
            && (!e.InquiryResult? ==> t.devices[j].state.NameFetched? && t.devices[j].incoming == h.table.devices[j].incoming
                                      && t.devices[j].addr == h.table.devices[j].addr)
  {
  }

  // ----- Channels -----

  /** The control channel is open: this host asks for the interrupt channel if it is the one that called. */
  lemma ControlOpens(h: Host, e: Event, a: Answers, i: Index)
    requires e.ChannelOpened? && e.ok && e.psm.ControlPsm? && ByAddress(h.table.devices, e.addr) == Some(i)
    ensures var r, d := Step(h, e, a), h.table.devices[i];
            var joined := d.(controlCid := e.cid, state := ControlConnected);
            && LockUntouched(h, r) && r.table.log == h.table.log && Elsewhere(h.table, r.table, i)
            && r.table.devices[i] ==
               if d.incoming || a.channel.None? then joined
               else joined.(interruptCid := a.channel.value, state := InterruptRequested)
  {
  }

  /** What the state machine does once the interrupt channel is open, to the device as it is then. */
  lemma InterruptStep(h: Host, e: Event, a: Answers, i: Index)
    requires InterruptOpens(h, e) == Some(i)
    ensures var d := h.table.devices[i].(interruptCid := e.cid, state := InterruptConnected, connected := true);
            Step(h, e, a) == Fsm(h.(table := Put(h.table, i, d).(log := h.table.log + [ToldConnected(i)])), i, a)
  {
    var d := h.table.devices[i].(interruptCid := e.cid, state := InterruptConnected);
    PutTwice(h.table, i, d, d.(connected := true));
  }

  /**
   * The interrupt channel is open and the device is announced connected. If it has no name yet, that is
   * asked for next, under a timeout. Otherwise nothing more happens to a device that called by itself;
   * one that was called is queried or, if that is done or not needed, made ready.
   */
  lemma InterruptOpensNext(h: Host, e: Event, a: Answers, i: Index)
    requires InterruptOpens(h, e) == Some(i)
    ensures var r, d := Step(h, e, a), h.table.devices[i];
            var joined := d.(interruptCid := e.cid, state := InterruptConnected, connected := true);
            var log := h.table.log + [ToldConnected(i)];
            && (d.name.None? ==>
                  && LockUntouched(h, r)
                  && r.table == Put(h.table, i, joined.(state := NameInquired, nameTimer := true)).(log := log))
            && (d.name.Some? && d.incoming ==>
                  LockUntouched(h, r) && r.table == Put(h.table, i, joined).(log := log))
            && (d.name.Some? && !d.incoming && d.sdpQuery.AfterConnect? && h.sdp.None? && a.sdpAccepts ==>
                  && r.sdp == Some(i) && r.timer == Some(i) && r.queries == h.queries + [i]
                  && r.table == Put(h.table, i, joined.(state := VendorRequested)).(log := log))
            && (d.name.Some? && !d.incoming && d.sdpQuery.AfterConnect? && h.sdp.Some? ==>
                  LockUntouched(h, r) && r.table.devices[i] == BLANK)
            && (d.name.Some? && !d.incoming && !d.sdpQuery.AfterConnect? && a.deviceAccepted
                && d.parser.setup in {NoSetup, ReadyAtOnce} ==>
                  && LockUntouched(h, r)
                  && r.table == Put(h.table, i, joined.(state := ConnState.Ready, connTimer := false)).(log := log))
  {
    var d := h.table.devices[i];
    var joined := d.(interruptCid := e.cid, state := InterruptConnected, connected := true);
    var t := Put(h.table, i, joined).(log := h.table.log + [ToldConnected(i)]);
    InterruptStep(h, e, a, i);
    if d.name.None? {
      NamelessFsm(h.(table := t), i, a);
      PutTwice(h.table, i, joined, joined.(state := NameInquired, nameTimer := true));
    } else if !d.incoming && d.sdpQuery.AfterConnect? {
      QueryFsm(h.(table := t), i, a);
      PutTwice(h.table, i, joined, joined.(state := VendorRequested));
    } else if !d.incoming && d.parser.setup in {NoSetup, ReadyAtOnce} && a.deviceAccepted {
      JoinedFsm(h.(table := t), i, a);
      PutTwice(h.table, i, joined, joined.(state := ConnState.Ready, connTimer := false));
    }
  }

  lemma NamelessFsm(h: Host, i: Index, a: Answers)
    requires h.table.devices[i].state.InterruptConnected? && h.table.devices[i].name.None?
    ensures Fsm(h, i, a)
         == h.(table := Put(h.table, i, h.table.devices[i].(state := NameInquired, nameTimer := true)))
  {
  }

  lemma QueryFsm(h: Host, i: Index, a: Answers)
    requires NeedsQuery(h.table.devices[i]) && h.table.devices[i].state.InterruptConnected?
    ensures var r := Fsm(h, i, a);
            if h.sdp.Some? then LockUntouched(h, r) && r.table.devices[i] == BLANK
            else
              && r.sdp == Some(i) && r.timer == Some(i) && r.queries == h.queries + [i]
              && (a.sdpAccepts ==> r.table == WithState(h.table, i, VendorRequested))
  {
    assert Fsm(h, i, a) == SdpStart(h, i, a);
    Asked(h, i, a);
  }

  lemma JoinedFsm(h: Host, i: Index, a: Answers)
    requires var d := h.table.devices[i];
             d.state.InterruptConnected? && d.name.Some? && !d.incoming && !d.sdpQuery.AfterConnect?
    requires h.table.devices[i].parser.setup in {NoSetup, ReadyAtOnce} && a.deviceAccepted
    ensures Fsm(h, i, a)
         == h.(table := Put(h.table, i, h.table.devices[i].(state := ConnState.Ready, connTimer := false)))
  {
    assert Fsm(h, i, a) == h.(table := SetReady(h.table, i, a));
    SetReadyAtOnce(h.table, i, a);
  }

  // ----- Query results -----

  /** The queries are over: of a HID descriptor, or of a vendor and product that need none. */
  predicate QueriesEnd(h: Host, e: Event, a: Answers, i: Index) {
    && h.sdp == Some(i)
    && (e.HidQueryComplete? || (e.PidQueryComplete? && !ParserOf(h.table.devices[i], a).needsDescriptor))
  }

  /**
   * The lock is free again, and a device queried before its connection is called now; any other is ready
   * if the platform takes it.
   */
  lemma QueriedGoesOn(h: Host, e: Event, a: Answers, i: Index)
    requires QueriesEnd(h, e, a, i)
    ensures var r := Step(h, e, a);
            var d := if e.PidQueryComplete? then GuessType(h.table.devices[i], a.guessed) else h.table.devices[i];
            && r.sdp.None? && r.timer.None? && r.queries == h.queries
            && (!d.incoming && d.sdpQuery.BeforeConnect? && a.channel.Some? ==>
                  r.table == Put(h.table, i, d.(controlCid := a.channel.value, state := ControlRequested)))
            && ((d.incoming || !d.sdpQuery.BeforeConnect?) && d.parser.setup in {NoSetup, ReadyAtOnce} ==>
                  if a.deviceAccepted then r.table == Put(h.table, i, d.(state := ConnState.Ready, connTimer := false))
                  else r.table.devices[i] == BLANK)
  {
    var d := if e.PidQueryComplete? then GuessType(h.table.devices[i], a.guessed) else h.table.devices[i];
    var before := if e.PidQueryComplete? then Put(h.table, i, d.(state := VendorFetched)) else h.table;
    if e.PidQueryComplete? {
      PidResultStartsQuery(h, a);
      PutTwice(h.table, i, d.(state := VendorFetched), d.(state := DescriptorFetched));
    }
    assert Step(h, e, a) == SdpEnd(h.(table := before), i, a);
    assert WithState(before, i, DescriptorFetched) == Put(h.table, i, d.(state := DescriptorFetched));
    FetchedGoesOn(h.table, i, d.(state := DescriptorFetched), a);
  }

  lemma FetchedGoesOn(t: Table, i: Index, d: Device, a: Answers)
    requires d.state.DescriptorFetched?
    ensures var u := DescriptorFetchedStep(Put(t, i, d), i, a);
            && (!d.incoming && d.sdpQuery.BeforeConnect? && a.channel.Some? ==>
                  u == Put(t, i, d.(controlCid := a.channel.value, state := ControlRequested)))
            && ((d.incoming || !d.sdpQuery.BeforeConnect?) && d.parser.setup in {NoSetup, ReadyAtOnce} ==>
                  if a.deviceAccepted then u == Put(t, i, d.(state := ConnState.Ready, connTimer := false))
                  else u.devices[i] == BLANK)
  {
    if a.channel.Some? {
      PutTwice(t, i, d, d.(controlCid := a.channel.value, state := ControlRequested));
    }
    if d.parser.setup in {NoSetup, ReadyAtOnce} {
      SetReadyAtOnce(Put(t, i, d), i, a);
      PutTwice(t, i, d, d.(state := ConnState.Ready, connTimer := false));
      RemoveBlanks(Put(Put(t, i, d), i, d.(connTimer := false, state := PendingReady)), i, a.links);
    }
  }

  /** A descriptor is needed: the second query is made under the same lock, or the device is gone. */
  lemma DescriptorIsAsked(h: Host, a: Answers, i: Index)
    requires h.sdp == Some(i) && ParserOf(h.table.devices[i], a).needsDescriptor
    ensures var r := Step(h, PidQueryComplete, a);
            var d := GuessType(h.table.devices[i], a.guessed).(state := DescriptorRequested);
            && r.sdp == Some(i) && r.queries == h.queries
            && if a.sdpAccepts then r.timer == h.timer && r.table == Put(h.table, i, d)
               else r.timer.None? && r.table.devices[i] == BLANK
  {
    var d := GuessType(h.table.devices[i], a.guessed);
    PidResultStartsQuery(h, a);
    PutTwice(h.table, i, d.(state := VendorFetched), d.(state := DescriptorRequested));
    RemoveBlanks(Put(h.table, i, d.(state := DescriptorRequested)), i, a.links);
  }

  // ----- Devices that go -----

  /** The event ends the connection of the device in slot i, by whatever it is named in the event. */
  predicate Leaves(h: Host, e: Event, i: Index) {
    var ds := h.table.devices;
    match e
    case ChannelOpened(addr, ok, _, _) =>
      !ok && ds[i].parent.None? && ds[i].addr == addr
      && forall k: Index :: k < i ==> !(ds[k].parent.None? && ds[k].addr == addr)
    case ChannelClosed(cid) =>
      cid != 0 && cid in {ds[i].controlCid, ds[i].interruptCid}
      && forall k: Index :: k < i ==> cid !in {ds[k].controlCid, ds[k].interruptCid}
    case HciDisconnected(handle) =>
      handle != 0xffff && ds[i].handle == handle && forall k: Index :: k < i ==> ds[k].handle != handle
    case DisconnectCommand(idx) => idx == i
    case ConnectionTimeout(j) => j == i && ds[i].connTimer && !ds[i].state.Ready?
    case _ => false
  }

  /** Such a device is gone afterwards, and the lock has not moved. */
  lemma EndedIsGone(h: Host, e: Event, a: Answers, i: Index)
    requires Leaves(h, e, i)
    ensures var r := Step(h, e, a);
            r.table.devices[i] == BLANK && GivenBack(h.table, r.table, i) && LockUntouched(h, r)
  {
    RemoveBlanks(h.table, i, a.links);
    RemoveKeeps(h.table, i, a.links);
    match e {
      case ConnectionTimeout(_) =>
        var d := h.table.devices[i].(connTimer := false);
        RemoveBlanks(Put(h.table, i, d), i, a.links);
        EditThenRemoveKeeps(h.table, i, d, a.links);
      case ChannelOpened(addr, _, _, _) => assert ByAddress(h.table.devices, addr) == Some(i);
      case ChannelClosed(cid) => assert ByCid(h.table.devices, cid) == Some(i);
      case HciDisconnected(handle) => assert ByHandle(h.table.devices, handle) == Some(i);
      case DisconnectCommand(idx) => assert AtIndex(idx) == Some(i);
    }
  }

  /** And an event of these kinds that ends nobody changes nothing but the timer it came from. */
  lemma NobodyEnds(h: Host, e: Event, a: Answers)
    requires e.ChannelClosed? || e.HciDisconnected? || e.DisconnectCommand? || e.ConnectionTimeout?
    requires forall i: Index :: !Leaves(h, e, i)
    ensures Step(h, e, a) == if e.ConnectionTimeout? then
                               h.(table := Put(h.table, e.i, h.table.devices[e.i].(connTimer := false)))
                             else h
  {
    match e {
      case ConnectionTimeout(i) => assert !Leaves(h, e, i);
      case ChannelClosed(cid) => assert ByCid(h.table.devices, cid).Some? ==> Leaves(h, e, ByCid(h.table.devices, cid).value);
      case HciDisconnected(handle) =>
        assert ByHandle(h.table.devices, handle).Some? ==> Leaves(h, e, ByHandle(h.table.devices, handle).value);
      case DisconnectCommand(idx) => assert AtIndex(idx).Some? ==> Leaves(h, e, idx);
    }
  }

  /** A device with a child, both announced connected: the child is announced disconnected first. */
  lemma ChildGoesFirst(t: Table, p: Index, c: Index, links: map<nat, Link>)
    requires t.devices[p].child == Some(c) && t.devices[c].child.None? && p != c
    requires t.devices[p].connected && t.devices[c].connected
    ensures Disconnect(t, p, links).log == t.log + [ToldDisconnected(c), ToldDisconnected(p)]
  {
    PairLineage(t.devices, p, c);
    var none: seq<Index> := [];
    assert [p, c][1..] == [c] && [c][1..] == none;
    var u := DisconnectAll(t, [c], links);
    assert DisconnectAll(t, none, links) == t;
    assert u == DisconnectOne(t, c, links);
    assert DisconnectAll(t, [p, c], links) == DisconnectOne(u, p, links);
  }

  lemma PairLineage(ds: Devices, p: Index, c: Index)
    requires ds[p].child == Some(c) && ds[c].child.None? && p != c
    ensures Lineage(ds, p) == [p, c]
  {
    assert DeviceTable.Ends(ds, c, 1);
    assert DeviceTable.Ends(ds, p, 2);
    var n: nat :| DeviceTable.Ends(ds, p, n) && Lineage(ds, p) == Chain(ds, p, n);
    ChainUnique(ds, p, n, 2);
    assert Chain(ds, c, 1) == [c];
  }

  /** A disconnected device: no timer, and no handle left if the link was its own classic one. */
  lemma DisconnectedDevice(t: Table, i: Index, links: map<nat, Link>)
    requires t.devices[i].child.None?
    ensures var d, d' := t.devices[i], Disconnect(t, i, links).devices[i];
            && !d'.connected && !d'.connTimer && !d'.nameTimer && d'.addr == d.addr && d'.state == d.state
            && d'.handle == (if d.parent.None? && d.handle in links && links[d.handle].AclLink? then 0xffff else d.handle)
            && d'.controlCid == d.controlCid && d'.interruptCid == d.interruptCid
  {
    LineageOfChildless(t.devices, i);
    assert DisconnectAll(t, [i][1..], links) == t;
  }

  /** The service's disconnect drops a childless device without removing it. */
  lemma ServiceDropsOnly(h: Host, idx: nat, a: Answers)
    requires idx < MAX_DEVICES && h.table.devices[idx].child.None?
    ensures var r := Step(h, ServiceDisconnect(idx), a);
            && LockUntouched(h, r) && Elsewhere(h.table, r.table, idx)
            && r.table.devices[idx].addr == h.table.devices[idx].addr && !r.table.devices[idx].connected
            && r.table.log == h.table.log + if h.table.devices[idx].connected then [ToldDisconnected(idx)] else []
  {
    LineageOfChildless(h.table.devices, idx);
    assert DisconnectAll(h.table, [idx as Index][1..], a.links) == h.table;
  }

  // ----- What the platform says of a device that is ready -----

  /** A parser reports: a device not yet ready is ready if the platform takes it, and gone if not. */
  lemma ParserReports(h: Host, e: Event, a: Answers)
    requires e.ParserReady? && !e.withChild
    ensures var d := h.table.devices[e.i];
            Step(h, e, a) == h.(table := if d.state.Ready? then h.table
                                         else if a.deviceAccepted then
                                           Put(h.table, e.i, d.(connTimer := false, state := ConnState.Ready))
                                         else Remove(Put(h.table, e.i, d.(connTimer := false)), e.i, a.links))
  {
    var d := h.table.devices[e.i];
    PutTwice(h.table, e.i, d.(connTimer := false), d.(connTimer := false, state := ConnState.Ready));
  }

  /** A virtual child takes the first free slot, shares its parent's address, and both know each other. */
  lemma ChildIsLinked(t: Table, p: Index, c: Index)
    requires FreeSlot(t.devices) == Some(c) && c != p
    ensures var (u, slot) := CreateVirtual(t, p, true);
            && slot == Some(c) && u.log == t.log
            && u.devices[c].addr == t.devices[p].addr && u.devices[c].parent == Some(p) && u.devices[c].hasType
            && u.devices[p] == t.devices[p].(child := Some(c))
            && forall k: Index :: k != c && k != p ==> u.devices[k] == t.devices[k]
  {
  }

  // ----- Devices that come -----

  /** A connection request marks the device as calling by itself, a new one if it was not known. */
  lemma RequestAnnounces(h: Host, e: Event, a: Answers, i: Index)
    requires e.ConnectionRequest?
    requires ByAddress(h.table.devices, e.addr) == Some(i)
             || (ByAddress(h.table.devices, e.addr).None? && FreeSlot(h.table.devices) == Some(i))
    ensures var d := if ByAddress(h.table.devices, e.addr).Some? then h.table.devices[i] else Created(e.addr);
            Step(h, e, a) == h.(table := Put(h.table, i, d.(incoming := true)))
  {
    PutTwice(h.table, i, Created(e.addr), Created(e.addr).(incoming := true));
  }

  /** A completed connection gives the device its handle; a failed one, or an unknown device, nothing. */
  lemma CompleteGivesHandle(h: Host, e: Event, a: Answers)
    requires e.ConnectionComplete?
    ensures match ByAddress(h.table.devices, e.addr)
            case Some(i) =>
              Step(h, e, a) == if e.ok then h.(table := Put(h.table, i, h.table.devices[i].(handle := e.handle))) else h
            case None => Step(h, e, a) == h
  {
  }

  /** The two connections of a device that calls by itself: the control channel brings the handle with it. */
  lemma IncomingChannels(h: Host, e: Event, a: Answers, i: Index)
    requires e.IncomingConnection? && e.allowed
    requires ByAddress(h.table.devices, e.addr) == Some(i) && !h.table.devices[i].state.Ready?
    ensures var d := h.table.devices[i];
            Step(h, e, a)
            == h.(table := Put(h.table, i,
                               match e.psm
                               case ControlPsm => d.(handle := e.handle, controlCid := e.channel, incoming := true)
                               case InterruptPsm => d.(interruptCid := e.channel)
                               case OtherPsm => d))
  {
    assert Put(h.table, i, h.table.devices[i]) == h.table;
  }

  /** A name for a device that is about to be ready, or is, is noted, and nothing follows from it. */
  lemma LateName(h: Host, e: Event, a: Answers, i: Index)
    requires e.RemoteName? && ByAddress(h.table.devices, e.addr) == Some(i)
    requires h.table.devices[i].state in {PendingReady, ConnState.Ready}
    ensures Step(h, e, a)
         == h.(table := Put(h.table, i, h.table.devices[i].(name := Some(e.reply), nameTimer := false)))
  {
    PutTwice(h.table, i, h.table.devices[i].(name := Some(e.reply)),
             h.table.devices[i].(name := Some(e.reply), nameTimer := false));
  }

  /** A device found by inquiry without a name is asked for it. */
  lemma NamelessIsAskedFor(h: Host, e: Event, a: Answers, i: Index)
    requires e.InquiryResult? && e.supported && e.name.None?
    requires ByAddress(h.table.devices, e.addr).None? && FreeSlot(h.table.devices) == Some(i)
    ensures Step(h, e, a)
         == h.(table := Put(h.table, i, Created(e.addr).(state := NameInquired, nameTimer := true)))
  {
    var t := Create(h.table, e.addr).0;
    PutTwice(h.table, i, Created(e.addr), Created(e.addr).(state := Discovered));
    PutTwice(h.table, i, Created(e.addr).(state := Discovered), Created(e.addr).(state := NameInquired, nameTimer := true));
  }

  /** A device that is ready, or of a kind that is not supported, is left alone by an inquiry. */
  lemma InquiryIgnored(h: Host, e: Event, a: Answers)
    requires e.InquiryResult?
    requires !e.supported || (exists i: Index :: ByAddress(h.table.devices, e.addr) == Some(i) && h.table.devices[i].state.Ready?)
             || (ByAddress(h.table.devices, e.addr).None? && FreeSlot(h.table.devices).None?)
    ensures Step(h, e, a) == h
  {
  }

  /** A connection that is not allowed leaves no trace. */
  lemma RefusedConnection(h: Host, e: Event, a: Answers)
    requires e.IncomingConnection? && !e.allowed
    ensures Step(h, e, a) == h
  {
  }

  /**
   * A control connection from a device that counts as ready can only mean that it has reconnected: the
   * old one is removed, with its children, and a new one takes the first free slot.
   */
  lemma ReconnectionReplaces(h: Host, e: Event, a: Answers, i: Index)
    requires e.IncomingConnection? && e.allowed && e.psm.ControlPsm?
    requires ByAddress(h.table.devices, e.addr) == Some(i) && h.table.devices[i].state.Ready?
    ensures var u := Remove(h.table, i, a.links);
            && u.devices[i] == BLANK && GivenBack(h.table, Step(h, e, a).table, i) && LockUntouched(h, Step(h, e, a))
            && FreeSlot(u.devices).Some?
            && Step(h, e, a).table
               == Put(u, FreeSlot(u.devices).value,
                      Created(e.addr).(handle := e.handle, controlCid := e.channel, incoming := true))
  {
    RemoveBlanks(h.table, i, a.links);
    RemoveKeeps(h.table, i, a.links);
    var u := Remove(h.table, i, a.links);
    var c := FreeSlot(u.devices).value;
    PutTwice(u, c, Created(e.addr), Created(e.addr).(handle := e.handle, controlCid := e.channel, incoming := true));
  }
}
