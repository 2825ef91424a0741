// Worked examples on a table with one or two gamepads: the four orders in which one gets connected,
// from first contact to ready, a removal that takes along a stranger, a query result that reaches one,
// and a device that is ready without a connection. They show that the states the theorems speak of are
// reached; they are not theorems about all runs.

module ConnectionFlows {
  import opened Wrappers
  import opened DeviceTable
  import opened BluetoothHost

  ghost function RunAll(h: Host, es: seq<Event>, a: Answers): Host
    decreases |es|
  {
    if es == [] then h else RunAll(Step(h, es[0], a), es[1..], a)
  }

  lemma RunHead(h: Host, e: Event, es: seq<Event>, a: Answers)
    ensures RunAll(h, [e] + es, a) == RunAll(Step(h, e, a), es, a)
  {
    assert ([e] + es)[1..] == es;
  }

  lemma RunLast(h: Host, e: Event, a: Answers)
    ensures RunAll(h, [e], a) == Step(h, e, a)
  {
    assert [e][1..] == [];
  }

  /** The host with one device, in slot 0, and nothing else going on but what is said. */
  function Single(d: Device, log: seq<Note>, lock: Option<Index>, queries: seq<Index>): Host {
    Host(Table([d, BLANK, BLANK, BLANK], log), lock, lock, queries)
  }

  lemma OnlyDevice(d: Device, addr: nat)
    requires d.addr == addr != 0 && d.parent.None?
    ensures ByAddress([d, BLANK, BLANK, BLANK], addr) == Some(0)
  {
  }

  lemma EmptyTable(addr: nat)
    requires addr != 0
    ensures ByAddress(BOOT.table.devices, addr).None? && FreeSlot(BOOT.table.devices) == Some(0)
  {
  }

  predicate Helpful(a: Answers) {
    a.sdpAccepts && a.channel.Some? && a.deviceAccepted && a.guessed.setup in {NoSetup, ReadyAtOnce}
  }

  /** Ready, connected once, its timeout stopped, and the SDP lock free again. */
  predicate ReadyAlone(h: Host, addr: nat, queries: seq<Index>) {
    && h.table.devices[0].addr == addr && h.table.devices[0].state.Ready?
    && h.table.devices[0].connected && !h.table.devices[0].connTimer
    && h.table.log == [ToldConnected(0)] && h.sdp.None? && h.timer.None? && h.queries == queries
  }

  // ----- Single steps of a host with one device -----

  lemma FoundByInquiry(addr: nat, a: Answers)
    requires Helpful(a) && addr != 0
    ensures Step(BOOT, InquiryResult(addr, true, Some(OtherName)), a)
         == Single(Created(addr).(name := Some(OtherName), controlCid := a.channel.value, state := ControlRequested),
                   [], None, [])
    ensures Step(BOOT, InquiryResult(addr, true, Some(WirelessController)), a)
         == Single(Created(addr).(name := Some(WirelessController), sdpQuery := BeforeConnect, state := VendorRequested),
                   [], Some(0), [0])
  {
    EmptyTable(addr);
    var found := Single(Created(addr), [], None, []).table;
    assert Create(BOOT.table, addr).0.devices == found.devices;
  }

  lemma ControlOpened(d: Device, addr: nat, cid: nat, queries: seq<Index>, a: Answers)
    requires (d.incoming || a.channel.Some?) && d.addr == addr != 0 && d.parent.None?
    ensures var d' := d.(controlCid := cid, state := ControlConnected);
            Step(Single(d, [], None, queries), ChannelOpened(addr, true, ControlPsm, cid), a)
            == Single(if d.incoming then d' else d'.(interruptCid := a.channel.value, state := InterruptRequested),
                      [], None, queries)
  {
    OnlyDevice(d, addr);
  }

  /** The device as the interrupt channel leaves it to the state machine. */
  function WithInterrupt(d: Device, cid: nat): Device {
    d.(interruptCid := cid, state := InterruptConnected, connected := true)
  }

  lemma InterruptOpened(d: Device, addr: nat, cid: nat, queries: seq<Index>, a: Answers)
    requires d.addr == addr != 0 && d.parent.None?
    ensures Step(Single(d, [], None, queries), ChannelOpened(addr, true, InterruptPsm, cid), a)
         == Fsm(Single(WithInterrupt(d, cid), [ToldConnected(0)], None, queries), 0, a)
  {
    OnlyDevice(d, addr);
    var t := Opened(Single(d, [], None, queries).table, 0, InterruptPsm, cid);
    assert t == Single(WithInterrupt(d, cid), [ToldConnected(0)], None, queries).table;
  }

  lemma QueryAfterConnect(d: Device, a: Answers)
    requires Helpful(a) && d.state.InterruptConnected? && d.name.Some? && !d.incoming && d.sdpQuery.AfterConnect?
    ensures Fsm(Single(d, [ToldConnected(0)], None, []), 0, a)
         == Single(d.(state := VendorRequested), [ToldConnected(0)], Some(0), [0])
  {
  }

  lemma PidArrives(d: Device, log: seq<Note>, a: Answers)
    requires Helpful(a) && a.guessed.needsDescriptor && !d.hasType
    ensures Step(Single(d, log, Some(0), [0]), PidQueryComplete, a)
         == Single(GuessType(d, a.guessed).(state := DescriptorRequested), log, Some(0), [0])
  {
  }

  lemma BecomesReady(d: Device, log: seq<Note>, a: Answers)
    requires Helpful(a) && d.parser.setup in {NoSetup, ReadyAtOnce} && !d.state.PendingReady?
    ensures SetReady(Single(d, log, None, []).table, 0, a)
         == Single(d.(state := ConnState.Ready, connTimer := false), log, None, []).table
  {
  }

  /** What the end of the queries leads to. */
  function AfterQueries(d: Device, channel: nat): Device {
    if !d.incoming && d.sdpQuery.BeforeConnect? then d.(controlCid := channel, state := ControlRequested)
    else d.(state := ConnState.Ready, connTimer := false)
  }

  lemma GoesOnAfterQueries(d: Device, log: seq<Note>, a: Answers)
    requires Helpful(a) && d.parser.setup in {NoSetup, ReadyAtOnce} && d.state.DescriptorFetched?
    ensures DescriptorFetchedStep(Single(d, log, None, []).table, 0, a)
         == Single(AfterQueries(d, a.channel.value), log, None, []).table
  {
    BecomesReady(d, log, a);
  }

  lemma HidArrives(d: Device, log: seq<Note>, a: Answers)
    requires Helpful(a) && d.parser.setup in {NoSetup, ReadyAtOnce}
    ensures Step(Single(d, log, Some(0), [0]), HidQueryComplete, a)
         == Single(AfterQueries(d, a.channel.value), log, None, [0])
  {
    var e := d.(state := DescriptorFetched);
    assert WithState(Single(d, log, Some(0), [0]).table, 0, DescriptorFetched) == Single(e, log, None, []).table;
    GoesOnAfterQueries(e, log, a);
  }

  lemma RecognizedBecomesReady(d: Device, log: seq<Note>, a: Answers)
    requires Helpful(a) && d.incoming && !d.hasType && d.state.NameFetched? && d.name == Some(Recognized)
    ensures Fsm(Single(d, log, None, []), 0, a)
         == Single(GuessType(d, a.guessed).(sdpQuery := NotNeeded, state := ConnState.Ready, connTimer := false),
                   log, None, [])
  {
    var e := GuessType(d, a.guessed).(sdpQuery := NotNeeded, state := DescriptorFetched);
    BecomesReady(e, log, a);
    assert Put(Single(d, log, None, []).table, 0, e) == Single(e, log, None, []).table;
  }

  lemma NameArrives(d: Device, addr: nat, a: Answers)
    requires Helpful(a) && d.addr == addr != 0 && d.parent.None? && d.incoming && d.connected && !d.hasType
    requires d.state.NameInquired?
    ensures ReadyAlone(Step(Single(d, [ToldConnected(0)], None, []), RemoteName(addr, Recognized), a), addr, [])
  {
    OnlyDevice(d, addr);
    var named := d.(name := Some(Recognized), state := NameFetched);
    RecognizedBecomesReady(named, [ToldConnected(0)], a);
    assert Put(Single(d, [ToldConnected(0)], None, []).table, 0, named)
        == Single(named, [ToldConnected(0)], None, []).table;
  }

  // ----- The flows -----

  lemma RunTwoSteps(h: Host, e0: Event, e1: Event, a: Answers)
    ensures RunAll(h, [e0, e1], a) == Step(Step(h, e0, a), e1, a)
  {
    assert [e0] + [e1] == [e0, e1];
    RunHead(h, e0, [e1], a);
    RunLast(Step(h, e0, a), e1, a);
  }

  lemma RunThree(h: Host, e0: Event, e1: Event, e2: Event, a: Answers)
    ensures RunAll(h, [e0, e1, e2], a) == Step(Step(Step(h, e0, a), e1, a), e2, a)
  {
    assert [e0] + [e1, e2] == [e0, e1, e2];
    RunHead(h, e0, [e1, e2], a);
    RunTwoSteps(Step(h, e0, a), e1, e2, a);
  }

  /** Found by inquiry: control channel, interrupt channel, then both queries. */
  lemma DiscoveredGamepad(addr: nat, control: nat, interrupt: nat, a: Answers)
    requires Helpful(a) && a.guessed.needsDescriptor && addr != 0
    ensures var es := [InquiryResult(addr, true, Some(OtherName)),
                       ChannelOpened(addr, true, ControlPsm, control),
                       ChannelOpened(addr, true, InterruptPsm, interrupt)];
            ReadyAlone(RunAll(RunAll(BOOT, es, a), [PidQueryComplete, HidQueryComplete], a), addr, [0])
  {
    FoundByInquiry(addr, a);
    var d0 := Created(addr).(name := Some(OtherName), controlCid := a.channel.value, state := ControlRequested);
    ControlOpened(d0, addr, control, [], a);
    var d1 := d0.(controlCid := control, interruptCid := a.channel.value, state := InterruptRequested);
    InterruptOpened(d1, addr, interrupt, [], a);
    QueryAfterConnect(WithInterrupt(d1, interrupt), a);
    var d2 := WithInterrupt(d1, interrupt).(state := VendorRequested);
    RunThree(BOOT, InquiryResult(addr, true, Some(OtherName)), ChannelOpened(addr, true, ControlPsm, control),
             ChannelOpened(addr, true, InterruptPsm, interrupt), a);
    PidArrives(d2, [ToldConnected(0)], a);
    HidArrives(GuessType(d2, a.guessed).(state := DescriptorRequested), [ToldConnected(0)], a);
    RunTwoSteps(Single(d2, [ToldConnected(0)], Some(0), [0]), PidQueryComplete, HidQueryComplete, a);
  }

  lemma FoundByName(addr: nat, a: Answers)
    requires Helpful(a) && addr != 0
    ensures Step(BOOT, InquiryResult(addr, true, Some(Recognized)), a)
         == Single(GuessType(Created(addr), a.guessed).(name := Some(Recognized), sdpQuery := NotNeeded,
                                                        controlCid := a.channel.value, state := ControlRequested),
                   [], None, [])
  {
    EmptyTable(addr);
    var found := Single(Created(addr), [], None, []).table;
    assert Create(BOOT.table, addr).0.devices == found.devices;
  }

  /** Found by inquiry with a name that tells its model: called at once, and ready with its second channel. */
  lemma RecognizedGamepad(addr: nat, control: nat, interrupt: nat, a: Answers)
    requires Helpful(a) && addr != 0
    ensures var h := RunAll(BOOT, [InquiryResult(addr, true, Some(Recognized))], a);
            && h.table.devices[0].state.ControlRequested? && h.table.log == []
            && ReadyAlone(RunAll(h, [ChannelOpened(addr, true, ControlPsm, control),
                                     ChannelOpened(addr, true, InterruptPsm, interrupt)], a), addr, [])
  {
    FoundByName(addr, a);
    RunLast(BOOT, InquiryResult(addr, true, Some(Recognized)), a);
    var d := GuessType(Created(addr), a.guessed).(name := Some(Recognized), sdpQuery := NotNeeded,
                                                  controlCid := a.channel.value, state := ControlRequested);
    ControlOpened(d, addr, control, [], a);
    var d1 := d.(controlCid := control, interruptCid := a.channel.value, state := InterruptRequested);
    InterruptOpened(d1, addr, interrupt, [], a);
    ReadyWithoutQuery(WithInterrupt(d1, interrupt), [], a);
    RunTwoSteps(Single(d, [], None, []), ChannelOpened(addr, true, ControlPsm, control),
                ChannelOpened(addr, true, InterruptPsm, interrupt), a);
  }

  lemma AnnouncedAndAccepted(addr: nat, control: nat, interrupt: nat, handle: nat, a: Answers)
    requires addr != 0
    ensures RunAll(BOOT, [ConnectionRequest(addr),
                          IncomingConnection(addr, ControlPsm, control, handle, true),
                          IncomingConnection(addr, InterruptPsm, interrupt, handle, true)], a)
         == Single(Created(addr).(incoming := true, handle := handle, controlCid := control, interruptCid := interrupt),
                   [], None, [])
  {
    EmptyTable(addr);
    var d0 := Created(addr).(incoming := true);
    assert Step(BOOT, ConnectionRequest(addr), a) == Single(d0, [], None, []);
    OnlyDevice(d0, addr);
    var d1 := d0.(handle := handle, controlCid := control);
    assert Step(Single(d0, [], None, []), IncomingConnection(addr, ControlPsm, control, handle, true), a)
        == Single(d1, [], None, []);
    OnlyDevice(d1, addr);
    RunThree(BOOT, ConnectionRequest(addr), IncomingConnection(addr, ControlPsm, control, handle, true),
             IncomingConnection(addr, InterruptPsm, interrupt, handle, true), a);
  }

  /** A gamepad that connects by itself and has a recognized name needs no query at all. */
  lemma IncomingGamepad(addr: nat, control: nat, interrupt: nat, handle: nat, a: Answers)
    requires Helpful(a) && addr != 0
    ensures var es := [ConnectionRequest(addr),
                       IncomingConnection(addr, ControlPsm, control, handle, true),
                       IncomingConnection(addr, InterruptPsm, interrupt, handle, true)];
            var fs := [ChannelOpened(addr, true, ControlPsm, control),
                       ChannelOpened(addr, true, InterruptPsm, interrupt),
                       RemoteName(addr, Recognized)];
            ReadyAlone(RunAll(RunAll(BOOT, es, a), fs, a), addr, [])
  {
    AnnouncedAndAccepted(addr, control, interrupt, handle, a);
    var d := Created(addr).(incoming := true, handle := handle, controlCid := control, interruptCid := interrupt);
    ControlOpened(d, addr, control, [], a);
    var d0 := d.(controlCid := control, state := ControlConnected);
    InterruptOpened(d0, addr, interrupt, [], a);
    var d1 := WithInterrupt(d0, interrupt).(state := NameInquired, nameTimer := true);
    assert Fsm(Single(WithInterrupt(d0, interrupt), [ToldConnected(0)], None, []), 0, a)
        == Single(d1, [ToldConnected(0)], None, []);
    NameArrives(d1, addr, a);
    RunThree(Single(d, [], None, []), ChannelOpened(addr, true, ControlPsm, control),
             ChannelOpened(addr, true, InterruptPsm, interrupt), RemoteName(addr, Recognized), a);
  }

  lemma QueriedFirst(addr: nat, a: Answers) returns (d: Device)
    requires Helpful(a) && a.guessed.needsDescriptor && addr != 0
    ensures RunAll(BOOT, [InquiryResult(addr, true, Some(WirelessController)), PidQueryComplete, HidQueryComplete], a)
         == Single(d, [], None, [0])
    ensures d.addr == addr && d.parent.None? && !d.incoming && d.name.Some? && d.state.ControlRequested?
    ensures d.sdpQuery.BeforeConnect? && d.parser == a.guessed
  {
    FoundByInquiry(addr, a);
    var d0 := Created(addr).(name := Some(WirelessController), sdpQuery := BeforeConnect, state := VendorRequested);
    PidArrives(d0, [], a);
    var d1 := GuessType(d0, a.guessed).(state := DescriptorRequested);
    HidArrives(d1, [], a);
    d := AfterQueries(d1, a.channel.value);
    RunThree(BOOT, InquiryResult(addr, true, Some(WirelessController)), PidQueryComplete, HidQueryComplete, a);
  }

  lemma ReadyWithoutQuery(d: Device, queries: seq<Index>, a: Answers)
    requires Helpful(a) && d.state.InterruptConnected? && d.name.Some? && !d.incoming && !d.sdpQuery.AfterConnect?
    requires d.parser.setup in {NoSetup, ReadyAtOnce}
    ensures Fsm(Single(d, [ToldConnected(0)], None, queries), 0, a)
         == Single(d.(state := ConnState.Ready, connTimer := false), [ToldConnected(0)], None, queries)
  {
    BecomesReady(d, [ToldConnected(0)], a);
  }

  lemma ConnectedAfterQuery(d: Device, addr: nat, control: nat, interrupt: nat, a: Answers)
    requires Helpful(a) && d.addr == addr != 0 && d.parent.None? && !d.incoming && d.name.Some?
    requires d.sdpQuery.BeforeConnect? && d.parser == a.guessed
    ensures ReadyAlone(RunAll(Single(d, [], None, [0]), [ChannelOpened(addr, true, ControlPsm, control),
                                                         ChannelOpened(addr, true, InterruptPsm, interrupt)], a),
                       addr, [0])
  {
    ControlOpened(d, addr, control, [0], a);
    var d1 := d.(controlCid := control, interruptCid := a.channel.value, state := InterruptRequested);
    InterruptOpened(d1, addr, interrupt, [0], a);
    ReadyWithoutQuery(WithInterrupt(d1, interrupt), [0], a);
    RunTwoSteps(Single(d, [], None, [0]), ChannelOpened(addr, true, ControlPsm, control),
                ChannelOpened(addr, true, InterruptPsm, interrupt), a);
  }

  /** "Wireless Controller" is queried before it is connected, and is ready without a further query. */
  lemma QueriedBeforeConnect(addr: nat, control: nat, interrupt: nat, a: Answers)
    requires Helpful(a) && a.guessed.needsDescriptor && addr != 0
    ensures var es := [InquiryResult(addr, true, Some(WirelessController)), PidQueryComplete, HidQueryComplete];
            var h := RunAll(BOOT, es, a);
            && h.table.devices[0].state.ControlRequested? && h.sdp.None? && h.timer.None? && h.table.log == []
            && ReadyAlone(RunAll(h, [ChannelOpened(addr, true, ControlPsm, control),
                                     ChannelOpened(addr, true, InterruptPsm, interrupt)], a), addr, [0])
  {
    var d := QueriedFirst(addr, a);
    ConnectedAfterQuery(d, addr, control, interrupt, a);
  }

  // ----- A stale child pointer -----

  function Pair(d: Device, e: Device, log: seq<Note>): Host {
    Host(Table([d, e, BLANK, BLANK], log), None, None, [0])
  }

  /** The gamepad while its VID/PID query runs: it connected by itself and has told its name. */
  function Queried(control: nat, interrupt: nat, handle: nat): Device {
    Created(1).(incoming := true, handle := handle, controlCid := control, interruptCid := interrupt,
                connected := true, state := VendorRequested, sdpQuery := BeforeConnect,
                name := Some(WirelessController))
  }

  /** The same gamepad once it is ready, with a virtual mouse in slot 1. */
  function WithMouse(d: Device): Device {
    d.(state := ConnState.Ready, connTimer := false, hasType := true, parser := WILLING.guessed, child := Some(1))
  }

  const MOUSE := BLANK.(addr := 1, parent := Some(0), hasType := true, connected := true, state := ConnState.Ready)

  lemma WirelessAsksFirst(d: Device, a: Answers)
    requires d.state.NameFetched? && d.name == Some(WirelessController) && a.sdpAccepts
    ensures Fsm(Single(d, [ToldConnected(0)], None, []), 0, a)
         == Single(d.(sdpQuery := BeforeConnect, state := VendorRequested), [ToldConnected(0)], Some(0), [0])
  {
    var h := Single(d, [ToldConnected(0)], None, []);
    var e := d.(sdpQuery := BeforeConnect);
    assert h.(table := Put(h.table, 0, e)) == Single(e, [ToldConnected(0)], None, []);
  }

  lemma WirelessIsQueried(d: Device, a: Answers)
    requires d.addr == 1 && d.parent.None? && a.sdpAccepts
    requires d.state.NameInquired?
    ensures Step(Single(d, [ToldConnected(0)], None, []), RemoteName(1, WirelessController), a)
         == Single(d.(name := Some(WirelessController), sdpQuery := BeforeConnect, state := VendorRequested,
                      nameTimer := false), [ToldConnected(0)], Some(0), [0])
  {
    OnlyDevice(d, 1);
    var named := d.(name := Some(WirelessController), state := NameFetched);
    var t := Single(d, [ToldConnected(0)], None, []).table;
    assert Put(t, 0, named) == Single(named, [ToldConnected(0)], None, []).table;
    WirelessAsksFirst(named, a);
  }

  lemma NamelessIsAsked(d: Device, a: Answers)
    requires d.state.InterruptConnected? && d.name.None?
    ensures Fsm(Single(d, [ToldConnected(0)], None, []), 0, a)
         == Single(d.(state := NameInquired, nameTimer := true), [ToldConnected(0)], None, [])
  {
  }

  lemma ConnectsByItself(control: nat, interrupt: nat, handle: nat, a: Answers)
    requires a.sdpAccepts
    ensures var es := [ConnectionRequest(1),
                       IncomingConnection(1, ControlPsm, control, handle, true),
                       IncomingConnection(1, InterruptPsm, interrupt, handle, true)];
            var fs := [ChannelOpened(1, true, ControlPsm, control), ChannelOpened(1, true, InterruptPsm, interrupt),
                       RemoteName(1, WirelessController)];
            RunAll(RunAll(BOOT, es, a), fs, a)
            == Single(Queried(control, interrupt, handle), [ToldConnected(0)], Some(0), [0])
  {
    AnnouncedAndAccepted(1, control, interrupt, handle, a);
    var d := Created(1).(incoming := true, handle := handle, controlCid := control, interruptCid := interrupt);
    ControlOpened(d, 1, control, [], a);
    var d0 := d.(controlCid := control, state := ControlConnected);
    InterruptOpened(d0, 1, interrupt, [], a);
    NamelessIsAsked(WithInterrupt(d0, interrupt), a);
    WirelessIsQueried(WithInterrupt(d0, interrupt).(state := NameInquired, nameTimer := true), a);
    RunThree(Single(d, [], None, []), ChannelOpened(1, true, ControlPsm, control),
             ChannelOpened(1, true, InterruptPsm, interrupt), RemoteName(1, WirelessController), a);
  }

  lemma MouseCreated(d: Device, t: Table)
    requires t.devices == [d, BLANK, BLANK, BLANK] && d.addr == 1
    ensures FreeSlot(t.devices) == Some(1)
    ensures CreateVirtual(t, 0, true)
         == (Table([d.(child := Some(1)), MOUSE.(connected := false, state := NoState), BLANK, BLANK], t.log), Some(1))
  {
    assert FreeSlot(t.devices) == Some(1);
    assert CreateVirtual(t, 0, true).0.devices
        == [d.(child := Some(1)), MOUSE.(connected := false, state := NoState), BLANK, BLANK];
  }

  lemma MouseKept(d: Device, log: seq<Note>)
    ensures ReadyComplete(Connect(Table([d, MOUSE.(connected := false, state := NoState), BLANK, BLANK], log), 1),
                          1, true, map[])
         == (Table([d, MOUSE, BLANK, BLANK], log + [ToldConnected(1)]), true)
  {
    var t := Connect(Table([d, MOUSE.(connected := false, state := NoState), BLANK, BLANK], log), 1);
    assert t.devices == [d, MOUSE.(state := NoState), BLANK, BLANK];
    assert ReadyComplete(t, 1, true, map[]).0.devices == [d, MOUSE, BLANK, BLANK];
  }

  lemma MouseAdded(d: Device, t: Table)
    requires t == Table([d, BLANK, BLANK, BLANK], [ToldConnected(0)]) && d.addr == 1 && d.state.PendingReady?
    ensures ReadyCompleteWithChild(t, 0, WILLING)
         == Table([d.(state := ConnState.Ready, connTimer := false, child := Some(1)), MOUSE, BLANK, BLANK],
                  [ToldConnected(0), ToldConnected(1)])
  {
    var ready := d.(connTimer := false, state := ConnState.Ready);
    var (t1, taken) := ReadyComplete(t, 0, true, map[]);
    assert taken && t1.devices == [ready, BLANK, BLANK, BLANK];
    MouseCreated(ready, t1);
    MouseKept(ready.(child := Some(1)), [ToldConnected(0)]);
  }

  lemma QueryEndAddsMouse(d: Device)
    requires d.addr == 1 && d.incoming && d.parser == WILLING.guessed
    ensures SdpEnd(Single(d, [ToldConnected(0)], Some(0), [0]), 0, WILLING)
         == Pair(d.(state := ConnState.Ready, connTimer := false, child := Some(1)), MOUSE,
                 [ToldConnected(0), ToldConnected(1)])
  {
    var fetched := WithState(Single(d, [ToldConnected(0)], Some(0), [0]).table, 0, DescriptorFetched);
    var t := WithState(fetched, 0, PendingReady);
    assert t.devices == [d.(state := PendingReady), BLANK, BLANK, BLANK];
    MouseAdded(d.(state := PendingReady), t);
    assert DescriptorFetchedStep(fetched, 0, WILLING) == ReadyCompleteWithChild(t, 0, WILLING);
  }

  lemma ResultMakesReady(d: Device)
    requires d.addr == 1 && d.incoming && d.state.VendorRequested? && !d.hasType
    ensures OnPidComplete(Single(d, [ToldConnected(0)], Some(0), [0]), WILLING)
         == Pair(WithMouse(d), MOUSE, [ToldConnected(0), ToldConnected(1)])
  {
    var h := Single(d, [ToldConnected(0)], Some(0), [0]);
    var typed := GuessType(d, WILLING.guessed).(state := VendorFetched);
    var h1 := h.(table := Put(h.table, 0, typed));
    PidResultStartsQuery(h, WILLING);
    assert h1 == Single(typed, [ToldConnected(0)], Some(0), [0]);
    QueryEndAddsMouse(typed);
  }

  lemma PidStep(h: Host, a: Answers)
    ensures Step(h, PidQueryComplete, a) == OnPidComplete(h, a)
  {
  }

  lemma MouseRemoved(d: Device)
    ensures Step(Pair(d, MOUSE, [ToldConnected(0), ToldConnected(1)]), DisconnectCommand(1), WILLING)
         == Pair(d, BLANK, [ToldConnected(0), ToldConnected(1), ToldDisconnected(1), Freed(1, false)])
  {
    var t := Pair(d, MOUSE, [ToldConnected(0), ToldConnected(1)]).table;
    RemoveChildless(t, 1, map[]);
    assert AtIndex(1) == Some(1);
    assert FreeOne(DisconnectOne(t, 1, map[]), 1).devices == [d, BLANK, BLANK, BLANK];
  }

  lemma StrangerMovesIn(d: Device, log: seq<Note>)
    requires d.addr == 1
    ensures Step(Pair(d, BLANK, log), ConnectionRequest(2), WILLING) == Pair(d, Created(2).(incoming := true), log)
  {
    var t := Pair(d, BLANK, log).table;
    assert ByAddress(t.devices, 2).None? && FreeSlot(t.devices) == Some(1);
    assert OnConnectionRequest(t, 2).devices == [d, Created(2).(incoming := true), BLANK, BLANK];
  }

  /**
   * A gamepad connects by itself and becomes ready with a virtual mouse. The mouse is disconnected by
   * command, which leaves its parent's link as it was; a second gamepad gets the slot; removing the
   * first one removes the second as well.
   */
  lemma RemovalTakesStranger(control: nat, interrupt: nat, handle: nat)
    ensures var es := [ConnectionRequest(1),
                       IncomingConnection(1, ControlPsm, control, handle, true),
                       IncomingConnection(1, InterruptPsm, interrupt, handle, true)];
            var fs := [ChannelOpened(1, true, ControlPsm, control), ChannelOpened(1, true, InterruptPsm, interrupt),
                       RemoteName(1, WirelessController)];
            var gs := [PidQueryComplete, DisconnectCommand(1), ConnectionRequest(2)];
            var h := RunAll(RunAll(RunAll(BOOT, es, WILLING), fs, WILLING), gs, WILLING);
            && h.table.devices[0].connected && h.table.devices[0].state.Ready? && h.sdp.None?
            && h.table.devices[1].addr == 2 && h.table.devices[1].parent.None? && !OwnLinks(h.table.devices, 0)
            && Step(h, DisconnectCommand(0), WILLING).table.devices[1] == BLANK
  {
    ConnectsByItself(control, interrupt, handle, WILLING);
    var d := Queried(control, interrupt, handle);
    ResultMakesReady(d);
    PidStep(Single(d, [ToldConnected(0)], Some(0), [0]), WILLING);
    MouseRemoved(WithMouse(d));
    var log := [ToldConnected(0), ToldConnected(1), ToldDisconnected(1), Freed(1, false)];
    StrangerMovesIn(WithMouse(d), log);
    RunThree(Single(d, [ToldConnected(0)], Some(0), [0]), PidQueryComplete, DisconnectCommand(1),
             ConnectionRequest(2), WILLING);
    RemovesBoth(Pair(WithMouse(d), Created(2).(incoming := true), log), WithMouse(d));
  }

  lemma RemovesBoth(h: Host, d: Device)
    requires h.table.devices == [d, Created(2).(incoming := true), BLANK, BLANK] && d.child == Some(1)
    ensures !OwnLinks(h.table.devices, 0)
    ensures Step(h, DisconnectCommand(0), WILLING).table.devices[1] == BLANK
  {
    var t := h.table;
    assert AtIndex(0) == Some(0);
    assert Ends(t.devices, 1, 1) && Ends(t.devices, 0, 2);
    forall i: Index ensures Descends(t.devices, i) {
      assert i >= 2 ==> Ends(t.devices, i, 1);
    }
    LineageUnfolds(t.devices, 0);
    LineageOfChildless(t.devices, 1);
    assert Lineage(t.devices, 0) == [0, 1];
    assert 0 in Lineage(t.devices, 0) && !OwnLink(t.devices, 0);
    LineageBlanked(t, 0, 1);
  }

  lemma LineageBlanked(t: Table, i: Index, j: Index)
    requires Acyclic(t.devices) && j in Lineage(t.devices, i)
    ensures Remove(t, i, map[]).devices[j] == BLANK
  {
    var slots := Lineage(t.devices, i);
    DisconnectAllKeepsLinks(t, slots, map[]);
    var gone := Disconnect(t, i, map[]);
    SameLinksSameLineage(t.devices, gone.devices, i);
    FreeAllBlanks(gone, slots);
  }

  lemma {:induction false} FreeAllBlanks(t: Table, slots: seq<Index>)
    ensures forall j: Index :: j in slots ==> FreeAll(t, slots).devices[j] == BLANK
    decreases |slots|
  {
    if slots != [] {
      FreeAllBlanks(t, slots[1..]);
    }
  }

  // ----- A result for a stranger, and a device that is ready but was never connected -----

  lemma GoneBeforeResult(d: Device, a: Answers)
    requires d.child.None? && !d.connected
    ensures Step(Single(d, [], Some(0), [0]), DisconnectCommand(0), a) == Single(BLANK, [Freed(0, false)], Some(0), [0])
  {
    var t := Single(d, [], Some(0), [0]).table;
    RemoveChildless(t, 0, a.links);
    assert AtIndex(0) == Some(0);
    assert FreeOne(DisconnectOne(t, 0, a.links), 0).devices == [BLANK, BLANK, BLANK, BLANK];
  }

  lemma RequestTakesSlot(log: seq<Note>, a: Answers)
    ensures Step(Single(BLANK, log, Some(0), [0]), ConnectionRequest(2), a)
         == Single(Created(2).(incoming := true), log, Some(0), [0])
  {
    var t := Single(BLANK, log, Some(0), [0]).table;
    assert ByAddress(t.devices, 2).None? && FreeSlot(t.devices) == Some(0);
    assert OnConnectionRequest(t, 2).devices == [Created(2).(incoming := true), BLANK, BLANK, BLANK];
  }

  lemma ResultReadies(d: Device, log: seq<Note>, a: Answers)
    requires Helpful(a) && !a.guessed.needsDescriptor && !d.hasType && d.incoming
    ensures OnPidComplete(Single(d, log, Some(0), [0]), a)
         == Single(GuessType(d, a.guessed).(state := ConnState.Ready, connTimer := false), log, None, [0])
  {
    var h := Single(d, log, Some(0), [0]);
    var typed := GuessType(d, a.guessed).(state := VendorFetched);
    var fetched := typed.(state := DescriptorFetched);
    PidResultStartsQuery(h, a);
    assert h.(table := Put(h.table, 0, typed)) == Single(typed, log, Some(0), [0]);
    assert WithState(Single(typed, log, Some(0), [0]).table, 0, DescriptorFetched) == Single(fetched, log, None, []).table;
    GoesOnAfterQueries(fetched, log, a);
  }

  /**
   * Device 1 is found and queried, then disconnected by command; device 2 announces itself and gets the
   * slot. The result of device 1's query makes device 2 ready, as the model of device 1, and device 2
   * has no channel yet.
   */
  lemma StrangerGetsResult(a: Answers)
    requires Helpful(a) && !a.guessed.needsDescriptor
    ensures var h := RunAll(BOOT, [InquiryResult(1, true, Some(WirelessController)), DisconnectCommand(0),
                                   ConnectionRequest(2)], a);
            var asked := RunAll(BOOT, [InquiryResult(1, true, Some(WirelessController))], a);
            var d := Step(h, PidQueryComplete, a).table.devices[0];
            && asked.table.devices[0].addr == 1 && asked.sdp == Some(0) && h.sdp == Some(0)
            && d.addr == 2 && d.state.Ready? && !d.connected && d.controlCid == 0 && d.interruptCid == 0
            && d.parser == a.guessed && h.table.log == [Freed(0, false)]
  {
    FoundByInquiry(1, a);
    var d0 := Created(1).(name := Some(WirelessController), sdpQuery := BeforeConnect, state := VendorRequested);
    RunLast(BOOT, InquiryResult(1, true, Some(WirelessController)), a);
    GoneBeforeResult(d0, a);
    RequestTakesSlot([Freed(0, false)], a);
    RunThree(BOOT, InquiryResult(1, true, Some(WirelessController)), DisconnectCommand(0), ConnectionRequest(2), a);
    var d1 := Created(2).(incoming := true);
    ResultReadies(d1, [Freed(0, false)], a);
    PidStep(Single(d1, [Freed(0, false)], Some(0), [0]), a);
  }

  /** Two slots in play, with lock and timer in agreement. */
  function TwoSlots(d: Device, e: Device, log: seq<Note>, lock: Option<Index>, queries: seq<Index>): Host {
    Host(Table([d, e, BLANK, BLANK], log), lock, lock, queries)
  }

  lemma RefusedByBusyClient(d: Device, a: Answers)
    requires d.addr == 1 && !a.sdpAccepts
    ensures Step(TwoSlots(d, BLANK, [], None, [0]), InquiryResult(2, true, Some(WirelessController)), a)
         == TwoSlots(d, BLANK, [Freed(1, false)], Some(1), [0, 1])
  {
    var h := TwoSlots(d, BLANK, [], None, [0]);
    var named := Created(2).(state := NameFetched, name := Some(WirelessController));
    assert ByAddress(h.table.devices, 2).None? && FreeSlot(h.table.devices) == Some(1);
    SlotTwoRefused(d, named, a);
    var t := Create(h.table, 2).0;
    assert t.devices == [d, Created(2), BLANK, BLANK];
    assert h.(table := Put(t, 1, named)) == TwoSlots(d, named, [], None, [0]);
  }

  lemma SlotTwoRefused(d: Device, e: Device, a: Answers)
    requires e.state.NameFetched? && e.name == Some(WirelessController) && !a.sdpAccepts
    requires e.child.None? && !e.connected
    ensures Fsm(TwoSlots(d, e, [], None, [0]), 1, a) == TwoSlots(d, BLANK, [Freed(1, false)], Some(1), [0, 1])
  {
    var asked := e.(sdpQuery := BeforeConnect, state := VendorRequested);
    var t := TwoSlots(d, asked, [], None, [0]).table;
    RemoveChildless(t, 1, a.links);
    assert FreeOne(DisconnectOne(t, 1, a.links), 1).devices == [d, BLANK, BLANK, BLANK];
    var first := TwoSlots(d, e.(sdpQuery := BeforeConnect), [], None, [0]);
    assert Put(TwoSlots(d, e, [], None, [0]).table, 1, e.(sdpQuery := BeforeConnect)) == first.table;
    assert WithState(first.table, 1, VendorRequested) == t;
  }

  lemma ThirdTakesSlot(d: Device, log: seq<Note>, a: Answers)
    requires d.addr == 1
    ensures Step(TwoSlots(d, BLANK, log, Some(1), [0, 1]), ConnectionRequest(3), a)
         == TwoSlots(d, Created(3).(incoming := true), log, Some(1), [0, 1])
  {
    var t := TwoSlots(d, BLANK, log, Some(1), [0, 1]).table;
    assert ByAddress(t.devices, 3).None? && FreeSlot(t.devices) == Some(1);
    assert OnConnectionRequest(t, 3).devices == [d, Created(3).(incoming := true), BLANK, BLANK];
  }

  lemma SecondBecomesReady(d: Device, e: Device, log: seq<Note>, a: Answers)
    requires Helpful(a) && e.parser.setup in {NoSetup, ReadyAtOnce} && e.state.DescriptorFetched? && e.incoming
    ensures DescriptorFetchedStep(TwoSlots(d, e, log, None, []).table, 1, a)
         == TwoSlots(d, e.(state := ConnState.Ready, connTimer := false), log, None, []).table
  {
    var pending := e.(state := PendingReady);
    assert WithState(TwoSlots(d, e, log, None, []).table, 1, PendingReady) == TwoSlots(d, pending, log, None, []).table;
  }

  lemma ResultReadiesSecond(d: Device, e: Device, log: seq<Note>, a: Answers)
    requires Helpful(a) && !a.guessed.needsDescriptor && !e.hasType && e.incoming
    ensures OnPidComplete(TwoSlots(d, e, log, Some(1), [0, 1]), a)
         == TwoSlots(d, GuessType(e, a.guessed).(state := ConnState.Ready, connTimer := false), log, None, [0, 1])
  {
    var h := TwoSlots(d, e, log, Some(1), [0, 1]);
    var typed := GuessType(e, a.guessed).(state := VendorFetched);
    var fetched := typed.(state := DescriptorFetched);
    PidResultStartsQuery(h, a);
    assert h.(table := Put(h.table, 1, typed)) == TwoSlots(d, typed, log, Some(1), [0, 1]);
    assert WithState(TwoSlots(d, typed, log, Some(1), [0, 1]).table, 1, DescriptorFetched)
        == TwoSlots(d, fetched, log, None, []).table;
    SecondBecomesReady(d, fetched, log, a);
  }

  /**
   * Device 1 is found and queried, and the lock times out while the SDP client is still at it; device 2
   * is found, takes the lock, finds the client busy and is removed; device 3 announces itself and gets
   * its slot. Device 1 has kept its own slot throughout, but its result makes device 3 ready.
   */
  lemma LateResultGoesElsewhere(a: Answers)
    requires Helpful(a) && !a.guessed.needsDescriptor
    ensures var busy := a.(sdpAccepts := false);
            var asked := RunAll(BOOT, [InquiryResult(1, true, Some(WirelessController))], a);
            var h := RunAll(asked, [SdpTimeout, InquiryResult(2, true, Some(WirelessController)), ConnectionRequest(3)], busy);
            var u := Step(h, PidQueryComplete, a).table;
            && asked.sdp == Some(0) && h.sdp == Some(1) && h.table.log == [Freed(1, false)]
            && u.devices[0] == asked.table.devices[0] && !u.devices[0].hasType
            && u.devices[1].addr == 3 && u.devices[1].state.Ready? && !u.devices[1].connected
            && u.devices[1].parser == a.guessed
  {
    FoundByInquiry(1, a);
    var d := Created(1).(name := Some(WirelessController), sdpQuery := BeforeConnect, state := VendorRequested);
    var busy := a.(sdpAccepts := false);
    RunLast(BOOT, InquiryResult(1, true, Some(WirelessController)), a);
    assert Step(Single(d, [], Some(0), [0]), SdpTimeout, busy) == TwoSlots(d, BLANK, [], None, [0]);
    RefusedByBusyClient(d, busy);
    ThirdTakesSlot(d, [Freed(1, false)], busy);
    RunThree(Single(d, [], Some(0), [0]), SdpTimeout, InquiryResult(2, true, Some(WirelessController)),
             ConnectionRequest(3), busy);
    var e := Created(3).(incoming := true);
    ResultReadiesSecond(d, e, [Freed(1, false)], a);
    PidStep(TwoSlots(d, e, [Freed(1, false)], Some(1), [0, 1]), a);
  }

  lemma NamelessIsFound(a: Answers)
    ensures Step(BOOT, InquiryResult(1, true, None), a)
         == Single(Created(1).(state := NameInquired, nameTimer := true), [], None, [])
  {
    EmptyTable(1);
    var d := Created(1).(state := Discovered);
    var t := Create(BOOT.table, 1).0;
    assert Put(t, 0, d).devices == [d, BLANK, BLANK, BLANK];
    assert Fsm(Single(d, [], None, []), 0, a).table.devices
        == [d.(state := NameInquired, nameTimer := true), BLANK, BLANK, BLANK];
  }

  lemma NameReadies(d: Device, a: Answers)
    requires Helpful(a) && d.addr == 1 && d.parent.None? && d.incoming && !d.hasType && d.state.NameInquired?
    ensures var u := Step(Single(d, [], None, []), RemoteName(1, Recognized), a).table;
            u.devices[0].state.Ready? && u.devices[0].connected == d.connected && u.log == []
  {
    OnlyDevice(d, 1);
    var named := d.(name := Some(Recognized), state := NameFetched);
    RecognizedBecomesReady(named, [], a);
    assert Put(Single(d, [], None, []).table, 0, named) == Single(named, [], None, []).table;
  }

  /** A device is announced ready on its name alone, with no channel open and no connected callback. */
  lemma ReadyBeforeConnected(a: Answers)
    requires Helpful(a)
    ensures var u := RunAll(BOOT, [InquiryResult(1, true, None), ConnectionRequest(1), RemoteName(1, Recognized)], a).table;
            u.devices[0].state.Ready? && !u.devices[0].connected && u.log == []
  {
    NamelessIsFound(a);
    var d := Created(1).(state := NameInquired, nameTimer := true);
    OnlyDevice(d, 1);
    var announced := d.(incoming := true);
    assert OnConnectionRequest(Single(d, [], None, []).table, 1) == Single(announced, [], None, []).table;
    NameReadies(announced, a);
    RunThree(BOOT, InquiryResult(1, true, None), ConnectionRequest(1), RemoteName(1, Recognized), a);
  }
}
