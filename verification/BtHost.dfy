// components/bluepad32_component/bt: uni_bt_sdp.c, uni_bt_bredr.c and uni_bt.c. Bluetooth events
// and timers drive the device table through a connection state machine and a single SDP lock.

module BluetoothHost {
  import opened Wrappers
  import opened DeviceTable

  /** sdp_device, the context of the SDP timer while it is armed, and every VID/PID query started. */
  datatype Host = Host(table: Table, sdp: Option<Index>, timer: Option<Index>, queries: seq<Index>)

  /** What the stack, the parsers and the platform answer while one event is handled. */
  datatype Answers = Answers(
    links: map<nat, Link>, sdpAccepts: bool, channel: Option<nat>, guessed: Parser,
    deviceAccepted: bool, virtualEnabled: bool, childAccepted: bool)

  datatype Psm = ControlPsm | InterruptPsm | OtherPsm

  datatype Event =
    | IncomingConnection(addr: nat, psm: Psm, channel: nat, handle: nat, allowed: bool)
    | ChannelOpened(addr: nat, ok: bool, psm: Psm, cid: nat)
    | ChannelClosed(cid: nat)
    | InquiryResult(addr: nat, supported: bool, name: Option<Name>)
    | ConnectionRequest(addr: nat)
    | ConnectionComplete(addr: nat, ok: bool, handle: nat)
    | RemoteName(addr: nat, reply: Name)
    | HciDisconnected(handle: nat)
    | DisconnectCommand(idx: nat)
    | ServiceDisconnect(idx: nat)
    | ParserReady(i: Index, withChild: bool)
    | ConnectionTimeout(i: Index)
    | NameTimeout(i: Index)
    | SdpTimeout
    | PidQueryComplete
    | HidQueryComplete

  // ----- The table while a device becomes ready -----

  function WithState(t: Table, i: Index, s: ConnState): Table { Put(t, i, t.devices[i].(state := s)) }

  /** uni_hid_device_set_ready_complete, and whether the platform took the device. */
  ghost function ReadyComplete(t: Table, i: Index, accepted: bool, links: map<nat, Link>): (Table, bool) {
    if t.devices[i].state.Ready? then (t, false)
    else
      var t1 := Put(t, i, t.devices[i].(connTimer := false));
      if !accepted then (Remove(t1, i, links), false) else (WithState(t1, i, ConnState.Ready), true)
  }

  /** The parsers that add a virtual mouse once their own device has been accepted. */
  ghost function ReadyCompleteWithChild(t: Table, i: Index, a: Answers): Table {
    var (t1, taken) := ReadyComplete(t, i, a.deviceAccepted, a.links);
    if !taken then t1
    else
      match CreateVirtual(t1, i, a.virtualEnabled)
      case (_, None) => t1
      case (t2, Some(c)) =>
        var (t3, kept) := ReadyComplete(Connect(t2, c), c, a.childAccepted, a.links);
        if kept then t3 else Put(t3, i, t3.devices[i].(child := None))
  }

  ghost function SetReady(t: Table, i: Index, a: Answers): Table {
    if t.devices[i].state.PendingReady? then t
    else
      var t1 := WithState(t, i, PendingReady);
      match t1.devices[i].parser.setup
      case ReadyLater => t1
      case ReadyWithChild => ReadyCompleteWithChild(t1, i, a)
      case _ => ReadyComplete(t1, i, a.deviceAccepted, a.links).0
  }

  function GuessType(d: Device, guessed: Parser): Device {
    if d.hasType then d else d.(hasType := true, parser := guessed)
  }

  function CreateChannel(t: Table, i: Index, psm: Psm, channel: Option<nat>): Table {
    var d := t.devices[i];
    if channel.None? then t
    else if psm.ControlPsm? then Put(t, i, d.(controlCid := channel.value, state := ControlRequested))
    else Put(t, i, d.(interruptCid := channel.value, state := InterruptRequested))
  }

  // ----- The SDP lock -----

  /** Only one SDP query runs at a time: a device that finds the lock taken is removed. */
  ghost function SdpStart(h: Host, i: Index, a: Answers): (r: Host)
    ensures h.sdp.None? ==> r.sdp == Some(i) && r.timer == Some(i) && r.queries == h.queries + [i]
    ensures h.sdp.Some? ==> r == h.(table := Remove(h.table, i, a.links))
  {
    if h.sdp.Some? then h.(table := Remove(h.table, i, a.links))
    else
      var t := WithState(h.table, i, VendorRequested);
      Host(if a.sdpAccepts then t else Remove(t, i, a.links), Some(i), Some(i), h.queries + [i])
  }

  ghost function DescriptorFetchedStep(t: Table, i: Index, a: Answers): Table {
    if !t.devices[i].incoming && t.devices[i].sdpQuery.BeforeConnect? then CreateChannel(t, i, ControlPsm, a.channel)
    else SetReady(t, i, a)
  }

  ghost function SdpEnd(h: Host, i: Index, a: Answers): Host {
    Host(DescriptorFetchedStep(WithState(h.table, i, DescriptorFetched), i, a), None, None, h.queries)
  }

  ghost function StartDescriptorQuery(h: Host, i: Index, a: Answers): Host {
    if !h.table.devices[i].parser.needsDescriptor then SdpEnd(h, i, a)
    else if h.sdp.None? then h
    else
      var t := WithState(h.table, i, DescriptorRequested);
      if a.sdpAccepts then h.(table := t) else h.(table := Remove(t, i, a.links), timer := None)
  }

  // ----- The connection state machine -----

  ghost function Fsm(h: Host, i: Index, a: Answers): Host {
    var t := h.table;
    var d := t.devices[i];
    if d.name.None? && (d.state.Discovered? || d.state.InterruptConnected?) then
      h.(table := Put(t, i, d.(state := NameInquired, nameTimer := true)))
    else match d.state
    case NameFetched =>
      if d.name == Some(WirelessController) then
        SdpStart(h.(table := Put(t, i, d.(sdpQuery := BeforeConnect))), i, a)
      else
        var e := if d.name == Some(Recognized)
                 then GuessType(d, a.guessed).(sdpQuery := NotNeeded, state := DescriptorFetched) else d;
        var h1 := h.(table := Put(t, i, e));
        if !e.incoming then h1.(table := CreateChannel(h1.table, i, ControlPsm, a.channel))
        else if e.sdpQuery.NotNeeded? then h1.(table := SetReady(h1.table, i, a))
        else SdpStart(h1, i, a)
    case VendorFetched => StartDescriptorQuery(h, i, a)
    case DescriptorFetched => h.(table := DescriptorFetchedStep(t, i, a))
    case ControlConnected =>
      if d.incoming then h else h.(table := CreateChannel(t, i, InterruptPsm, a.channel))
    case InterruptConnected =>
      if d.incoming then h
      else if d.sdpQuery.AfterConnect? then SdpStart(h, i, a)
      else h.(table := SetReady(t, i, a))
    case _ => h
  }

  // ----- Events -----

  function ControlAccepted(t: Table, known: Option<Index>, addr: nat, channel: nat, handle: nat): Table {
    var (t1, slot) := if known.None? then Create(t, addr) else (t, known);
    if slot.None? then t1
    else Put(t1, slot.value, t1.devices[slot.value].(handle := handle, controlCid := channel, incoming := true))
  }

  ghost function OnIncoming(t: Table, e: Event, a: Answers): Table
    requires e.IncomingConnection?
  {
    var known := ByAddress(t.devices, e.addr);
    var again := known.Some? && t.devices[known.value].state.Ready?;
    var t1 := if again then Remove(t, known.value, a.links) else t;
    var d := if again then None else known;
    match e.psm
    case ControlPsm => ControlAccepted(t1, d, e.addr, e.channel, e.handle)
    case InterruptPsm =>
      if d.None? then t1 else Put(t1, d.value, t1.devices[d.value].(interruptCid := e.channel))
    case OtherPsm => t1
  }

  function Opened(t: Table, i: Index, psm: Psm, cid: nat): Table {
    match psm
    case ControlPsm => Put(t, i, t.devices[i].(controlCid := cid, state := ControlConnected))
    case InterruptPsm => Connect(Put(t, i, t.devices[i].(interruptCid := cid, state := InterruptConnected)), i)
    case OtherPsm => t
  }

  ghost function OnOpened(h: Host, e: Event, a: Answers): Host
    requires e.ChannelOpened?
  {
    match ByAddress(h.table.devices, e.addr)
    case None => h
    case Some(i) =>
      if !e.ok then h.(table := Remove(h.table, i, a.links))
      else Fsm(h.(table := Opened(h.table, i, e.psm, e.cid)), i, a)
  }

  ghost function OnInquiry(h: Host, e: Event, a: Answers): Host
    requires e.InquiryResult?
  {
    if !e.supported then h
    else
      match ByAddress(h.table.devices, e.addr)
      case Some(i) => if h.table.devices[i].state.Ready? then h else Fsm(h, i, a)
      case None =>
        match Create(h.table, e.addr)
        case (_, None) => h
        case (t, Some(i)) =>
          Fsm(h.(table := Put(t, i, t.devices[i].(state := if e.name.Some? then NameFetched else Discovered,
                                                  name := e.name))), i, a)
  }

  function OnConnectionRequest(t: Table, addr: nat): Table {
    var (t1, slot) := match ByAddress(t.devices, addr) case None => Create(t, addr) case Some(i) => (t, Some(i));
    if slot.None? then t1 else Put(t1, slot.value, t1.devices[slot.value].(incoming := true))
  }

  function OnConnectionComplete(t: Table, e: Event): Table
    requires e.ConnectionComplete?
  {
    var known := ByAddress(t.devices, e.addr);
    if !e.ok || known.None? then t else Put(t, known.value, t.devices[known.value].(handle := e.handle))
  }

  function StopNameTimer(t: Table, i: Index): Table { Put(t, i, t.devices[i].(nameTimer := false)) }

  ghost function OnRemoteName(h: Host, e: Event, a: Answers): Host
    requires e.RemoteName?
  {
    match ByAddress(h.table.devices, e.addr)
    case None => h
    case Some(i) =>
      var d := h.table.devices[i].(name := Some(e.reply));
      var h1 := if d.state.PendingReady? || d.state.Ready? then h.(table := Put(h.table, i, d))
                else Fsm(h.(table := Put(h.table, i, d.(state := NameFetched))), i, a);
      h1.(table := StopNameTimer(h1.table, i))
  }

  ghost function RemoveIfAny(t: Table, i: Option<Index>, links: map<nat, Link>): Table {
    if i.None? then t else Remove(t, i.value, links)
  }

  function AtIndex(idx: nat): Option<Index> { if idx < MAX_DEVICES then Some(idx) else None }

  ghost function OnConnectionTimeout(t: Table, i: Index, a: Answers): Table {
    if !t.devices[i].connTimer then t
    else
      var t1 := Put(t, i, t.devices[i].(connTimer := false));
      if t1.devices[i].state.Ready? then t1 else Remove(t1, i, a.links)
  }

  ghost function OnNameTimeout(h: Host, i: Index, a: Answers): Host {
    if !h.table.devices[i].nameTimer then h
    else
      var d := h.table.devices[i].(nameTimer := false, name := Some(OtherName), state := NameFetched);
      Fsm(h.(table := Put(h.table, i, d)), i, a)
  }

  /** The timer fires once. The handler has two branches for a context that is not the lock holder. */
  function OnSdpTimeout(h: Host): Host {
    if h.timer.None? then h
    else if h.sdp != h.timer then h.(timer := None)
    else h.(sdp := None, timer := None)
  }

  ghost function OnPidComplete(h: Host, a: Answers): Host {
    match h.sdp
    case None => h
    case Some(i) =>
      Fsm(h.(table := Put(h.table, i, GuessType(h.table.devices[i], a.guessed).(state := VendorFetched))), i, a)
  }

  ghost function OnHidComplete(h: Host, a: Answers): Host {
    match h.sdp
    case None => h
    case Some(i) => SdpEnd(h, i, a)
  }

  ghost function Step(h: Host, e: Event, a: Answers): Host {
    match e
    case IncomingConnection(_, _, _, _, allowed) => if allowed then h.(table := OnIncoming(h.table, e, a)) else h
    case ChannelOpened(_, _, _, _) => OnOpened(h, e, a)
    case ChannelClosed(cid) => h.(table := RemoveIfAny(h.table, ByCid(h.table.devices, cid), a.links))
    case InquiryResult(_, _, _) => OnInquiry(h, e, a)
    case ConnectionRequest(addr) => h.(table := OnConnectionRequest(h.table, addr))
    case ConnectionComplete(_, _, _) => h.(table := OnConnectionComplete(h.table, e))
    case RemoteName(_, _) => OnRemoteName(h, e, a)
    case HciDisconnected(handle) => h.(table := RemoveIfAny(h.table, ByHandle(h.table.devices, handle), a.links))
    case DisconnectCommand(idx) => h.(table := RemoveIfAny(h.table, AtIndex(idx), a.links))
    case ServiceDisconnect(idx) =>
      if idx < MAX_DEVICES then h.(table := Disconnect(h.table, idx, a.links)) else h
    case ParserReady(i, withChild) =>
      h.(table := if withChild then ReadyCompleteWithChild(h.table, i, a)
                  else ReadyComplete(h.table, i, a.deviceAccepted, a.links).0)
    case ConnectionTimeout(i) => h.(table := OnConnectionTimeout(h.table, i, a))
    case NameTimeout(i) => OnNameTimeout(h, i, a)
    case SdpTimeout => OnSdpTimeout(h)
    case PidQueryComplete => OnPidComplete(h, a)
    case HidQueryComplete => OnHidComplete(h, a)
  }

  ghost function Run(h: Host, es: seq<(Event, Answers)>): Host
    decreases |es|
  {
    if es == [] then h else Run(Step(h, es[0].0, es[0].1), es[1..])
  }

  const BOOT := Host(Table([BLANK, BLANK, BLANK, BLANK], []), None, None, [])

  // ----- Connect/disconnect pairing, over all runs -----

  function AddressOf(e: Event): Option<nat> {
    match e
    case IncomingConnection(addr, _, _, _, _) => Some(addr)
    case ChannelOpened(addr, _, _, _) => Some(addr)
    case InquiryResult(addr, _, _) => Some(addr)
    case ConnectionRequest(addr) => Some(addr)
    case ConnectionComplete(addr, _, _) => Some(addr)
    case RemoteName(addr, _) => Some(addr)
    case _ => None
  }

  /** The SDP lock names a slot that was given back. */
  predicate Dangling(h: Host) { h.sdp.Some? && !Occupied(h.table, h.sdp.value) }

  /** What the stack promises of an event: no zero address, and a parser that reports for a device in use. */
  predicate Plausible(h: Host, e: Event) {
    AddressOf(e) != Some(0) && (e.ParserReady? ==> Occupied(h.table, e.i))
  }

  /** Device d in free slot i would become ready and be given a virtual child that stays. */
  predicate ChildForFreeSlot(t: Table, i: Index, d: Device, a: Answers) {
    && (d.incoming || !d.sdpQuery.BeforeConnect?)
    && d.parser.setup.ReadyWithChild? && ChildStays(t, i, a)
  }

  predicate ChildStays(t: Table, i: Index, a: Answers) {
    var c := FreeSlot(t.devices);
    && a.deviceAccepted && a.virtualEnabled && c.Some?
    && (c.value == i || t.devices[c.value].state.Ready? || a.childAccepted)
  }

  /** The result of an SDP query whose device is gone, ending in a virtual child for the free slot. */
  predicate Harmful(h: Host, e: Event, a: Answers) {
    && (e.PidQueryComplete? || e.HidQueryComplete?) && Dangling(h)
    && var i := h.sdp.value;
       var d := if e.PidQueryComplete? then GuessType(h.table.devices[i], a.guessed) else h.table.devices[i];
       (e.PidQueryComplete? ==> !d.parser.needsDescriptor) && ChildForFreeSlot(h.table, i, d, a)
  }

  /** The table invariant of a host, with its SDP lock in the role of the held slot. */
  ghost predicate HostInv(h: Host, strict: bool) { TableInv(h.table, Care(strict, h.sdp)) }

  /** A slot the state machine may work on: one in use, or a freed one that has no child. */
  predicate Usable(v: Care, t: Table, i: Index) { Occupied(t, i) || (!v.strict && t.devices[i].child.None?) }

  lemma EditKeepsOk(v: Care, t: Table, i: Index, d: Device)
    requires TableInv(t, v) && Usable(v, t, i) && SameIdentity(t.devices[i], d)
    requires d.nameTimer ==> Occupied(t, i)
    ensures TableInv(Put(t, i, d), v) && Usable(v, Put(t, i, d), i)
    ensures Occupied(Put(t, i, d), i) <==> Occupied(t, i)
  {
    PutKeepsOk(v, t, i, d);
  }

  lemma ReadyCompleteKeepsOk(v: Care, t: Table, i: Index, accepted: bool, links: map<nat, Link>)
    requires TableInv(t, v) && Usable(v, t, i)
    ensures var (t', taken) := ReadyComplete(t, i, accepted, links);
            && TableInv(t', v)
            && (taken ==> t'.devices[i] == t.devices[i].(connTimer := false, state := ConnState.Ready))
  {
    var t1 := Put(t, i, t.devices[i].(connTimer := false));
    EditKeepsOk(v, t, i, t1.devices[i]);
    EditKeepsOk(v, t1, i, t1.devices[i].(state := ConnState.Ready));
    RemoveKeepsOk(v, t1, i, links);
  }

  lemma UnlinkKeepsOk(v: Care, t: Table, i: Index)
    requires TableInv(t, v)
    ensures TableInv(Put(t, i, t.devices[i].(child := None)), v)
  {
    FewerLinksKeepAcyclic(t.devices, Put(t, i, t.devices[i].(child := None)).devices);
  }

  /** A new child that is not in the ready state has no child of its own, so the link closes no cycle. */
  lemma FreshChildKeepsOk(v: Care, t: Table, p: Index, c: Index, a: Answers)
    requires TableInv(t, v) && MayHaveChild(v, t, p) && FreeSlot(t.devices) == Some(c) && c != p
    requires t.devices[c].child.None?
    ensures var (t3, kept) := ReadyComplete(Connect(CreateVirtual(t, p, true).0, c), c, a.childAccepted, a.links);
            TableInv(if kept then t3 else Put(t3, p, t3.devices[p].(child := None)), v)
  {
    CreateVirtualKeepsOk(v, t, p, true);
    var t2 := CreateVirtual(t, p, true).0;
    ConnectKeepsOk(v, t2, c);
    ReadyCompleteKeepsOk(v, Connect(t2, c), c, a.childAccepted, a.links);
    var (t3, kept) := ReadyComplete(Connect(t2, c), c, a.childAccepted, a.links);
    UnlinkKeepsOk(v, t3, p);
  }

  /** The table when a new child is found to be ready already: linked, connected, and unlinked again. */
  function StaleChild(t: Table, p: Index, c: Index): Table {
    var (t2, _) := CreateVirtual(t, p, true);
    var t3 := Connect(t2, c);
    Put(t3, p, t3.devices[p].(child := None))
  }

  lemma StaleChildSlots(t: Table, p: Index, c: Index)
    requires FreeSlot(t.devices) == Some(c)
    ensures var t' := StaleChild(t, p, c);
            var linked := t.devices[c].(addr := t.devices[p].addr, parent := Some(p), hasType := true, connected := true);
            && t'.log == t.log + [ToldConnected(c)]
            && t'.devices[c] == (if c == p then linked.(child := None) else linked)
            && (p != c ==> t'.devices[p] == t.devices[p].(child := None))
            && (forall j: Index :: j != c && j != p ==> t'.devices[j] == t.devices[j])
  {
  }

  lemma StaleChildDistinct(t: Table, p: Index, c: Index)
    requires FreeSlot(t.devices) == Some(c) && DistinctAddresses(t.devices)
    ensures DistinctAddresses(StaleChild(t, p, c).devices)
  {
    StaleChildSlots(t, p, c);
  }

  lemma StaleChildKeepsOk(v: Care, t: Table, p: Index, c: Index)
    requires TableInv(t, v) && !v.strict && FreeSlot(t.devices) == Some(c) && t.devices[c].state.Ready?
    ensures TableInv(StaleChild(t, p, c), v)
  {
    StaleChildSlots(t, p, c);
    StaleChildDistinct(t, p, c);
    TellKeeps(t.log, ToldConnected(c));
    FewerLinksKeepAcyclic(t.devices, StaleChild(t, p, c).devices);
  }

  lemma NewChildKeepsOk(v: Care, t: Table, p: Index, a: Answers)
    requires TableInv(t, v) && MayHaveChild(v, t, p) && t.devices[p].state.Ready?
    ensures var (t2, slot) := CreateVirtual(t, p, a.virtualEnabled);
            slot.Some? ==>
              var (t3, kept) := ReadyComplete(Connect(t2, slot.value), slot.value, a.childAccepted, a.links);
              TableInv(if kept then t3 else Put(t3, p, t3.devices[p].(child := None)), v)
  {
    var (t2, slot) := CreateVirtual(t, p, a.virtualEnabled);
    if slot.Some? {
      var c := slot.value;
      if c != p && t.devices[c].child.None? {
        FreshChildKeepsOk(v, t, p, c, a);
      } else {
        StaleChildKeepsOk(v, t, p, c);
      }
    }
  }

  lemma ReadyCompleteWithChildKeepsOk(v: Care, t: Table, i: Index, a: Answers)
    requires TableInv(t, v) && Usable(v, t, i) && (Occupied(t, i) || v.held != Some(i))
    ensures TableInv(ReadyCompleteWithChild(t, i, a), v)
  {
    var (t1, taken) := ReadyComplete(t, i, a.deviceAccepted, a.links);
    ReadyCompleteKeepsOk(v, t, i, a.deviceAccepted, a.links);
    if taken {
      NewChildKeepsOk(v, t1, i, a);
    }
  }

  lemma SetReadyKeepsOk(v: Care, t: Table, i: Index, a: Answers)
    requires TableInv(t, v) && Usable(v, t, i) && (Occupied(t, i) || v.held != Some(i))
    ensures TableInv(SetReady(t, i, a), v)
  {
    var t1 := WithState(t, i, PendingReady);
    EditKeepsOk(v, t, i, t1.devices[i]);
    ReadyCompleteWithChildKeepsOk(v, t1, i, a);
    ReadyCompleteKeepsOk(v, t1, i, a.deviceAccepted, a.links);
  }

  lemma CreateChannelKeepsOk(v: Care, t: Table, i: Index, psm: Psm, channel: Option<nat>)
    requires TableInv(t, v) && Usable(v, t, i)
    ensures TableInv(CreateChannel(t, i, psm, channel), v)
  {
    if channel.Some? {
      EditKeepsOk(v, t, i, CreateChannel(t, i, psm, channel).devices[i]);
    }
  }

  /** The lock may name any slot that is in use or blank. */
  lemma HoldKeepsOk(v: Care, t: Table, i: Index)
    requires TableInv(t, v) && (Occupied(t, i) || t.devices[i].child.None?)
    ensures TableInv(t, v.(held := Some(i)))
  {
  }

  lemma SdpStartKeepsOk(h: Host, i: Index, a: Answers, strict: bool)
    requires HostInv(h, strict) && Occupied(h.table, i)
    ensures HostInv(SdpStart(h, i, a), strict)
  {
    var v := Care(strict, h.sdp);
    RemoveKeepsOk(v, h.table, i, a.links);
    var t := WithState(h.table, i, VendorRequested);
    EditKeepsOk(v, h.table, i, t.devices[i]);
    RemoveKeepsOk(v, t, i, a.links);
    HoldKeepsOk(v, t, i);
    HoldKeepsOk(v, Remove(t, i, a.links), i);
  }

  lemma DescriptorFetchedKeepsOk(v: Care, t: Table, i: Index, a: Answers)
    requires TableInv(t, v) && Usable(v, t, i) && (Occupied(t, i) || v.held != Some(i))
    ensures TableInv(DescriptorFetchedStep(t, i, a), v)
  {
    CreateChannelKeepsOk(v, t, i, ControlPsm, a.channel);
    SetReadyKeepsOk(v, t, i, a);
  }

  lemma SdpEndKeepsOk(h: Host, i: Index, a: Answers, strict: bool)
    requires HostInv(h, strict) && Usable(Care(strict, h.sdp), h.table, i)
    ensures HostInv(SdpEnd(h, i, a), strict)
  {
    var v := Care(strict, None);
    var t := WithState(h.table, i, DescriptorFetched);
    EditKeepsOk(v, h.table, i, t.devices[i]);
    DescriptorFetchedKeepsOk(v, t, i, a);
  }

  lemma StartDescriptorQueryKeepsOk(h: Host, i: Index, a: Answers, strict: bool)
    requires HostInv(h, strict) && Usable(Care(strict, h.sdp), h.table, i)
    ensures HostInv(StartDescriptorQuery(h, i, a), strict)
  {
    var v := Care(strict, h.sdp);
    SdpEndKeepsOk(h, i, a, strict);
    var t := WithState(h.table, i, DescriptorRequested);
    EditKeepsOk(v, h.table, i, t.devices[i]);
    RemoveKeepsOk(v, t, i, a.links);
  }

  lemma NameFetchedKeepsOk(h: Host, i: Index, a: Answers, strict: bool)
    requires HostInv(h, strict) && Occupied(h.table, i) && h.table.devices[i].state.NameFetched?
    ensures HostInv(Fsm(h, i, a), strict)
  {
    var v, t, d := Care(strict, h.sdp), h.table, h.table.devices[i];
    if d.name == Some(WirelessController) {
      EditKeepsOk(v, t, i, d.(sdpQuery := BeforeConnect));
      SdpStartKeepsOk(h.(table := Put(t, i, d.(sdpQuery := BeforeConnect))), i, a, strict);
    } else {
      var e := if d.name == Some(Recognized)
               then GuessType(d, a.guessed).(sdpQuery := NotNeeded, state := DescriptorFetched) else d;
      var h1 := h.(table := Put(t, i, e));
      EditKeepsOk(v, t, i, e);
      CreateChannelKeepsOk(v, h1.table, i, ControlPsm, a.channel);
      SetReadyKeepsOk(v, h1.table, i, a);
      SdpStartKeepsOk(h1, i, a, strict);
    }
  }

  lemma FsmKeepsOk(h: Host, i: Index, a: Answers, strict: bool)
    requires HostInv(h, strict) && Occupied(h.table, i)
    ensures HostInv(Fsm(h, i, a), strict)
  {
    var v, t, d := Care(strict, h.sdp), h.table, h.table.devices[i];
    if d.name.None? && (d.state.Discovered? || d.state.InterruptConnected?) {
      EditKeepsOk(v, t, i, d.(state := NameInquired, nameTimer := true));
    } else {
      match d.state {
        case NameFetched => NameFetchedKeepsOk(h, i, a, strict);
        case VendorFetched => StartDescriptorQueryKeepsOk(h, i, a, strict);
        case DescriptorFetched => DescriptorFetchedKeepsOk(v, t, i, a);
        case ControlConnected => CreateChannelKeepsOk(v, t, i, InterruptPsm, a.channel);
        case InterruptConnected =>
          SdpStartKeepsOk(h, i, a, strict);
          SetReadyKeepsOk(v, t, i, a);
        case _ =>
      }
    }
  }

  lemma ByAddressOccupied(t: Table, addr: nat)
    requires addr != 0
    ensures ByAddress(t.devices, addr).Some? ==> Occupied(t, ByAddress(t.devices, addr).value)
  {
  }

  lemma RemovedAddressIsGone(v: Care, t: Table, i: Index, addr: nat, links: map<nat, Link>)
    requires TableInv(t, v) && addr != 0 && ByAddress(t.devices, addr) == Some(i)
    ensures ByAddress(Remove(t, i, links).devices, addr).None?
  {
    RemoveKeepsOk(v, t, i, links);
    var t' := Remove(t, i, links);
    forall j: Index ensures !(t'.devices[j].parent.None? && t'.devices[j].addr == addr) {
    }
  }

  lemma IncomingKeepsOk(v: Care, t: Table, e: Event, a: Answers)
    requires TableInv(t, v) && e.IncomingConnection? && e.addr != 0
    ensures TableInv(OnIncoming(t, e, a), v)
  {
    var known := ByAddress(t.devices, e.addr);
    ByAddressOccupied(t, e.addr);
    var again := known.Some? && t.devices[known.value].state.Ready?;
    var t1 := if again then Remove(t, known.value, a.links) else t;
    if again {
      RemoveKeepsOk(v, t, known.value, a.links);
      RemovedAddressIsGone(v, t, known.value, e.addr, a.links);
    }
    var d := if again then None else known;
    if e.psm.ControlPsm? {
      if d.None? {
        CreateKeepsOk(v, t1, e.addr);
      }
      var (t2, slot) := if d.None? then Create(t1, e.addr) else (t1, d);
      if slot.Some? {
        EditKeepsOk(v, t2, slot.value,
                    t2.devices[slot.value].(handle := e.handle, controlCid := e.channel, incoming := true));
      }
    } else if d.Some? {
      EditKeepsOk(v, t1, d.value, t1.devices[d.value].(interruptCid := e.channel));
    }
  }

  lemma OpenedTableKeepsOk(v: Care, t: Table, i: Index, psm: Psm, cid: nat)
    requires TableInv(t, v) && Occupied(t, i)
    ensures TableInv(Opened(t, i, psm, cid), v) && Occupied(Opened(t, i, psm, cid), i)
  {
    match psm {
      case ControlPsm => EditKeepsOk(v, t, i, t.devices[i].(controlCid := cid, state := ControlConnected));
      case InterruptPsm =>
        var d := t.devices[i].(interruptCid := cid, state := InterruptConnected);
        EditKeepsOk(v, t, i, d);
        ConnectKeepsOk(v, Put(t, i, d), i);
      case OtherPsm =>
    }
  }

  lemma OpenedKeepsOk(h: Host, e: Event, a: Answers, strict: bool)
    requires HostInv(h, strict) && e.ChannelOpened? && e.addr != 0
    ensures HostInv(OnOpened(h, e, a), strict)
  {
    var v := Care(strict, h.sdp);
    ByAddressOccupied(h.table, e.addr);
    var known := ByAddress(h.table.devices, e.addr);
    if known.Some? {
      var i, t := known.value, h.table;
      if e.ok {
        OpenedTableKeepsOk(v, t, i, e.psm, e.cid);
        FsmKeepsOk(h.(table := Opened(t, i, e.psm, e.cid)), i, a, strict);
      } else {
        RemoveKeepsOk(v, t, i, a.links);
      }
    }
  }

  lemma InquiryKeepsOk(h: Host, e: Event, a: Answers, strict: bool)
    requires HostInv(h, strict) && e.InquiryResult? && e.addr != 0
    ensures HostInv(OnInquiry(h, e, a), strict)
  {
    var v := Care(strict, h.sdp);
    ByAddressOccupied(h.table, e.addr);
    var known := ByAddress(h.table.devices, e.addr);
    if known.Some? {
      FsmKeepsOk(h, known.value, a, strict);
    } else {
      CreateKeepsOk(v, h.table, e.addr);
      var (t, slot) := Create(h.table, e.addr);
      if slot.Some? {
        var i := slot.value;
        var d := t.devices[i].(state := if e.name.Some? then NameFetched else Discovered, name := e.name);
        EditKeepsOk(v, t, i, d);
        FsmKeepsOk(h.(table := Put(t, i, d)), i, a, strict);
      }
    }
  }

  lemma ConnectionEventsKeepOk(v: Care, t: Table, e: Event)
    requires TableInv(t, v) && AddressOf(e) != Some(0)
    ensures e.ConnectionRequest? ==> TableInv(OnConnectionRequest(t, e.addr), v)
    ensures e.ConnectionComplete? ==> TableInv(OnConnectionComplete(t, e), v)
  {
    if e.ConnectionRequest? {
      ByAddressOccupied(t, e.addr);
      var known := ByAddress(t.devices, e.addr);
      if known.None? {
        CreateKeepsOk(v, t, e.addr);
      }
      var (t1, slot) := if known.None? then Create(t, e.addr) else (t, known);
      if slot.Some? {
        EditKeepsOk(v, t1, slot.value, t1.devices[slot.value].(incoming := true));
      }
    } else if e.ConnectionComplete? {
      ByAddressOccupied(t, e.addr);
      var known := ByAddress(t.devices, e.addr);
      if known.Some? {
        EditKeepsOk(v, t, known.value, t.devices[known.value].(handle := e.handle));
      }
    }
  }

  lemma StopNameTimerKeepsOk(v: Care, t: Table, i: Index)
    requires TableInv(t, v)
    ensures TableInv(StopNameTimer(t, i), v)
  {
    PutKeepsOk(v, t, i, t.devices[i].(nameTimer := false));
  }

  lemma RemoteNameKeepsOk(h: Host, e: Event, a: Answers, strict: bool)
    requires HostInv(h, strict) && e.RemoteName? && e.addr != 0
    ensures HostInv(OnRemoteName(h, e, a), strict)
  {
    var v := Care(strict, h.sdp);
    ByAddressOccupied(h.table, e.addr);
    var known := ByAddress(h.table.devices, e.addr);
    if known.Some? {
      var i := known.value;
      var d := h.table.devices[i].(name := Some(e.reply));
      if d.state.PendingReady? || d.state.Ready? {
        EditKeepsOk(v, h.table, i, d);
        StopNameTimerKeepsOk(v, Put(h.table, i, d), i);
      } else {
        var h1 := h.(table := Put(h.table, i, d.(state := NameFetched)));
        EditKeepsOk(v, h.table, i, d.(state := NameFetched));
        FsmKeepsOk(h1, i, a, strict);
        StopNameTimerKeepsOk(Care(strict, Fsm(h1, i, a).sdp), Fsm(h1, i, a).table, i);
      }
    }
  }

  lemma ConnectionTimeoutKeepsOk(v: Care, t: Table, i: Index, a: Answers)
    requires TableInv(t, v)
    ensures TableInv(OnConnectionTimeout(t, i, a), v)
  {
    var d := t.devices[i].(connTimer := false);
    PutKeepsOk(v, t, i, d);
    RemoveKeepsOk(v, Put(t, i, d), i, a.links);
  }

  lemma NameTimeoutKeepsOk(h: Host, i: Index, a: Answers, strict: bool)
    requires HostInv(h, strict)
    ensures HostInv(OnNameTimeout(h, i, a), strict)
  {
    var v, t, d := Care(strict, h.sdp), h.table, h.table.devices[i];
    if d.nameTimer {
      var d1 := d.(nameTimer := false, name := Some(OtherName), state := NameFetched);
      EditKeepsOk(v, t, i, d1);
      FsmKeepsOk(h.(table := Put(t, i, d1)), i, a, strict);
    }
  }

  /** Results of a query whose device may be gone: the slot is free, but it has no child. */
  lemma QueryResultsKeepOk(h: Host, a: Answers, strict: bool)
    requires HostInv(h, strict) && (strict ==> !Dangling(h))
    ensures HostInv(OnPidComplete(h, a), strict)
    ensures HostInv(OnHidComplete(h, a), strict)
  {
    if h.sdp.Some? {
      var v, i := Care(strict, h.sdp), h.sdp.value;
      var d := GuessType(h.table.devices[i], a.guessed).(state := VendorFetched);
      EditKeepsOk(v, h.table, i, d);
      PidResultStartsQuery(h, a);
      StartDescriptorQueryKeepsOk(h.(table := Put(h.table, i, d)), i, a, strict);
      SdpEndKeepsOk(h, i, a, strict);
    }
  }

  lemma PidResultStartsQuery(h: Host, a: Answers)
    requires h.sdp.Some?
    ensures var i := h.sdp.value;
            var d := GuessType(h.table.devices[i], a.guessed).(state := VendorFetched);
            OnPidComplete(h, a) == StartDescriptorQuery(h.(table := Put(h.table, i, d)), i, a)
  {
  }

  lemma RemovalsKeepOk(v: Care, t: Table, i: Index, a: Answers)
    requires TableInv(t, v)
    ensures TableInv(Remove(t, i, a.links), v) && TableInv(Disconnect(t, i, a.links), v)
  {
    RemoveKeepsOk(v, t, i, a.links);
    DisconnectAllKeepsOk(v, t, Lineage(t.devices, i), a.links);
  }

  lemma ParserReadyKeepsOk(v: Care, t: Table, i: Index, a: Answers)
    requires TableInv(t, v) && Occupied(t, i)
    ensures TableInv(ReadyCompleteWithChild(t, i, a), v)
    ensures TableInv(ReadyComplete(t, i, a.deviceAccepted, a.links).0, v)
  {
    ReadyCompleteWithChildKeepsOk(v, t, i, a);
    ReadyCompleteKeepsOk(v, t, i, a.deviceAccepted, a.links);
  }

  lemma SdpTimeoutKeepsOk(h: Host, strict: bool)
    requires HostInv(h, strict)
    ensures HostInv(OnSdpTimeout(h), strict)
  {
  }

  /** Every plausible event keeps the sound invariant; the strict one, when no orphaned result is handled. */
  lemma StepKeepsInv(h: Host, e: Event, a: Answers, strict: bool)
    requires HostInv(h, strict) && Plausible(h, e)
    requires strict && (e.PidQueryComplete? || e.HidQueryComplete?) ==> !Dangling(h)
    ensures HostInv(Step(h, e, a), strict)
  {
    var v := Care(strict, h.sdp);
    match e {
      case IncomingConnection(_, _, _, _, _) => IncomingKeepsOk(v, h.table, e, a);
      case ChannelOpened(_, _, _, _) => OpenedKeepsOk(h, e, a, strict);
      case InquiryResult(_, _, _) => InquiryKeepsOk(h, e, a, strict);
      case ConnectionRequest(_) => ConnectionEventsKeepOk(v, h.table, e);
      case ConnectionComplete(_, _, _) => ConnectionEventsKeepOk(v, h.table, e);
      case RemoteName(_, _) => RemoteNameKeepsOk(h, e, a, strict);
      case ParserReady(i, _) => ParserReadyKeepsOk(v, h.table, i, a);
      case ConnectionTimeout(i) => ConnectionTimeoutKeepsOk(v, h.table, i, a);
      case NameTimeout(i) => NameTimeoutKeepsOk(h, i, a, strict);
      case SdpTimeout => SdpTimeoutKeepsOk(h, strict);
      case PidQueryComplete => QueryResultsKeepOk(h, a, strict);
      case HidQueryComplete => QueryResultsKeepOk(h, a, strict);
      case _ => forall i: Index { RemovalsKeepOk(v, h.table, i, a); }
    }
  }

  // ----- Results of a query whose device is gone, and the strict invariant -----

  /** A slot that is free for reuse while the platform has been told it is connected. */
  predicate FreeButConnected(t: Table) { exists i: Index :: t.devices[i].addr == 0 && t.devices[i].connected }

  lemma SameFreeSlot(ds: Devices, es: Devices)
    requires forall i: Index :: ds[i].addr == es[i].addr
    ensures FreeSlot(ds) == FreeSlot(es)
  {
  }

  lemma OrphanReadyKeepsOk(t: Table, i: Index, accepted: bool, links: map<nat, Link>)
    requires TableOk(t) && !Occupied(t, i) && !t.devices[i].state.Ready?
    ensures var (t', taken) := ReadyComplete(t, i, accepted, links);
            && TableOk(t') && taken == accepted
            && (taken ==> t' == Put(t, i, t.devices[i].(state := ConnState.Ready)))
  {
    assert t.devices[i].(connTimer := false) == t.devices[i];
    assert Put(t, i, t.devices[i]) == t;
    PutKeepsOk(STRICT, t, i, t.devices[i].(state := ConnState.Ready));
    RemoveKeepsOk(STRICT, t, i, links);
  }

  /** A child that is declined again leaves its slot free as before. */
  lemma DeclinedChildIsGone(t: Table, i: Index, c: Index, a: Answers)
    requires CleanIfFree(t.devices[i]) && CleanIfFree(t.devices[c])
    requires !Occupied(t, i) && !Occupied(t, c) && c != i && !t.devices[c].state.Ready?
    requires FreeSlot(t.devices) == Some(c) && !a.childAccepted
    ensures var t2 := CreateVirtual(t, i, true).0;
            var t3 := ReadyComplete(Connect(t2, c), c, false, a.links).0;
            Put(t3, i, t3.devices[i].(child := None)) == BrieflyConnected(t, c)
  {
    var t2 := Connect(CreateVirtual(t, i, true).0, c);
    var t3 := Put(t2, c, t2.devices[c].(connTimer := false));
    RemoveChildless(t3, c, a.links);
    var gone := FreeOne(DisconnectOne(t3, c, a.links), c);
    assert t3.log == t.log + [ToldConnected(c)] && t3.devices[c].connected;
    var final := Put(gone, i, gone.devices[i].(child := None));
    assert final.devices[i] == t.devices[i];
    assert final.devices == t.devices[c := BLANK];
  }

  function BrieflyConnected(t: Table, c: Index): Table {
    Table(t.devices[c := BLANK], t.log + [ToldConnected(c)] + [ToldDisconnected(c)] + [Freed(c, false)])
  }

  lemma BrieflyConnectedKeepsOk(t: Table, c: Index)
    requires TableOk(t) && !Occupied(t, c)
    ensures TableOk(BrieflyConnected(t, c))
  {
    TellKeeps(t.log, ToldConnected(c));
    TellKeeps(t.log + [ToldConnected(c)], ToldDisconnected(c));
    TellKeeps(t.log + [ToldConnected(c)] + [ToldDisconnected(c)], Freed(c, false));
    FewerLinksKeepAcyclic(t.devices, BrieflyConnected(t, c).devices);
  }

  lemma StayingChildBreaksOk(t: Table, i: Index, c: Index, a: Answers)
    requires !Occupied(t, i) && t.devices[i].state.Ready? && FreeSlot(t.devices) == Some(c)
    requires c == i || t.devices[c].state.Ready? || a.childAccepted
    ensures var t2 := CreateVirtual(t, i, true).0;
            var (t3, kept) := ReadyComplete(Connect(t2, c), c, a.childAccepted, a.links);
            var d := (if kept then t3 else Put(t3, i, t3.devices[i].(child := None))).devices[c];
            d.addr == 0 && d.connected
  {
  }

  lemma OrphanWithChildIff(t: Table, i: Index, a: Answers)
    requires TableOk(t) && !Occupied(t, i) && !t.devices[i].state.Ready?
    ensures TableOk(ReadyCompleteWithChild(t, i, a)) <==> !ChildStays(t, i, a)
    ensures ChildStays(t, i, a) ==> FreeButConnected(ReadyCompleteWithChild(t, i, a))
  {
    OrphanReadyKeepsOk(t, i, a.deviceAccepted, a.links);
    if a.deviceAccepted && a.virtualEnabled {
      var t1 := Put(t, i, t.devices[i].(state := ConnState.Ready));
      SameFreeSlot(t.devices, t1.devices);
      var c := FreeSlot(t1.devices).value;
      if ChildStays(t, i, a) {
        StayingChildBreaksOk(t1, i, c, a);
      } else {
        DeclinedChildIsGone(t1, i, c, a);
        BrieflyConnectedKeepsOk(t1, c);
      }
    }
  }

  lemma OrphanFetchedIff(t: Table, i: Index, a: Answers)
    requires TableOk(t) && !Occupied(t, i) && t.devices[i].state.DescriptorFetched?
    ensures TableOk(DescriptorFetchedStep(t, i, a)) <==> !ChildForFreeSlot(t, i, t.devices[i], a)
    ensures ChildForFreeSlot(t, i, t.devices[i], a) ==> FreeButConnected(DescriptorFetchedStep(t, i, a))
  {
    var d := t.devices[i];
    if !d.incoming && d.sdpQuery.BeforeConnect? {
      PutKeepsOk(STRICT, t, i, CreateChannel(t, i, ControlPsm, a.channel).devices[i]);
      assert a.channel.None? ==> CreateChannel(t, i, ControlPsm, a.channel) == t;
    } else {
      var t1 := WithState(t, i, PendingReady);
      PutKeepsOk(STRICT, t, i, t1.devices[i]);
      SameFreeSlot(t.devices, t1.devices);
      OrphanWithChildIff(t1, i, a);
      OrphanReadyKeepsOk(t1, i, a.deviceAccepted, a.links);
    }
  }

  lemma OrphanEndIff(h: Host, i: Index, a: Answers)
    requires TableOk(h.table) && !Occupied(h.table, i)
    ensures TableOk(SdpEnd(h, i, a).table) <==> !ChildForFreeSlot(h.table, i, h.table.devices[i], a)
    ensures ChildForFreeSlot(h.table, i, h.table.devices[i], a) ==> FreeButConnected(SdpEnd(h, i, a).table)
  {
    var t := WithState(h.table, i, DescriptorFetched);
    PutKeepsOk(STRICT, h.table, i, t.devices[i]);
    SameFreeSlot(h.table.devices, t.devices);
    OrphanFetchedIff(t, i, a);
  }

  lemma OrphanQueryKeepsOk(h: Host, i: Index, a: Answers)
    requires TableOk(h.table) && h.sdp.Some? && !Occupied(h.table, i) && h.table.devices[i].parser.needsDescriptor
    ensures TableOk(StartDescriptorQuery(h, i, a).table)
  {
    var t := WithState(h.table, i, DescriptorRequested);
    PutKeepsOk(STRICT, h.table, i, t.devices[i]);
    RemoveKeepsOk(STRICT, t, i, a.links);
  }

  lemma OrphanPidIff(h: Host, a: Answers)
    requires TableOk(h.table) && Dangling(h)
    ensures TableOk(OnPidComplete(h, a).table) <==> !Harmful(h, PidQueryComplete, a)
    ensures Harmful(h, PidQueryComplete, a) ==> FreeButConnected(OnPidComplete(h, a).table)
  {
    var i, t := h.sdp.value, h.table;
    var d := GuessType(t.devices[i], a.guessed).(state := VendorFetched);
    var h1 := h.(table := Put(t, i, d));
    PidResultStartsQuery(h, a);
    PutKeepsOk(STRICT, t, i, d);
    if d.parser.needsDescriptor {
      OrphanQueryKeepsOk(h1, i, a);
    } else {
      SameFreeSlot(t.devices, h1.table.devices);
      OrphanEndIff(h1, i, a);
    }
  }

  /** A lock on a clean table asks for nothing more. */
  lemma StrictHoldsAnything(h: Host)
    ensures HostInv(h, true) <==> TableOk(h.table)
  {
  }

  lemma PidResultKeepsOkIff(h: Host, a: Answers)
    requires TableOk(h.table)
    ensures TableOk(OnPidComplete(h, a).table) <==> !Harmful(h, PidQueryComplete, a)
    ensures Harmful(h, PidQueryComplete, a) ==> FreeButConnected(OnPidComplete(h, a).table)
  {
    if Dangling(h) {
      OrphanPidIff(h, a);
    } else {
      StrictHoldsAnything(h);
      QueryResultsKeepOk(h, a, true);
      StrictHoldsAnything(OnPidComplete(h, a));
    }
  }

  lemma HidResultKeepsOkIff(h: Host, a: Answers)
    requires TableOk(h.table)
    ensures TableOk(OnHidComplete(h, a).table) <==> !Harmful(h, HidQueryComplete, a)
    ensures Harmful(h, HidQueryComplete, a) ==> FreeButConnected(OnHidComplete(h, a).table)
  {
    if Dangling(h) {
      OrphanEndIff(h, h.sdp.value, a);
    } else {
      StrictHoldsAnything(h);
      QueryResultsKeepOk(h, a, true);
      StrictHoldsAnything(OnHidComplete(h, a));
    }
  }

  /** The table keeps its strict invariant exactly when the event is not such a result. */
  lemma StepKeepsOkIff(h: Host, e: Event, a: Answers)
    requires TableOk(h.table) && Plausible(h, e)
    ensures TableOk(Step(h, e, a).table) <==> !Harmful(h, e, a)
    ensures Harmful(h, e, a) ==> FreeButConnected(Step(h, e, a).table)
  {
    match e {
      case PidQueryComplete => PidResultKeepsOkIff(h, a);
      case HidQueryComplete => HidResultKeepsOkIff(h, a);
      case _ =>
        StrictHoldsAnything(h);
        StepKeepsInv(h, e, a, true);
        StrictHoldsAnything(Step(h, e, a));
    }
  }

  ghost predicate AlwaysPlausible(h: Host, es: seq<(Event, Answers)>)
    decreases |es|
  {
    es != [] ==> Plausible(h, es[0].0) && AlwaysPlausible(Step(h, es[0].0, es[0].1), es[1..])
  }

  ghost predicate NeverHarmful(h: Host, es: seq<(Event, Answers)>)
    decreases |es|
  {
    es != [] ==> !Harmful(h, es[0].0, es[0].1) && NeverHarmful(Step(h, es[0].0, es[0].1), es[1..])
  }

  ghost predicate EverOk(h: Host, es: seq<(Event, Answers)>)
    decreases |es|
  {
    TableOk(h.table) && (es != [] ==> EverOk(Step(h, es[0].0, es[0].1), es[1..]))
  }

  /** The invariant holds throughout a run exactly when no result of an orphaned query is harmful. */
  lemma {:induction false} EverOkIff(h: Host, es: seq<(Event, Answers)>)
    requires TableOk(h.table) && AlwaysPlausible(h, es)
    ensures EverOk(h, es) <==> NeverHarmful(h, es)
    decreases |es|
  {
    if es != [] {
      StepKeepsOkIff(h, es[0].0, es[0].1);
      if !Harmful(h, es[0].0, es[0].1) {
        EverOkIff(Step(h, es[0].0, es[0].1), es[1..]);
      }
    }
  }

  ghost predicate EverUnconnected(h: Host, es: seq<(Event, Answers)>)
    decreases |es|
  {
    !FreeButConnected(h.table) && (es != [] ==> EverUnconnected(Step(h, es[0].0, es[0].1), es[1..]))
  }

  /** No free slot is ever connected exactly when no result of an orphaned query is harmful. */
  lemma {:induction false} FreeNeverConnectedIff(h: Host, es: seq<(Event, Answers)>)
    requires TableOk(h.table) && AlwaysPlausible(h, es)
    ensures EverUnconnected(h, es) <==> NeverHarmful(h, es)
    decreases |es|
  {
    if es != [] {
      var h1 := Step(h, es[0].0, es[0].1);
      StepKeepsOkIff(h, es[0].0, es[0].1);
      if !Harmful(h, es[0].0, es[0].1) {
        FreeNeverConnectedIff(h1, es[1..]);
      }
    }
  }

  lemma {:induction false} RunKeepsInv(h: Host, es: seq<(Event, Answers)>)
    requires HostInv(h, false) && AlwaysPlausible(h, es)
    ensures HostInv(Run(h, es), false)
    decreases |es|
  {
    if es != [] {
      StepKeepsInv(h, es[0].0, es[0].1, false);
      RunKeepsInv(Step(h, es[0].0, es[0].1), es[1..]);
    }
  }

  lemma BootOk()
    ensures TableOk(BOOT.table) && HostInv(BOOT, false)
  {
    forall i: Index ensures Descends(BOOT.table.devices, i) {
      assert Ends(BOOT.table.devices, i, 1);
    }
  }

  /**
   * In every run from boot, whatever becomes of orphaned queries: connected and disconnected callbacks
   * pair up, no slot is given back while connected, no two devices in use share an address unless one
   * of them is virtual, and child links are acyclic, so that every removal ends.
   */
  lemma CallbacksPairUp(es: seq<(Event, Answers)>)
    requires AlwaysPlausible(BOOT, es)
    ensures var t := Run(BOOT, es).table;
            && (forall k :: 0 <= k < |t.log| ==> Follows(t.log, k))
            && (forall i: Index, j: Index ::
                  i != j && t.devices[i].addr == t.devices[j].addr && t.devices[i].addr != 0
                  ==> t.devices[i].parent.Some? || t.devices[j].parent.Some?)
            && Acyclic(t.devices)
  {
    BootOk();
    RunKeepsInv(BOOT, es);
    PairedMeans(Run(BOOT, es).table.log);
  }

  /** And no free slot is ever connected, exactly when none of those results is harmful. */
  lemma FreeSlotsFromBoot(es: seq<(Event, Answers)>)
    requires AlwaysPlausible(BOOT, es)
    ensures EverUnconnected(BOOT, es) <==> NeverHarmful(BOOT, es)
  {
    BootOk();
    FreeNeverConnectedIff(BOOT, es);
  }

  /** What may stand at position k of the callback log. */
  predicate Follows(log: seq<Note>, k: nat)
    requires k < |log|
  {
    match log[k]
    case ToldConnected(_) => true
    case ToldDisconnected(i) =>
      exists j :: 0 <= j < k && log[j] == ToldConnected(i) && forall m :: j < m < k ==> log[m] != ToldDisconnected(i)
    case Freed(_, wasConnected) => !wasConnected
  }

  lemma {:induction false} ToldMeans(log: seq<Note>, i: Index) returns (j: nat)
    requires Told(log, i)
    ensures j < |log| && log[j] == ToldConnected(i)
    ensures forall m :: j < m < |log| ==> log[m] != ToldDisconnected(i)
    decreases |log|
  {
    var n := |log| - 1;
    if log[n] == ToldConnected(i) {
      return n;
    }
    j := ToldMeans(log[..n], i);
  }

  lemma {:induction false} PairedMeans(log: seq<Note>)
    requires Paired(log)
    ensures forall k :: 0 <= k < |log| ==> Follows(log, k)
    decreases |log|
  {
    if log != [] {
      var n := |log| - 1;
      PairedMeans(log[..n]);
      forall k | 0 <= k < n ensures Follows(log, k) {
        FollowsInPrefix(log, n, k);
      }
      if log[n].ToldDisconnected? {
        var j := ToldMeans(log[..n], log[n].i);
        assert log[j] == ToldConnected(log[n].i);
      }
    }
  }

  lemma FollowsInPrefix(log: seq<Note>, n: nat, k: nat)
    requires k < n <= |log| && Follows(log[..n], k)
    ensures Follows(log, k)
  {
    if log[k].ToldDisconnected? {
      var i := log[k].i;
      var j :| 0 <= j < k && log[..n][j] == ToldConnected(i)
               && forall m :: j < m < k ==> log[..n][m] != ToldDisconnected(i);
      assert log[j] == ToldConnected(i);
      assert forall m :: j < m < k ==> log[m] == log[..n][m];
    }
  }

  // ----- A query result for a device that is gone -----

  const WILLING := Answers(map[], true, None, Parser(ReadyWithChild, false), true, true, true)

  /**
   * Handled for the freed slot 0, its query result can make that slot ready, make it its own virtual
   * parent and report it connected while it is still free for reuse. Only the refusal to make a ready
   * slot ready again unlinks it from itself.
   */
  lemma OrphanedResultConnectsFreeSlot(h: Host)
    requires h.sdp == Some(0) && h.table.devices[0] == BLANK
    ensures Harmful(h, PidQueryComplete, WILLING)
    ensures var d := Step(h, PidQueryComplete, WILLING).table.devices[0];
            d.addr == 0 && d.connected && d.parent == Some(0) && d.child.None?
    ensures Descends(Step(h, PidQueryComplete, WILLING).table.devices, 0)
  {
    var d := GuessType(BLANK, WILLING.guessed).(state := VendorFetched);
    var t := Put(h.table, 0, d);
    var t1 := WithState(WithState(t, 0, DescriptorFetched), 0, PendingReady);
    assert Step(h, PidQueryComplete, WILLING).table == ReadyCompleteWithChild(t1, 0, WILLING);
    var (t2, _) := ReadyComplete(t1, 0, true, map[]);
    assert FreeSlot(h.table.devices) == FreeSlot(t2.devices) == Some(0);
    assert Ends(Step(h, PidQueryComplete, WILLING).table.devices, 0, 1);
  }
}
