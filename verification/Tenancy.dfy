// components/bluepad32_component: what one event leaves of the device in a slot, and when a slot gets a new one.

module Tenancy {
  import opened Wrappers
  import opened DeviceTable
  import opened BluetoothHost
  import opened SdpLock

  // ----- A slot keeps its device until it is given back -----

  /** Between t and u the callback log only grew. */
  predicate Grows(t: Table, u: Table) { |t.log| <= |u.log| && u.log[..|t.log|] == t.log }

  /** Between t and u slot i was given back. */
  predicate GivenBack(t: Table, u: Table, i: Index) {
    exists k :: |t.log| <= k < |u.log| && u.log[k].Freed? && u.log[k].i == i
  }

  /** Between t and u slot i was announced connected. */
  predicate ToldIn(t: Table, u: Table, i: Index) { exists k :: |t.log| <= k < |u.log| && u.log[k] == ToldConnected(i) }

  predicate SameOwner(t: Table, u: Table, i: Index) {
    u.devices[i].addr == t.devices[i].addr && u.devices[i].parent == t.devices[i].parent
  }

  /** The same device, and if its type was known it is still that type. */
  predicate SameDevice(t: Table, u: Table, i: Index) {
    && SameOwner(t, u, i)
    && (t.devices[i].hasType ==> u.devices[i].hasType && u.devices[i].parser == t.devices[i].parser)
  }

  predicate SameFlag(t: Table, u: Table, i: Index) {
    u.devices[i].connected == t.devices[i].connected && !ToldIn(t, u, i)
  }

  /**
   * Slots in use keep their device unless given back. Outside `acts` nothing about it changes, and
   * outside `flags` neither its connected flag does nor is it announced connected.
   */
  predicate Passes(t: Table, u: Table, acts: set<Index>, flags: set<Index>) {
    && Grows(t, u)
    && forall i: Index :: Occupied(t, i) && !GivenBack(t, u, i) ==>
         && SameDevice(t, u, i)
         && (i !in flags ==> SameFlag(t, u, i))
         && (i !in acts ==> u.devices[i] == t.devices[i])
  }

  /** No slot gets a new device, unless a virtual one. */
  predicate NoNewcomers(t: Table, u: Table) {
    forall i: Index :: !Occupied(t, i) || GivenBack(t, u, i) ==> !Occupied(u, i) || u.devices[i].parent.Some?
  }

  predicate Keeps(t: Table, u: Table, acts: set<Index>, flags: set<Index>) {
    Passes(t, u, acts, flags) && NoNewcomers(t, u)
  }

  const EVERY_SLOT: set<Index> := set i: Index | true

  lemma GrowsOn(t: Table, u: Table, w: Table)
    requires Grows(t, u) && Grows(u, w)
    ensures Grows(t, w)
  {
    assert w.log[..|t.log|] == w.log[..|u.log|][..|t.log|];
  }

  lemma GivenBackSplits(t: Table, u: Table, w: Table, i: Index)
    requires Grows(t, u) && Grows(u, w)
    ensures GivenBack(t, w, i) <==> GivenBack(t, u, i) || GivenBack(u, w, i)
  {
    assert forall k :: 0 <= k < |u.log| ==> u.log[k] == w.log[..|u.log|][k] == w.log[k];
  }

  lemma ToldSplits(t: Table, u: Table, w: Table, i: Index)
    requires Grows(t, u) && Grows(u, w)
    ensures ToldIn(t, w, i) <==> ToldIn(t, u, i) || ToldIn(u, w, i)
  {
    assert forall k :: 0 <= k < |u.log| ==> u.log[k] == w.log[..|u.log|][k] == w.log[k];
  }

  lemma PassesOn(t: Table, u: Table, w: Table, acts: set<Index>, flags: set<Index>, later: set<Index>)
    requires Passes(t, u, acts, flags) && Passes(u, w, acts, later)
    ensures Passes(t, w, acts, flags + later)
  {
    GrowsOn(t, u, w);
    forall i: Index | Occupied(t, i) && !GivenBack(t, w, i)
      ensures SameDevice(t, w, i) && (i !in flags + later ==> SameFlag(t, w, i))
              && (i !in acts ==> w.devices[i] == t.devices[i])
    {
      GivenBackSplits(t, u, w, i);
      ToldSplits(t, u, w, i);
    }
  }

  lemma NoNewcomersOn(t: Table, u: Table, w: Table, acts: set<Index>, flags: set<Index>)
    requires Grows(t, u) && NoNewcomers(t, u) && Passes(u, w, acts, flags) && NoNewcomers(u, w)
    ensures NoNewcomers(t, w)
  {
    forall i: Index | !Occupied(t, i) || GivenBack(t, w, i) ensures !Occupied(w, i) || w.devices[i].parent.Some? {
      GivenBackSplits(t, u, w, i);
      if Occupied(u, i) && !GivenBack(u, w, i) {
        assert SameOwner(u, w, i);
      }
    }
  }

  lemma KeepsOn(t: Table, u: Table, w: Table, acts: set<Index>, flags: set<Index>, later: set<Index>)
    requires Keeps(t, u, acts, flags) && Keeps(u, w, acts, later)
    ensures Keeps(t, w, acts, flags + later)
  {
    PassesOn(t, u, w, acts, flags, later);
    NoNewcomersOn(t, u, w, acts, later);
  }

  lemma KeepsPlainly(t: Table, u: Table, w: Table, acts: set<Index>)
    requires Keeps(t, u, acts, {}) && Keeps(u, w, acts, {})
    ensures Keeps(t, w, acts, {})
  {
    KeepsOn(t, u, w, acts, {}, {});
  }

  /** Nobody is announced connected. */
  predicate Quiet(t: Table, u: Table) {
    Grows(t, u) && forall k :: |t.log| <= k < |u.log| ==> !u.log[k].ToldConnected?
  }

  lemma QuietOn(t: Table, u: Table, w: Table)
    requires Quiet(t, u) && Quiet(u, w)
    ensures Quiet(t, w)
  {
    GrowsOn(t, u, w);
    forall k | |t.log| <= k < |w.log| ensures !w.log[k].ToldConnected? {
      assert k < |u.log| ==> u.log[k] == w.log[..|u.log|][k];
    }
  }

  /** An edit that leaves a device what it is. */
  predicate SameHolder(d: Device, e: Device) {
    && e.addr == d.addr && e.parent == d.parent && e.connected == d.connected
    && (d.hasType ==> e.hasType && e.parser == d.parser)
  }

  lemma PutKeeps(t: Table, i: Index, d: Device)
    requires SameHolder(t.devices[i], d)
    ensures Keeps(t, Put(t, i, d), {i}, {}) && Quiet(t, Put(t, i, d))
  {
  }

  lemma CreatePasses(t: Table, addr: nat)
    ensures Passes(t, Create(t, addr).0, {}, {}) && Quiet(t, Create(t, addr).0)
  {
  }

  lemma FillKeeps(t: Table, i: Index, d: Device)
    requires !Occupied(t, i) && d.parent.Some?
    ensures Keeps(t, Put(t, i, d), {}, {})
  {
  }

  lemma CreateVirtualKeeps(t: Table, p: Index, enabled: bool)
    ensures Keeps(t, CreateVirtual(t, p, enabled).0, {p}, {})
  {
    if enabled && FreeSlot(t.devices).Some? {
      var i := FreeSlot(t.devices).value;
      var d := t.devices[i].(addr := t.devices[p].addr, parent := Some(p), hasType := true);
      var linked := Put(t, i, d);
      FillKeeps(t, i, d);
      KeepsWider(t, linked, {}, {}, {p});
      PutKeeps(linked, p, linked.devices[p].(child := Some(i)));
      KeepsPlainly(t, linked, CreateVirtual(t, p, enabled).0, {p});
    }
  }

  lemma ConnectKeeps(t: Table, i: Index)
    ensures Keeps(t, Connect(t, i), {i}, {i}) && ToldIn(t, Connect(t, i), i)
  {
    assert Connect(t, i).log[|t.log|] == ToldConnected(i);
  }

  // ----- Removal -----

  lemma LineageKept(ds: Devices, es: Devices, i: Index)
    requires forall j: Index :: es[j].child == ds[j].child
    ensures Lineage(es, i) == Lineage(ds, i)
  {
    if n: nat :| Ends(ds, i, n) && Descends(ds, i) && Lineage(ds, i) == Chain(ds, i, n) {
      SameLinksSameChain(ds, es, i, n);
      var m: nat :| Ends(es, i, m) && Lineage(es, i) == Chain(es, i, m);
      ChainUnique(es, i, n, m);
    } else if m: nat :| Ends(es, i, m) {
      SameLinksSameChain(es, ds, i, m);
    }
  }

  ghost function LineageSet(t: Table, i: Index): set<Index> { set k: Index | k in Lineage(t.devices, i) }

  lemma DisconnectOneKeeps(t: Table, i: Index, links: map<nat, Link>)
    ensures Keeps(t, DisconnectOne(t, i, links), {i}, {i}) && Quiet(t, DisconnectOne(t, i, links))
  {
  }

  lemma KeepsWider(t: Table, u: Table, acts: set<Index>, flags: set<Index>, wider: set<Index>)
    requires Keeps(t, u, acts, flags) && acts <= wider
    ensures Keeps(t, u, wider, flags)
  {
  }

  lemma {:induction false} DisconnectAllKeeps(t: Table, slots: seq<Index>, links: map<nat, Link>)
    ensures var s := set k: Index | k in slots;
            Keeps(t, DisconnectAll(t, slots, links), s, s) && Quiet(t, DisconnectAll(t, slots, links))
    decreases |slots|
  {
    if slots != [] {
      var u := DisconnectAll(t, slots[1..], links);
      var w := DisconnectOne(u, slots[0], links);
      var s, rest := set k: Index | k in slots, set k: Index | k in slots[1..];
      DisconnectAllKeeps(t, slots[1..], links);
      DisconnectOneKeeps(u, slots[0], links);
      KeepsWider(t, u, rest, rest, s);
      KeepsWider(u, w, {slots[0]}, {slots[0]}, s);
      KeepsOn(t, u, w, s, rest, {slots[0]});
      QuietOn(t, u, w);
      assert rest + {slots[0]} == s;
    }
  }

  lemma FreeOneKeeps(t: Table, i: Index)
    ensures Keeps(t, FreeOne(t, i), {}, {}) && Quiet(t, FreeOne(t, i)) && GivenBack(t, FreeOne(t, i), i)
  {
    var u := FreeOne(t, i);
    assert u.log[|t.log|].Freed? && u.log[|t.log|].i == i;
  }

  lemma {:induction false} FreeAllKeeps(t: Table, slots: seq<Index>)
    ensures Keeps(t, FreeAll(t, slots), {}, {}) && Quiet(t, FreeAll(t, slots))
    ensures forall i :: i in slots ==> GivenBack(t, FreeAll(t, slots), i)
    decreases |slots|
  {
    if slots != [] {
      var u := FreeAll(t, slots[1..]);
      var w := FreeOne(u, slots[0]);
      FreeAllKeeps(t, slots[1..]);
      FreeOneKeeps(u, slots[0]);
      KeepsPlainly(t, u, w, {});
      QuietOn(t, u, w);
      forall i | i in slots ensures GivenBack(t, w, i) {
        GivenBackSplits(t, u, w, i);
      }
    }
  }

  lemma DisconnectKeeps(t: Table, i: Index, links: map<nat, Link>)
    ensures Keeps(t, Disconnect(t, i, links), LineageSet(t, i), LineageSet(t, i)) && Quiet(t, Disconnect(t, i, links))
  {
    DisconnectAllKeeps(t, Lineage(t.devices, i), links);
  }

  /** Whatever a removal takes away is given back, so it changes nothing else. */
  lemma RemoveKeeps(t: Table, i: Index, links: map<nat, Link>)
    ensures Keeps(t, Remove(t, i, links), {}, {}) && Quiet(t, Remove(t, i, links))
    ensures GivenBack(t, Remove(t, i, links), i)
  {
    var slots := Lineage(t.devices, i);
    var u, w := Disconnect(t, i, links), Remove(t, i, links);
    DisconnectKeeps(t, i, links);
    DisconnectAllKeepsLinks(t, slots, links);
    LineageKept(t.devices, u.devices, i);
    LineageStarts(t.devices, i);
    FreeAllKeeps(u, slots);
    KeepsWider(u, w, {}, {}, LineageSet(t, i));
    KeepsOn(t, u, w, LineageSet(t, i), LineageSet(t, i), {});
    QuietOn(t, u, w);
    forall k | k in slots ensures GivenBack(t, w, k) {
      GivenBackSplits(t, u, w, k);
    }
  }

  lemma EditThenRemoveKeeps(t: Table, i: Index, d: Device, links: map<nat, Link>)
    requires SameHolder(t.devices[i], d)
    ensures Keeps(t, Put(t, i, d), {i}, {}) && Keeps(t, Remove(Put(t, i, d), i, links), {i}, {})
    ensures GivenBack(t, Remove(Put(t, i, d), i, links), i)
  {
    var u := Put(t, i, d);
    var w := Remove(u, i, links);
    PutKeeps(t, i, d);
    RemoveKeeps(u, i, links);
    KeepsWider(u, w, {}, {}, {i});
    KeepsPlainly(t, u, w, {i});
    GivenBackSplits(t, u, w, i);
  }

  // ----- Becoming ready -----

  lemma ReadyCompleteKeeps(t: Table, i: Index, accepted: bool, links: map<nat, Link>)
    ensures Keeps(t, ReadyComplete(t, i, accepted, links).0, {i}, {})
  {
    if t.devices[i].state.Ready? {
    } else if accepted {
      var d := t.devices[i].(connTimer := false, state := ConnState.Ready);
      PutKeeps(t, i, d);
      assert ReadyComplete(t, i, accepted, links).0 == Put(t, i, d);
    } else {
      EditThenRemoveKeeps(t, i, t.devices[i].(connTimer := false), links);
    }
  }

  lemma NewChildKeeps(t: Table, p: Index, c: Index, a: Answers)
    ensures var (u, kept) := ReadyComplete(Connect(t, c), c, a.childAccepted, a.links);
            Keeps(t, if kept then u else Put(u, p, u.devices[p].(child := None)), {p, c}, {c})
  {
    var t1 := Connect(t, c);
    var (u, kept) := ReadyComplete(t1, c, a.childAccepted, a.links);
    ConnectKeeps(t, c);
    KeepsWider(t, t1, {c}, {c}, {p, c});
    ReadyCompleteKeeps(t1, c, a.childAccepted, a.links);
    KeepsWider(t1, u, {c}, {}, {p, c});
    KeepsOn(t, t1, u, {p, c}, {c}, {});
    var unlinked := Put(u, p, u.devices[p].(child := None));
    PutKeeps(u, p, unlinked.devices[p]);
    KeepsWider(u, unlinked, {p}, {}, {p, c});
    KeepsOn(t, u, unlinked, {p, c}, {c}, {});
  }

  /** What happens to a slot that was free does not count. */
  lemma ChildSlotWasFree(t: Table, u: Table, p: Index, c: Index)
    requires Keeps(t, u, {p, c}, {c}) && !Occupied(t, c)
    ensures Keeps(t, u, {p}, {})
  {
  }

  lemma TakenWithChildKeeps(t: Table, i: Index, a: Answers)
    ensures match CreateVirtual(t, i, a.virtualEnabled)
            case (_, None) => true
            case (t1, Some(c)) =>
              var (u, kept) := ReadyComplete(Connect(t1, c), c, a.childAccepted, a.links);
              Keeps(t, if kept then u else Put(u, i, u.devices[i].(child := None)), {i}, {})
  {
    var (t1, slot) := CreateVirtual(t, i, a.virtualEnabled);
    if slot.Some? {
      var c := slot.value;
      var (u, kept) := ReadyComplete(Connect(t1, c), c, a.childAccepted, a.links);
      var w := if kept then u else Put(u, i, u.devices[i].(child := None));
      CreateVirtualKeeps(t, i, a.virtualEnabled);
      KeepsWider(t, t1, {i}, {}, {i, c});
      NewChildKeeps(t1, i, c, a);
      KeepsOn(t, t1, w, {i, c}, {}, {c});
      ChildSlotWasFree(t, w, i, c);
    }
  }

  lemma ReadyCompleteWithChildKeeps(t: Table, i: Index, a: Answers)
    ensures Keeps(t, ReadyCompleteWithChild(t, i, a), {i}, {})
  {
    var (t1, taken) := ReadyComplete(t, i, a.deviceAccepted, a.links);
    ReadyCompleteKeeps(t, i, a.deviceAccepted, a.links);
    if taken && CreateVirtual(t1, i, a.virtualEnabled).1.Some? {
      TakenWithChildKeeps(t1, i, a);
      KeepsPlainly(t, t1, ReadyCompleteWithChild(t, i, a), {i});
    }
  }

  lemma SetReadyKeeps(t: Table, i: Index, a: Answers)
    ensures Keeps(t, SetReady(t, i, a), {i}, {})
  {
    var t1 := WithState(t, i, PendingReady);
    PutKeeps(t, i, t1.devices[i]);
    ReadyCompleteWithChildKeeps(t1, i, a);
    ReadyCompleteKeeps(t1, i, a.deviceAccepted, a.links);
    if !t.devices[i].state.PendingReady? {
      KeepsPlainly(t, t1, SetReady(t, i, a), {i});
    }
  }

  // ----- The state machine -----

  lemma SdpStartKeeps(h: Host, i: Index, a: Answers)
    ensures Keeps(h.table, SdpStart(h, i, a).table, {i}, {})
  {
    RemoveKeeps(h.table, i, a.links);
    KeepsWider(h.table, Remove(h.table, i, a.links), {}, {}, {i});
    EditThenRemoveKeeps(h.table, i, h.table.devices[i].(state := VendorRequested), a.links);
  }

  lemma CreateChannelKeeps(t: Table, i: Index, psm: Psm, channel: Option<nat>)
    ensures Keeps(t, CreateChannel(t, i, psm, channel), {i}, {})
  {
  }

  lemma DescriptorFetchedKeeps(t: Table, i: Index, a: Answers)
    ensures Keeps(t, DescriptorFetchedStep(t, i, a), {i}, {})
  {
    CreateChannelKeeps(t, i, ControlPsm, a.channel);
    SetReadyKeeps(t, i, a);
  }

  lemma SdpEndKeeps(h: Host, i: Index, a: Answers)
    ensures Keeps(h.table, SdpEnd(h, i, a).table, {i}, {})
  {
    var t := WithState(h.table, i, DescriptorFetched);
    PutKeeps(h.table, i, t.devices[i]);
    DescriptorFetchedKeeps(t, i, a);
    KeepsPlainly(h.table, t, SdpEnd(h, i, a).table, {i});
  }

  lemma StartDescriptorQueryKeeps(h: Host, i: Index, a: Answers)
    ensures Keeps(h.table, StartDescriptorQuery(h, i, a).table, {i}, {})
  {
    SdpEndKeeps(h, i, a);
    EditThenRemoveKeeps(h.table, i, h.table.devices[i].(state := DescriptorRequested), a.links);
  }

  lemma QueryFirstKeeps(h: Host, i: Index, a: Answers)
    ensures var h1 := h.(table := Put(h.table, i, h.table.devices[i].(sdpQuery := BeforeConnect)));
            Keeps(h.table, SdpStart(h1, i, a).table, {i}, {})
  {
    var t := Put(h.table, i, h.table.devices[i].(sdpQuery := BeforeConnect));
    SdpStartKeeps(h.(table := t), i, a);
    PutKeeps(h.table, i, t.devices[i]);
    KeepsPlainly(h.table, t, SdpStart(h.(table := t), i, a).table, {i});
  }

  lemma NamedKeeps(h: Host, i: Index, d: Device, a: Answers)
    requires SameHolder(h.table.devices[i], d)
    ensures var t := Put(h.table, i, d);
            && Keeps(h.table, CreateChannel(t, i, ControlPsm, a.channel), {i}, {})
            && Keeps(h.table, SetReady(t, i, a), {i}, {})
            && Keeps(h.table, SdpStart(h.(table := t), i, a).table, {i}, {})
  {
    var t := Put(h.table, i, d);
    PutKeeps(h.table, i, d);
    CreateChannelKeeps(t, i, ControlPsm, a.channel);
    SetReadyKeeps(t, i, a);
    SdpStartKeeps(h.(table := t), i, a);
    KeepsPlainly(h.table, t, CreateChannel(t, i, ControlPsm, a.channel), {i});
    KeepsPlainly(h.table, t, SetReady(t, i, a), {i});
    KeepsPlainly(h.table, t, SdpStart(h.(table := t), i, a).table, {i});
  }

  lemma NameFetchedKeeps(h: Host, i: Index, a: Answers)
    requires h.table.devices[i].state.NameFetched?
    ensures Keeps(h.table, Fsm(h, i, a).table, {i}, {})
  {
    var d := h.table.devices[i];
    if d.name == Some(WirelessController) {
      QueryFirstKeeps(h, i, a);
    } else {
      NamedKeeps(h, i, if d.name == Some(Recognized)
                        then GuessType(d, a.guessed).(sdpQuery := NotNeeded, state := DescriptorFetched) else d, a);
    }
  }

  lemma InterruptConnectedKeeps(h: Host, i: Index, a: Answers)
    requires h.table.devices[i].state.InterruptConnected?
    ensures Keeps(h.table, Fsm(h, i, a).table, {i}, {})
  {
    var d := h.table.devices[i];
    if d.name.None? {
      PutKeeps(h.table, i, d.(state := NameInquired, nameTimer := true));
    } else if d.incoming {
    } else if d.sdpQuery.AfterConnect? {
      SdpStartKeeps(h, i, a);
      assert Fsm(h, i, a) == SdpStart(h, i, a);
    } else {
      SetReadyKeeps(h.table, i, a);
      assert Fsm(h, i, a).table == SetReady(h.table, i, a);
    }
  }

  lemma FsmKeeps(h: Host, i: Index, a: Answers)
    ensures Keeps(h.table, Fsm(h, i, a).table, {i}, {})
  {
    match h.table.devices[i].state {
      case NameFetched => NameFetchedKeeps(h, i, a);
      case VendorFetched => StartDescriptorQueryKeeps(h, i, a);
      case DescriptorFetched => DescriptorFetchedKeeps(h.table, i, a);
      case ControlConnected => CreateChannelKeeps(h.table, i, InterruptPsm, a.channel);
      case InterruptConnected => InterruptConnectedKeeps(h, i, a);
      case _ => PutKeeps(h.table, i, h.table.devices[i].(state := NameInquired, nameTimer := true));
    }
  }

  lemma EditThenFsmKeeps(h: Host, i: Index, d: Device, a: Answers)
    requires SameHolder(h.table.devices[i], d)
    ensures Keeps(h.table, Fsm(h.(table := Put(h.table, i, d)), i, a).table, {i}, {})
  {
    var h1 := h.(table := Put(h.table, i, d));
    PutKeeps(h.table, i, d);
    FsmKeeps(h1, i, a);
    KeepsPlainly(h.table, h1.table, Fsm(h1, i, a).table, {i});
  }

  // ----- Events -----

  /** The device whose interrupt channel event e opens. */
  function InterruptOpens(h: Host, e: Event): Option<Index> {
    if e.ChannelOpened? && e.ok && e.psm.InterruptPsm? then ByAddress(h.table.devices, e.addr) else None
  }

  /** The devices a disconnect requested by the Bluetooth service reaches: the one named and its children. */
  ghost function ServiceDrops(h: Host, e: Event): set<Index> {
    if e.ServiceDisconnect? && e.idx < MAX_DEVICES then LineageSet(h.table, e.idx) else {}
  }

  /** The slots whose connected flag event e may change without giving them back. */
  ghost function Touched(h: Host, e: Event): set<Index> {
    ServiceDrops(h, e) + if InterruptOpens(h, e).None? then {} else {InterruptOpens(h, e).value}
  }

  /** The events that may bring in a device other than a virtual one. */
  predicate BringsIn(e: Event) { e.IncomingConnection? || e.InquiryResult? || e.ConnectionRequest? }

  /** Slot i gets a device by this event, and not a virtual one. */
  predicate NewDevice(t: Table, u: Table, i: Index) {
    (!Occupied(t, i) || GivenBack(t, u, i)) && Occupied(u, i) && u.devices[i].parent.None?
  }

  lemma ControlAcceptedPasses(t: Table, known: Option<Index>, addr: nat, channel: nat, handle: nat)
    ensures var u := ControlAccepted(t, known, addr, channel, handle); Passes(t, u, EVERY_SLOT, {}) && Quiet(t, u)
  {
    var (t1, slot) := if known.None? then Create(t, addr) else (t, known);
    CreatePasses(t, addr);
    if slot.Some? {
      var d := t1.devices[slot.value].(handle := handle, controlCid := channel, incoming := true);
      var u := Put(t1, slot.value, d);
      PutKeeps(t1, slot.value, d);
      assert Passes(t1, u, EVERY_SLOT, {});
      PassesOn(t, t1, u, EVERY_SLOT, {}, {});
      QuietOn(t, t1, u);
    }
  }

  lemma ChannelAccepted(t: Table, d: Option<Index>, e: Event)
    requires e.IncomingConnection?
    ensures var u := match e.psm
                     case ControlPsm => ControlAccepted(t, d, e.addr, e.channel, e.handle)
                     case InterruptPsm =>
                       if d.None? then t else Put(t, d.value, t.devices[d.value].(interruptCid := e.channel))
                     case OtherPsm => t;
            Passes(t, u, EVERY_SLOT, {}) && Quiet(t, u)
  {
    ControlAcceptedPasses(t, d, e.addr, e.channel, e.handle);
    if d.Some? {
      PutKeeps(t, d.value, t.devices[d.value].(interruptCid := e.channel));
    }
  }

  lemma IncomingPasses(t: Table, e: Event, a: Answers)
    requires e.IncomingConnection?
    ensures Passes(t, OnIncoming(t, e, a), EVERY_SLOT, {}) && Quiet(t, OnIncoming(t, e, a))
  {
    var known := ByAddress(t.devices, e.addr);
    var again := known.Some? && t.devices[known.value].state.Ready?;
    var t1 := if again then Remove(t, known.value, a.links) else t;
    ChannelAccepted(t1, if again then None else known, e);
    if again {
      RemoveKeeps(t, known.value, a.links);
      KeepsWider(t, t1, {}, {}, EVERY_SLOT);
      PassesOn(t, t1, OnIncoming(t, e, a), EVERY_SLOT, {}, {});
      QuietOn(t, t1, OnIncoming(t, e, a));
    }
  }

  lemma OpenedThenFsmKeeps(h: Host, i: Index, psm: Psm, cid: nat, a: Answers)
    ensures var u := Fsm(h.(table := Opened(h.table, i, psm, cid)), i, a).table;
            && Keeps(h.table, u, {i}, if psm.InterruptPsm? then {i} else {})
            && (psm.InterruptPsm? ==> ToldIn(h.table, u, i))
            && (psm.InterruptPsm? && Occupied(h.table, i) ==> GivenBack(h.table, u, i) || u.devices[i].connected)
  {
    var t := Opened(h.table, i, psm, cid);
    var u := Fsm(h.(table := t), i, a).table;
    FsmKeeps(h.(table := t), i, a);
    OpenedKeeps(h.table, i, psm, cid);
    KeepsOn(h.table, t, u, {i}, if psm.InterruptPsm? then {i} else {}, {});
    GivenBackSplits(h.table, t, u, i);
    ToldSplits(h.table, t, u, i);
  }

  lemma OpenedKeeps(t: Table, i: Index, psm: Psm, cid: nat)
    ensures Keeps(t, Opened(t, i, psm, cid), {i}, if psm.InterruptPsm? then {i} else {})
    ensures psm.InterruptPsm? ==> ToldIn(t, Opened(t, i, psm, cid), i)
  {
    if psm.InterruptPsm? {
      var d := t.devices[i].(interruptCid := cid, state := InterruptConnected);
      PutKeeps(t, i, d);
      ConnectKeeps(Put(t, i, d), i);
      KeepsOn(t, Put(t, i, d), Connect(Put(t, i, d), i), {i}, {}, {i});
      ToldSplits(t, Put(t, i, d), Connect(Put(t, i, d), i), i);
    }
  }

  lemma OpenedPasses(h: Host, e: Event, a: Answers)
    requires e.ChannelOpened?
    ensures Keeps(h.table, OnOpened(h, e, a).table, EVERY_SLOT, Touched(h, e))
    ensures InterruptOpens(h, e).Some? ==>
              var i, u := InterruptOpens(h, e).value, OnOpened(h, e, a).table;
              ToldIn(h.table, u, i) && (Occupied(h.table, i) ==> GivenBack(h.table, u, i) || u.devices[i].connected)
  {
    var known := ByAddress(h.table.devices, e.addr);
    if known.Some? {
      var i, u := known.value, OnOpened(h, e, a).table;
      if e.ok {
        OpenedThenFsmKeeps(h, i, e.psm, e.cid, a);
        assert Touched(h, e) == if e.psm.InterruptPsm? then {i} else {};
        KeepsWider(h.table, u, {i}, Touched(h, e), EVERY_SLOT);
      } else {
        RemoveKeeps(h.table, i, a.links);
      }
    }
  }

  lemma NewByInquiry(h: Host, e: Event, a: Answers)
    requires e.InquiryResult? && e.supported && ByAddress(h.table.devices, e.addr).None?
    ensures var u := OnInquiry(h, e, a).table;
            && Passes(h.table, u, EVERY_SLOT, {})
            && forall i: Index :: NewDevice(h.table, u, i) ==> !ToldIn(h.table, u, i)
  {
    var (t, slot) := Create(h.table, e.addr);
    CreatePasses(h.table, e.addr);
    if slot.Some? {
      var c, u := slot.value, OnInquiry(h, e, a).table;
      var d := t.devices[c].(state := if e.name.Some? then NameFetched else Discovered, name := e.name);
      EditThenFsmKeeps(h.(table := t), c, d, a);
      assert h.(table := t).(table := Put(t, c, d)) == h.(table := Put(t, c, d));
      KeepsWider(t, u, {c}, {}, EVERY_SLOT);
      PassesOn(h.table, t, u, EVERY_SLOT, {}, {});
      forall i: Index | NewDevice(h.table, u, i) ensures !ToldIn(h.table, u, i) {
        GivenBackSplits(h.table, t, u, i);
        ToldSplits(h.table, t, u, i);
      }
    }
  }

  lemma InquiryPasses(h: Host, e: Event, a: Answers)
    requires e.InquiryResult?
    ensures var u := OnInquiry(h, e, a).table;
            && Passes(h.table, u, EVERY_SLOT, {})
            && forall i: Index :: NewDevice(h.table, u, i) ==> !ToldIn(h.table, u, i)
  {
    var known := ByAddress(h.table.devices, e.addr);
    if e.supported && known.Some? {
      FsmKeeps(h, known.value, a);
    } else if e.supported {
      NewByInquiry(h, e, a);
    }
  }

  lemma ConnectionRequestPasses(t: Table, addr: nat)
    ensures Passes(t, OnConnectionRequest(t, addr), EVERY_SLOT, {}) && Quiet(t, OnConnectionRequest(t, addr))
  {
    var (t1, slot) := match ByAddress(t.devices, addr) case None => Create(t, addr) case Some(i) => (t, Some(i));
    CreatePasses(t, addr);
    if slot.Some? {
      var u := Put(t1, slot.value, t1.devices[slot.value].(incoming := true));
      PutKeeps(t1, slot.value, u.devices[slot.value]);
      PassesOn(t, t1, u, EVERY_SLOT, {}, {});
      QuietOn(t, t1, u);
    }
  }

  lemma ConnectionCompleteKeeps(t: Table, e: Event)
    requires e.ConnectionComplete?
    ensures Keeps(t, OnConnectionComplete(t, e), EVERY_SLOT, {})
  {
  }

  lemma RemoteNameKeeps(h: Host, e: Event, a: Answers)
    requires e.RemoteName?
    ensures Keeps(h.table, OnRemoteName(h, e, a).table, EVERY_SLOT, {})
  {
    var known := ByAddress(h.table.devices, e.addr);
    if known.Some? {
      var i := known.value;
      var d := h.table.devices[i].(name := Some(e.reply));
      PutKeeps(h.table, i, d);
      EditThenFsmKeeps(h, i, d.(state := NameFetched), a);
      var t := if d.state.PendingReady? || d.state.Ready? then Put(h.table, i, d)
               else Fsm(h.(table := Put(h.table, i, d.(state := NameFetched))), i, a).table;
      PutKeeps(t, i, t.devices[i].(nameTimer := false));
      KeepsPlainly(h.table, t, StopNameTimer(t, i), {i});
      KeepsWider(h.table, StopNameTimer(t, i), {i}, {}, EVERY_SLOT);
    }
  }

  lemma TimeoutsKeep(h: Host, i: Index, a: Answers)
    ensures Keeps(h.table, OnConnectionTimeout(h.table, i, a), {i}, {})
    ensures Keeps(h.table, OnNameTimeout(h, i, a).table, {i}, {})
  {
    EditThenRemoveKeeps(h.table, i, h.table.devices[i].(connTimer := false), a.links);
    EditThenFsmKeeps(h, i, h.table.devices[i].(nameTimer := false, name := Some(OtherName), state := NameFetched), a);
  }

  lemma QueryResultsKeep(h: Host, i: Index, a: Answers)
    requires h.sdp == Some(i)
    ensures Keeps(h.table, OnPidComplete(h, a).table, {i}, {})
    ensures Keeps(h.table, OnHidComplete(h, a).table, {i}, {})
  {
    EditThenFsmKeeps(h, i, GuessType(h.table.devices[i], a.guessed).(state := VendorFetched), a);
    SdpEndKeeps(h, i, a);
  }

  lemma RemovalsKeep(t: Table, i: Option<Index>, a: Answers)
    ensures Keeps(t, RemoveIfAny(t, i, a.links), {}, {})
  {
    if i.Some? {
      RemoveKeeps(t, i.value, a.links);
    }
  }

  lemma ReadyKeeps(h: Host, e: Event, a: Answers)
    requires e.ParserReady?
    ensures Keeps(h.table, Step(h, e, a).table, {e.i}, {})
  {
    ReadyCompleteWithChildKeeps(h.table, e.i, a);
    ReadyCompleteKeeps(h.table, e.i, a.deviceAccepted, a.links);
  }

  lemma RemovalEventsKeep(h: Host, e: Event, a: Answers)
    requires e.ChannelClosed? || e.HciDisconnected? || e.DisconnectCommand?
    ensures Keeps(h.table, Step(h, e, a).table, {}, {})
  {
    match e {
      case ChannelClosed(cid) => RemovalsKeep(h.table, ByCid(h.table.devices, cid), a);
      case HciDisconnected(handle) => RemovalsKeep(h.table, ByHandle(h.table.devices, handle), a);
      case DisconnectCommand(idx) => RemovalsKeep(h.table, AtIndex(idx), a);
    }
  }

  lemma ServiceDisconnectKeeps(h: Host, e: Event, a: Answers)
    requires e.ServiceDisconnect?
    ensures var u := Step(h, e, a).table;
            && Keeps(h.table, u, EVERY_SLOT, ServiceDrops(h, e)) && Quiet(h.table, u)
            && (forall i :: i in ServiceDrops(h, e) ==> !u.devices[i].connected)
            && (forall i: Index :: u.devices[i].state == h.table.devices[i].state)
  {
    if e.idx < MAX_DEVICES {
      DisconnectKeeps(h.table, e.idx, a.links);
      KeepsWider(h.table, Step(h, e, a).table, LineageSet(h.table, e.idx), ServiceDrops(h, e), EVERY_SLOT);
      DisconnectAllDrops(h.table, Lineage(h.table.devices, e.idx), a.links);
    }
  }

  lemma {:induction false} DisconnectAllDrops(t: Table, slots: seq<Index>, links: map<nat, Link>)
    ensures var u := DisconnectAll(t, slots, links);
            && (forall i :: i in slots ==> !u.devices[i].connected)
            && (forall i: Index :: u.devices[i].state == t.devices[i].state)
    decreases |slots|
  {
    if slots != [] {
      DisconnectAllDrops(t, slots[1..], links);
    }
  }

  lemma DeviceEventsKeep(h: Host, e: Event, a: Answers)
    requires e.ConnectionComplete? || e.RemoteName? || e.ParserReady?
    ensures Keeps(h.table, Step(h, e, a).table, EVERY_SLOT, {})
  {
    match e {
      case ConnectionComplete(_, _, _) => ConnectionCompleteKeeps(h.table, e);
      case RemoteName(_, _) => RemoteNameKeeps(h, e, a);
      case ParserReady(i, _) =>
        ReadyKeeps(h, e, a);
        KeepsWider(h.table, Step(h, e, a).table, {i}, {}, EVERY_SLOT);
    }
  }

  lemma TimeoutEventsKeep(h: Host, e: Event, a: Answers)
    requires e.ConnectionTimeout? || e.NameTimeout? || e.SdpTimeout?
    ensures Keeps(h.table, Step(h, e, a).table, EVERY_SLOT, {})
  {
    match e {
      case ConnectionTimeout(i) =>
        TimeoutsKeep(h, i, a);
        KeepsWider(h.table, Step(h, e, a).table, {i}, {}, EVERY_SLOT);
      case NameTimeout(i) =>
        TimeoutsKeep(h, i, a);
        KeepsWider(h.table, Step(h, e, a).table, {i}, {}, EVERY_SLOT);
      case SdpTimeout =>
    }
  }

  lemma ResultEventsKeep(h: Host, e: Event, a: Answers)
    requires QueryResult(e)
    ensures Keeps(h.table, Step(h, e, a).table, if h.sdp.None? then {} else {h.sdp.value}, {})
  {
    if h.sdp.Some? {
      QueryResultsKeep(h, h.sdp.value, a);
    }
  }

  lemma NewcomersPass(h: Host, e: Event, a: Answers)
    requires BringsIn(e)
    ensures var u := Step(h, e, a).table;
            && Passes(h.table, u, EVERY_SLOT, {})
            && forall i: Index :: NewDevice(h.table, u, i) ==> !ToldIn(h.table, u, i)
  {
    match e {
      case IncomingConnection(_, _, _, _, _) => IncomingPasses(h.table, e, a);
      case InquiryResult(_, _, _) => InquiryPasses(h, e, a);
      case ConnectionRequest(addr) => ConnectionRequestPasses(h.table, addr);
    }
  }

  /** Any event, and the only events that bring in devices. */
  lemma StepPasses(h: Host, e: Event, a: Answers)
    ensures Passes(h.table, Step(h, e, a).table, EVERY_SLOT, Touched(h, e))
    ensures BringsIn(e) || NoNewcomers(h.table, Step(h, e, a).table)
  {
    if BringsIn(e) {
      NewcomersPass(h, e, a);
    } else if e.ChannelOpened? {
      OpenedPasses(h, e, a);
    } else if e.ServiceDisconnect? {
      ServiceDisconnectKeeps(h, e, a);
    } else if e.ChannelClosed? || e.HciDisconnected? || e.DisconnectCommand? {
      RemovalEventsKeep(h, e, a);
    } else if QueryResult(e) {
      ResultEventsKeep(h, e, a);
    } else if e.ConnectionTimeout? || e.NameTimeout? || e.SdpTimeout? {
      TimeoutEventsKeep(h, e, a);
    } else {
      DeviceEventsKeep(h, e, a);
    }
  }

  /** A device that an event brings in has not been announced connected in that event. */
  lemma NewDeviceUntold(h: Host, e: Event, a: Answers, i: Index)
    requires NewDevice(h.table, Step(h, e, a).table, i)
    ensures !ToldIn(h.table, Step(h, e, a).table, i)
  {
    StepPasses(h, e, a);
    NewcomersPass(h, e, a);
  }

  lemma {:induction false} RunPasses(h: Host, es: seq<(Event, Answers)>)
    ensures Passes(h.table, Run(h, es).table, EVERY_SLOT, EVERY_SLOT)
    decreases |es|
  {
    if es != [] {
      var h1 := Step(h, es[0].0, es[0].1);
      StepPasses(h, es[0].0, es[0].1);
      RunPasses(h1, es[1..]);
      PassesOn(h.table, h1.table, Run(h, es).table, EVERY_SLOT, EVERY_SLOT, EVERY_SLOT);
    }
  }
}
