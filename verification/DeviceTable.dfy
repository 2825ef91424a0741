// components/bluepad32_component/uni_hid_device.c: the device table and what the platform is told.

module DeviceTable {
  import opened Wrappers

  const MAX_DEVICES := 4
  const NO_HANDLE := 0xffff

  type Index = i: nat | i < MAX_DEVICES

  datatype ConnState =
    | NoState | Discovered | NameRequest | NameInquired | NameFetched
    | VendorRequested | VendorFetched | DescriptorRequested | DescriptorFetched
    | ControlRequested | ControlConnected | InterruptRequested | InterruptConnected
    | PendingReady | Ready

  datatype SdpQuery = AfterConnect | BeforeConnect | NotNeeded

  /** The three classes of names the connection logic tells apart. */
  datatype Name = WirelessController | Recognized | OtherName

  /** What the parser's setup function does about readiness; a parser may have no setup function. */
  datatype Setup = NoSetup | ReadyAtOnce | ReadyWithChild | ReadyLater

  datatype Parser = Parser(setup: Setup, needsDescriptor: bool)

  /** A slot of g_devices. Address 0 marks a free slot. */
  datatype Device = Device(
    addr: nat, handle: nat, controlCid: nat, interruptCid: nat,
    incoming: bool, connected: bool, state: ConnState, sdpQuery: SdpQuery,
    name: Option<Name>, hasType: bool, parser: Parser,
    connTimer: bool, nameTimer: bool, parent: Option<Index>, child: Option<Index>)

  const BLANK := Device(0, NO_HANDLE, 0, 0, false, false, NoState, AfterConnect, None, false,
                        Parser(NoSetup, false), false, false, None, None)

  /** A slot just created: cleared to zeros, so even its handle is 0, and with its timeout running. */
  function Created(addr: nat): Device { BLANK.(addr := addr, handle := 0, connTimer := true) }

  type Devices = ds: seq<Device> | |ds| == MAX_DEVICES witness [BLANK, BLANK, BLANK, BLANK]

  /** Platform callbacks, and the slots given back. */
  datatype Note = ToldConnected(i: Index) | ToldDisconnected(i: Index) | Freed(i: Index, wasConnected: bool)

  datatype Table = Table(devices: Devices, log: seq<Note>)

  datatype Link = AclLink | OtherLink

  // ----- Lookups -----

  /** The first index from `from` on whose slot satisfies a test. */
  function First(ds: Devices, from: nat, test: Device -> bool): (r: Option<Index>)
    ensures r.Some? ==> from <= r.value && test(ds[r.value])
    ensures r.None? ==> forall i: Index :: from <= i ==> !test(ds[i])
    ensures r.Some? ==> forall i: Index :: from <= i < r.value ==> !test(ds[i])
    decreases MAX_DEVICES - from
  {
    if from >= MAX_DEVICES then None else if test(ds[from]) then Some(from) else First(ds, from + 1, test)
  }

  function FreeSlot(ds: Devices): Option<Index> { First(ds, 0, (d: Device) => d.addr == 0) }

  function ByAddress(ds: Devices, addr: nat): Option<Index> {
    First(ds, 0, (d: Device) => d.parent.None? && d.addr == addr)
  }

  function ByCid(ds: Devices, cid: nat): Option<Index> {
    if cid == 0 then None else First(ds, 0, (d: Device) => d.interruptCid == cid || d.controlCid == cid)
  }

  function ByHandle(ds: Devices, handle: nat): Option<Index> {
    if handle == NO_HANDLE then None else First(ds, 0, (d: Device) => d.handle == handle)
  }

  // ----- Lineage: a slot, its child, its child's child, ... -----

  predicate Ends(ds: Devices, i: Index, n: nat)
    decreases n
  {
    n > 0 && (ds[i].child.Some? ==> Ends(ds, ds[i].child.value, n - 1))
  }

  function Chain(ds: Devices, i: Index, n: nat): seq<Index>
    requires Ends(ds, i, n)
    decreases n
  {
    [i] + if ds[i].child.None? then [] else Chain(ds, ds[i].child.value, n - 1)
  }

  lemma {:induction false} ChainUnique(ds: Devices, i: Index, n: nat, m: nat)
    requires Ends(ds, i, n) && Ends(ds, i, m)
    ensures Chain(ds, i, n) == Chain(ds, i, m)
    decreases n
  {
    if ds[i].child.Some? {
      ChainUnique(ds, ds[i].child.value, n - 1, m - 1);
    }
  }

  ghost function Lineage(ds: Devices, i: Index): seq<Index> {
    if Descends(ds, i) then var n: nat :| Ends(ds, i, n); Chain(ds, i, n) else [i]
  }

  ghost predicate Descends(ds: Devices, i: Index) { exists n: nat :: Ends(ds, i, n) }

  ghost predicate Acyclic(ds: Devices) { forall i: Index :: Descends(ds, i) }

  lemma LineageUnfolds(ds: Devices, i: Index)
    requires Acyclic(ds)
    ensures Lineage(ds, i) == [i] + if ds[i].child.None? then [] else Lineage(ds, ds[i].child.value)
  {
    assert Descends(ds, i);
    var n: nat :| Ends(ds, i, n) && Lineage(ds, i) == Chain(ds, i, n);
    if ds[i].child.Some? {
      var c := ds[i].child.value;
      assert Descends(ds, c);
      var m: nat :| Ends(ds, c, m) && Lineage(ds, c) == Chain(ds, c, m);
      ChainUnique(ds, c, n - 1, m);
      assert Chain(ds, i, n) == [i] + Chain(ds, c, n - 1);
    } else {
      assert Chain(ds, i, n) == [i] + [];
    }
  }

  lemma LineageOfChildless(ds: Devices, i: Index)
    requires ds[i].child.None?
    ensures Lineage(ds, i) == [i]
  {
    assert Ends(ds, i, 1);
    var n: nat :| Ends(ds, i, n) && Lineage(ds, i) == Chain(ds, i, n);
  }

  /** Links may only have been dropped between ds and es. */
  predicate FewerLinks(ds: Devices, es: Devices) {
    forall j: Index :: es[j].child == ds[j].child || es[j].child.None?
  }

  lemma {:induction false} EndsWithFewerLinks(ds: Devices, es: Devices, i: Index, n: nat)
    requires FewerLinks(ds, es) && Ends(ds, i, n)
    ensures Ends(es, i, n)
    decreases n
  {
    if es[i].child.Some? {
      EndsWithFewerLinks(ds, es, es[i].child.value, n - 1);
    }
  }

  lemma FewerLinksKeepAcyclic(ds: Devices, es: Devices)
    requires FewerLinks(ds, es) && Acyclic(ds)
    ensures Acyclic(es)
  {
    forall i: Index ensures Descends(es, i) {
      assert Descends(ds, i);
      var n: nat :| Ends(ds, i, n);
      EndsWithFewerLinks(ds, es, i, n);
    }
  }

  lemma {:induction false} SameLinksSameChain(ds: Devices, es: Devices, i: Index, n: nat)
    requires (forall j: Index :: es[j].child == ds[j].child) && Ends(ds, i, n)
    ensures Ends(es, i, n) && Chain(es, i, n) == Chain(ds, i, n)
    decreases n
  {
    if ds[i].child.Some? {
      SameLinksSameChain(ds, es, ds[i].child.value, n - 1);
    }
  }

  lemma SameLinksSameLineage(ds: Devices, es: Devices, i: Index)
    requires (forall j: Index :: es[j].child == ds[j].child) && Acyclic(ds)
    ensures Acyclic(es) && Lineage(es, i) == Lineage(ds, i)
  {
    FewerLinksKeepAcyclic(ds, es);
    assert Descends(ds, i) && Descends(es, i);
    var n: nat :| Ends(ds, i, n) && Lineage(ds, i) == Chain(ds, i, n);
    SameLinksSameChain(ds, es, i, n);
    var m: nat :| Ends(es, i, m) && Lineage(es, i) == Chain(es, i, m);
    ChainUnique(es, i, n, m);
  }

  /** A new link to a childless slot closes no cycle. */
  lemma {:induction false} EndsWithNewLink(ds: Devices, es: Devices, p: Index, c: Index, i: Index, n: nat)
    requires p != c && es[p].child == Some(c) && es[c].child.None?
    requires forall j: Index :: j != p && j != c ==> es[j].child == ds[j].child
    requires Ends(ds, i, n)
    ensures Ends(es, i, n + 1)
    decreases n
  {
    if i == p {
      assert Ends(es, c, n);
    } else if i != c && ds[i].child.Some? {
      EndsWithNewLink(ds, es, p, c, ds[i].child.value, n - 1);
    }
  }

  lemma NewLinkKeepsAcyclic(ds: Devices, es: Devices, p: Index, c: Index)
    requires p != c && es[p].child == Some(c) && es[c].child.None?
    requires forall j: Index :: j != p && j != c ==> es[j].child == ds[j].child
    requires Acyclic(ds)
    ensures Acyclic(es)
  {
    forall i: Index ensures Descends(es, i) {
      assert Descends(ds, i);
      var n: nat :| Ends(ds, i, n);
      EndsWithNewLink(ds, es, p, c, i, n);
    }
  }

  // ----- Operations -----

  function Put(t: Table, i: Index, d: Device): Table { t.(devices := t.devices[i := d]) }

  /** The address is new to the table and not zero: what every caller of Create has checked. */
  function Create(t: Table, addr: nat): (Table, Option<Index>) {
    match FreeSlot(t.devices)
    case None => (t, None)
    case Some(i) => (Put(t, i, Created(addr)), Some(i))
  }

  /** A virtual device shares its parent's address. */
  function CreateVirtual(t: Table, p: Index, enabled: bool): (Table, Option<Index>) {
    if !enabled then (t, None)
    else
      match FreeSlot(t.devices)
      case None => (t, None)
      case Some(i) =>
        var linked := Put(t, i, t.devices[i].(addr := t.devices[p].addr, parent := Some(p), hasType := true));
        (Put(linked, p, linked.devices[p].(child := Some(i))), Some(i))
  }

  function Connect(t: Table, i: Index): Table {
    Put(t, i, t.devices[i].(connected := true)).(log := t.log + [ToldConnected(i)])
  }

  function Detached(d: Device, links: map<nat, Link>): Device {
    var acl := d.parent.None? && d.handle in links && links[d.handle].AclLink?;
    d.(handle := if acl then NO_HANDLE else d.handle, connected := false, connTimer := false, nameTimer := false)
  }

  function DisconnectOne(t: Table, i: Index, links: map<nat, Link>): Table {
    Put(t, i, Detached(t.devices[i], links))
      .(log := if t.devices[i].connected then t.log + [ToldDisconnected(i)] else t.log)
  }

  /** The last of the list first: children before their parents. */
  function DisconnectAll(t: Table, slots: seq<Index>, links: map<nat, Link>): Table {
    if slots == [] then t else DisconnectOne(DisconnectAll(t, slots[1..], links), slots[0], links)
  }

  function FreeOne(t: Table, i: Index): Table {
    Put(t, i, BLANK).(log := t.log + [Freed(i, t.devices[i].connected)])
  }

  function FreeAll(t: Table, slots: seq<Index>): Table {
    if slots == [] then t else FreeOne(FreeAll(t, slots[1..]), slots[0])
  }

  ghost function Disconnect(t: Table, i: Index, links: map<nat, Link>): Table {
    DisconnectAll(t, Lineage(t.devices, i), links)
  }

  ghost function Delete(t: Table, i: Index): Table { FreeAll(t, Lineage(t.devices, i)) }

  /** uni_hid_device_disconnect followed by uni_hid_device_delete. */
  ghost function Remove(t: Table, i: Index, links: map<nat, Link>): Table { Delete(Disconnect(t, i, links), i) }

  // ----- What every operation keeps -----

  predicate Occupied(t: Table, i: Index) { t.devices[i].addr != 0 }

  predicate Told(log: seq<Note>, i: Index) {
    log != [] && (if log[|log| - 1].i == i && !log[|log| - 1].Freed? then log[|log| - 1].ToldConnected?
                  else Told(log[..|log| - 1], i))
  }

  /**
   * For every slot, a disconnected callback comes after a connected one with no disconnected
   * callback in between, and no slot is given back while it is connected.
   */
  predicate Paired(log: seq<Note>) {
    log != [] ==>
      && Paired(log[..|log| - 1])
      && (log[|log| - 1].ToldDisconnected? ==> Told(log[..|log| - 1], log[|log| - 1].i))
      && (log[|log| - 1].Freed? ==> !log[|log| - 1].wasConnected)
  }

  /** What is asked of free slots: that they are as good as blank, or only what the code itself relies on. */
  datatype Care = Care(strict: bool, held: Option<Index>)

  predicate CleanIfFree(d: Device) {
    d.addr == 0 ==> !d.connected && d.parent.None? && d.child.None? && !d.connTimer && !d.nameTimer
  }

  predicate SoundIfFree(d: Device) { d.addr == 0 ==> !d.nameTimer && (d.child.Some? ==> d.state.Ready?) }

  predicate DistinctAddresses(ds: Devices) {
    forall i: Index, j: Index ::
      i != j && ds[i].addr == ds[j].addr && ds[i].addr != 0 ==> ds[i].parent.Some? || ds[j].parent.Some?
  }

  /** `held` is the slot a lock may name after its device is gone; then it has no child either. */
  ghost predicate TableInv(t: Table, v: Care) {
    && Paired(t.log)
    && (forall i: Index :: t.devices[i].connected ==> Told(t.log, i))
    && (forall i: Index :: SoundIfFree(t.devices[i]) && (v.strict ==> CleanIfFree(t.devices[i])))
    && (v.held.Some? && !Occupied(t, v.held.value) ==> t.devices[v.held.value].child.None?)
    && DistinctAddresses(t.devices)
    && Acyclic(t.devices)
  }

  const STRICT := Care(true, None)

  ghost predicate TableOk(t: Table) { TableInv(t, STRICT) }

  lemma TellKeeps(log: seq<Note>, n: Note)
    requires Paired(log)
    requires n.ToldDisconnected? ==> Told(log, n.i)
    requires n.Freed? ==> !n.wasConnected
    ensures Paired(log + [n])
    ensures forall i: Index :: i != n.i || n.Freed? ==> (Told(log + [n], i) <==> Told(log, i))
    ensures n.ToldConnected? ==> Told(log + [n], n.i)
  {
    assert (log + [n])[..|log|] == log;
  }

  /** Fields the invariant does not speak of may change freely in an occupied slot. */
  predicate SameIdentity(d: Device, e: Device) {
    d.addr == e.addr && d.connected == e.connected && d.parent == e.parent && d.child == e.child
  }

  lemma PutKeepsOk(v: Care, t: Table, i: Index, d: Device)
    requires TableInv(t, v) && SameIdentity(t.devices[i], d)
    requires SoundIfFree(d) && (v.strict ==> CleanIfFree(d))
    ensures TableInv(Put(t, i, d), v)
  {
    FewerLinksKeepAcyclic(t.devices, Put(t, i, d).devices);
  }

  lemma CreateKeepsOk(v: Care, t: Table, addr: nat)
    requires TableInv(t, v) && addr != 0 && ByAddress(t.devices, addr).None?
    ensures TableInv(Create(t, addr).0, v)
    ensures Create(t, addr).1.Some? ==> Occupied(Create(t, addr).0, Create(t, addr).1.value)
  {
    FewerLinksKeepAcyclic(t.devices, Create(t, addr).0.devices);
  }

  /** A device that may be given a child: one in use, or, where free slots need not be clean, a ready one. */
  predicate MayHaveChild(v: Care, t: Table, p: Index) {
    Occupied(t, p) || (!v.strict && t.devices[p].state.Ready? && v.held != Some(p))
  }

  lemma CreateVirtualKeepsOk(v: Care, t: Table, p: Index, enabled: bool)
    requires TableInv(t, v) && MayHaveChild(v, t, p)
    requires FreeSlot(t.devices).Some? ==> FreeSlot(t.devices) != Some(p) && t.devices[FreeSlot(t.devices).value].child.None?
    ensures var (t', c) := CreateVirtual(t, p, enabled);
            && TableInv(t', v)
            && (Occupied(t, p) ==> Occupied(t', p) && (c.Some? ==> Occupied(t', c.value)))
            && (c.Some? ==> c.value != p && t'.devices[c.value].child.None?)
  {
    var (t', c) := CreateVirtual(t, p, enabled);
    if c.Some? {
      NewLinkKeepsAcyclic(t.devices, t'.devices, p, c.value);
    }
  }

  lemma ConnectKeepsOk(v: Care, t: Table, i: Index)
    requires TableInv(t, v) && (v.strict ==> Occupied(t, i))
    ensures TableInv(Connect(t, i), v)
  {
    TellKeeps(t.log, ToldConnected(i));
    FewerLinksKeepAcyclic(t.devices, Connect(t, i).devices);
  }

  lemma DisconnectOneKeepsOk(v: Care, t: Table, i: Index, links: map<nat, Link>)
    requires TableInv(t, v)
    ensures TableInv(DisconnectOne(t, i, links), v)
  {
    if t.devices[i].connected {
      TellKeeps(t.log, ToldDisconnected(i));
    }
    FewerLinksKeepAcyclic(t.devices, DisconnectOne(t, i, links).devices);
  }

  lemma {:induction false} DisconnectAllKeepsLinks(t: Table, slots: seq<Index>, links: map<nat, Link>)
    ensures forall j: Index :: DisconnectAll(t, slots, links).devices[j].child == t.devices[j].child
    decreases |slots|
  {
    if slots != [] {
      DisconnectAllKeepsLinks(t, slots[1..], links);
    }
  }

  /** Disconnecting a list leaves every other slot alone and keeps addresses and links everywhere. */
  lemma {:induction false} DisconnectAllKeepsOk(v: Care, t: Table, slots: seq<Index>, links: map<nat, Link>)
    requires TableInv(t, v)
    ensures var t' := DisconnectAll(t, slots, links);
            && TableInv(t', v)
            && (forall j: Index :: t'.devices[j] == if j in slots then Detached(t.devices[j], links) else t.devices[j])
    decreases |slots|
  {
    if slots != [] {
      DisconnectAllKeepsOk(v, t, slots[1..], links);
      DisconnectOneKeepsOk(v, DisconnectAll(t, slots[1..], links), slots[0], links);
    }
  }

  lemma FreeOneKeepsOk(v: Care, t: Table, i: Index)
    requires TableInv(t, v) && !t.devices[i].connected
    ensures TableInv(FreeOne(t, i), v)
  {
    TellKeeps(t.log, Freed(i, false));
    FewerLinksKeepAcyclic(t.devices, FreeOne(t, i).devices);
  }

  lemma {:induction false} FreeAllKeepsOk(v: Care, t: Table, slots: seq<Index>)
    requires TableInv(t, v) && forall j :: j in slots ==> !t.devices[j].connected
    ensures var t' := FreeAll(t, slots);
            && TableInv(t', v)
            && (forall j: Index :: t'.devices[j] == if j in slots then BLANK else t.devices[j])
    decreases |slots|
  {
    if slots != [] {
      FreeAllKeepsOk(v, t, slots[1..]);
      FreeOneKeepsOk(v, FreeAll(t, slots[1..]), slots[0]);
    }
  }

  /** Removing a device frees exactly its lineage, telling the platform of those that were connected. */
  lemma RemoveKeepsOk(v: Care, t: Table, i: Index, links: map<nat, Link>)
    requires TableInv(t, v)
    ensures var t' := Remove(t, i, links);
            && TableInv(t', v)
            && (forall j: Index :: t'.devices[j] == if j in Lineage(t.devices, i) then BLANK else t.devices[j])
            && t'.devices[i] == BLANK
  {
    LineageUnfolds(t.devices, i);
    var slots := Lineage(t.devices, i);
    DisconnectAllKeepsOk(v, t, slots, links);
    var gone := Disconnect(t, i, links);
    SameLinksSameLineage(t.devices, gone.devices, i);
    FreeAllKeepsOk(v, gone, slots);
  }

  lemma RemoveChildless(t: Table, i: Index, links: map<nat, Link>)
    requires t.devices[i].child.None?
    ensures Remove(t, i, links) == FreeOne(DisconnectOne(t, i, links), i)
  {
    LineageOfChildless(t.devices, i);
    assert [i][1..] == [];
    var gone := DisconnectOne(t, i, links);
    assert DisconnectAll(t, [i][1..], links) == t;
    assert DisconnectAll(t, [i], links) == gone;
    LineageOfChildless(gone.devices, i);
    assert FreeAll(gone, [i][1..]) == gone;
  }

  // ----- Whom a removal takes along -----

  /** There is nobody in slot i, its child, its child's child, ... */
  ghost predicate NobodyBelow(ds: Devices, i: Index) { forall x :: x in Lineage(ds, i) ==> ds[x].addr == 0 }

  /** The child knows its parent, or the link leads to nobody. */
  ghost predicate OwnLink(ds: Devices, p: Index) {
    ds[p].child.Some? ==> ds[ds[p].child.value].parent == Some(p) || NobodyBelow(ds, ds[p].child.value)
  }

  ghost predicate OwnLinks(ds: Devices, i: Index) { forall p :: p in Lineage(ds, i) ==> OwnLink(ds, p) }

  /** A device, its virtual child, that one's virtual child, ...: only links that are known on both sides. */
  ghost function Family(ds: Devices, i: Index): seq<Index>
    requires Acyclic(ds)
    decreases |Lineage(ds, i)|
  {
    LineageUnfolds(ds, i);
    [i] + if ds[i].child.Some? && ds[ds[i].child.value].parent == Some(i) then Family(ds, ds[i].child.value) else []
  }

  lemma {:induction false} ShorterLineage(ds: Devices, i: Index, x: Index)
    requires Acyclic(ds) && x in Lineage(ds, i)
    ensures |Lineage(ds, x)| <= |Lineage(ds, i)|
    decreases |Lineage(ds, i)|
  {
    LineageUnfolds(ds, i);
    if x != i {
      ShorterLineage(ds, ds[i].child.value, x);
    }
  }

  lemma NotItsOwnDescendant(ds: Devices, i: Index)
    requires Acyclic(ds) && ds[i].child.Some?
    ensures i !in Lineage(ds, ds[i].child.value)
  {
    LineageUnfolds(ds, i);
    if i in Lineage(ds, ds[i].child.value) {
      ShorterLineage(ds, ds[i].child.value, i);
    }
  }

  lemma OwnLinksUnfold(ds: Devices, i: Index)
    requires Acyclic(ds)
    ensures OwnLinks(ds, i) <==> OwnLink(ds, i) && (ds[i].child.Some? ==> OwnLinks(ds, ds[i].child.value))
  {
    LineageUnfolds(ds, i);
  }

  lemma {:induction false} OwnLineageIsFamily(ds: Devices, i: Index, x: Index)
    requires Acyclic(ds) && OwnLinks(ds, i) && x in Lineage(ds, i) && ds[x].addr != 0
    ensures x in Family(ds, i)
    decreases |Lineage(ds, i)|
  {
    LineageUnfolds(ds, i);
    OwnLinksUnfold(ds, i);
    if x != i {
      OwnLineageIsFamily(ds, ds[i].child.value, x);
    }
  }

  lemma {:induction false} StrangerInLineage(ds: Devices, i: Index) returns (x: Index)
    requires Acyclic(ds) && !OwnLinks(ds, i)
    ensures x in Lineage(ds, i) && ds[x].addr != 0 && x !in Family(ds, i)
    decreases |Lineage(ds, i)|
  {
    LineageUnfolds(ds, i);
    OwnLinksUnfold(ds, i);
    var c := ds[i].child.value;
    NotItsOwnDescendant(ds, i);
    if OwnLink(ds, i) {
      x := StrangerInLineage(ds, c);
    } else {
      x :| x in Lineage(ds, c) && ds[x].addr != 0;
    }
  }

  /**
   * Removing a device leaves everybody outside its family alone exactly when every link of its
   * lineage is known on both sides or leads to nobody. A child pointer that outlived its child takes
   * along whoever has the slot now.
   */
  lemma RemovalStaysInFamilyIff(v: Care, t: Table, i: Index, links: map<nat, Link>)
    requires TableInv(t, v)
    ensures (forall j: Index :: Occupied(t, j) && j !in Family(t.devices, i)
                                ==> Remove(t, i, links).devices[j] == t.devices[j])
       <==> OwnLinks(t.devices, i)
  {
    RemoveKeepsOk(v, t, i, links);
    if OwnLinks(t.devices, i) {
      forall j: Index | Occupied(t, j) && j !in Family(t.devices, i)
        ensures Remove(t, i, links).devices[j] == t.devices[j]
      {
        if j in Lineage(t.devices, i) {
          OwnLineageIsFamily(t.devices, i, j);
        }
      }
    } else {
      var x := StrangerInLineage(t.devices, i);
      assert Remove(t, i, links).devices[x] == BLANK;
    }
  }

  // ----- The table itself -----

  class HidDevices {
    const slots: array<Device>
    var log: seq<Note>

    ghost predicate Valid()
      reads this
    {
      slots.Length == MAX_DEVICES
    }

    ghost function State(): Table
      reads this, slots
      requires Valid()
    {
      Table(slots[..], log)
    }

    constructor ()
      ensures Valid() && fresh(slots)
      ensures State() == Table([BLANK, BLANK, BLANK, BLANK], [])
    {
      slots := new Device[MAX_DEVICES](i => BLANK);
      log := [];
    }

    /** Assignments to fields of one slot. */
    method Edit(i: Index, d: Device)
      requires Valid()
      modifies slots
      ensures Valid() && State() == Put(old(State()), i, d)
    {
      slots[i] := d;
    }

    method FindFree() returns (r: Option<Index>)
      requires Valid()
      ensures r == FreeSlot(slots[..])
    {
      for i := 0 to MAX_DEVICES
        invariant forall j :: 0 <= j < i ==> slots[j].addr != 0
      {
        if slots[i].addr == 0 {
          return Some(i);
        }
      }
      return None;
    }

    method FindByAddress(addr: nat) returns (r: Option<Index>)
      requires Valid()
      ensures r == ByAddress(slots[..], addr)
    {
      for i := 0 to MAX_DEVICES
        invariant forall j :: 0 <= j < i ==> !(slots[j].parent.None? && slots[j].addr == addr)
      {
        if slots[i].parent.None? && slots[i].addr == addr {
          return Some(i);
        }
      }
      return None;
    }

    method FindByCid(cid: nat) returns (r: Option<Index>)
      requires Valid()
      ensures r == ByCid(slots[..], cid)
    {
      if cid == 0 {
        return None;
      }
      for i := 0 to MAX_DEVICES
        invariant forall j :: 0 <= j < i ==> slots[j].interruptCid != cid && slots[j].controlCid != cid
      {
        if slots[i].interruptCid == cid || slots[i].controlCid == cid {
          return Some(i);
        }
      }
      return None;
    }

    method FindByHandle(handle: nat) returns (r: Option<Index>)
      requires Valid()
      ensures r == ByHandle(slots[..], handle)
    {
      if handle == NO_HANDLE {
        return None;
      }
      for i := 0 to MAX_DEVICES
        invariant forall j :: 0 <= j < i ==> slots[j].handle != handle
      {
        if slots[i].handle == handle {
          return Some(i);
        }
      }
      return None;
    }

    method CreateDevice(addr: nat) returns (r: Option<Index>)
      requires Valid()
      modifies slots
      ensures Valid() && (State(), r) == Create(old(State()), addr)
    {
      r := FindFree();
      if r.Some? {
        slots[r.value] := BLANK.(handle := 0);
        slots[r.value] := slots[r.value].(addr := addr);
        slots[r.value] := slots[r.value].(connTimer := true);
        assert slots[..] == old(slots[..])[r.value := Created(addr)];
      }
    }

    method CreateVirtualDevice(parent: Index, enabled: bool) returns (r: Option<Index>)
      requires Valid()
      modifies slots
      ensures Valid() && (State(), r) == CreateVirtual(old(State()), parent, enabled)
    {
      if !enabled {
        return None;
      }
      r := FindFree();
      if r.Some? {
        var i := r.value;
        slots[i] := slots[i].(addr := slots[parent].addr, parent := Some(parent), hasType := true);
        slots[parent] := slots[parent].(child := Some(i));
      }
    }

    method ConnectDevice(i: Index)
      requires Valid()
      modifies this`log, slots
      ensures Valid() && State() == Connect(old(State()), i)
    {
      slots[i] := slots[i].(connected := true);
      log := log + [ToldConnected(i)];
    }

    method DisconnectDevice(i: Index, links: map<nat, Link>)
      requires Valid() && Acyclic(slots[..])
      modifies this`log, slots
      ensures Valid() && State() == Disconnect(old(State()), i, links)
      decreases |Lineage(slots[..], i)|
    {
      ghost var t, lineage := State(), Lineage(slots[..], i);
      LineageUnfolds(slots[..], i);
      if slots[i].child.Some? {
        assert lineage[1..] == Lineage(slots[..], slots[i].child.value);
        DisconnectDevice(slots[i].child.value, links);
      }
      assert State() == DisconnectAll(t, lineage[1..], links);
      DisconnectSlot(i, links);
    }

    /** The part of uni_hid_device_disconnect that follows the disconnection of the child. */
    method DisconnectSlot(i: Index, links: map<nat, Link>)
      requires Valid()
      modifies this`log, slots
      ensures Valid() && State() == DisconnectOne(old(State()), i, links)
    {
      var connected := slots[i].connected;
      if slots[i].parent.None? {
        var handle := slots[i].handle;
        if handle in links && links[handle].AclLink? {
          slots[i] := slots[i].(handle := NO_HANDLE);
        }
      }
      slots[i] := slots[i].(connected := false);
      slots[i] := slots[i].(connTimer := false, nameTimer := false);
      if connected {
        log := log + [ToldDisconnected(i)];
      }
      assert slots[..] == old(slots[..])[i := Detached(old(slots[i]), links)];
    }

    method DeleteDevice(i: Index)
      requires Valid() && Acyclic(slots[..])
      modifies this`log, slots
      ensures Valid() && State() == Delete(old(State()), i)
      decreases |Lineage(slots[..], i)|
    {
      ghost var t, lineage := State(), Lineage(slots[..], i);
      LineageUnfolds(slots[..], i);
      if slots[i].child.Some? {
        assert lineage[1..] == Lineage(slots[..], slots[i].child.value);
        DeleteDevice(slots[i].child.value);
      }
      ghost var t1 := State();
      assert t1 == FreeAll(t, lineage[1..]);
      log := log + [Freed(i, slots[i].connected)];
      slots[i] := BLANK;
      assert slots[..] == t1.devices[i := BLANK];
    }

    /** The pair of calls every removal consists of. */
    method RemoveDevice(i: Index, links: map<nat, Link>)
      requires Valid() && Acyclic(slots[..])
      modifies this`log, slots
      ensures Valid() && State() == Remove(old(State()), i, links)
      ensures forall v: Care :: TableInv(old(State()), v) ==> TableInv(State(), v)
    {
      ghost var t := State();
      forall v: Care | TableInv(t, v) {
        RemoveKeepsOk(v, t, i, links);
      }
      DisconnectAllKeepsLinks(t, Lineage(t.devices, i), links);
      SameLinksSameLineage(t.devices, Disconnect(t, i, links).devices, i);
      DisconnectDevice(i, links);
      DeleteDevice(i);
    }
  }
}
