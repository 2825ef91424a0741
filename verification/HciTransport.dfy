// components/btstack/btstack_port_esp32.c: HCI packets from the controller pass through a byte
// ring, each behind a two-byte length tag. The producer and the consumer hold the mutex for one
// whole packet each, so every run is an interleaving of Receive and Deliver steps.

module HciTransport {
  import opened Machine
  import opened ByteRing

  type Packet = p: seq<byte> | |p| < 0x10000

  /** A call of the packet handler: the length it is told, and the bytes fetched from the ring. */
  datatype Frame = Frame(claimed: nat, bytes: seq<byte>)

  datatype State = State(ring: seq<byte>, log: seq<Frame>)

  datatype Kind = Acl | Sco | HciEvent

  /**
   * `stale` is what the second tag byte holds before it is read into. Completed is the host's
   * report that it is done with a packet: it frees a controller credit and leaves the ring alone.
   */
  datatype Step = Receive(packet: Packet) | Deliver(stale: byte) | Completed(kind: Kind)

  function Tag(len: nat): (tag: seq<byte>)
    requires len < 0x10000
    ensures |tag| == 2 && len == (tag[0] as int) + 256 * (tag[1] as int)
  {
    [len % 256, len / 256]
  }

  function Untag(lo: byte, hi: byte): nat { lo + 256 * hi }

  lemma UntagTag(len: nat)
    requires len < 0x10000
    ensures Untag(Tag(len)[0], Tag(len)[1]) == len
  {
  }

  /** The free count is narrowed to 16 bits before it is compared. */
  function Space(capacity: nat, ring: seq<byte>): nat { (capacity - |ring|) % 0x10000 }

  /** With 65536 bytes free, the narrowed count is 0, and every packet but an empty one is dropped. */
  lemma NarrowedSpace(capacity: nat, ring: seq<byte>, p: Packet)
    requires |ring| <= capacity
    ensures capacity - |ring| < 0x10000 ==> (Dropped(capacity, ring, p) <==> |ring| + |p| > capacity)
    ensures capacity - |ring| == 0x10000 ==> (Dropped(capacity, ring, p) <==> p != [])
  {
  }

  predicate Dropped(capacity: nat, ring: seq<byte>, p: Packet) { Space(capacity, ring) < |p| }

  function Received(capacity: nat, ring: seq<byte>, p: Packet): seq<byte> {
    if Dropped(capacity, ring, p) then ring
    else Appended(capacity, Appended(capacity, ring, Tag(|p|)), p)
  }

  /** One turn of the delivery loop: what it hands over and what it leaves in the ring. */
  function TakeFrame(ring: seq<byte>, stale: byte): (r: (Frame, seq<byte>))
    requires ring != []
    ensures |r.1| < |ring|
  {
    var len := Untag(ring[0], if |ring| == 1 then stale else ring[1]);
    var rest := ring[Min(2, |ring|)..];
    var n := Min(len, |rest|);
    (Frame(len, rest[..n]), rest[n..])
  }

  function Next(capacity: nat, s: State, e: Step): State {
    match e
    case Receive(p) => s.(ring := Received(capacity, s.ring, p))
    case Deliver(stale) =>
      if s.ring == [] then s
      else var (frame, rest) := TakeFrame(s.ring, stale); State(rest, s.log + [frame])
    case Completed(_) => s
  }

  function Run(capacity: nat, s: State, es: seq<Step>): State
    decreases |es|
  {
    if es == [] then s else Run(capacity, Next(capacity, s, es[0]), es[1..])
  }

  lemma {:induction false} RunConcat(capacity: nat, s: State, a: seq<Step>, b: seq<Step>)
    ensures Run(capacity, s, a + b) == Run(capacity, Run(capacity, s, a), b)
    decreases |a|
  {
    if a == [] {
      assert a + b == b;
    } else {
      assert (a + b)[0] == a[0] && (a + b)[1..] == a[1..] + b;
      RunConcat(capacity, Next(capacity, s, a[0]), a[1..], b);
    }
  }

  // ----- The framing -----

  function Encode(ps: seq<Packet>): seq<byte> {
    if ps == [] then [] else Tag(|ps[0]|) + ps[0] + Encode(ps[1..])
  }

  ghost predicate Framed(ring: seq<byte>) { exists ps: seq<Packet> :: Encode(ps) == ring }

  lemma {:induction false} EncodeConcat(a: seq<Packet>, b: seq<Packet>)
    ensures Encode(a + b) == Encode(a) + Encode(b)
    decreases |a|
  {
    if a == [] {
      assert a + b == b;
    } else {
      assert (a + b)[0] == a[0] && (a + b)[1..] == a[1..] + b;
      EncodeConcat(a[1..], b);
    }
  }

  lemma EncodeOne(p: Packet)
    ensures Encode([p]) == Tag(|p|) + p
  {
    assert Encode([p][1..]) == [];
  }

  lemma TakeWhole(tag: seq<byte>, p: seq<byte>, rest: seq<byte>, stale: byte)
    requires |tag| == 2 && Untag(tag[0], tag[1]) == |p|
    ensures TakeFrame(tag + p + rest, stale) == (Frame(|p|, p), rest)
  {
    var ring := tag + p + rest;
    assert ring[2..] == p + rest;
  }

  lemma TakeFirst(ps: seq<Packet>, tail: seq<byte>, stale: byte)
    requires ps != []
    ensures Encode(ps) + tail != []
    ensures TakeFrame(Encode(ps) + tail, stale) == (Frame(|ps[0]|, ps[0]), Encode(ps[1..]) + tail)
  {
    UntagTag(|ps[0]|);
    TakeWhole(Tag(|ps[0]|), ps[0], Encode(ps[1..]) + tail, stale);
    assert Encode(ps) + tail == Tag(|ps[0]|) + ps[0] + (Encode(ps[1..]) + tail);
  }

  lemma EncodeHead(ps: seq<Packet>)
    ensures ps != [] ==> |Encode(ps)| >= 2 + |ps[0]| && Encode(ps)[..2] == Tag(|ps[0]|)
  {
  }

  /** The code is prefix-free: a framed ring that starts with whole frames goes on with whole frames. */
  lemma {:induction false} FramedTail(ps: seq<Packet>, tail: seq<byte>)
    requires Framed(Encode(ps) + tail)
    ensures Framed(tail)
    decreases |ps|
  {
    if ps == [] {
      assert Encode(ps) + tail == tail;
    } else {
      var qs: seq<Packet> :| Encode(qs) == Encode(ps) + tail;
      assert qs != [];
      TakeFirst(ps, tail, 0);
      TakeFirst(qs, [], 0);
      assert Encode(qs) + [] == Encode(qs);
      assert Encode(qs[1..]) == Encode(ps[1..]) + tail;
      FramedTail(ps[1..], tail);
    }
  }

  lemma ShortTailNotFramed(tail: seq<byte>)
    requires |tail| == 1 || (|tail| == 2 && tail != [0, 0])
    ensures !Framed(tail)
  {
    if Framed(tail) {
      var ps: seq<Packet> :| Encode(ps) == tail;
      EncodeHead(ps);
    }
  }

  /** A received packet is dropped whole, or there is room for it and for its tag. */
  predicate Roomy(capacity: nat, ring: seq<byte>, p: Packet) {
    Dropped(capacity, ring, p) || |ring| + 2 + |p| <= capacity
  }

  lemma RoomyKeepsFraming(capacity: nat, pending: seq<Packet>, p: Packet)
    requires Roomy(capacity, Encode(pending), p)
    ensures Received(capacity, Encode(pending), p)
         == Encode(if Dropped(capacity, Encode(pending), p) then pending else pending + [p])
  {
    EncodeConcat(pending, [p]);
    EncodeOne(p);
    assert Encode(pending) + Tag(|p|) + p == Encode(pending) + (Tag(|p|) + p);
  }

  /**
   * The free-space test leaves the tag out of account. It keeps the ring made of whole frames exactly
   * when it drops the packet or the tag happens to fit as well; an empty packet without room for its
   * tag leaves no trace.
   */
  lemma FramingKeptIff(capacity: nat, pending: seq<Packet>, p: Packet)
    requires |Encode(pending)| <= capacity
    ensures Framed(Received(capacity, Encode(pending), p)) <==> Roomy(capacity, Encode(pending), p) || p == []
  {
    var ring := Encode(pending);
    if Roomy(capacity, ring, p) {
      RoomyKeepsFraming(capacity, pending, p);
    } else {
      FreeAtLeastSpace(capacity, ring);
      if p == [] {
        assert Received(capacity, ring, p) == ring + [] == ring;
      } else {
        UntagTag(|p|);
        var tail := if capacity - |ring| >= 2 then Tag(|p|) else p;
        assert Received(capacity, ring, p) == ring + tail;
        ShortTailNotFramed(tail);
        if Framed(ring + tail) {
          FramedTail(pending, tail);
        }
      }
    }
  }

  lemma FreeAtLeastSpace(capacity: nat, ring: seq<byte>)
    requires |ring| <= capacity
    ensures Space(capacity, ring) <= capacity - |ring|
  {
  }

  // ----- Runs -----

  function Frames(ps: seq<Packet>): (fs: seq<Frame>)
    ensures |fs| == |ps|
    ensures forall i :: 0 <= i < |ps| ==> fs[i] == Frame(|ps[i]|, ps[i])
  {
    seq(|ps|, i requires 0 <= i < |ps| => Frame(|ps[i]|, ps[i]))
  }

  predicate AlwaysRoomy(capacity: nat, s: State, es: seq<Step>)
    decreases |es|
  {
    es != [] ==>
      && (es[0].Receive? ==> Roomy(capacity, s.ring, es[0].packet))
      && AlwaysRoomy(capacity, Next(capacity, s, es[0]), es[1..])
  }

  /** The packets a run puts into the ring, in order. */
  function Accepted(capacity: nat, s: State, es: seq<Step>): seq<Packet>
    decreases |es|
  {
    if es == [] then [] else Added(capacity, s.ring, es[0]) + Accepted(capacity, Next(capacity, s, es[0]), es[1..])
  }

  function Added(capacity: nat, ring: seq<byte>, e: Step): seq<Packet> {
    if e.Receive? && !Dropped(capacity, ring, e.packet) then [e.packet] else []
  }

  function Taken(pending: seq<Packet>, e: Step): seq<Packet> {
    if e.Deliver? && pending != [] then [pending[0]] else []
  }

  /** The same step on a plain queue of packets. */
  function Queued(capacity: nat, pending: seq<Packet>, e: Step): (rest: seq<Packet>)
    ensures Taken(pending, e) + rest == pending + Added(capacity, Encode(pending), e)
  {
    if e.Deliver? && pending != [] then pending[1..] else pending + Added(capacity, Encode(pending), e)
  }

  lemma StepRefinesQueue(capacity: nat, pending: seq<Packet>, log: seq<Frame>, e: Step)
    requires e.Receive? ==> Roomy(capacity, Encode(pending), e.packet)
    ensures Next(capacity, State(Encode(pending), log), e)
         == State(Encode(Queued(capacity, pending, e)), log + Frames(Taken(pending, e)))
  {
    match e
    case Receive(p) =>
      RoomyKeepsFraming(capacity, pending, p);
      assert pending + [] == pending;
    case Deliver(stale) =>
      if pending != [] {
        TakeFirst(pending, [], stale);
        assert Encode(pending) + [] == Encode(pending);
        assert Encode(pending[1..]) + [] == Encode(pending[1..]);
        assert Frames([pending[0]]) == [Frame(|pending[0]|, pending[0])];
      }
    case Completed(_) => assert pending + [] == pending;
  }

  lemma FramesConcat(a: seq<Packet>, b: seq<Packet>)
    ensures Frames(a + b) == Frames(a) + Frames(b)
  {
  }

  /** Delivered then pending is accepted: nothing is lost, duplicated, reordered or altered. */
  lemma {:induction false} RunRefinesQueue(capacity: nat, pending: seq<Packet>, log: seq<Frame>, es: seq<Step>)
      returns (out: seq<Packet>, left: seq<Packet>)
    requires AlwaysRoomy(capacity, State(Encode(pending), log), es)
    ensures Run(capacity, State(Encode(pending), log), es) == State(Encode(left), log + Frames(out))
    ensures out + left == pending + Accepted(capacity, State(Encode(pending), log), es)
    decreases |es|
  {
    if es == [] {
      return [], pending;
    }
    var s, e := State(Encode(pending), log), es[0];
    var taken, rest, added := Taken(pending, e), Queued(capacity, pending, e), Added(capacity, s.ring, e);
    StepRefinesQueue(capacity, pending, log, e);
    var s' := State(Encode(rest), log + Frames(taken));
    assert Next(capacity, s, e) == s';
    out, left := RunRefinesQueue(capacity, rest, s'.log, es[1..]);
    PrependTaken(taken, out, left, rest, pending, added, Accepted(capacity, s', es[1..]));
    LogTaken(log, taken, out);
    out := taken + out;
  }

  lemma LogTaken(log: seq<Frame>, taken: seq<Packet>, out: seq<Packet>)
    ensures log + Frames(taken) + Frames(out) == log + Frames(taken + out)
  {
    FramesConcat(taken, out);
  }

  lemma PrependTaken<T>(taken: seq<T>, out: seq<T>, left: seq<T>, rest: seq<T>, pending: seq<T>, added: seq<T>,
                        later: seq<T>)
    requires taken + rest == pending + added && out + left == rest + later
    ensures taken + out + left == pending + (added + later)
  {
    calc {
      taken + out + left;
      taken + (out + left);
      taken + (rest + later);
      taken + rest + later;
      pending + added + later;
      pending + (added + later);
    }
  }

  /**
   * Framing refinement. Whatever the interleaving, the handler has been called with a prefix of
   * the accepted packets, in order and byte for byte; an empty ring means with all of them.
   */
  lemma DeliveredIsPrefixOfAccepted(capacity: nat, es: seq<Step>)
    requires AlwaysRoomy(capacity, State([], []), es)
    ensures var s := Run(capacity, State([], []), es);
            var accepted := Accepted(capacity, State([], []), es);
            && Framed(s.ring)
            && |s.log| <= |accepted| && s.log == Frames(accepted)[..|s.log|]
            && s.ring == Encode(accepted[|s.log|..])
            && (s.ring == [] ==> s.log == Frames(accepted))
  {
    var out, left := RunRefinesQueue(capacity, [], [], es);
    var accepted := Accepted(capacity, State([], []), es);
    assert [] + accepted == accepted && [] + Frames(out) == Frames(out);
    assert accepted == out + left;
    FramesConcat(out, left);
    assert left == accepted[|out|..];
    EncodeHead(left);
  }

  /** Every state of the run, its first and last included, has a ring of whole frames. */
  ghost predicate EverFramed(capacity: nat, s: State, es: seq<Step>)
    decreases |es|
  {
    Framed(s.ring) && (es != [] ==> EverFramed(capacity, Next(capacity, s, es[0]), es[1..]))
  }

  /** Every receive is dropped, has room for its tag, or brings nothing. */
  predicate AlwaysWhole(capacity: nat, s: State, es: seq<Step>)
    decreases |es|
  {
    es != [] ==>
      && (es[0].Receive? ==> Roomy(capacity, s.ring, es[0].packet) || es[0].packet == [])
      && AlwaysWhole(capacity, Next(capacity, s, es[0]), es[1..])
  }

  lemma {:induction false} EverFramedIff(capacity: nat, pending: seq<Packet>, log: seq<Frame>, es: seq<Step>)
    requires |Encode(pending)| <= capacity
    ensures EverFramed(capacity, State(Encode(pending), log), es)
       <==> AlwaysWhole(capacity, State(Encode(pending), log), es)
    decreases |es|
  {
    if es != [] {
      var s := State(Encode(pending), log);
      var e := es[0];
      if e.Receive? {
        FramingKeptIff(capacity, pending, e.packet);
      }
      if !e.Receive? || Roomy(capacity, s.ring, e.packet) {
        StepRefinesQueue(capacity, pending, log, e);
        StepFitsCapacity(capacity, s, e);
        EverFramedIff(capacity, Queued(capacity, pending, e), log + Frames(Taken(pending, e)), es[1..]);
      } else if e.packet == [] {
        assert s.ring + [] == s.ring;
        assert Next(capacity, s, e) == s;
        EverFramedIff(capacity, pending, log, es[1..]);
      }
    }
  }

  lemma StepFitsCapacity(capacity: nat, s: State, e: Step)
    requires |s.ring| <= capacity
    ensures |Next(capacity, s, e).ring| <= capacity
  {
  }

  // ----- The storage budget -----

  /** HCI_HOST_ACL_PACKET_NUM, HCI_HOST_SCO_PACKET_NUM and MAX_NR_HOST_EVENT_PACKETS. */
  function Credits(k: Kind): nat {
    match k
    case Acl => 20
    case Sco => 10
    case HciEvent => 4
  }

  /** The longest packet of each kind, H4 type byte included. */
  function MaxLength(k: Kind): nat {
    match k
    case Acl => 1 + 4 + 1024
    case Sco => 1 + 3 + 60
    case HciEvent => 1 + 2 + 255
  }

  /** The array as it is declared; its event share is one byte larger than a longest event needs. */
  const STORAGE_SIZE: nat :=
    20 * (2 + 1 + 4 + 1024) + 10 * (2 + 1 + 3 + 60) + 4 * (2 + 1 + (2 + 255 + 1))

  predicate Sized(p: seq<byte>) {
    p != [] && p[0] in {2, 3, 4} && |p| <= MaxLength(KindOf(p))
  }

  function KindOf(p: seq<byte>): Kind {
    if p == [] || p[0] == 4 then HciEvent else if p[0] == 3 then Sco else Acl
  }

  function KindsOf(ps: seq<Packet>): multiset<Kind> {
    if ps == [] then multiset{} else multiset{KindOf(ps[0])} + KindsOf(ps[1..])
  }

  function DeliveredKinds(log: seq<Frame>): multiset<Kind> {
    if log == [] then multiset{}
    else DeliveredKinds(log[..|log| - 1]) + multiset{KindOf(log[|log| - 1].bytes)}
  }

  function Receives(es: seq<Step>): seq<Packet> {
    if es == [] then []
    else (if es[0].Receive? then [es[0].packet] else []) + Receives(es[1..])
  }

  lemma {:induction false} KindsOfAppend(ps: seq<Packet>, p: Packet)
    ensures KindsOf(ps + [p]) == KindsOf(ps) + multiset{KindOf(p)}
    decreases |ps|
  {
    if ps == [] {
      assert [p][1..] == [];
    } else {
      assert (ps + [p])[0] == ps[0] && (ps + [p])[1..] == ps[1..] + [p];
      KindsOfAppend(ps[1..], p);
    }
  }

  /** The most room that packets of these kinds can take with their tags. */
  function Load(kinds: multiset<Kind>): nat { 1031 * kinds[Acl] + 66 * kinds[Sco] + 260 * kinds[HciEvent] }

  lemma LoadAdd(k: Kind, kinds: multiset<Kind>)
    ensures Load(multiset{k} + kinds) == 2 + MaxLength(k) + Load(kinds)
  {
  }

  lemma {:induction false} EncodedSize(ps: seq<Packet>)
    requires forall p :: p in ps ==> Sized(p)
    ensures |Encode(ps)| <= Load(KindsOf(ps))
    decreases |ps|
  {
    if ps != [] {
      assert ps[0] in ps;
      EncodedSize(ps[1..]);
      LoadAdd(KindOf(ps[0]), KindsOf(ps[1..]));
    }
  }

  /** The account of one kind: what is pending was sent and not yet completed. */
  predicate Accounted(k: Kind, pending: multiset<Kind>, delivered: multiset<Kind>, sent: multiset<Kind>,
                      completed: multiset<Kind>) {
    delivered[k] + pending[k] == sent[k] && completed[k] <= delivered[k] && sent[k] - completed[k] <= Credits(k)
  }

  predicate AllAccounted(pending: multiset<Kind>, delivered: multiset<Kind>, sent: multiset<Kind>,
                         completed: multiset<Kind>) {
    && Accounted(Acl, pending, delivered, sent, completed)
    && Accounted(Sco, pending, delivered, sent, completed)
    && Accounted(HciEvent, pending, delivered, sent, completed)
  }

  predicate BudgetHolds(pending: seq<Packet>, log: seq<Frame>, sent: multiset<Kind>, completed: multiset<Kind>) {
    && (forall p :: p in pending ==> Sized(p))
    && AllAccounted(KindsOf(pending), DeliveredKinds(log), sent, completed)
  }

  predicate Allowed(log: seq<Frame>, sent: multiset<Kind>, completed: multiset<Kind>, e: Step) {
    match e
    case Receive(p) => Sized(p) && sent[KindOf(p)] - completed[KindOf(p)] < Credits(KindOf(p))
    case Deliver(_) => true
    case Completed(k) => completed[k] < DeliveredKinds(log)[k]
  }

  function SentAfter(sent: multiset<Kind>, e: Step): multiset<Kind> {
    if e.Receive? then sent + multiset{KindOf(e.packet)} else sent
  }

  function CompletedAfter(completed: multiset<Kind>, e: Step): multiset<Kind> {
    if e.Completed? then completed + multiset{e.kind} else completed
  }

  /**
   * The controller's side of flow control: a packet is sent only while fewer than its kind's
   * credits are outstanding, and the host completes only what it has been handed.
   */
  predicate WithinBudget(s: State, sent: multiset<Kind>, completed: multiset<Kind>, es: seq<Step>)
    decreases |es|
  {
    es != [] ==>
      && Allowed(s.log, sent, completed, es[0])
      && WithinBudget(Next(STORAGE_SIZE, s, es[0]), SentAfter(sent, es[0]), CompletedAfter(completed, es[0]), es[1..])
  }

  lemma LoadWithinCredits(k: Kind, pending: multiset<Kind>, delivered: multiset<Kind>, sent: multiset<Kind>,
                          completed: multiset<Kind>)
    requires AllAccounted(pending, delivered, sent, completed) && sent[k] - completed[k] < Credits(k)
    ensures Load(pending) + 2 + MaxLength(k) <= STORAGE_SIZE
  {
  }

  lemma BudgetLeavesRoom(pending: seq<Packet>, log: seq<Frame>, sent: multiset<Kind>, completed: multiset<Kind>,
                         p: Packet)
    requires BudgetHolds(pending, log, sent, completed) && Allowed(log, sent, completed, Receive(p))
    ensures |Encode(pending)| + 2 + |p| <= STORAGE_SIZE
    ensures !Dropped(STORAGE_SIZE, Encode(pending), p)
  {
    EncodedSize(pending);
    LoadWithinCredits(KindOf(p), KindsOf(pending), DeliveredKinds(log), sent, completed);
  }

  lemma DeliveredKindsAppend(log: seq<Frame>, f: Frame)
    ensures DeliveredKinds(log + [f]) == DeliveredKinds(log) + multiset{KindOf(f.bytes)}
  {
    assert (log + [f])[..|log|] == log;
  }

  lemma AccountMoves(k: Kind, pending: multiset<Kind>, delivered: multiset<Kind>, sent: multiset<Kind>,
                     completed: multiset<Kind>)
    requires AllAccounted(pending, delivered, sent, completed)
    ensures sent[k] - completed[k] < Credits(k)
            ==> AllAccounted(pending + multiset{k}, delivered, sent + multiset{k}, completed)
    ensures completed[k] < delivered[k] ==> AllAccounted(pending, delivered, sent, completed + multiset{k})
  {
  }

  lemma AccountDelivers(k: Kind, pending: multiset<Kind>, delivered: multiset<Kind>, sent: multiset<Kind>,
                        completed: multiset<Kind>)
    requires AllAccounted(multiset{k} + pending, delivered, sent, completed)
    ensures AllAccounted(pending, delivered + multiset{k}, sent, completed)
  {
  }

  lemma BudgetReceive(pending: seq<Packet>, log: seq<Frame>, sent: multiset<Kind>, completed: multiset<Kind>, p: Packet)
    requires BudgetHolds(pending, log, sent, completed) && Allowed(log, sent, completed, Receive(p))
    ensures BudgetHolds(pending + [p], log, sent + multiset{KindOf(p)}, completed)
  {
    KindsOfAppend(pending, p);
    AccountMoves(KindOf(p), KindsOf(pending), DeliveredKinds(log), sent, completed);
  }

  lemma BudgetDeliver(pending: seq<Packet>, log: seq<Frame>, sent: multiset<Kind>, completed: multiset<Kind>)
    requires BudgetHolds(pending, log, sent, completed) && pending != []
    ensures BudgetHolds(pending[1..], log + [Frame(|pending[0]|, pending[0])], sent, completed)
  {
    var p := pending[0];
    DeliveredKindsAppend(log, Frame(|p|, p));
    AccountDelivers(KindOf(p), KindsOf(pending[1..]), DeliveredKinds(log), sent, completed);
  }

  lemma BudgetStep(pending: seq<Packet>, log: seq<Frame>, sent: multiset<Kind>, completed: multiset<Kind>, e: Step)
    requires BudgetHolds(pending, log, sent, completed) && Allowed(log, sent, completed, e)
    ensures BudgetHolds(Queued(STORAGE_SIZE, pending, e), log + Frames(Taken(pending, e)),
                        SentAfter(sent, e), CompletedAfter(completed, e))
  {
    assert pending + [] == pending && log + Frames([]) == log;
    match e
    case Receive(p) =>
      BudgetLeavesRoom(pending, log, sent, completed, p);
      BudgetReceive(pending, log, sent, completed, p);
    case Deliver(_) =>
      if pending != [] {
        assert Frames([pending[0]]) == [Frame(|pending[0]|, pending[0])];
        BudgetDeliver(pending, log, sent, completed);
      }
    case Completed(k) =>
      AccountMoves(k, KindsOf(pending), DeliveredKinds(log), sent, completed);
  }

  lemma {:induction false} BudgetRun(pending: seq<Packet>, log: seq<Frame>, sent: multiset<Kind>,
                                     completed: multiset<Kind>, es: seq<Step>)
    requires BudgetHolds(pending, log, sent, completed)
    requires WithinBudget(State(Encode(pending), log), sent, completed, es)
    ensures AlwaysRoomy(STORAGE_SIZE, State(Encode(pending), log), es)
    ensures Accepted(STORAGE_SIZE, State(Encode(pending), log), es) == Receives(es)
    decreases |es|
  {
    if es != [] {
      var e := es[0];
      if e.Receive? {
        BudgetLeavesRoom(pending, log, sent, completed, e.packet);
      }
      BudgetStep(pending, log, sent, completed, e);
      StepRefinesQueue(STORAGE_SIZE, pending, log, e);
      BudgetRun(Queued(STORAGE_SIZE, pending, e), log + Frames(Taken(pending, e)),
                SentAfter(sent, e), CompletedAfter(completed, e), es[1..]);
    }
  }

  /**
   * Capacity budget. While the controller keeps to the credits the storage was sized for, every
   * packet finds room for itself and its tag, none is dropped, and the handler is called with a
   * prefix of the packets received.
   */
  lemma CapacityBudget(es: seq<Step>)
    requires WithinBudget(State([], []), multiset{}, multiset{}, es)
    ensures STORAGE_SIZE < 0x10000
    ensures AlwaysRoomy(STORAGE_SIZE, State([], []), es)
    ensures Accepted(STORAGE_SIZE, State([], []), es) == Receives(es)
    ensures var log := Run(STORAGE_SIZE, State([], []), es).log;
            |log| <= |Receives(es)| && log == Frames(Receives(es))[..|log|]
  {
    BudgetRun([], [], multiset{}, multiset{}, es);
    DeliveredIsPrefixOfAccepted(STORAGE_SIZE, es);
  }

  // ----- A broken frame -----

  /** Turns of the delivery loop, each with what it finds in the second tag byte. */
  function Delivers(stale: seq<byte>): (es: seq<Step>)
    ensures |es| == |stale|
  {
    seq(|stale|, i requires 0 <= i < |stale| => Deliver(stale[i]))
  }

  lemma {:induction false} WholeFramesDelivered(capacity: nat, pending: seq<Packet>, tail: seq<byte>, log: seq<Frame>,
                                               stale: seq<byte>)
    requires |stale| == |pending|
    ensures Run(capacity, State(Encode(pending) + tail, log), Delivers(stale)) == State(tail, log + Frames(pending))
    decreases |pending|
  {
    if pending == [] {
      assert Encode(pending) + tail == tail && log + Frames(pending) == log;
    } else {
      var log' := log + [Frame(|pending[0]|, pending[0])];
      FirstFrameDelivered(capacity, pending, tail, log, stale[0]);
      DeliversSplit(stale);
      RunHead(capacity, State(Encode(pending) + tail, log), Deliver(stale[0]), Delivers(stale[1..]));
      WholeFramesDelivered(capacity, pending[1..], tail, log', stale[1..]);
      FramesSplit(log, pending);
    }
  }

  lemma DeliversSplit(stale: seq<byte>)
    requires stale != []
    ensures Delivers(stale) == [Deliver(stale[0])] + Delivers(stale[1..])
  {
  }

  lemma FramesSplit(log: seq<Frame>, ps: seq<Packet>)
    requires ps != []
    ensures log + [Frame(|ps[0]|, ps[0])] + Frames(ps[1..]) == log + Frames(ps)
  {
  }

  lemma FirstFrameDelivered(capacity: nat, pending: seq<Packet>, tail: seq<byte>, log: seq<Frame>, stale: byte)
    requires pending != []
    ensures Next(capacity, State(Encode(pending) + tail, log), Deliver(stale))
         == State(Encode(pending[1..]) + tail, log + [Frame(|pending[0]|, pending[0])])
  {
    TakeFirst(pending, tail, stale);
  }

  lemma RunHead(capacity: nat, s: State, e: Step, es: seq<Step>)
    ensures Run(capacity, s, [e] + es) == Run(capacity, Next(capacity, s, e), es)
  {
    assert ([e] + es)[1..] == es;
  }

  /** What is left of a packet that did not fit together with its tag. */
  function Remnant(free: nat, p: Packet): seq<byte> { if free >= 2 then Tag(|p|) else p }

  /** The length the consumer reads off such a remnant. */
  function ClaimedLength(free: nat, p: Packet, stale: byte): nat
    requires p != []
  {
    if free >= 2 then |p| else Untag(p[0], stale)
  }

  lemma RemnantDelivered(capacity: nat, free: nat, p: Packet, log: seq<Frame>, stale: byte)
    requires 0 < |p| <= free < |p| + 2
    ensures Run(capacity, State(Remnant(free, p), log), [Deliver(stale)])
         == State([], log + [Frame(ClaimedLength(free, p, stale), [])])
  {
    UntagTag(|p|);
    assert [Deliver(stale)][1..] == [];
  }

  lemma RemnantStored(capacity: nat, pending: seq<Packet>, p: Packet)
    requires 0 < |p| <= capacity - |Encode(pending)| < |p| + 2 && capacity - |Encode(pending)| < 0x10000
    ensures !Dropped(capacity, Encode(pending), p) && !Framed(Received(capacity, Encode(pending), p))
    ensures Received(capacity, Encode(pending), p) == Encode(pending) + Remnant(capacity - |Encode(pending)|, p)
  {
    FramingKeptIff(capacity, pending, p);
  }

  /**
   * The broken frame, as the consumer sees it: behind any queue, a packet that passes the test with
   * less than two bytes to spare is delivered with a length announced and none of its bytes. The length
   * is its own, or, when it is one byte and takes the last free one, made of that byte and a stale one.
   */
  lemma BrokenFrameDelivered(capacity: nat, pending: seq<Packet>, log: seq<Frame>, p: Packet, stale: seq<byte>, last: byte)
    requires 0 < |p| <= capacity - |Encode(pending)| < |p| + 2 && |stale| == |pending|
    requires capacity - |Encode(pending)| < 0x10000
    ensures !Dropped(capacity, Encode(pending), p)
    ensures !Framed(Received(capacity, Encode(pending), p))
    ensures Run(capacity, State(Encode(pending), log), [Receive(p)] + (Delivers(stale) + [Deliver(last)]))
         == State([], log + Frames(pending) + [Frame(ClaimedLength(capacity - |Encode(pending)|, p, last), [])])
  {
    RemnantStored(capacity, pending, p);
    RemnantRun(capacity, capacity - |Encode(pending)|, pending, log, p, stale, last);
  }

  lemma RemnantRun(capacity: nat, free: nat, pending: seq<Packet>, log: seq<Frame>, p: Packet, stale: seq<byte>,
                   last: byte)
    requires 0 < |p| <= free < |p| + 2 && |stale| == |pending|
    requires Received(capacity, Encode(pending), p) == Encode(pending) + Remnant(free, p)
    ensures Run(capacity, State(Encode(pending), log), [Receive(p)] + (Delivers(stale) + [Deliver(last)]))
         == State([], log + Frames(pending) + [Frame(ClaimedLength(free, p, last), [])])
  {
    RemnantComesLast(capacity, free, pending, p, log, stale, last);
    RunReceive(capacity, Encode(pending), log, p, Encode(pending) + Remnant(free, p), Delivers(stale) + [Deliver(last)]);
  }

  lemma RunReceive(capacity: nat, ring: seq<byte>, log: seq<Frame>, p: Packet, after: seq<byte>, es: seq<Step>)
    requires Received(capacity, ring, p) == after
    ensures Run(capacity, State(ring, log), [Receive(p)] + es) == Run(capacity, State(after, log), es)
  {
    RunHead(capacity, State(ring, log), Receive(p), es);
  }

  lemma RemnantComesLast(capacity: nat, free: nat, pending: seq<Packet>, p: Packet, log: seq<Frame>, stale: seq<byte>,
                         last: byte)
    requires 0 < |p| <= free < |p| + 2 && |stale| == |pending|
    ensures Run(capacity, State(Encode(pending) + Remnant(free, p), log), Delivers(stale) + [Deliver(last)])
         == State([], log + Frames(pending) + [Frame(ClaimedLength(free, p, last), [])])
  {
    RunConcat(capacity, State(Encode(pending) + Remnant(free, p), log), Delivers(stale), [Deliver(last)]);
    WholeFramesDelivered(capacity, pending, Remnant(free, p), log, stale);
    RemnantDelivered(capacity, free, p, log + Frames(pending), last);
  }

  lemma OneAccepted(capacity: nat, pending: seq<Packet>, p: Packet)
    requires |Encode(pending + [p])| <= capacity < 0x10000
    ensures Next(capacity, State(Encode(pending), []), Receive(p)) == State(Encode(pending + [p]), [])
  {
    EncodeConcat(pending, [p]);
    EncodeOne(p);
    RoomyKeepsFraming(capacity, pending, p);
  }

  lemma {:induction false} AllAccepted(capacity: nat, pending: seq<Packet>, ps: seq<Packet>)
    requires |Encode(pending + ps)| <= capacity < 0x10000
    ensures Run(capacity, State(Encode(pending), []), ReceiveSteps(ps)) == State(Encode(pending + ps), [])
    decreases |ps|
  {
    if ps == [] {
      assert pending + ps == pending;
    } else {
      var p, rest := ps[0], ps[1..];
      assert pending + ps == (pending + [p]) + rest;
      EncodeConcat(pending + [p], rest);
      OneAccepted(capacity, pending, p);
      assert ReceiveSteps(ps) == [Receive(p)] + ReceiveSteps(rest);
      RunHead(capacity, State(Encode(pending), []), Receive(p), ReceiveSteps(rest));
      AllAccepted(capacity, pending + [p], rest);
    }
  }

  /** An event packet of a given length, H4 type byte first. */
  function EventPacket(len: nat): (p: Packet)
    requires 0 < len <= MaxLength(HciEvent)
    ensures |p| == len && Sized(p)
  {
    [4] + seq(len - 1, i => 0)
  }

  function LongestEvents(n: nat): (ps: seq<Packet>)
    ensures |ps| == n && forall p :: p in ps ==> p == EventPacket(258)
  {
    seq(n, i => EventPacket(258))
  }

  lemma {:induction false} LongestEventsSize(n: nat)
    ensures |Encode(LongestEvents(n))| == 260 * n
  {
    if n > 0 {
      LongestEventsSize(n - 1);
      assert LongestEvents(n)[1..] == LongestEvents(n - 1);
    }
  }

  lemma BrokenFrameBehindEvents(ps: seq<Packet>, p: Packet, stale: seq<byte>, last: byte)
    requires |Encode(ps)| + |p| + 1 == STORAGE_SIZE && |p| > 0 && |stale| == |ps|
    ensures Run(STORAGE_SIZE, State([], []), ReceiveSteps(ps)) == State(Encode(ps), [])
    ensures !Dropped(STORAGE_SIZE, Encode(ps), p) && !Framed(Received(STORAGE_SIZE, Encode(ps), p))
    ensures Run(STORAGE_SIZE, State([], []), ReceiveSteps(ps) + ([Receive(p)] + (Delivers(stale) + [Deliver(last)])))
         == State([], Frames(ps) + [Frame(|p|, [])])
  {
    assert [] + ps == ps && [] + Frames(ps) == Frames(ps);
    AllAccepted(STORAGE_SIZE, [], ps);
    BrokenFrameDelivered(STORAGE_SIZE, ps, [], p, stale, last);
    RunConcat(STORAGE_SIZE, State([], []), ReceiveSteps(ps), [Receive(p)] + (Delivers(stale) + [Deliver(last)]));
  }

  /**
   * It takes no oversized packet: in the storage as it is declared, a 223-byte event behind 85 events
   * of the largest size passes the test, and the handler is called with a length of 223 and no bytes.
   */
  lemma BrokenFrameOfRealSize(stale: seq<byte>, last: byte)
    requires |stale| == 85
    ensures var ps, p := LongestEvents(85), EventPacket(223);
            && (forall q :: q in ps + [p] ==> Sized(q))
            && !Dropped(STORAGE_SIZE, Encode(ps), p) && !Framed(Received(STORAGE_SIZE, Encode(ps), p))
            && Run(STORAGE_SIZE, State([], []),
                   ReceiveSteps(ps) + ([Receive(p)] + (Delivers(stale) + [Deliver(last)])))
               == State([], Frames(ps) + [Frame(223, [])])
  {
    LongestEventsSize(85);
    BrokenFrameBehindEvents(LongestEvents(85), EventPacket(223), stale, last);
  }

  // ----- The port -----

  function ReceiveSteps(ps: seq<Packet>): (es: seq<Step>)
    ensures |es| == |ps|
    ensures forall i :: 0 <= i < |ps| ==> es[i] == Receive(ps[i])
  {
    seq(|ps|, i requires 0 <= i < |ps| => Receive(ps[i]))
  }

  function Arriving(arrivals: seq<seq<Packet>>): seq<Packet> { if arrivals == [] then [] else arrivals[0] }

  function Later(arrivals: seq<seq<Packet>>): seq<seq<Packet>> { if arrivals == [] then [] else arrivals[1..] }

  /**
   * The interleaving in which arrivals[i] come in while the mutex is free in the i-th turn of the
   * loop; stale(k) is what turn k finds in the second tag byte.
   */
  function DeliverySchedule(capacity: nat, s: State, arrivals: seq<seq<Packet>>, stale: nat -> byte, k: nat): seq<Step>
    decreases |arrivals|, |s.ring|
  {
    if s.ring == [] then []
    else
      var turn := [Deliver(stale(k))] + ReceiveSteps(Arriving(arrivals));
      assert arrivals == [] ==> Run(capacity, s, turn) == Next(capacity, s, Deliver(stale(k)));
      turn + DeliverySchedule(capacity, Run(capacity, s, turn), Later(arrivals), stale, k + 1)
  }

  /** One turn of the loop: a delivery, then what arrives before the next. */
  lemma ScheduleUnfolds(capacity: nat, s: State, arrivals: seq<seq<Packet>>, stale: nat -> byte, k: nat)
    requires s.ring != []
    ensures var next := Run(capacity, Next(capacity, s, Deliver(stale(k))), ReceiveSteps(Arriving(arrivals)));
            Run(capacity, s, DeliverySchedule(capacity, s, arrivals, stale, k))
            == Run(capacity, next, DeliverySchedule(capacity, next, Later(arrivals), stale, k + 1))
  {
    var turn := [Deliver(stale(k))] + ReceiveSteps(Arriving(arrivals));
    assert turn[1..] == ReceiveSteps(Arriving(arrivals));
    RunConcat(capacity, s, turn, DeliverySchedule(capacity, Run(capacity, s, turn), Later(arrivals), stale, k + 1));
  }

  class HciPort {
    const ring: RingBuffer
    var log: seq<Frame>

    ghost predicate Valid()
      reads this, ring
    {
      ring.Valid()
    }

    ghost function Capacity(): nat { ring.storage.Length }

    ghost function Abstract(): State
      reads this, ring, ring.storage
      requires Valid()
    {
      State(ring.Contents(), log)
    }

    constructor (size: nat)
      requires size > 0
      ensures Valid() && fresh(ring) && fresh(ring.storage) && Capacity() == size
      ensures Abstract() == State([], [])
    {
      ring := new RingBuffer(size);
      log := [];
    }

    method HostRecv(packet: Packet)
      requires Valid()
      modifies ring, ring.storage
      ensures Valid() && Abstract() == Next(Capacity(), old(Abstract()), Receive(packet))
    {
      var space := ring.BytesFree() % 0x10000;
      if space < |packet| {
        return;
      }
      var _ := ring.Write(Tag(|packet|));
      var _ := ring.Write(packet);
    }

    /** What other tasks do while the delivery loop does not hold the mutex. */
    method HostRecvAll(packets: seq<Packet>)
      requires Valid()
      modifies ring, ring.storage
      ensures Valid() && Abstract() == Run(Capacity(), old(Abstract()), ReceiveSteps(packets))
    {
      ghost var s := Abstract();
      ghost var all := Run(Capacity(), s, ReceiveSteps(packets));
      var i := 0;
      while i < |packets|
        invariant 0 <= i <= |packets| && Valid()
        invariant Abstract().log == s.log
        invariant Run(Capacity(), Abstract(), ReceiveSteps(packets[i..])) == all
      {
        assert ReceiveSteps(packets[i..])[1..] == ReceiveSteps(packets[i + 1..]);
        HostRecv(packets[i]);
        i := i + 1;
      }
    }

    /** One turn: what the loop reads while it holds the mutex, and the call of the handler after it. */
    method DeliverOne(stale: byte)
      requires Valid() && ring.Contents() != []
      modifies this`log, ring, ring.storage
      ensures Valid() && Abstract() == Next(Capacity(), old(Abstract()), Deliver(stale))
      ensures |ring.Contents()| < |old(ring.Contents())|
    {
      var tag := ring.Read(2);
      if |tag| == 1 {
        tag := tag + [stale];
      }
      var len := Untag(tag[0], tag[1]);
      var bytes := ring.Read(len);
      log := log + [Frame(len, bytes)];
    }

    method DeliverPackets(arrivals: seq<seq<Packet>>, stale: nat -> byte)
      requires Valid()
      modifies this`log, ring, ring.storage
      ensures Valid() && ring.Contents() == []
      ensures Abstract() == Run(Capacity(), old(Abstract()),
                                DeliverySchedule(Capacity(), old(Abstract()), arrivals, stale, 0))
    {
      ghost var s := Abstract();
      ghost var all := Run(Capacity(), s, DeliverySchedule(Capacity(), s, arrivals, stale, 0));
      var pending, k := arrivals, 0;
      while ring.BytesAvailable() != 0
        invariant Valid() && k >= 0
        invariant Run(Capacity(), Abstract(), DeliverySchedule(Capacity(), Abstract(), pending, stale, k)) == all
        decreases |pending|, ring.BytesAvailable()
      {
        ScheduleUnfolds(Capacity(), Abstract(), pending, stale, k);
        DeliverOne(stale(k));
        if pending != [] {
          HostRecvAll(pending[0]);
          pending := pending[1..];
        }
        k := k + 1;
      }
    }
  }

  /** A delivery that keeps finding room ends with exactly the packets queued before and accepted meanwhile. */
  lemma DeliveryDrains(capacity: nat, pending: seq<Packet>, log: seq<Frame>, arrivals: seq<seq<Packet>>, stale: nat -> byte, k: nat)
    requires var s := State(Encode(pending), log);
             AlwaysRoomy(capacity, s, DeliverySchedule(capacity, s, arrivals, stale, k))
    ensures var s := State(Encode(pending), log);
            var es := DeliverySchedule(capacity, s, arrivals, stale, k);
            Run(capacity, s, es) == State([], log + Frames(pending + Accepted(capacity, s, es)))
  {
    var s := State(Encode(pending), log);
    var es := DeliverySchedule(capacity, s, arrivals, stale, k);
    var out, left := RunRefinesQueue(capacity, pending, log, es);
    ScheduleEmptiesRing(capacity, s, arrivals, stale, k);
    EncodeHead(left);
    assert out + [] == out;
  }

  lemma {:induction false} ScheduleEmptiesRing(capacity: nat, s: State, arrivals: seq<seq<Packet>>, stale: nat -> byte, k: nat)
    ensures Run(capacity, s, DeliverySchedule(capacity, s, arrivals, stale, k)).ring == []
    decreases |arrivals|, |s.ring|
  {
    if s.ring != [] {
      var turn := [Deliver(stale(k))] + ReceiveSteps(Arriving(arrivals));
      assert arrivals == [] ==> Run(capacity, s, turn) == Next(capacity, s, Deliver(stale(k)));
      var s' := Run(capacity, s, turn);
      ScheduleEmptiesRing(capacity, s', Later(arrivals), stale, k + 1);
      RunConcat(capacity, s, turn, DeliverySchedule(capacity, s', Later(arrivals), stale, k + 1));
    }
  }
}
