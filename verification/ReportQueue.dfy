// components/bluepad32_component/uni_hid_device.c: outgoing reports, retried from a queue.

module ReportSending {
  import opened Machine
  import opened CircularBuffers

  /** Reports not yet sent, handed to L2CAP, and given up because the queue could not take them. */
  datatype Outbox = Outbox(queue: seq<Report>, delivered: seq<Report>, rejected: seq<Report>)

  /** `accepts` is whether l2cap_send succeeds at that moment. */
  datatype Event = Submit(report: Report, accepts: bool) | CanSendNow(accepts: bool)

  predicate Sendable(r: Report) { r.cid != 0 && r.bytes != [] }

  predicate Small(r: Report) { |r.bytes| < DATA_SIZE }

  function Sent(o: Outbox, r: Report, accepts: bool): Outbox {
    if !Sendable(r) then o
    else if accepts then o.(delivered := o.delivered + [r])
    else if PutOutcome(o.queue, |r.bytes|).Stored? then o.(queue := o.queue + [r])
    else o.(rejected := o.rejected + [r])
  }

  function Next(o: Outbox, e: Event): Outbox {
    match e
    case Submit(r, accepts) => Sent(o, r, accepts)
    case CanSendNow(accepts) =>
      if o.queue == [] then o else Sent(o.(queue := o.queue[1..]), o.queue[0], accepts)
  }

  function Run(o: Outbox, es: seq<Event>): Outbox
    decreases |es|
  {
    if es == [] then o else Run(Next(o, es[0]), es[1..])
  }

  predicate QueueOk(q: seq<Report>) { |q| < SIZE && forall r :: r in q ==> Sendable(r) && Small(r) }

  lemma NextKeepsQueueOk(o: Outbox, e: Event)
    requires QueueOk(o.queue)
    ensures QueueOk(Next(o, e).queue)
  {
    if o.queue != [] {
      assert o.queue[0] in o.queue;
    }
  }

  /** A queued report is only ever delivered or moved to the back, unaltered: retrying loses nothing. */
  lemma RetryNeverRejects(o: Outbox, accepts: bool)
    requires QueueOk(o.queue) && o.queue != []
    ensures Next(o, CanSendNow(accepts))
         == if accepts then Outbox(o.queue[1..], o.delivered + [o.queue[0]], o.rejected)
            else o.(queue := o.queue[1..] + [o.queue[0]])
  {
    assert o.queue[0] in o.queue;
  }

  /** Reports that pass the argument checks of uni_hid_device_send_report. */
  function HandedIn(es: seq<Event>): seq<Report> {
    if es == [] then [] else Handed(es[0]) + HandedIn(es[1..])
  }

  function Handed(e: Event): seq<Report> { if e.Submit? && Sendable(e.report) then [e.report] else [] }

  ghost function Whole(o: Outbox): multiset<Report> {
    multiset(o.delivered) + multiset(o.queue) + multiset(o.rejected)
  }

  lemma SentConserves(o: Outbox, r: Report, accepts: bool)
    ensures Whole(Sent(o, r, accepts)) == Whole(o) + if Sendable(r) then multiset{r} else multiset{}
  {
  }

  lemma PopConserves(o: Outbox)
    requires o.queue != []
    ensures Whole(o.(queue := o.queue[1..])) + multiset{o.queue[0]} == Whole(o)
  {
    assert o.queue == [o.queue[0]] + o.queue[1..];
  }

  lemma NextConserves(o: Outbox, e: Event)
    requires QueueOk(o.queue)
    ensures Whole(Next(o, e)) == Whole(o) + multiset(Handed(e))
  {
    match e
    case Submit(r, accepts) => SentConserves(o, r, accepts);
    case CanSendNow(accepts) =>
      if o.queue != [] {
        assert o.queue[0] in o.queue;
        PopConserves(o);
        SentConserves(o.(queue := o.queue[1..]), o.queue[0], accepts);
      }
  }

  /** Whatever L2CAP refuses and when: handed in is delivered, queued or rejected, each exactly once. */
  lemma {:induction false} ReportsConserved(o: Outbox, es: seq<Event>)
    requires QueueOk(o.queue)
    ensures QueueOk(Run(o, es).queue)
    ensures Whole(Run(o, es)) == Whole(o) + multiset(HandedIn(es))
    decreases |es|
  {
    if es != [] {
      NextKeepsQueueOk(o, es[0]);
      NextConserves(o, es[0]);
      ReportsConserved(Next(o, es[0]), es[1..]);
    }
  }

  /** A report is given up only on being handed in, and exactly when it is too long or 31 are waiting. */
  lemma RejectedIff(o: Outbox, e: Event)
    requires QueueOk(o.queue)
    ensures Next(o, e).rejected != o.rejected
       <==> e.Submit? && Sendable(e.report) && !e.accepts && (|o.queue| == SIZE - 1 || !Small(e.report))
  {
    if e.CanSendNow? && o.queue != [] {
      RetryNeverRejects(o, e.accepts);
    }
  }

  /** The handed-in reports that were not rejected. */
  function Kept(o: Outbox, es: seq<Event>): seq<Report>
    decreases |es|
  {
    if es == [] then [] else Passed(o, es[0]) + Kept(Next(o, es[0]), es[1..])
  }

  function Passed(o: Outbox, e: Event): seq<Report> {
    if Next(o, e).rejected == o.rejected then Handed(e) else []
  }

  /** The order in which reports have left and, if every retry succeeds, will leave. */
  function Line(o: Outbox): seq<Report> { o.delivered + o.queue }

  /** First in, first out: the step only adds the report it keeps, at the end of the line. */
  predicate InLine(o: Outbox, e: Event) { Line(Next(o, e)) == Line(o) + Passed(o, e) }

  predicate AllAre<T(==)>(q: seq<T>, x: T) { forall i :: 0 <= i < |q| ==> q[i] == x }

  /**
   * l2cap_send is tried before the queue is looked at, so a fresh report that is taken overtakes all
   * that wait; and a retry that fails moves the oldest report to the back.
   */
  predicate KeepsOrder(o: Outbox, e: Event) {
    match e
    case Submit(r, accepts) => Sendable(r) && accepts ==> AllAre(o.queue, r)
    case CanSendNow(accepts) => o.queue != [] && !accepts ==> AllAre(o.queue, o.queue[0])
  }

  lemma Associate<T>(a: seq<T>, b: seq<T>, c: seq<T>)
    ensures a + b + c == a + (b + c)
  {
  }

  lemma SamePrefix<T>(a: seq<T>, b: seq<T>, c: seq<T>)
    ensures a + b == a + c <==> b == c
  {
    if a + b == a + c {
      assert b == (a + b)[|a|..] == (a + c)[|a|..] == c;
    }
  }

  lemma OvertakesIff(o: Outbox, r: Report)
    requires Sendable(r)
    ensures InLine(o, Submit(r, true)) <==> AllAre(o.queue, r)
  {
    Associate(o.delivered, [r], o.queue);
    Associate(o.delivered, o.queue, [r]);
    SamePrefix(o.delivered, [r] + o.queue, o.queue + [r]);
    RotationIff([r] + o.queue);
    assert ([r] + o.queue)[1..] == o.queue;
    assert forall i :: 0 <= i < |o.queue| ==> o.queue[i] == ([r] + o.queue)[i + 1];
  }

  lemma RetryReordersIff(o: Outbox)
    requires QueueOk(o.queue) && o.queue != []
    ensures InLine(o, CanSendNow(false)) <==> AllAre(o.queue, o.queue[0])
  {
    RetryNeverRejects(o, false);
    SamePrefix(o.delivered, o.queue[1..] + [o.queue[0]], o.queue);
    RotationIff(o.queue);
    assert Line(o) + [] == Line(o);
  }

  /** A step is first in, first out exactly when it lets no different report overtake another. */
  lemma StepInLineIff(o: Outbox, e: Event)
    requires QueueOk(o.queue)
    ensures InLine(o, e) <==> KeepsOrder(o, e)
  {
    assert Line(o) + [] == Line(o);
    match e
    case Submit(r, accepts) =>
      if Sendable(r) && accepts {
        OvertakesIff(o, r);
      } else {
        Associate(o.delivered, o.queue, [r]);
      }
    case CanSendNow(accepts) =>
      if o.queue != [] {
        if accepts {
          RetryNeverRejects(o, true);
          Associate(o.delivered, [o.queue[0]], o.queue[1..]);
          assert o.queue == [o.queue[0]] + o.queue[1..];
        } else {
          RetryReordersIff(o);
        }
      }
  }

  predicate AlwaysInLine(o: Outbox, es: seq<Event>)
    decreases |es|
  {
    es != [] ==> InLine(o, es[0]) && AlwaysInLine(Next(o, es[0]), es[1..])
  }

  predicate AlwaysKeepsOrder(o: Outbox, es: seq<Event>)
    decreases |es|
  {
    es != [] ==> KeepsOrder(o, es[0]) && AlwaysKeepsOrder(Next(o, es[0]), es[1..])
  }

  /** Over runs: first in, first out at every step exactly when no step lets a different report overtake. */
  lemma {:induction false} FifoIff(o: Outbox, es: seq<Event>)
    requires QueueOk(o.queue)
    ensures AlwaysInLine(o, es) <==> AlwaysKeepsOrder(o, es)
    decreases |es|
  {
    if es != [] {
      StepInLineIff(o, es[0]);
      NextKeepsQueueOk(o, es[0]);
      FifoIff(Next(o, es[0]), es[1..]);
    }
  }

  /** In such a run the reports kept leave in the order they were handed in. */
  lemma {:induction false} OrderlyIsFifo(o: Outbox, es: seq<Event>)
    requires QueueOk(o.queue) && AlwaysKeepsOrder(o, es)
    ensures Line(Run(o, es)) == Line(o) + Kept(o, es)
    decreases |es|
  {
    if es != [] {
      var o1 := Next(o, es[0]);
      NextKeepsQueueOk(o, es[0]);
      StepInLineIff(o, es[0]);
      OrderlyIsFifo(o1, es[1..]);
      Associate(Line(o), Passed(o, es[0]), Kept(o1, es[1..]));
    }
  }

  const EMPTY := Outbox([], [], [])

  /** Both failures on the shortest runs: b is delivered before a, and a falls behind b. */
  lemma OrderLost(a: Report, b: Report)
    requires Sendable(a) && Sendable(b) && Small(a) && Small(b) && a != b
    ensures Run(EMPTY, [Submit(a, false), Submit(b, true)]) == Outbox([a], [b], [])
    ensures Run(EMPTY, [Submit(a, false), Submit(b, false), CanSendNow(false)]) == Outbox([b, a], [], [])
  {
    var waiting, both := Outbox([a], [], []), Outbox([a, b], [], []);
    assert Next(EMPTY, Submit(a, false)) == waiting && Next(waiting, Submit(b, false)) == both;
    assert [Submit(a, false), Submit(b, true)][1..] == [Submit(b, true)] && [Submit(b, true)][1..] == [];
    assert Run(waiting, [Submit(b, true)]) == Next(waiting, Submit(b, true));
    var es := [Submit(a, false), Submit(b, false), CanSendNow(false)];
    assert es[1..] == [Submit(b, false), CanSendNow(false)] && es[1..][1..] == [CanSendNow(false)];
    assert [CanSendNow(false)][1..] == [];
    assert Run(both, [CanSendNow(false)]) == Next(both, CanSendNow(false));
    assert Run(waiting, es[1..]) == Run(both, es[1..][1..]);
  }

  lemma RotationIff<T>(q: seq<T>)
    requires q != []
    ensures q[1..] + [q[0]] == q <==> AllAre(q, q[0])
  {
    if q[1..] + [q[0]] == q {
      Rotation(q, |q| - 1);
    }
    if AllAre(q, q[0]) {
      assert q[1..] + [q[0]] == q;
    }
  }

  lemma {:induction false} Rotation<T>(q: seq<T>, n: nat)
    requires n < |q| && q[1..] + [q[0]] == q
    ensures forall i :: 0 <= i <= n ==> q[i] == q[0]
  {
    if n > 0 {
      Rotation(q, n - 1);
      assert q[n - 1] == (q[1..] + [q[0]])[n - 1] == q[n];
    }
  }

  class ReportSender {
    const outgoing: CircularBuffer
    var delivered: seq<Report>
    var rejected: seq<Report>

    ghost predicate Valid()
      reads this, outgoing, outgoing.slots
    {
      outgoing.Valid() && QueueOk(outgoing.Contents())
    }

    ghost function State(): Outbox
      reads this, outgoing, outgoing.slots
      requires Valid()
    {
      Outbox(outgoing.Contents(), delivered, rejected)
    }

    constructor ()
      ensures Valid() && fresh(outgoing) && fresh(outgoing.slots)
      ensures State() == Outbox([], [], [])
    {
      outgoing := new CircularBuffer();
      delivered, rejected := [], [];
    }

    /** `source` may be a slot that was just taken out of the queue, which must not be the next to be filled. */
    method SendReport(cid: uint16, source: Source, len: uint16, accepts: bool)
      requires Valid() && outgoing.Readable(source, len)
      requires source.InSlot? ==> source.index != outgoing.tail
      modifies this, outgoing`tail, outgoing.slots
      ensures Valid()
      ensures State() == Sent(old(State()), Report(cid, old(outgoing.Read(source, len))), accepts)
    {
      if cid <= 0 {
        return;
      }
      if len <= 0 {
        return;
      }
      var report := Report(cid, outgoing.Read(source, len));
      if accepts {
        delivered := delivered + [report];
      } else {
        ChannelSurvivesNarrowing(cid);
        var outcome := outgoing.Put(ToInt16(cid), source, len);
        if !outcome.Stored? {
          rejected := rejected + [report];
        }
      }
    }

    method SendQueuedReports(accepts: bool)
      requires Valid()
      modifies this, outgoing, outgoing.slots
      ensures Valid() && State() == Next(old(State()), CanSendNow(accepts))
    {
      if outgoing.IsEmpty() {
        return;
      }
      ghost var was := outgoing.Contents();
      var found, cid, slot, len := outgoing.Get();
      assert QueueOk(was[1..]);
      SendReport(ToUint16(cid), InSlot(slot), len, accepts);
    }
  }
}
