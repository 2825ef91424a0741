// components/bluepad32_component/bt/uni_bt_sdp.c: whose device a query result is credited to.

module QueryOwner {
  import opened Wrappers
  import opened DeviceTable
  import opened BluetoothHost
  import opened SdpLock
  import opened Tenancy

  // ----- The same device, of the same tenancy -----

  /** How many devices slot i has had before the present one. */
  function Tenancies(log: seq<Note>, i: Index): nat {
    if log == [] then 0
    else Tenancies(log[..|log| - 1], i) + if log[|log| - 1].Freed? && log[|log| - 1].i == i then 1 else 0
  }

  lemma {:induction false} TenanciesCountReturns(t: Table, log: seq<Note>, i: Index)
    requires |t.log| <= |log| && log[..|t.log|] == t.log
    ensures Tenancies(log, i) >= Tenancies(t.log, i)
    ensures Tenancies(log, i) == Tenancies(t.log, i)
            <==> forall k :: |t.log| <= k < |log| && log[k].Freed? ==> log[k].i != i
    decreases |log|
  {
    if |t.log| < |log| {
      assert log[..|log| - 1][..|t.log|] == t.log;
      TenanciesCountReturns(t, log[..|log| - 1], i);
      assert forall k :: 0 <= k < |log| - 1 ==> log[k] == log[..|log| - 1][k];
    } else {
      assert log == t.log;
    }
  }

  /** The device in slot i of u is the one that was there in t: the same device, of the same tenancy. */
  predicate SameTenant(t: Table, u: Table, i: Index) {
    SameOwner(t, u, i) && Tenancies(u.log, i) == Tenancies(t.log, i)
  }

  lemma SameTenantIff(h: Host, es: seq<(Event, Answers)>, i: Index)
    requires Occupied(h.table, i)
    ensures SameTenant(h.table, Run(h, es).table, i) <==> !GivenBack(h.table, Run(h, es).table, i)
  {
    RunPasses(h, es);
    TenanciesCountReturns(h.table, Run(h, es).table.log, i);
  }

  // ----- The lock, while no query result arrives -----

  predicate TimeoutIn(es: seq<(Event, Answers)>) { exists k :: 0 <= k < |es| && es[k].0.SdpTimeout? }

  /** The timer of the present holder runs out. */
  predicate TimesOut(h: Host, es: seq<(Event, Answers)>) { h.timer == h.sdp && TimeoutIn(es) }

  lemma TimeoutFirstOrLater(es: seq<(Event, Answers)>)
    requires es != []
    ensures TimeoutIn(es) <==> es[0].0.SdpTimeout? || TimeoutIn(es[1..])
  {
    assert forall k :: 1 <= k < |es| ==> es[k] == es[1..][k - 1];
  }

  lemma {:induction false} HeldLockStays(h: Host, es: seq<(Event, Answers)>)
    requires h.sdp.Some? && Settled(h.table.devices) && NoQueryResult(es) && !TimesOut(h, es)
    ensures Run(h, es).sdp == h.sdp && Run(h, es).queries == h.queries
    decreases |es|
  {
    if es != [] {
      StepKeepsHeld(h, es[0].0, es[0].1);
      StepSettles(h, es[0].0, es[0].1);
      TimeoutFirstOrLater(es);
      HeldLockStays(Step(h, es[0].0, es[0].1), es[1..]);
    }
  }

  /** The lock is taken only with a new query. */
  lemma StepQueries(h: Host, e: Event, a: Answers)
    requires Settled(h.table.devices)
    ensures var r := Step(h, e, a);
            && |r.queries| >= |h.queries|
            && (h.sdp.None? && r.sdp.Some? ==> |r.queries| > |h.queries|)
  {
    StepEntersFsm(h, e, a);
    match FsmEntry(h, e, a) {
      case Some((t, i)) => FsmMovesLock(h.(table := t), i, a);
      case None => OtherEventsAndLock(h, e, a);
    }
  }

  lemma {:induction false} LockTakenByQuery(h: Host, es: seq<(Event, Answers)>)
    requires Settled(h.table.devices)
    ensures |Run(h, es).queries| >= |h.queries|
    ensures h.sdp.None? && Run(h, es).sdp.Some? ==> |Run(h, es).queries| > |h.queries|
    decreases |es|
  {
    if es != [] {
      StepQueries(h, es[0].0, es[0].1);
      StepSettles(h, es[0].0, es[0].1);
      LockTakenByQuery(Step(h, es[0].0, es[0].1), es[1..]);
    }
  }

  /** After its timeout the lock is free, or somebody has asked since. */
  lemma {:induction false} TimedOutLockIsNew(h: Host, es: seq<(Event, Answers)>)
    requires h.sdp.Some? && Settled(h.table.devices) && NoQueryResult(es) && TimesOut(h, es)
    ensures Run(h, es).sdp.None? || |Run(h, es).queries| > |h.queries|
    decreases |es|
  {
    var h1 := Step(h, es[0].0, es[0].1);
    StepKeepsHeld(h, es[0].0, es[0].1);
    StepSettles(h, es[0].0, es[0].1);
    TimeoutFirstOrLater(es);
    if es[0].0.SdpTimeout? {
      LockTakenByQuery(h1, es[1..]);
    } else {
      TimedOutLockIsNew(h1, es[1..]);
    }
  }

  // ----- The lock, while the SDP client is busy -----

  /** sdp_client_query answers SDP_QUERY_BUSY until the result of the query under way is in. */
  predicate ClientBusy(es: seq<(Event, Answers)>) { forall k :: 0 <= k < |es| ==> !es[k].1.sdpAccepts }

  lemma SdpStartInVain(h: Host, i: Index, a: Answers)
    requires h.sdp.None? && !a.sdpAccepts
    ensures GivenBack(h.table, SdpStart(h, i, a).table, i)
  {
    EditThenRemoveKeeps(h.table, i, h.table.devices[i].(state := VendorRequested), a.links);
  }

  lemma FsmAsksInVain(h: Host, i: Index, a: Answers)
    requires h.sdp.None? && !a.sdpAccepts && Fsm(h, i, a).sdp.Some?
    ensures Fsm(h, i, a).sdp == Some(i) && GivenBack(h.table, Fsm(h, i, a).table, i)
  {
    var d := h.table.devices[i];
    SdpStartInVain(h, i, a);
    if d.state.NameFetched? {
      var e := if d.name == Some(WirelessController) then d.(sdpQuery := BeforeConnect) else d;
      SdpStartInVain(h.(table := Put(h.table, i, e)), i, a);
    }
  }

  lemma EntryGrows(h: Host, e: Event, a: Answers)
    requires FsmEntry(h, e, a).Some?
    ensures Grows(h.table, FsmEntry(h, e, a).value.0)
  {
  }

  /** A device that asks a busy client is removed, although it has taken the lock. */
  lemma StepAsksInVain(h: Host, e: Event, a: Answers)
    requires Settled(h.table.devices) && h.sdp.None? && !a.sdpAccepts && Step(h, e, a).sdp.Some?
    ensures GivenBack(h.table, Step(h, e, a).table, Step(h, e, a).sdp.value)
  {
    StepEntersFsm(h, e, a);
    OtherEventsFree(h, e, a);
    var (t, i) := FsmEntry(h, e, a).value;
    var r := Fsm(h.(table := t), i, a);
    FsmAsksInVain(h.(table := t), i, a);
    FsmKeeps(h.(table := t), i, a);
    EntryGrows(h, e, a);
    GivenBackSplits(h.table, t, r.table, i);
    if e.RemoteName? {
      RemoteNameEntry(h, e, a);
    } else {
      EntryTable(h, e, a);
    }
  }

  lemma OtherEventsFree(h: Host, e: Event, a: Answers)
    requires h.sdp.None? && Step(h, e, a).sdp.Some?
    ensures FsmEntry(h, e, a).Some?
  {
    if FsmEntry(h, e, a).None? {
      OtherEventsAndLock(h, e, a);
    }
  }

  /** Whoever holds the lock after such a run has been removed since t. */
  lemma {:induction false} RunAsksInVain(t: Table, h: Host, es: seq<(Event, Answers)>)
    requires Settled(h.table.devices) && NoQueryResult(es) && ClientBusy(es) && Grows(t, h.table)
    requires h.sdp.Some? ==> GivenBack(t, h.table, h.sdp.value)
    ensures Run(h, es).sdp.Some? ==> GivenBack(t, Run(h, es).table, Run(h, es).sdp.value)
    decreases |es|
  {
    if es != [] {
      var h1 := Step(h, es[0].0, es[0].1);
      StepSettles(h, es[0].0, es[0].1);
      StepPasses(h, es[0].0, es[0].1);
      GrowsOn(t, h.table, h1.table);
      if h1.sdp.Some? {
        GivenBackSplits(t, h.table, h1.table, h1.sdp.value);
        if h.sdp.Some? {
          StepKeepsHeld(h, es[0].0, es[0].1);
        } else {
          StepAsksInVain(h, es[0].0, es[0].1);
        }
      }
      RunAsksInVain(t, h1, es[1..]);
    }
  }

  lemma {:induction false} BusyAfterTimeout(h: Host, es: seq<(Event, Answers)>)
    requires h.sdp.Some? && Settled(h.table.devices) && NoQueryResult(es) && ClientBusy(es) && TimesOut(h, es)
    ensures Run(h, es).sdp == h.sdp ==> GivenBack(h.table, Run(h, es).table, h.sdp.value)
    decreases |es|
  {
    var h1 := Step(h, es[0].0, es[0].1);
    StepKeepsHeld(h, es[0].0, es[0].1);
    StepSettles(h, es[0].0, es[0].1);
    StepPasses(h, es[0].0, es[0].1);
    TimeoutFirstOrLater(es);
    if es[0].0.SdpTimeout? {
      RunAsksInVain(h.table, h1, es[1..]);
    } else {
      BusyAfterTimeout(h1, es[1..]);
      RunPasses(h1, es[1..]);
      GivenBackSplits(h.table, h1.table, Run(h, es).table, h.sdp.value);
    }
  }

  // ----- To whom a query result is credited -----

  /**
   * From a query under way to its result: the lock still stands for that query, and for the device that
   * asked, exactly when the lock has not timed out and the slot has not been given back meanwhile.
   */
  lemma ResultBelongsIff(h: Host, es: seq<(Event, Answers)>)
    requires h.sdp.Some? && Occupied(h.table, h.sdp.value) && Settled(h.table.devices) && NoQueryResult(es)
    ensures var r, i := Run(h, es), h.sdp.value;
            r.sdp == h.sdp && r.queries == h.queries && SameTenant(h.table, r.table, i)
            <==> !TimesOut(h, es) && !GivenBack(h.table, r.table, i)
  {
    SameTenantIff(h, es, h.sdp.value);
    if TimesOut(h, es) {
      TimedOutLockIsNew(h, es);
    } else {
      HeldLockStays(h, es);
    }
  }

  /** Since the client takes no second query meanwhile, the lock alone says so: it names the asker. */
  lemma CreditedToAskerIff(h: Host, es: seq<(Event, Answers)>)
    requires h.sdp.Some? && Occupied(h.table, h.sdp.value) && Settled(h.table.devices)
    requires NoQueryResult(es) && ClientBusy(es)
    ensures var r, i := Run(h, es), h.sdp.value;
            r.sdp == h.sdp && SameTenant(h.table, r.table, i)
            <==> !TimesOut(h, es) && !GivenBack(h.table, r.table, i)
  {
    SameTenantIff(h, es, h.sdp.value);
    if TimesOut(h, es) {
      BusyAfterTimeout(h, es);
    } else {
      HeldLockStays(h, es);
    }
  }

  // ----- What the result does -----

  /** The result types the device in the slot the lock names, and touches no other device in use. */
  lemma ResultTypesHolder(h: Host, i: Index, a: Answers)
    requires h.sdp == Some(i)
    ensures var u := Step(h, PidQueryComplete, a).table;
            && (Occupied(h.table, i) && !GivenBack(h.table, u, i)
                ==> SameDevice(h.table, u, i) && u.devices[i].hasType
                    && (!h.table.devices[i].hasType ==> u.devices[i].parser == a.guessed))
            && (forall k: Index :: k != i && Occupied(h.table, k) && !GivenBack(h.table, u, k)
                                   ==> u.devices[k] == h.table.devices[k])
  {
    var d := GuessType(h.table.devices[i], a.guessed).(state := VendorFetched);
    var h1 := h.(table := Put(h.table, i, d));
    ResultEventsKeep(h, PidQueryComplete, a);
    EntryTable(h, PidQueryComplete, a);
    FsmKeeps(h1, i, a);
  }

  /** A result that finds the lock free is dropped. */
  lemma ResultDropped(h: Host, e: Event, a: Answers)
    requires h.sdp.None? && QueryResult(e)
    ensures Step(h, e, a) == h
  {
  }

  lemma HidResultTouchesHolder(h: Host, i: Index, a: Answers)
    requires h.sdp == Some(i)
    ensures var r := Step(h, HidQueryComplete, a);
            && r.sdp.None? && r.timer.None?
            && (forall k: Index :: k != i && Occupied(h.table, k) && !GivenBack(h.table, r.table, k)
                                   ==> r.table.devices[k] == h.table.devices[k])
  {
    ResultEventsKeep(h, HidQueryComplete, a);
  }

  /**
   * A device that asked for its type, and that is still there once the result has been handled, knows
   * its type exactly when the lock did not time out before the result.
   */
  lemma AskerLearnsTypeIff(h: Host, es: seq<(Event, Answers)>, a: Answers)
    requires h.sdp.Some? && Occupied(h.table, h.sdp.value) && Settled(h.table.devices)
    requires NoQueryResult(es) && ClientBusy(es)
    requires !Run(h, es).table.devices[h.sdp.value].hasType
    requires !GivenBack(h.table, Step(Run(h, es), PidQueryComplete, a).table, h.sdp.value)
    ensures Step(Run(h, es), PidQueryComplete, a).table.devices[h.sdp.value].hasType <==> !TimesOut(h, es)
  {
    var r, i := Run(h, es), h.sdp.value;
    RunPasses(h, es);
    ResultEventsKeep(r, PidQueryComplete, a);
    GivenBackSplits(h.table, r.table, Step(r, PidQueryComplete, a).table, i);
    CreditedToAskerIff(h, es);
    SameTenantIff(h, es, i);
    if r.sdp.Some? {
      ResultTypesHolder(r, r.sdp.value, a);
    } else {
      ResultDropped(r, PidQueryComplete, a);
    }
  }
}
