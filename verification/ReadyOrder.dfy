// components/bluepad32_component/uni_hid_device.c: a device is announced connected and announced ready
// by different events. When is it ready without having been announced connected?

module ReadyOrder {
  import opened Wrappers
  import opened DeviceTable
  import opened BluetoothHost
  import opened SdpLock
  import opened Tenancy

  // ----- One event -----

  /** One event changes the connected flag of a device that keeps its slot in these two ways only. */
  lemma ConnectedIff(h: Host, e: Event, a: Answers, i: Index)
    requires Occupied(h.table, i) && !GivenBack(h.table, Step(h, e, a).table, i)
    ensures Step(h, e, a).table.devices[i].connected
            <==> InterruptOpens(h, e) == Some(i) || (h.table.devices[i].connected && i !in ServiceDrops(h, e))
  {
    StepPasses(h, e, a);
    if e.ChannelOpened? {
      OpenedPasses(h, e, a);
    }
    if e.ServiceDisconnect? {
      ServiceDisconnectKeeps(h, e, a);
    }
  }

  /** It is announced connected by one kind of event only. */
  lemma ToldIff(h: Host, e: Event, a: Answers, i: Index)
    requires Occupied(h.table, i) && !GivenBack(h.table, Step(h, e, a).table, i)
    ensures ToldIn(h.table, Step(h, e, a).table, i) <==> InterruptOpens(h, e) == Some(i)
  {
    StepPasses(h, e, a);
    if e.ChannelOpened? {
      OpenedPasses(h, e, a);
    }
    if e.ServiceDisconnect? {
      ServiceDisconnectKeeps(h, e, a);
    }
  }

  /**
   * A device that an event makes ready is announced ready without being connected exactly when it was
   * not connected before and the event is not the opening of its own interrupt channel.
   */
  lemma ReadyUnconnectedIff(h: Host, e: Event, a: Answers, i: Index)
    requires Occupied(h.table, i) && !h.table.devices[i].state.Ready?
    requires !GivenBack(h.table, Step(h, e, a).table, i) && Step(h, e, a).table.devices[i].state.Ready?
    ensures !Step(h, e, a).table.devices[i].connected
            <==> !h.table.devices[i].connected && InterruptOpens(h, e) != Some(i)
  {
    ConnectedIff(h, e, a, i);
    if e.ServiceDisconnect? {
      ServiceDisconnectKeeps(h, e, a);
    }
  }

  // ----- Whole tenancies -----

  /** Some event of the run opens the interrupt channel of the device in slot i. */
  ghost predicate EverOpens(h: Host, es: seq<(Event, Answers)>, i: Index)
    decreases |es|
  {
    es != [] && (InterruptOpens(h, es[0].0) == Some(i) || EverOpens(Step(h, es[0].0, es[0].1), es[1..], i))
  }

  lemma {:induction false} ToldInRunIff(h: Host, es: seq<(Event, Answers)>, i: Index)
    requires Occupied(h.table, i) && !GivenBack(h.table, Run(h, es).table, i)
    ensures ToldIn(h.table, Run(h, es).table, i) <==> EverOpens(h, es, i)
    decreases |es|
  {
    if es != [] {
      var h1 := Step(h, es[0].0, es[0].1);
      StepPasses(h, es[0].0, es[0].1);
      RunPasses(h1, es[1..]);
      GivenBackSplits(h.table, h1.table, Run(h, es).table, i);
      ToldSplits(h.table, h1.table, Run(h, es).table, i);
      ToldIff(h, es[0].0, es[0].1, i);
      ToldInRunIff(h1, es[1..], i);
    }
  }

  /** The first event of the run brings a device into slot i, and the device stays there. */
  ghost predicate WholeTenancy(h: Host, es: seq<(Event, Answers)>, i: Index) {
    && es != []
    && NewDevice(h.table, Step(h, es[0].0, es[0].1).table, i)
    && !GivenBack(Step(h, es[0].0, es[0].1).table, Run(h, es).table, i)
  }

  /**
   * Over its whole tenancy, from the event that brings it in: a device has been announced connected
   * exactly when one of the events since then opened its interrupt channel. One that becomes ready
   * otherwise, by its name or by a query result, is announced ready and not connected.
   */
  lemma AnnouncedIff(h: Host, es: seq<(Event, Answers)>, i: Index)
    requires WholeTenancy(h, es, i)
    ensures ToldIn(h.table, Run(h, es).table, i) <==> EverOpens(Step(h, es[0].0, es[0].1), es[1..], i)
  {
    var h1 := Step(h, es[0].0, es[0].1);
    StepPasses(h, es[0].0, es[0].1);
    RunPasses(h1, es[1..]);
    NewDeviceUntold(h, es[0].0, es[0].1, i);
    ToldSplits(h.table, h1.table, Run(h, es).table, i);
    ToldInRunIff(h1, es[1..], i);
  }

  /** Every device but a virtual one has such a tenancy: the run is cut where it came in. */
  lemma {:induction false} TenancyBegins(h: Host, es: seq<(Event, Answers)>, i: Index)
      returns (before: seq<(Event, Answers)>, since: seq<(Event, Answers)>)
    requires !Occupied(h.table, i) || GivenBack(h.table, Run(h, es).table, i)
    requires Occupied(Run(h, es).table, i) && Run(h, es).table.devices[i].parent.None?
    ensures before + since == es && WholeTenancy(Run(h, before), since, i)
    decreases |es|
  {
    var h1 := Step(h, es[0].0, es[0].1);
    StepPasses(h, es[0].0, es[0].1);
    RunPasses(h1, es[1..]);
    GivenBackSplits(h.table, h1.table, Run(h, es).table, i);
    if !Occupied(h1.table, i) || GivenBack(h1.table, Run(h, es).table, i) {
      before, since := TenancyBegins(h1, es[1..], i);
      before := [es[0]] + before;
      assert before[1..] + since == es[1..];
    } else {
      before, since := [], es;
    }
  }

  lemma {:induction false} RunInParts(h: Host, es: seq<(Event, Answers)>, fs: seq<(Event, Answers)>)
    ensures Run(h, es + fs) == Run(Run(h, es), fs)
    decreases |es|
  {
    if es == [] {
      assert es + fs == fs;
    } else {
      assert (es + fs)[1..] == es[1..] + fs;
      RunInParts(Step(h, es[0].0, es[0].1), es[1..], fs);
    }
  }

  /** In slot i, a device that is ready and has not been announced connected since it came in with `since`. */
  ghost predicate ReadyUnannounced(h: Host, since: seq<(Event, Answers)>, i: Index) {
    Run(h, since).table.devices[i].state.Ready? && !ToldIn(h.table, Run(h, since).table, i)
  }

  /**
   * From boot, for every device in use that is not virtual: its tenancy began at some event, and it is
   * ready without having been announced connected exactly when it is ready although its interrupt
   * channel has not been opened since.
   */
  lemma ReadyUnannouncedIff(es: seq<(Event, Answers)>, i: Index)
      returns (before: seq<(Event, Answers)>, since: seq<(Event, Answers)>)
    requires Occupied(Run(BOOT, es).table, i) && Run(BOOT, es).table.devices[i].parent.None?
    ensures before + since == es && WholeTenancy(Run(BOOT, before), since, i)
    ensures ReadyUnannounced(Run(BOOT, before), since, i)
            <==> Run(BOOT, es).table.devices[i].state.Ready?
                 && !EverOpens(Run(BOOT, before + since[..1]), since[1..], i)
  {
    before, since := TenancyBegins(BOOT, es, i);
    RunInParts(BOOT, before, since);
    RunInParts(BOOT, before, since[..1]);
    AnnouncedIff(Run(BOOT, before), since, i);
    var h := Run(BOOT, before);
    assert since[..1][1..] == [];
    assert Run(h, since[..1]) == Run(Step(h, since[0].0, since[0].1), since[..1][1..]);
  }
}
