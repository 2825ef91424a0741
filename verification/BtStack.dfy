// The event handlers of components/bluepad32_component/bt over the mutable device table and the
// static variables of uni_bt_sdp.c. Each is proved to take the step of module BluetoothHost, named
// there by the whole Step function or by the function that Step chooses for the event.

module BluetoothStack {
  import opened Wrappers
  import opened DeviceTable
  import opened BluetoothHost
  import opened SdpLock

  class Stack {
    const devices: HidDevices
    var sdpDevice: Option<Index>
    var sdpTimer: Option<Index>
    var queries: seq<Index>

    ghost predicate Valid()
      reads this, devices
    {
      devices.Valid()
    }

    ghost function State(): Host
      reads this, devices, devices.slots
      requires Valid()
    {
      Host(devices.State(), sdpDevice, sdpTimer, queries)
    }

    /** The invariant of every run: what the handlers rely on to find links acyclic whenever a device has to go. */
    ghost predicate Ok()
      reads this, devices, devices.slots
    {
      Valid() && HostInv(State(), false)
    }

    ghost function Sound(): Care
      reads this
    {
      Care(false, sdpDevice)
    }

    /** A slot in use, or a freed one without a child: where a late query result may lead. */
    ghost predicate CanWork(i: Index)
      reads this, devices, devices.slots
    {
      Ok() && Usable(Sound(), devices.State(), i)
    }

    constructor ()
      ensures Ok() && fresh(devices) && fresh(devices.slots)
      ensures State() == BOOT
    {
      devices := new HidDevices();
      sdpDevice, sdpTimer, queries := None, None, [];
      new;
      BootOk();
    }

    // ----- uni_hid_device.c: becoming ready -----

    /** The device may be one whose slot has been freed; only its removal relies on the links. */
    method SetReadyComplete(i: Index, accepted: bool, links: map<nat, Link>) returns (taken: bool)
      requires Valid() && (devices.slots[i].state.Ready? || accepted || Acyclic(devices.slots[..]))
      modifies devices`log, devices.slots
      ensures Valid()
      ensures (devices.State(), taken) == ReadyComplete(old(devices.State()), i, accepted, links)
    {
      if devices.slots[i].state.Ready? {
        return false;
      }
      ghost var t := devices.State();
      devices.Edit(i, devices.slots[i].(connTimer := false));
      if !accepted {
        SameLinksSameLineage(t.devices, devices.slots[..], i);
        devices.RemoveDevice(i, links);
        return false;
      }
      devices.Edit(i, devices.slots[i].(state := ConnState.Ready));
      return true;
    }

    method SetReadyCompleteWithChild(i: Index, a: Answers)
      requires CanWork(i)
      modifies devices`log, devices.slots
      ensures Valid() && devices.State() == ReadyCompleteWithChild(old(devices.State()), i, a)
    {
      ghost var t := devices.State();
      var taken := SetReadyComplete(i, a.deviceAccepted, a.links);
      if !taken {
        return;
      }
      FewerLinksKeepAcyclic(t.devices, devices.slots[..]);
      ghost var t1 := devices.State();
      var child := devices.CreateVirtualDevice(i, a.virtualEnabled);
      if child.None? {
        return;
      }
      var c := child.value;
      if !t1.devices[c].state.Ready? {
        NewLinkKeepsAcyclic(t1.devices, devices.slots[..], i, c);
      }
      ghost var t2 := devices.State();
      devices.ConnectDevice(c);
      if !t1.devices[c].state.Ready? {
        FewerLinksKeepAcyclic(t2.devices, devices.slots[..]);
      }
      var kept := SetReadyComplete(c, a.childAccepted, a.links);
      if !kept {
        devices.Edit(i, devices.slots[i].(child := None));
      }
    }

    method SetReadyDevice(i: Index, a: Answers)
      requires CanWork(i)
      modifies devices`log, devices.slots
      ensures Valid() && devices.State() == SetReady(old(devices.State()), i, a)
    {
      if devices.slots[i].state.PendingReady? {
        return;
      }
      EditKeepsOk(Sound(), devices.State(), i, devices.slots[i].(state := PendingReady));
      devices.Edit(i, devices.slots[i].(state := PendingReady));
      match devices.slots[i].parser.setup {
        case ReadyLater =>
        case ReadyWithChild => SetReadyCompleteWithChild(i, a);
        case _ => var _ := SetReadyComplete(i, a.deviceAccepted, a.links);
      }
    }

    // ----- uni_bt_sdp.c -----

    method SdpQueryStart(i: Index, a: Answers)
      requires CanWork(i)
      modifies this, devices`log, devices.slots
      ensures Valid() && State() == SdpStart(old(State()), i, a)
    {
      if sdpDevice.Some? {
        devices.RemoveDevice(i, a.links);
        return;
      }
      sdpDevice := Some(i);
      sdpTimer := Some(i);
      StartVidPidQuery(i, a);
    }

    method StartVidPidQuery(i: Index, a: Answers)
      requires CanWork(i)
      modifies this`queries, devices`log, devices.slots
      ensures Valid() && queries == old(queries) + [i]
      ensures devices.State() ==
              var t := WithState(old(devices.State()), i, VendorRequested);
              if a.sdpAccepts then t else Remove(t, i, a.links)
    {
      EditKeepsOk(Sound(), devices.State(), i, devices.slots[i].(state := VendorRequested));
      devices.Edit(i, devices.slots[i].(state := VendorRequested));
      queries := queries + [i];
      if !a.sdpAccepts {
        devices.RemoveDevice(i, a.links);
      }
    }

    method SdpQueryEnd(i: Index, a: Answers)
      requires CanWork(i)
      modifies this, devices`log, devices.slots
      ensures Valid() && State() == SdpEnd(old(State()), i, a)
      decreases 1
    {
      EditKeepsOk(Sound(), devices.State(), i, devices.slots[i].(state := DescriptorFetched));
      devices.Edit(i, devices.slots[i].(state := DescriptorFetched));
      sdpDevice := None;
      sdpTimer := None;
      ProcessFsm(i, a);
    }

    method StartHidDescriptorQuery(i: Index, a: Answers)
      requires CanWork(i)
      modifies this, devices`log, devices.slots
      ensures Valid() && State() == StartDescriptorQuery(old(State()), i, a)
      decreases 2
    {
      if !devices.slots[i].parser.needsDescriptor {
        SdpQueryEnd(i, a);
        return;
      }
      if sdpDevice.None? {
        return;
      }
      EditKeepsOk(Sound(), devices.State(), i, devices.slots[i].(state := DescriptorRequested));
      devices.Edit(i, devices.slots[i].(state := DescriptorRequested));
      if !a.sdpAccepts {
        sdpTimer := None;
        devices.RemoveDevice(i, a.links);
      }
    }

    // ----- uni_bt_bredr.c: the state machine -----

    method CreateControlConnection(i: Index, channel: Option<nat>)
      requires Valid()
      modifies devices.slots
      ensures Valid() && devices.State() == CreateChannel(old(devices.State()), i, ControlPsm, channel)
    {
      if channel.Some? {
        devices.Edit(i, devices.slots[i].(controlCid := channel.value, state := ControlRequested));
      }
    }

    method CreateInterruptConnection(i: Index, channel: Option<nat>)
      requires Valid()
      modifies devices.slots
      ensures Valid() && devices.State() == CreateChannel(old(devices.State()), i, InterruptPsm, channel)
    {
      if channel.Some? {
        devices.Edit(i, devices.slots[i].(interruptCid := channel.value, state := InterruptRequested));
      }
    }

    method ProcessFsm(i: Index, a: Answers)
      requires CanWork(i)
      modifies this, devices`log, devices.slots
      ensures Valid() && State() == Fsm(old(State()), i, a)
      decreases if devices.slots[i].state.DescriptorFetched? then 0 else 3
    {
      var state := devices.slots[i].state;
      if devices.slots[i].name.None? && (state.Discovered? || state.InterruptConnected?) {
        devices.Edit(i, devices.slots[i].(state := NameInquired, nameTimer := true));
        return;
      }
      if state.NameFetched? {
        NameFetchedStep(i, a);
        return;
      }
      if state.VendorFetched? {
        StartHidDescriptorQuery(i, a);
        return;
      }
      if state.DescriptorFetched? {
        if devices.slots[i].incoming {
          SetReadyDevice(i, a);
          return;
        }
        if devices.slots[i].sdpQuery.BeforeConnect? {
          CreateControlConnection(i, a.channel);
        } else {
          SetReadyDevice(i, a);
        }
        return;
      }
      if !devices.slots[i].incoming {
        if state.ControlConnected? {
          CreateInterruptConnection(i, a.channel);
          return;
        }
        if state.InterruptConnected? {
          match devices.slots[i].sdpQuery {
            case BeforeConnect => SetReadyDevice(i, a);
            case NotNeeded => SetReadyDevice(i, a);
            case AfterConnect => SdpQueryStart(i, a);
          }
        }
      }
    }

    method NameFetchedStep(i: Index, a: Answers)
      requires CanWork(i) && devices.slots[i].state.NameFetched?
      modifies this, devices`log, devices.slots
      ensures Valid() && State() == Fsm(old(State()), i, a)
    {
      ghost var t := devices.State();
      if devices.slots[i].name == Some(WirelessController) {
        EditKeepsOk(Sound(), t, i, devices.slots[i].(sdpQuery := BeforeConnect));
        devices.Edit(i, devices.slots[i].(sdpQuery := BeforeConnect));
        SdpQueryStart(i, a);
        return;
      }
      var d := devices.slots[i];
      if d.name == Some(Recognized) {
        d := GuessType(d, a.guessed).(sdpQuery := NotNeeded, state := DescriptorFetched);
      }
      EditKeepsOk(Sound(), t, i, d);
      devices.Edit(i, d);
      if devices.slots[i].incoming {
        if devices.slots[i].sdpQuery.NotNeeded? {
          SetReadyDevice(i, a);
        } else {
          SdpQueryStart(i, a);
        }
        return;
      }
      CreateControlConnection(i, a.channel);
    }

    // ----- uni_bt_bredr.c: events -----

    method OnL2capIncomingConnection(addr: nat, psm: Psm, channel: nat, handle: nat, allowed: bool, a: Answers)
      requires Ok() && addr != 0
      modifies this, devices`log, devices.slots
      ensures Ok() && State() == Step(old(State()), IncomingConnection(addr, psm, channel, handle, allowed), a)
    {
      if allowed {
        AcceptIncoming(addr, psm, channel, handle, a);
      }
    }

    method AcceptIncoming(addr: nat, psm: Psm, channel: nat, handle: nat, a: Answers)
      requires Ok() && addr != 0
      modifies devices`log, devices.slots
      ensures Ok()
      ensures devices.State() ==
              OnIncoming(old(devices.State()), IncomingConnection(addr, psm, channel, handle, true), a)
    {
      IncomingKeepsOk(Sound(), devices.State(), IncomingConnection(addr, psm, channel, handle, true), a);
      var device := devices.FindByAddress(addr);
      if device.Some? && devices.slots[device.value].state.Ready? {
        devices.RemoveDevice(device.value, a.links);
        device := None;
      }
      match psm {
        case ControlPsm => AcceptControl(device, addr, channel, handle);
        case InterruptPsm =>
          if device.Some? {
            devices.Edit(device.value, devices.slots[device.value].(interruptCid := channel));
          }
        case OtherPsm =>
      }
    }

    method AcceptControl(known: Option<Index>, addr: nat, channel: nat, handle: nat)
      requires Valid()
      modifies devices`log, devices.slots
      ensures Valid() && devices.State() == ControlAccepted(old(devices.State()), known, addr, channel, handle)
    {
      var device := known;
      if device.None? {
        device := devices.CreateDevice(addr);
        if device.None? {
          return;
        }
      }
      var i := device.value;
      devices.Edit(i, devices.slots[i].(handle := handle, controlCid := channel, incoming := true));
    }

    method OnL2capChannelOpened(addr: nat, ok: bool, psm: Psm, cid: nat, a: Answers)
      requires Ok() && addr != 0
      modifies this, devices`log, devices.slots
      ensures Ok() && State() == OnOpened(old(State()), ChannelOpened(addr, ok, psm, cid), a)
    {
      OpenedKeepsOk(State(), ChannelOpened(addr, ok, psm, cid), a, false);
      ByAddressOccupied(devices.State(), addr);
      var device := devices.FindByAddress(addr);
      if device.None? {
        return;
      }
      var i := device.value;
      if !ok {
        devices.RemoveDevice(i, a.links);
        return;
      }
      OpenedTableKeepsOk(Sound(), devices.State(), i, psm, cid);
      match psm {
        case ControlPsm =>
          devices.Edit(i, devices.slots[i].(controlCid := cid, state := ControlConnected));
        case InterruptPsm =>
          devices.Edit(i, devices.slots[i].(interruptCid := cid, state := InterruptConnected));
          devices.ConnectDevice(i);
        case OtherPsm =>
      }
      ProcessFsm(i, a);
    }

    method OnL2capChannelClosed(cid: nat, a: Answers)
      requires Ok()
      modifies this, devices`log, devices.slots
      ensures Ok() && State() == Step(old(State()), ChannelClosed(cid), a)
    {
      var device := devices.FindByCid(cid);
      if device.Some? {
        RemovalsKeepOk(Sound(), devices.State(), device.value, a);
        devices.RemoveDevice(device.value, a.links);
      }
    }

    method OnGapInquiryResult(addr: nat, supported: bool, name: Option<Name>, a: Answers)
      requires Ok() && addr != 0
      modifies this, devices`log, devices.slots
      ensures Ok() && State() == OnInquiry(old(State()), InquiryResult(addr, supported, name), a)
    {
      InquiryKeepsOk(State(), InquiryResult(addr, supported, name), a, false);
      if !supported {
        return;
      }
      ByAddressOccupied(devices.State(), addr);
      var device := devices.FindByAddress(addr);
      if device.Some? {
        if devices.slots[device.value].state.Ready? {
          return;
        }
      } else {
        CreateKeepsOk(Sound(), devices.State(), addr);
        device := devices.CreateDevice(addr);
        if device.None? {
          return;
        }
        var i := device.value;
        var d := devices.slots[i].(state := Discovered);
        if name.Some? {
          d := d.(name := name, state := NameFetched);
        }
        EditKeepsOk(Sound(), devices.State(), i, d);
        devices.Edit(i, d);
      }
      ProcessFsm(device.value, a);
    }

    method OnHciConnectionRequest(addr: nat, a: Answers)
      requires Ok() && addr != 0
      modifies this, devices`log, devices.slots
      ensures Ok() && State() == Step(old(State()), ConnectionRequest(addr), a)
    {
      ConnectionEventsKeepOk(Sound(), devices.State(), ConnectionRequest(addr));
      var device := devices.FindByAddress(addr);
      if device.None? {
        device := devices.CreateDevice(addr);
        if device.None? {
          return;
        }
      }
      devices.Edit(device.value, devices.slots[device.value].(incoming := true));
    }

    method OnHciConnectionComplete(addr: nat, ok: bool, handle: nat, a: Answers)
      requires Ok() && addr != 0
      modifies this, devices`log, devices.slots
      ensures Ok() && State() == Step(old(State()), ConnectionComplete(addr, ok, handle), a)
    {
      ConnectionEventsKeepOk(Sound(), devices.State(), ConnectionComplete(addr, ok, handle));
      if !ok {
        return;
      }
      var device := devices.FindByAddress(addr);
      if device.Some? {
        devices.Edit(device.value, devices.slots[device.value].(handle := handle));
      }
    }

    method OnHciRemoteName(addr: nat, reply: Name, a: Answers)
      requires Ok() && addr != 0
      modifies this, devices`log, devices.slots
      ensures Ok() && State() == OnRemoteName(old(State()), RemoteName(addr, reply), a)
    {
      RemoteNameKeepsOk(State(), RemoteName(addr, reply), a, false);
      ByAddressOccupied(devices.State(), addr);
      var device := devices.FindByAddress(addr);
      if device.None? {
        return;
      }
      var i := device.value;
      var d := devices.slots[i].(name := Some(reply));
      if d.state.PendingReady? || d.state.Ready? {
        devices.Edit(i, d);
      } else {
        EditKeepsOk(Sound(), devices.State(), i, d.(state := NameFetched));
        devices.Edit(i, d.(state := NameFetched));
        ProcessFsm(i, a);
      }
      devices.Edit(i, devices.slots[i].(nameTimer := false));
    }

    // ----- uni_bt.c -----

    method OnHciDisconnectionComplete(handle: nat, a: Answers)
      requires Ok()
      modifies this, devices`log, devices.slots
      ensures Ok() && State() == Step(old(State()), HciDisconnected(handle), a)
    {
      var device := devices.FindByHandle(handle);
      if device.Some? {
        devices.RemoveDevice(device.value, a.links);
      }
    }

    method DisconnectCommandCallback(idx: nat, a: Answers)
      requires Ok()
      modifies this, devices`log, devices.slots
      ensures Ok() && State() == Step(old(State()), DisconnectCommand(idx), a)
    {
      if idx < MAX_DEVICES {
        devices.RemoveDevice(idx, a.links);
      }
    }

    // ----- Timers and query results -----

    method OnConnectionTimer(i: Index, a: Answers)
      requires Ok() && devices.slots[i].connTimer
      modifies this, devices`log, devices.slots
      ensures Ok() && State() == Step(old(State()), ConnectionTimeout(i), a)
    {
      ConnectionTimeoutKeepsOk(Sound(), devices.State(), i, a);
      PutKeepsOk(Sound(), devices.State(), i, devices.slots[i].(connTimer := false));
      devices.Edit(i, devices.slots[i].(connTimer := false));
      if devices.slots[i].state.Ready? {
        return;
      }
      devices.RemoveDevice(i, a.links);
    }

    method OnRemoteNameTimer(i: Index, a: Answers)
      requires Ok() && devices.slots[i].nameTimer
      modifies this, devices`log, devices.slots
      ensures Ok() && State() == OnNameTimeout(old(State()), i, a)
    {
      NameTimeoutKeepsOk(State(), i, a, false);
      var d := devices.slots[i].(nameTimer := false, name := Some(OtherName), state := NameFetched);
      EditKeepsOk(Sound(), devices.State(), i, d);
      devices.Edit(i, d);
      ProcessFsm(i, a);
    }

    method OnSdpTimer(a: Answers) returns (outcome: TimeoutOutcome)
      requires Ok() && sdpTimer.Some?
      modifies this
      ensures Ok() && State() == Step(old(State()), SdpTimeout, a)
      ensures outcome == SdpTimeoutOutcome(old(State()))
    {
      SdpTimeoutKeepsOk(State(), false);
      var context := sdpTimer;
      sdpTimer := None;
      if sdpDevice.None? {
        return NoHolder;
      }
      if context != sdpDevice {
        return OtherHolder;
      }
      sdpDevice := None;
      return Released;
    }

    /** The query's device may be gone by now: the handler goes through all the same. */
    method OnPidQueryComplete(a: Answers)
      requires Ok()
      modifies this, devices`log, devices.slots
      ensures Ok() && State() == OnPidComplete(old(State()), a)
      ensures TableOk(old(devices.State())) ==> (TableOk(devices.State()) <==> !Harmful(old(State()), PidQueryComplete, a))
    {
      QueryResultsKeepOk(State(), a, false);
      if TableOk(devices.State()) {
        PidResultKeepsOkIff(State(), a);
      }
      if sdpDevice.None? {
        return;
      }
      var i := sdpDevice.value;
      var d := GuessType(devices.slots[i], a.guessed).(state := VendorFetched);
      EditKeepsOk(Sound(), devices.State(), i, d);
      devices.Edit(i, d);
      ProcessFsm(i, a);
    }

    method OnHidQueryComplete(a: Answers)
      requires Ok()
      modifies this, devices`log, devices.slots
      ensures Ok() && State() == OnHidComplete(old(State()), a)
      ensures TableOk(old(devices.State())) ==> (TableOk(devices.State()) <==> !Harmful(old(State()), HidQueryComplete, a))
    {
      QueryResultsKeepOk(State(), a, false);
      if TableOk(devices.State()) {
        HidResultKeepsOkIff(State(), a);
      }
      if sdpDevice.Some? {
        SdpQueryEnd(sdpDevice.value, a);
      }
    }
  }
}
