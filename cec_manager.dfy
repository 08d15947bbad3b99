/**
 * The HDMI-CEC selection manager of a TV: it decides, when the platform reports
 * that the main video source changed, whether to route CEC with a device-select
 * (by logical address), a port-select (by HDMI port), or a delayed select of the
 * TV's own internal address, and it suppresses stale or flapping requests.
 *
 * The CEC client is not called directly: firing a select or key message appends
 * the command the client would receive to `dispatched`.
 */
module HdmiCecManager {
  import opened Wrappers
  import opened DeviceDirectory
  import opened MessageQueue
  import opened KeyForwarder

  /** How long a device or port select protects itself against an internal fallback, in milliseconds. */
  const DeviceSelectProtectionTime: nat := 1500

  /** The TV's own CEC logical address. */
  const AddrInternal: int := 0

  /** The setting the manager observes, and the value that means "enabled" (also its default). */
  const HdmiControlEnabled: string := "hdmi_control_enabled"
  const Enabled: int := 1

  /**
   * A routing request: which input, device and tuning session it is for, and the
   * CEC address or port it resolved to. Fields that are never set read 0.
   */
  datatype SelectDeviceInfo = SelectDeviceInfo(
    inputId: string, deviceId: int, sessionId: int, logicalAddress: int, portId: int)

  /** The request for an input, before any address is resolved: address and port read 0. */
  function NewSelectDeviceInfo(inputId: string, deviceId: int, sessionId: int): (r: SelectDeviceInfo)
    ensures r.inputId == inputId && r.deviceId == deviceId && r.sessionId == sessionId
    ensures r.logicalAddress == AddrInternal && r.portId == 0
  {
    SelectDeviceInfo(inputId, deviceId, sessionId, 0, 0)
  }

  /** The request that routes back to the TV itself: no input id, the internal address. */
  const InternalDevice: SelectDeviceInfo := SelectDeviceInfo("", 0, 0, AddrInternal, 0)

  /** A command as the CEC client receives it. */
  datatype CecCommand =
    | DeviceSelectCommand(logicalAddress: int)
    | PortSelectCommand(portId: int)
    | KeyEventCommand(keyCode: int, pressed: bool)

  /** How an HDMI source that became main is to be routed. */
  datatype Route = Unresolved | ByLogicalAddress(logicalAddress: int) | ByPortId(portId: int)

  /**
   * The routing decision for an HDMI source that became main. Without a TvInputInfo
   * nothing is done; a logical address is taken from the TvInputInfo first and
   * from the input list second; only when both fail is the source routed by port.
   */
  function ResolveRoute(
    info: Option<TvInputInfo>, inputList: seq<TvInputInfo>, hardwareList: Option<seq<HardwareInfo>>,
    inputId: string, deviceId: int): (r: Route)
    ensures r.Unresolved? <==> info.None?
    ensures info.Some? && info.value.hdmiDeviceInfo.Some? ==>
      r == ByLogicalAddress(info.value.hdmiDeviceInfo.value.logicalAddress)
    ensures r.ByLogicalAddress? && info.value.hdmiDeviceInfo.None? ==>
      GetHdmiDeviceInfo(inputList, inputId) == Some(HdmiDeviceInfo(r.logicalAddress))
    ensures r.ByPortId? <==>
      info.Some? && info.value.hdmiDeviceInfo.None? &&
      forall i :: 0 <= i < |inputList| ==> !MatchesInput(inputList[i], inputId)
    ensures r.ByPortId? ==> r.portId == GetPortIdByDeviceId(hardwareList, deviceId)
  {
    match info
    case None => Unresolved
    case Some(tvInputInfo) =>
      var hdmiDevice :=
        if tvInputInfo.hdmiDeviceInfo.Some? then tvInputInfo.hdmiDeviceInfo
        else GetHdmiDeviceInfo(inputList, inputId);
      match hdmiDevice
      case Some(d) => ByLogicalAddress(d.logicalAddress)
      case None => ByPortId(GetPortIdByDeviceId(hardwareList, deviceId))
  }

  /** The queue with every pending device-select, port-select and protection-clear message cancelled. */
  function WithoutRouting(q: seq<Message>): (r: seq<Message>)
    ensures forall m :: m in r <==> m in q && m.what == SendKeyEventTag
  {
    Without(Without(Without(q, DeviceSelectTag), PortSelectTag), SelectProtectionTag)
  }

  /** The key-event messages of a queue, in their queued order. */
  function KeyEventsOf(q: seq<Message>): (r: seq<Message>) {
    if q == [] then []
    else (if q[0].what == SendKeyEventTag then [q[0]] else []) + KeyEventsOf(q[1..])
  }

  /** Cancelling routing keeps exactly the queued key events, each once and in their order. */
  lemma {:induction false} WithoutRoutingKeepsKeyEvents(q: seq<Message>)
    ensures WithoutRouting(q) == KeyEventsOf(q)
  {
    if q != [] {
      var x, rest := q[0], q[1..];
      var h1 := if x.what == DeviceSelectTag then [] else [x];
      assert Without(q, DeviceSelectTag) == h1 + Without(rest, DeviceSelectTag);
      WithoutAppend(h1, Without(rest, DeviceSelectTag), PortSelectTag);
      var h2 := Without(h1, PortSelectTag);
      WithoutAppend(h2, Without(Without(rest, DeviceSelectTag), PortSelectTag), SelectProtectionTag);
      WithoutSingleton(x, DeviceSelectTag);
      WithoutSingleton(x, PortSelectTag);
      WithoutSingleton(x, SelectProtectionTag);
      WithoutRoutingKeepsKeyEvents(rest);
    }
  }

  /** The queue right after a device or port select: routing cancelled, then the select now and the protection clear later. */
  function AfterSelect(q: seq<Message>, what: Tag, now: int): (r: seq<Message>)
    ensures |r| == |WithoutRouting(q)| + 2
    ensures r[|r| - 2] == Message(what, now, NoPayload)
    ensures r[|r| - 1] == Message(SelectProtectionTag, now + DeviceSelectProtectionTime, NoPayload)
  {
    WithoutRouting(q) + [Message(what, now, NoPayload), Message(SelectProtectionTag, now + DeviceSelectProtectionTime, NoPayload)]
  }

  /**
   * After a select the queue holds no earlier routing message: exactly one select
   * of the requested kind, due now, none of the other kind, and exactly one
   * protection clear, due 1500 ms later; before them come the queued key events,
   * each once and in their order.
   */
  lemma {:induction false} AfterSelectShape(q: seq<Message>, what: Tag, now: int)
    requires what == DeviceSelectTag || what == PortSelectTag
    ensures var r := AfterSelect(q, what, now);
      |r| >= 2 &&
      r[|r| - 2] == Message(what, now, NoPayload) &&
      r[|r| - 1] == Message(SelectProtectionTag, now + DeviceSelectProtectionTime, NoPayload) &&
      r[..|r| - 2] == KeyEventsOf(q) &&
      CountTag(r, what) == 1 &&
      CountTag(r, if what == DeviceSelectTag then PortSelectTag else DeviceSelectTag) == 0 &&
      CountTag(r, SelectProtectionTag) == 1 &&
      CountTag(r, SendKeyEventTag) == CountTag(q, SendKeyEventTag)
  {
    var w := WithoutRouting(q);
    var a := Message(what, now, NoPayload);
    var b := Message(SelectProtectionTag, now + DeviceSelectProtectionTime, NoPayload);
    var r := w + [a, b];
    WithoutRoutingKeepsKeyEvents(q);
    assert r[..|r| - 2] == w;
    TailCounts(w, a, b, what);
    TailCounts(w, a, b, if what == DeviceSelectTag then PortSelectTag else DeviceSelectTag);
    TailCounts(w, a, b, SelectProtectionTag);
    TailCounts(w, a, b, SendKeyEventTag);
  }

  /** Counting one tag over a queue with two messages appended. */
  lemma TailCounts(w: seq<Message>, a: Message, b: Message, t: Tag)
    ensures CountTag(w + [a, b], t) == CountTag(w, t) + (if a.what == t then 1 else 0) + (if b.what == t then 1 else 0)
  {
    CountTagAppend(w, [a, b], t);
    assert [a, b][1..] == [b];
  }

  /** A select keeps every queued message well formed and leaves exactly one protection clear queued. */
  lemma AfterSelectKeepsQueueValid(q: seq<Message>, what: Tag, now: int)
    requires what == DeviceSelectTag || what == PortSelectTag
    requires forall m :: m in q ==> WellFormed(m)
    ensures forall m :: m in AfterSelect(q, what, now) ==> WellFormed(m)
    ensures CountTag(AfterSelect(q, what, now), SelectProtectionTag) == 1
  {
    AfterSelectShape(q, what, now);
    var r := AfterSelect(q, what, now);
    forall m | m in r ensures WellFormed(m) {
      assert r == r[..|r| - 2] + [r[|r| - 2], r[|r| - 1]];
      if m in r[..|r| - 2] {
      } else {
        assert m == r[|r| - 2] || m == r[|r| - 1];
      }
    }
  }

  /** What `OnSetMain` did. */
  datatype SetMainOutcome =
    | CecUnavailable      // no CEC feature or no TV client: nothing happens
    | NotHdmiDevice       // the device id is not an HDMI input: no routing
    | TvInputInfoMissing  // the platform knows no TvInputInfo for the input
    | DeviceSelected      // routed by logical address
    | PortSelected        // routed by HDMI port
    | CurrentSelectNull   // a leave event before any select: the Java code dereferences null
    | StaleLeaveIgnored   // a leave event from a superseded session of the current device
    | InternalSuppressed  // internal fallback dropped inside the protection window
    | InternalScheduled   // internal fallback queued for 1500 ms later

  class CecManager {
    /** Whether the device has the CEC feature, and whether a TV client was obtained (never without the feature). */
    const hasCecFeature: bool
    const tvClientPresent: bool

    const handler: Handler

    /** The last request routed (null until the first), and the last one made. */
    var currentSelect: Option<SelectDeviceInfo>
    var selectingDevice: Option<SelectDeviceInfo>

    /** True from a device or port select until its protection-clear message fires. */
    var inSelectProtection: bool

    /** Releases of PLAY_PAUSE forwarded so far, as a Java int. */
    var keyCodeMediaPlayPauseCount: int

    /** The commands handed to the CEC client, oldest first. */
    var dispatched: seq<CecCommand>

    ghost predicate Valid()
      reads this, handler
    {
      IsInt32(keyCodeMediaPlayPauseCount) &&
      (!tvClientPresent || hasCecFeature) &&
      // without a CEC client nothing is ever posted or selected
      (handler.messages != [] ==> tvClientPresent) &&
      (currentSelect.Some? ==> tvClientPresent && selectingDevice.Some?) &&
      // a select message only exists once there is a current selection for it to read
      (currentSelect.None? ==>
        CountTag(handler.messages, DeviceSelectTag) == 0 && CountTag(handler.messages, PortSelectTag) == 0) &&
      // the protection flag is up exactly while its single clear message is pending
      CountTag(handler.messages, SelectProtectionTag) == (if inSelectProtection then 1 else 0) &&
      (forall m :: m in handler.messages ==> WellFormed(m))
    }

    constructor (hasCecFeature: bool, tvClientAvailable: bool)
      ensures Valid() && fresh(handler)
      ensures this.hasCecFeature == hasCecFeature
      ensures tvClientPresent == (hasCecFeature && tvClientAvailable)
      ensures currentSelect.None? && selectingDevice.None? && !inSelectProtection
      ensures keyCodeMediaPlayPauseCount == 0 && dispatched == []
      ensures handler.messages == [] && handler.now == 0
    {
      this.hasCecFeature := hasCecFeature;
      tvClientPresent := hasCecFeature && tvClientAvailable;
      handler := new Handler();
      currentSelect := None;
      selectingDevice := None;
      inSelectProtection := false;
      keyCodeMediaPlayPauseCount := 0;
      dispatched := [];
    }

    /** The input id of the current selection; "" before any selection and for the internal one. */
    function GetCurrentInput(): (r: string)
      reads this
      ensures currentSelect.None? ==> r == ""
      ensures currentSelect.Some? ==> r == currentSelect.value.inputId
      ensures currentSelect == Some(InternalDevice) ==> r == ""
    {
      if currentSelect.Some? then currentSelect.value.inputId else ""
    }

    /** Cancels every pending device-select, port-select and protection-clear message. */
    method RemovePreviousMessages()
      modifies handler
      ensures handler.messages == WithoutRouting(old(handler.messages))
      ensures handler.now == old(handler.now)
    {
      handler.RemoveMessages(DeviceSelectTag);
      handler.RemoveMessages(PortSelectTag);
      handler.RemoveMessages(SelectProtectionTag);
    }

    /**
     * Promotes the last request to the current selection, cancels earlier routing,
     * queues an immediate device-select and opens the protection window.
     */
    method DeviceSelect()
      requires Valid() && selectingDevice.Some? && tvClientPresent
      modifies this, handler
      ensures Valid()
      ensures currentSelect == selectingDevice == old(selectingDevice)
      ensures inSelectProtection
      ensures handler.messages == AfterSelect(old(handler.messages), DeviceSelectTag, old(handler.now))
      ensures handler.now == old(handler.now)
      ensures keyCodeMediaPlayPauseCount == old(keyCodeMediaPlayPauseCount) && dispatched == old(dispatched)
    {
      ghost var q := handler.messages;
      currentSelect := selectingDevice;
      RemovePreviousMessages();
      handler.SendMessage(DeviceSelectTag, NoPayload);
      inSelectProtection := true;
      handler.SendMessageDelayed(SelectProtectionTag, NoPayload, DeviceSelectProtectionTime);
      assert handler.messages == AfterSelect(q, DeviceSelectTag, handler.now);
      AfterSelectKeepsQueueValid(q, DeviceSelectTag, handler.now);
    }

    /** As `DeviceSelect`, but the queued command is a port-select. */
    method PortSelect()
      requires Valid() && selectingDevice.Some? && tvClientPresent
      modifies this, handler
      ensures Valid()
      ensures currentSelect == selectingDevice == old(selectingDevice)
      ensures inSelectProtection
      ensures handler.messages == AfterSelect(old(handler.messages), PortSelectTag, old(handler.now))
      ensures handler.now == old(handler.now)
      ensures keyCodeMediaPlayPauseCount == old(keyCodeMediaPlayPauseCount) && dispatched == old(dispatched)
    {
      ghost var q := handler.messages;
      currentSelect := selectingDevice;
      RemovePreviousMessages();
      handler.SendMessage(PortSelectTag, NoPayload);
      inSelectProtection := true;
      handler.SendMessageDelayed(SelectProtectionTag, NoPayload, DeviceSelectProtectionTime);
      assert handler.messages == AfterSelect(q, PortSelectTag, handler.now);
      AfterSelectKeepsQueueValid(q, PortSelectTag, handler.now);
    }

    /**
     * Inside the protection window: does nothing. Otherwise promotes the last
     * request (the internal one) and queues a device-select 1500 ms later,
     * cancelling nothing.
     */
    method DeviceSelectInternalDelayed()
      requires Valid() && selectingDevice.Some? && tvClientPresent
      modifies this, handler
      ensures Valid()
      ensures old(inSelectProtection) ==>
        currentSelect == old(currentSelect) && handler.messages == old(handler.messages)
      ensures !old(inSelectProtection) ==>
        currentSelect == old(selectingDevice) &&
        handler.messages == old(handler.messages) + [Message(DeviceSelectTag, old(handler.now) + DeviceSelectProtectionTime, NoPayload)]
      ensures selectingDevice == old(selectingDevice) && inSelectProtection == old(inSelectProtection)
      ensures handler.now == old(handler.now)
      ensures keyCodeMediaPlayPauseCount == old(keyCodeMediaPlayPauseCount) && dispatched == old(dispatched)
    {
      if inSelectProtection {
        return;
      }
      currentSelect := selectingDevice;
      var q := handler.messages;
      handler.SendMessageDelayed(DeviceSelectTag, NoPayload, DeviceSelectProtectionTime);
      forall t: Tag ensures CountTag(handler.messages, t) == CountTag(q, t) + (if t == DeviceSelectTag then 1 else 0) {
        CountTagAppend(q, [Message(DeviceSelectTag, handler.now + DeviceSelectProtectionTime, NoPayload)], t);
      }
    }

    /**
     * The platform reports that the input `inputId` (device `deviceId`, tuning
     * session `sessionId`) became the main source (`isMain`) or stopped being it.
     * `inputInfo` is the platform's TvInputInfo for `inputId`, `inputList` and
     * `hardwareList` its registered inputs and hardware.
     */
    method OnSetMain(
      isMain: bool, inputId: string, deviceId: int, sessionId: int,
      inputInfo: Option<TvInputInfo>, inputList: seq<TvInputInfo>, hardwareList: Option<seq<HardwareInfo>>)
      returns (outcome: SetMainOutcome)
      requires Valid()
      modifies this, handler
      ensures Valid()
      ensures handler.now == old(handler.now)
      ensures keyCodeMediaPlayPauseCount == old(keyCodeMediaPlayPauseCount) && dispatched == old(dispatched)
      // which path is taken
      ensures outcome == CecUnavailable <==> !(hasCecFeature && tvClientPresent)
      ensures hasCecFeature && tvClientPresent && !IsHdmiDeviceId(deviceId) ==> outcome == NotHdmiDevice
      ensures hasCecFeature && tvClientPresent && IsHdmiDeviceId(deviceId) && isMain ==>
        outcome == match ResolveRoute(inputInfo, inputList, hardwareList, inputId, deviceId)
                   case Unresolved => TvInputInfoMissing
                   case ByLogicalAddress(_) => DeviceSelected
                   case ByPortId(_) => PortSelected
      ensures hasCecFeature && tvClientPresent && IsHdmiDeviceId(deviceId) && !isMain ==>
        outcome ==
          if old(currentSelect).None? then CurrentSelectNull
          else if deviceId == old(currentSelect).value.deviceId && sessionId != old(currentSelect).value.sessionId
          then StaleLeaveIgnored
          else if old(inSelectProtection) then InternalSuppressed
          else InternalScheduled
      // the paths that route nothing
      ensures outcome == CecUnavailable ==> selectingDevice == old(selectingDevice)
      ensures outcome in {NotHdmiDevice, TvInputInfoMissing, CurrentSelectNull, StaleLeaveIgnored} ==>
        selectingDevice == Some(NewSelectDeviceInfo(inputId, deviceId, sessionId))
      ensures outcome in {CecUnavailable, NotHdmiDevice, TvInputInfoMissing, CurrentSelectNull, StaleLeaveIgnored, InternalSuppressed} ==>
        currentSelect == old(currentSelect) && inSelectProtection == old(inSelectProtection) &&
        handler.messages == old(handler.messages)
      // routing to the source
      ensures outcome == DeviceSelected ==>
        var a := ResolveRoute(inputInfo, inputList, hardwareList, inputId, deviceId).logicalAddress;
        currentSelect == selectingDevice == Some(NewSelectDeviceInfo(inputId, deviceId, sessionId).(logicalAddress := a)) &&
        inSelectProtection &&
        handler.messages == AfterSelect(old(handler.messages), DeviceSelectTag, handler.now)
      ensures outcome == PortSelected ==>
        var p := GetPortIdByDeviceId(hardwareList, deviceId);
        currentSelect == selectingDevice == Some(NewSelectDeviceInfo(inputId, deviceId, sessionId).(portId := p)) &&
        inSelectProtection &&
        handler.messages == AfterSelect(old(handler.messages), PortSelectTag, handler.now)
      ensures outcome in {DeviceSelected, PortSelected} ==> GetCurrentInput() == inputId
      // falling back to the internal address
      ensures outcome in {InternalSuppressed, InternalScheduled} ==> selectingDevice == Some(InternalDevice)
      // every request left pending without a resolved address names the TV's own address
      ensures outcome !in {CecUnavailable, DeviceSelected} ==> selectingDevice.value.logicalAddress == AddrInternal
      ensures outcome == InternalScheduled ==>
        currentSelect == Some(InternalDevice) && GetCurrentInput() == "" && !inSelectProtection &&
        handler.messages == old(handler.messages) + [Message(DeviceSelectTag, handler.now + DeviceSelectProtectionTime, NoPayload)]
    {
      if !hasCecFeature {
        return CecUnavailable;
      }
      if !tvClientPresent {
        return CecUnavailable;
      }

      selectingDevice := Some(NewSelectDeviceInfo(inputId, deviceId, sessionId));

      if IsHdmiDeviceId(deviceId) {
        if isMain {
          if inputInfo.None? {
            return TvInputInfoMissing;
          }
          var hdmiDevice := inputInfo.value.hdmiDeviceInfo;
          if hdmiDevice.None? {
            hdmiDevice := GetHdmiDeviceInfo(inputList, inputId);
          }
          if hdmiDevice.Some? {
            selectingDevice := Some(selectingDevice.value.(logicalAddress := hdmiDevice.value.logicalAddress));
            DeviceSelect();
            outcome := DeviceSelected;
          } else {
            var portId := GetPortIdByDeviceId(hardwareList, deviceId);
            selectingDevice := Some(selectingDevice.value.(portId := portId));
            PortSelect();
            outcome := PortSelected;
          }
        } else {
          if currentSelect.None? {
            return CurrentSelectNull;
          }
          if deviceId == currentSelect.value.deviceId && sessionId != currentSelect.value.sessionId {
            return StaleLeaveIgnored;
          }
          selectingDevice := Some(InternalDevice);
          outcome := if inSelectProtection then InternalSuppressed else InternalScheduled;
          DeviceSelectInternalDelayed();
        }
      } else {
        outcome := NotHdmiDevice;
      }
    }

    /**
     * Runs one message: a select reads the current selection at this moment and
     * hands the command to the CEC client; the protection clear closes the window.
     */
    method HandleMessage(msg: Message)
      requires msg.what in {DeviceSelectTag, PortSelectTag} ==> currentSelect.Some?
      requires WellFormed(msg)
      modifies this
      ensures currentSelect == old(currentSelect) && selectingDevice == old(selectingDevice)
      ensures keyCodeMediaPlayPauseCount == old(keyCodeMediaPlayPauseCount)
      ensures msg.what == DeviceSelectTag ==>
        dispatched == old(dispatched) + [DeviceSelectCommand(currentSelect.value.logicalAddress)]
      ensures msg.what == PortSelectTag ==>
        dispatched == old(dispatched) + [PortSelectCommand(currentSelect.value.portId)]
      ensures msg.what == SendKeyEventTag ==>
        dispatched == old(dispatched) + [KeyEventCommand(msg.payload.keyCode, msg.payload.pressed)]
      ensures msg.what == SelectProtectionTag ==> dispatched == old(dispatched) && !inSelectProtection
      ensures msg.what != SelectProtectionTag ==> inSelectProtection == old(inSelectProtection)
    {
      match msg.what
      case DeviceSelectTag =>
        dispatched := dispatched + [DeviceSelectCommand(currentSelect.value.logicalAddress)];
      case PortSelectTag =>
        dispatched := dispatched + [PortSelectCommand(currentSelect.value.portId)];
      case SelectProtectionTag =>
        inSelectProtection := false;
      case SendKeyEventTag =>
        dispatched := dispatched + [KeyEventCommand(msg.payload.keyCode, msg.payload.pressed)];
    }

    /** The looper's step: takes the next due message off the queue and runs it. */
    method DispatchNext() returns (fired: Option<Message>)
      requires Valid()
      modifies this, handler
      ensures Valid()
      ensures old(handler.messages) == [] ==>
        fired.None? && handler.messages == old(handler.messages) && handler.now == old(handler.now) &&
        inSelectProtection == old(inSelectProtection) && dispatched == old(dispatched)
      ensures old(handler.messages) != [] ==>
        var q := old(handler.messages);
        var k := EarliestIndex(q);
        fired == Some(q[k]) && handler.messages == q[..k] + q[k + 1..] && handler.now == Max(old(handler.now), q[k].when)
      ensures currentSelect == old(currentSelect) && selectingDevice == old(selectingDevice)
      ensures keyCodeMediaPlayPauseCount == old(keyCodeMediaPlayPauseCount)
      ensures fired.Some? ==> WellFormed(fired.value)
      ensures fired.Some? && fired.value.what == DeviceSelectTag ==>
        dispatched == old(dispatched) + [DeviceSelectCommand(currentSelect.value.logicalAddress)]
      ensures fired.Some? && fired.value.what == PortSelectTag ==>
        dispatched == old(dispatched) + [PortSelectCommand(currentSelect.value.portId)]
      ensures fired.Some? && fired.value.what == SendKeyEventTag ==>
        dispatched == old(dispatched) + [KeyEventCommand(fired.value.payload.keyCode, fired.value.payload.pressed)]
      ensures fired.Some? && fired.value.what == SelectProtectionTag ==>
        dispatched == old(dispatched) && !inSelectProtection
      ensures fired.Some? && fired.value.what != SelectProtectionTag ==> inSelectProtection == old(inSelectProtection)
    {
      var q := handler.messages;
      fired := handler.Next();
      if fired.Some? {
        var k := EarliestIndex(q);
        assert q[k] in q;
        forall t: Tag ensures CountTag(handler.messages, t) == CountTag(q, t) - (if q[k].what == t then 1 else 0) {
          CountTagRemoveAt(q, k, t);
        }
        assert forall m :: m in handler.messages ==> m in q;
        HandleMessage(fired.value);
      }
    }

    /** Lets time pass to `t` with no message run; `t` is no later than any queued message, which the looper would run first. */
    method Tick(t: int)
      requires Valid() && handler.now <= t
      requires forall m :: m in handler.messages ==> t <= m.when
      modifies handler
      ensures Valid()
      ensures handler.now == t && handler.messages == old(handler.messages)
    {
      handler.AdvanceTo(t);
    }

    /**
     * The settings observer: when `option` is the CEC-enabled setting, it reads
     * enabled (`storedValue` is the stored integer, None when unset), there is a
     * current selection on an HDMI device and that device is the one the TV is
     * tuned to (`inputSourceDeviceId`), the device-select runs again. As in the
     * Java code, that promotes the last request, not necessarily the current one.
     */
    method OnChange(option: string, storedValue: Option<int>, inputSourceDeviceId: int) returns (reselected: bool)
      requires Valid()
      modifies this, handler
      ensures Valid()
      ensures reselected <==>
        option == HdmiControlEnabled && storedValue.GetOr(Enabled) == Enabled &&
        old(currentSelect).Some? && IsHdmiDeviceId(old(currentSelect).value.deviceId) &&
        inputSourceDeviceId == old(currentSelect).value.deviceId
      ensures !reselected ==>
        currentSelect == old(currentSelect) && inSelectProtection == old(inSelectProtection) &&
        handler.messages == old(handler.messages)
      ensures reselected ==>
        currentSelect == old(selectingDevice) && inSelectProtection &&
        handler.messages == AfterSelect(old(handler.messages), DeviceSelectTag, handler.now)
      ensures selectingDevice == old(selectingDevice) && handler.now == old(handler.now)
      ensures keyCodeMediaPlayPauseCount == old(keyCodeMediaPlayPauseCount) && dispatched == old(dispatched)
    {
      var enabled := storedValue.GetOr(Enabled) == Enabled;
      reselected := false;
      if option == HdmiControlEnabled {
        if !enabled {
          return;
        }
        if currentSelect.None? {
          return;
        }
        if IsHdmiDeviceId(currentSelect.value.deviceId) && inputSourceDeviceId == currentSelect.value.deviceId {
          DeviceSelect();
          reselected := true;
        }
      }
    }

    /**
     * Queues a key for the CEC client, PLAY_PAUSE translated by the release
     * counter; false, with nothing changed, when there is no CEC feature or client.
     */
    method SendKeyEvent(keyCode: int, isPressed: bool) returns (sent: bool)
      requires Valid()
      modifies this, handler
      ensures Valid()
      ensures sent == (hasCecFeature && tvClientPresent)
      ensures !sent ==>
        keyCodeMediaPlayPauseCount == old(keyCodeMediaPlayPauseCount) && handler.messages == old(handler.messages)
      ensures sent ==>
        keyCodeMediaPlayPauseCount == NextKeyCount(keyCode, isPressed, old(keyCodeMediaPlayPauseCount)) &&
        handler.messages == old(handler.messages) +
          [Message(SendKeyEventTag, handler.now, KeyPayload(ForwardedKeyCode(keyCode, old(keyCodeMediaPlayPauseCount)), isPressed))]
      ensures currentSelect == old(currentSelect) && selectingDevice == old(selectingDevice)
      ensures inSelectProtection == old(inSelectProtection) && dispatched == old(dispatched)
      ensures handler.now == old(handler.now)
    {
      if !hasCecFeature {
        return false;
      }
      if !tvClientPresent {
        return false;
      }
      var code := keyCode;
      if keyCode == KeycodeMediaPlayPause {
        if JavaRem2(keyCodeMediaPlayPauseCount) == 1 {
          code := KeycodeMediaPause;
        } else {
          code := KeycodeMediaPlay;
        }
        if !isPressed {
          keyCodeMediaPlayPauseCount := Int32Increment(keyCodeMediaPlayPauseCount);
        }
      }
      var q := handler.messages;
      var m := Message(SendKeyEventTag, handler.now, KeyPayload(code, isPressed));
      handler.SendMessage(SendKeyEventTag, KeyPayload(code, isPressed));
      forall t: Tag ensures CountTag(handler.messages, t) == CountTag(q, t) + (if t == SendKeyEventTag then 1 else 0) {
        CountTagAppend(q, [m], t);
      }
      sent := true;
    }
  }

  /**
   * Tuning to HDMI1, whose source has logical address 4, routes by device-select
   * and opens the protection window; leaving HDMI1 inside that window does not
   * fall back to the internal address.
   */
  method LeaveInsideProtectionScenario() {
    var manager := new CecManager(true, true);
    var hdmi1 := TvInputInfo("HDMI1", None, Some(HdmiDeviceInfo(4)));

    assert ResolveRoute(Some(hdmi1), [hdmi1], None, "HDMI1", DeviceIdHdmi1) == ByLogicalAddress(4);
    assert WithoutRouting([]) == [];
    var outcome := manager.OnSetMain(true, "HDMI1", DeviceIdHdmi1, 1, Some(hdmi1), [hdmi1], None);
    assert outcome == DeviceSelected;
    assert manager.currentSelect == Some(SelectDeviceInfo("HDMI1", DeviceIdHdmi1, 1, 4, 0));
    assert manager.inSelectProtection;
    assert manager.handler.messages ==
      [Message(DeviceSelectTag, 0, NoPayload), Message(SelectProtectionTag, 1500, NoPayload)];

    assert EarliestIndex(manager.handler.messages) == 0;
    var fired := manager.DispatchNext();
    assert fired == Some(Message(DeviceSelectTag, 0, NoPayload));
    assert manager.dispatched == [DeviceSelectCommand(4)];

    outcome := manager.OnSetMain(false, "HDMI1", DeviceIdHdmi1, 1, Some(hdmi1), [hdmi1], None);
    assert outcome == InternalSuppressed;
    assert manager.GetCurrentInput() == "HDMI1";
    assert manager.handler.messages == [Message(SelectProtectionTag, 1500, NoPayload)];
  }

  /**
   * Once the select of HDMI1 and its protection clear have both run, the window
   * is closed and the queue is empty; a leave event 1600 ms after the select
   * then falls back to the internal address.
   */
  method ProtectionExpiresScenario() {
    var manager := new CecManager(true, true);
    var hdmi1 := TvInputInfo("HDMI1", None, Some(HdmiDeviceInfo(4)));

    assert ResolveRoute(Some(hdmi1), [hdmi1], None, "HDMI1", DeviceIdHdmi1) == ByLogicalAddress(4);
    assert WithoutRouting([]) == [];
    var outcome := manager.OnSetMain(true, "HDMI1", DeviceIdHdmi1, 1, Some(hdmi1), [hdmi1], None);
    assert outcome == DeviceSelected;
    assert manager.handler.messages ==
      [Message(DeviceSelectTag, 0, NoPayload), Message(SelectProtectionTag, 1500, NoPayload)];
    assert EarliestIndex(manager.handler.messages) == 0;
    var fired := manager.DispatchNext();
    assert manager.handler.messages == [Message(SelectProtectionTag, 1500, NoPayload)];
    fired := manager.DispatchNext();
    assert !manager.inSelectProtection && manager.handler.messages == [] && manager.handler.now == 1500;
    assert manager.dispatched == [DeviceSelectCommand(4)];
    LeaveAfterProtectionScenario(manager);
  }

  /**
   * A leave event from the current HDMI source at 1600 ms, outside the protection
   * window: the internal device-select is queued 1500 ms after the leave event
   * and routes to the internal address when it fires.
   */
  method LeaveAfterProtectionScenario(manager: CecManager)
    requires manager.Valid() && manager.hasCecFeature && manager.tvClientPresent
    requires manager.currentSelect == Some(SelectDeviceInfo("HDMI1", DeviceIdHdmi1, 1, 4, 0))
    requires !manager.inSelectProtection && manager.handler.messages == [] && manager.handler.now == 1500
    requires manager.dispatched == [DeviceSelectCommand(4)]
    modifies manager, manager.handler
  {
    manager.Tick(1600);
    var outcome := manager.OnSetMain(false, "HDMI1", DeviceIdHdmi1, 1, None, [], None);
    assert outcome == InternalScheduled;
    assert manager.currentSelect == Some(InternalDevice);
    assert manager.handler.messages == [Message(DeviceSelectTag, 3100, NoPayload)];

    var fired := manager.DispatchNext();
    assert manager.handler.now == 3100;
    assert manager.dispatched == [DeviceSelectCommand(4), DeviceSelectCommand(AddrInternal)];
  }

  /**
   * A stale leave event from an older session of HDMI1 changes nothing. Re-enabling
   * CEC while the TV is still tuned to HDMI1 re-runs the device-select, which
   * promotes the last request made: here that of a non-HDMI input, so the
   * current selection moves away from HDMI1.
   */
  method StaleLeaveAndReenableScenario() {
    var manager := new CecManager(true, true);
    var hdmi1 := TvInputInfo("HDMI1", None, Some(HdmiDeviceInfo(4)));

    assert ResolveRoute(Some(hdmi1), [hdmi1], None, "HDMI1", DeviceIdHdmi1) == ByLogicalAddress(4);
    var outcome := manager.OnSetMain(true, "HDMI1", DeviceIdHdmi1, 2, Some(hdmi1), [hdmi1], None);
    assert outcome == DeviceSelected;
    ghost var queued := manager.handler.messages;

    outcome := manager.OnSetMain(false, "HDMI1", DeviceIdHdmi1, 1, Some(hdmi1), [hdmi1], None);
    assert outcome == StaleLeaveIgnored;
    assert manager.handler.messages == queued && manager.GetCurrentInput() == "HDMI1";

    outcome := manager.OnSetMain(true, "ATV", 0, 3, None, [hdmi1], None);
    assert outcome == NotHdmiDevice;
    assert manager.GetCurrentInput() == "HDMI1";

    var reselected := manager.OnChange(HdmiControlEnabled, None, DeviceIdHdmi1);
    assert reselected;
    assert manager.GetCurrentInput() == "ATV";
  }

  /**
   * After a stale leave event the pending request is that of the old session, whose
   * address was never resolved. Re-enabling CEC while the TV is still tuned to HDMI1
   * promotes it, so the re-run device-select goes to logical address 0, the TV
   * itself, rather than to the source on HDMI1 at address 4.
   */
  method StaleLeaveRoutesToTvScenario() {
    var manager := new CecManager(true, true);
    var hdmi1 := TvInputInfo("HDMI1", None, Some(HdmiDeviceInfo(4)));

    assert ResolveRoute(Some(hdmi1), [hdmi1], None, "HDMI1", DeviceIdHdmi1) == ByLogicalAddress(4);
    assert WithoutRouting([]) == [];
    var outcome := manager.OnSetMain(true, "HDMI1", DeviceIdHdmi1, 2, Some(hdmi1), [hdmi1], None);
    assert outcome == DeviceSelected;
    assert manager.handler.messages ==
      [Message(DeviceSelectTag, 0, NoPayload), Message(SelectProtectionTag, 1500, NoPayload)];
    assert EarliestIndex(manager.handler.messages) == 0;
    var fired := manager.DispatchNext();
    assert manager.dispatched == [DeviceSelectCommand(4)];
    assert manager.handler.messages == [Message(SelectProtectionTag, 1500, NoPayload)];
    StaleLeaveThenReenable(manager);
  }

  /**
   * From HDMI1 selected in session 2 and its device-select sent: a leave event of
   * session 1, then CEC re-enabled while the TV is tuned to HDMI1.
   */
  method StaleLeaveThenReenable(manager: CecManager)
    requires manager.Valid() && manager.hasCecFeature && manager.tvClientPresent
    requires manager.currentSelect == Some(SelectDeviceInfo("HDMI1", DeviceIdHdmi1, 2, 4, 0))
    requires manager.inSelectProtection && manager.handler.now == 0
    requires manager.handler.messages == [Message(SelectProtectionTag, 1500, NoPayload)]
    requires manager.dispatched == [DeviceSelectCommand(4)]
    modifies manager, manager.handler
  {
    var hdmi1 := TvInputInfo("HDMI1", None, Some(HdmiDeviceInfo(4)));
    var outcome := manager.OnSetMain(false, "HDMI1", DeviceIdHdmi1, 1, Some(hdmi1), [hdmi1], None);
    assert outcome == StaleLeaveIgnored;
    assert manager.selectingDevice == Some(SelectDeviceInfo("HDMI1", DeviceIdHdmi1, 1, AddrInternal, 0));

    assert WithoutRouting([Message(SelectProtectionTag, 1500, NoPayload)]) == [];
    var reselected := manager.OnChange(HdmiControlEnabled, None, DeviceIdHdmi1);
    assert reselected;
    assert manager.GetCurrentInput() == "HDMI1";
    assert manager.handler.messages ==
      [Message(DeviceSelectTag, 0, NoPayload), Message(SelectProtectionTag, 1500, NoPayload)];
    assert EarliestIndex(manager.handler.messages) == 0;
    var fired := manager.DispatchNext();
    assert manager.dispatched == [DeviceSelectCommand(4), DeviceSelectCommand(AddrInternal)];
  }

  /**
   * A port-select leaves the current record with logical address 0, since only its
   * port was resolved. Re-enabling CEC while the TV is tuned to that input re-runs
   * a device-select, not the port-select, and so routes to the TV itself.
   */
  method PortSelectThenReenableScenario() {
    var manager := new CecManager(true, true);
    var hdmi1 := TvInputInfo("HDMI1", None, None);
    var hardware := [HardwareInfo(DeviceIdHdmi1, 2)];

    assert ResolveRoute(Some(hdmi1), [hdmi1], Some(hardware), "HDMI1", DeviceIdHdmi1) == ByPortId(2);
    assert WithoutRouting([]) == [];
    var outcome := manager.OnSetMain(true, "HDMI1", DeviceIdHdmi1, 1, Some(hdmi1), [hdmi1], Some(hardware));
    assert outcome == PortSelected;
    assert manager.handler.messages ==
      [Message(PortSelectTag, 0, NoPayload), Message(SelectProtectionTag, 1500, NoPayload)];
    assert EarliestIndex(manager.handler.messages) == 0;
    var fired := manager.DispatchNext();
    assert manager.dispatched == [PortSelectCommand(2)];
    ReenableAfterPortSelect(manager);
  }

  /** From HDMI1 port-selected to port 2 with that select sent: CEC re-enabled while tuned to HDMI1. */
  method ReenableAfterPortSelect(manager: CecManager)
    requires manager.Valid() && manager.hasCecFeature && manager.tvClientPresent
    requires manager.currentSelect == Some(SelectDeviceInfo("HDMI1", DeviceIdHdmi1, 1, AddrInternal, 2))
    requires manager.selectingDevice == manager.currentSelect
    requires manager.inSelectProtection && manager.handler.now == 0
    requires manager.handler.messages == [Message(SelectProtectionTag, 1500, NoPayload)]
    requires manager.dispatched == [PortSelectCommand(2)]
    modifies manager, manager.handler
  {
    assert WithoutRouting([Message(SelectProtectionTag, 1500, NoPayload)]) == [];
    var reselected := manager.OnChange(HdmiControlEnabled, None, DeviceIdHdmi1);
    assert reselected;
    assert manager.handler.messages ==
      [Message(DeviceSelectTag, 0, NoPayload), Message(SelectProtectionTag, 1500, NoPayload)];
    assert EarliestIndex(manager.handler.messages) == 0;
    var fired := manager.DispatchNext();
    assert manager.dispatched == [PortSelectCommand(2), DeviceSelectCommand(AddrInternal)];
  }
}
