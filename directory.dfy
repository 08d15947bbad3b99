/**
 * The device directory: the read-only lookups the selection manager makes
 * against the platform's input registry. The registry's lists are passed in
 * as sequences; a list the platform may return as null is an Option.
 */
module DeviceDirectory {
  import opened Wrappers

  /** Device ids of the first and the last HDMI input in the platform's device table. */
  const DeviceIdHdmi1: int := 5
  const DeviceIdHdmi4: int := 8

  /** The CEC facts of an HDMI source: only its logical address is used here. */
  datatype HdmiDeviceInfo = HdmiDeviceInfo(logicalAddress: int)

  /** A registered TV input: its id, its parent's id (null for a top-level input) and its CEC facts, if any. */
  datatype TvInputInfo = TvInputInfo(id: string, parentId: Option<string>, hdmiDeviceInfo: Option<HdmiDeviceInfo>)

  /** A hardware input: the platform device id and the HDMI port it sits on. */
  datatype HardwareInfo = HardwareInfo(deviceId: int, hdmiPortId: int)

  /** HDMI inputs occupy one contiguous range of device ids: those of HDMI1 to HDMI4. */
  predicate IsHdmiDeviceId(deviceId: int)
    ensures IsHdmiDeviceId(deviceId) <==>
      deviceId in {DeviceIdHdmi1, DeviceIdHdmi1 + 1, DeviceIdHdmi1 + 2, DeviceIdHdmi4}
  {
    DeviceIdHdmi1 <= deviceId <= DeviceIdHdmi4
  }

  /** `info` describes the HDMI source `inputId`: it has CEC facts and its own id or its parent's id is `inputId`. */
  predicate MatchesInput(info: TvInputInfo, inputId: string) {
    info.hdmiDeviceInfo.Some? && (inputId == info.id || info.parentId == Some(inputId))
  }

  /** The index of the first input that describes `inputId`, if there is one. */
  function FirstMatchingInput(inputs: seq<TvInputInfo>, inputId: string): (k: Option<nat>)
    ensures k.None? <==> forall i :: 0 <= i < |inputs| ==> !MatchesInput(inputs[i], inputId)
    ensures k.Some? ==>
      k.value < |inputs| && MatchesInput(inputs[k.value], inputId) &&
      forall j :: 0 <= j < k.value ==> !MatchesInput(inputs[j], inputId)
  {
    if inputs == [] then None
    else if MatchesInput(inputs[0], inputId) then Some(0)
    else
      match FirstMatchingInput(inputs[1..], inputId)
      case None => None
      case Some(k) => Some(k + 1)
  }

  /**
   * The CEC facts of the first input, in list order, that has CEC facts and whose
   * id or parent id is `inputId`; None when no input qualifies.
   */
  function GetHdmiDeviceInfo(inputs: seq<TvInputInfo>, inputId: string): (r: Option<HdmiDeviceInfo>)
    ensures r.None? <==> forall i :: 0 <= i < |inputs| ==> !MatchesInput(inputs[i], inputId)
    ensures forall k ::
      (0 <= k < |inputs| && MatchesInput(inputs[k], inputId) &&
       forall j :: 0 <= j < k ==> !MatchesInput(inputs[j], inputId))
      ==> r == inputs[k].hdmiDeviceInfo
  {
    match FirstMatchingInput(inputs, inputId)
    case None => None
    case Some(k) => inputs[k].hdmiDeviceInfo
  }

  /** The index of the first hardware entry with device id `deviceId`, if there is one. */
  function FirstMatchingHardware(hardware: seq<HardwareInfo>, deviceId: int): (k: Option<nat>)
    ensures k.None? <==> forall i :: 0 <= i < |hardware| ==> hardware[i].deviceId != deviceId
    ensures k.Some? ==>
      k.value < |hardware| && hardware[k.value].deviceId == deviceId &&
      forall j :: 0 <= j < k.value ==> hardware[j].deviceId != deviceId
  {
    if hardware == [] then None
    else if hardware[0].deviceId == deviceId then Some(0)
    else
      match FirstMatchingHardware(hardware[1..], deviceId)
      case None => None
      case Some(k) => Some(k + 1)
  }

  /**
   * The HDMI port of the first hardware entry whose device id is `deviceId`;
   * -1 when the list is null, empty, or has no such entry.
   */
  function GetPortIdByDeviceId(hardwareList: Option<seq<HardwareInfo>>, deviceId: int): (r: int)
    ensures hardwareList.None? ==> r == -1
    ensures hardwareList.Some? && (forall i :: 0 <= i < |hardwareList.value| ==> hardwareList.value[i].deviceId != deviceId)
      ==> r == -1
    ensures hardwareList.Some? ==>
      forall k ::
        (0 <= k < |hardwareList.value| && hardwareList.value[k].deviceId == deviceId &&
         forall j :: 0 <= j < k ==> hardwareList.value[j].deviceId != deviceId)
        ==> r == hardwareList.value[k].hdmiPortId
  {
    match hardwareList
    case None => -1
    case Some(hardware) =>
      if |hardware| == 0 then -1
      else
        match FirstMatchingHardware(hardware, deviceId)
        case None => -1
        case Some(k) => hardware[k].hdmiPortId
  }
}
