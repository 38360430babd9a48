/**
 * The hook's event kinds and the two payloads built for each: the visible
 * multicast payload (a `notification` with title and body, plus a `data`
 * block) and the silent per-token message (the same `data` block with
 * Android and APNs background-delivery hints, and no `notification`).
 * As in the handlers, the six payloads are six separate literals.
 */
module Payload {
  import opened Wrappers
  import opened JsValue

  /** The body of a `/hook` request; a field the body lacks is `Undefined`. */
  datatype HookBody = HookBody(
    event_name: Json, event_datetime: Json, server_uuid: Json,
    device_id: Json, device_name: Json, state: Json, dvr_name: Json)

  datatype EventKind = MotionEvent | DeviceState | Solo

  /** The `event_name` that selects a kind, also sent back as the `eventType` of its payloads. */
  function EventName(kind: EventKind): string {
    match kind
    case MotionEvent => "motion_event"
    case DeviceState => "device_state"
    case Solo => "solo"
  }

  /** The hook's `switch (event_name)`: a strict comparison with each of the three names. */
  function Classify(event_name: Json): (r: Option<EventKind>)
    ensures forall kind :: r == Some(kind) <==> event_name == Str(EventName(kind))
  {
    match event_name
    case Str(s) =>
      if s == "motion_event" then Some(MotionEvent)
      else if s == "device_state" then Some(DeviceState)
      else if s == "solo" then Some(Solo)
      else None
    case _ => None
  }

  datatype Notification = Notification(title: string, body: Json)

  /** The payload of the multicast `sendToDevice` call. */
  datatype VisiblePayload = VisiblePayload(notification: Notification, data: map<string, Json>)

  datatype AndroidConfig = AndroidConfig(priority: string)

  datatype ApnsConfig = ApnsConfig(contentAvailable: int, mutableContent: int, pushType: string, apnsPriority: string)

  /** The message of one `send` call: a single token, data only, with delivery hints; it has no notification. */
  datatype SilentMessage = SilentMessage(token: Json, data: map<string, Json>, android: AndroidConfig, apns: ApnsConfig)

  /** `handleMotionEvent` */
  function MotionEventPayload(body: HookBody): VisiblePayload {
    VisiblePayload(
      Notification("Motion Event", body.device_name),
      map[
        "serverId" := body.server_uuid,
        "eventType" := Str("motion_event"),
        "eventDateTime" := Str(ToJsString(body.event_datetime)),
        "deviceId" := Str(ToJsString(body.device_id)),
        "deviceName" := body.device_name,
        "dvrName" := body.dvr_name])
  }

  /** `handleDeviceState` */
  function DeviceStatePayload(body: HookBody): VisiblePayload {
    VisiblePayload(
      Notification("Device State Event", body.state),
      map[
        "serverId" := body.server_uuid,
        "state" := body.state,
        "eventType" := Str("device_state"),
        "eventDateTime" := Str(ToJsString(body.event_datetime)),
        "deviceId" := Str(ToJsString(body.device_id)),
        "deviceName" := body.device_name,
        "dvrName" := body.dvr_name])
  }

  /** `handleSolo` */
  function SoloPayload(body: HookBody): VisiblePayload {
    VisiblePayload(
      Notification("Solo Event", body.state),
      map[
        "serverId" := body.server_uuid,
        "state" := body.state,
        "eventType" := Str("solo"),
        "eventDateTime" := Str(ToJsString(body.event_datetime)),
        "dvrName" := body.dvr_name])
  }

  /** The visible payload for a kind: the multicast call `/hook` makes for it. */
  function VisiblePayloadFor(kind: EventKind, body: HookBody): VisiblePayload
  {
    match kind
    case MotionEvent => MotionEventPayload(body)
    case DeviceState => DeviceStatePayload(body)
    case Solo => SoloPayload(body)
  }

  /**
   * What every visible payload carries: an `eventType` that classifies back
   * to the kind, the server, the event time as text that reads back as the
   * timestamp, device fields exactly for the two device kinds, and the
   * kind's title and body. No field is validated first.
   */
  lemma VisiblePayloadFields(kind: EventKind, body: HookBody)
    ensures "eventType" in VisiblePayloadFor(kind, body).data && Classify(VisiblePayloadFor(kind, body).data["eventType"]) == Some(kind)
    ensures "serverId" in VisiblePayloadFor(kind, body).data && VisiblePayloadFor(kind, body).data["serverId"] == body.server_uuid
    ensures "eventDateTime" in VisiblePayloadFor(kind, body).data && VisiblePayloadFor(kind, body).data["eventDateTime"] == Str(ToJsString(body.event_datetime))
    ensures body.event_datetime.Num? ==> ParseInteger(VisiblePayloadFor(kind, body).data["eventDateTime"].s) == Some(body.event_datetime.n)
    ensures "dvrName" in VisiblePayloadFor(kind, body).data && VisiblePayloadFor(kind, body).data["dvrName"] == body.dvr_name
    ensures ("deviceId" in VisiblePayloadFor(kind, body).data <==> kind != Solo) && ("deviceName" in VisiblePayloadFor(kind, body).data <==> kind != Solo)
    ensures kind != Solo ==>
      VisiblePayloadFor(kind, body).data["deviceId"] == Str(ToJsString(body.device_id)) && VisiblePayloadFor(kind, body).data["deviceName"] == body.device_name
    ensures ("state" in VisiblePayloadFor(kind, body).data <==> kind != MotionEvent) && (kind != MotionEvent ==> VisiblePayloadFor(kind, body).data["state"] == body.state)
    ensures |VisiblePayloadFor(kind, body).data| == (match kind case MotionEvent => 6 case DeviceState => 7 case Solo => 5)
    ensures VisiblePayloadFor(kind, body).notification.title == (match kind
                                      case MotionEvent => "Motion Event"
                                      case DeviceState => "Device State Event"
                                      case Solo => "Solo Event")
    ensures VisiblePayloadFor(kind, body).notification.body == if kind == MotionEvent then body.device_name else body.state
  {
  }

  /** The Android hint of every silent message. */
  const HighPriority := AndroidConfig("high")

  /** The APNs hints of every silent message: content-available, a background push at priority 5. */
  const BackgroundPush := ApnsConfig(1, 1, "background", "5")

  /** The message `handleMotionEventWithoutNotification` sends to one token. */
  function MotionEventMessage(token: Json, body: HookBody): SilentMessage {
    SilentMessage(
      token,
      map[
        "serverId" := body.server_uuid,
        "eventType" := Str("motion_event"),
        "eventDateTime" := Str(ToJsString(body.event_datetime)),
        "deviceId" := Str(ToJsString(body.device_id)),
        "deviceName" := body.device_name,
        "dvrName" := body.dvr_name],
      AndroidConfig("high"),
      ApnsConfig(1, 1, "background", "5"))
  }

  /** The message `handleDeviceStateWithoutNotification` sends to one token. */
  function DeviceStateMessage(token: Json, body: HookBody): SilentMessage {
    SilentMessage(
      token,
      map[
        "serverId" := body.server_uuid,
        "state" := body.state,
        "eventType" := Str("device_state"),
        "eventDateTime" := Str(ToJsString(body.event_datetime)),
        "deviceId" := Str(ToJsString(body.device_id)),
        "deviceName" := body.device_name,
        "dvrName" := body.dvr_name],
      AndroidConfig("high"),
      ApnsConfig(1, 1, "background", "5"))
  }

  /** The message `handleSoloWithoutNotification` sends to one token. */
  function SoloMessage(token: Json, body: HookBody): SilentMessage {
    SilentMessage(
      token,
      map[
        "serverId" := body.server_uuid,
        "state" := body.state,
        "eventType" := Str("solo"),
        "eventDateTime" := Str(ToJsString(body.event_datetime)),
        "dvrName" := body.dvr_name],
      AndroidConfig("high"),
      ApnsConfig(1, 1, "background", "5"))
  }

  /**
   * The silent message for a kind and one token: addressed to that token,
   * carrying the visible payload's `data` block field for field, with the
   * fixed background-delivery hints.
   */
  function SilentMessageFor(kind: EventKind, body: HookBody, token: Json): (m: SilentMessage)
    ensures m.token == token
    ensures m.data == VisiblePayloadFor(kind, body).data
    ensures m.android == HighPriority && m.apns == BackgroundPush
  {
    match kind
    case MotionEvent => MotionEventMessage(token, body)
    case DeviceState => DeviceStateMessage(token, body)
    case Solo => SoloMessage(token, body)
  }
}
