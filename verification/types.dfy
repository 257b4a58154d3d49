/** Shared vocabulary of the OCast manager model: devices, player states, the SDK calls
    the manager issues, the events it emits to the host application, and the session
    record that every entry point transforms. */
module OCastTypes {

  datatype Option<+T> = None | Some(value: T)

  /** A cast device found by discovery. Its identity for lookups is `upnpID`. */
  datatype Device = Device(upnpID: string, friendlyName: string, host: string)

  /** The player states the device reports. */
  datatype PlayerState = Idle | Playing | Paused | Buffering | Unknown

  /** A playback status as pulled from the device; forwarded to the host unchanged. */
  datatype PlaybackStatus = PlaybackStatus(state: PlayerState, muted: bool, duration: real, position: real, volume: real)

  datatype MediaType = Audio | Image | Video

  datatype TransferMode = Buffered | Streamed

  /** The already well-typed parameters of a cast request. */
  datatype MediaParams = MediaParams(url: string, frequency: nat, title: string, subtitle: string,
                                     mediaType: MediaType, transferMode: TransferMode, autoPlay: bool)

  /** Every call the manager makes into the discovery center or the device SDK. */
  datatype Call =
    | ResumeDiscovery
    | PauseDiscovery
    | Connect(certificate: string)
    | StartApplication
    | VersionInfo
    | PrepareMedia(media: MediaParams, logo: string)
    | ResumeMedia
    | PauseMedia
    | SeekMedia(seconds: nat)
    | StopMedia
    | MuteMedia(mute: bool)
    | MediaPlaybackStatus
    | DisconnectDevice

  /** The completion of an SDK call that reports only an optional error. */
  datatype Outcome = Ok | Err

  /** The completion of an SDK call that reports an optional value and an optional error. */
  datatype Reply<+T> = Reply(value: Option<T>, failed: bool)

  /** What the SDK answers during one entry point and its callback chain.
      `linkUp` is the connection state of the selected device as observed by the
      manager; `privateSettings` says whether the device exposes its settings channel. */
  datatype Env = Env(linkUp: bool, privateSettings: bool, outcome: Call -> Outcome,
                     version: Reply<()>, status: Reply<PlaybackStatus>)

  /** Error codes carried by `ERROR_EVENT`. */
  datatype ErrorCode =
    | CastFailed | ConnectFailed | DeviceError | DisconnectFailed | MetadataUpdateFailed
    | MuteFailed | PairingError | PauseFailed | PlaybackStatusUpdateFailed | ResumeFailed
    | SeekFailed | SettingTrackFailed | SslError | StopFailed | VolumeFailed

  /** The code's string as the host application receives it. */
  function CodeString(c: ErrorCode): (code: string)
    ensures |code| > 0
  {
    match c
    case CastFailed => "CAST_FAILED"
    case ConnectFailed => "CONNECT_FAILED"
    case DeviceError => "DEVICE_ERROR"
    case DisconnectFailed => "DISCONNECT_FAILED"
    case MetadataUpdateFailed => "METADATA_UPDATE_FAILED"
    case MuteFailed => "MUTE_FAILED"
    case PairingError => "PAIRING_ERROR"
    case PauseFailed => "PAUSE_FAILED"
    case PlaybackStatusUpdateFailed => "PLAYBACK_STATUS_UPDATE_FAILED"
    case ResumeFailed => "RESUME_FAILED"
    case SeekFailed => "SEEK_FAILED"
    case SettingTrackFailed => "SETTING_TRACK_FAILED"
    case SslError => "SSL_ERROR"
    case StopFailed => "STOP_FAILED"
    case VolumeFailed => "VOLUME_FAILED"
  }

  /** Names of the events sent to the host application. */
  datatype EventName =
    | ApListObtained | DeviceAvailable | DeviceConnected | DeviceDisconnected | DeviceLost
    | DevicePaired | ErrorEvent | MetadataChanged | PinNeeded | PlaybackStatusChanged

  /** The event's name as the host application receives it: always in the `OCast:`
      namespace. */
  function NameString(n: EventName): (name: string)
    ensures |name| > 6 && name[..6] == "OCast:"
  {
    match n
    case ApListObtained => "OCast:AP_LIST_OBTAINED"
    case DeviceAvailable => "OCast:DEVICE_AVAILABLE"
    case DeviceConnected => "OCast:DEVICE_CONNECTED"
    case DeviceDisconnected => "OCast:DEVICE_DISCONNECTED"
    case DeviceLost => "OCast:DEVICE_LOST"
    case DevicePaired => "OCast:DEVICE_PAIRED"
    case ErrorEvent => "OCast:ERROR_EVENT"
    case MetadataChanged => "OCast:METADATA_CHANGED"
    case PinNeeded => "OCast:PIN_NEEDED"
    case PlaybackStatusChanged => "OCast:PLAYBACK_STATUS_CHANGED"
  }

  /** Distinct error codes reach the host as distinct strings. */
  lemma CodeStringsDistinct(a: ErrorCode, b: ErrorCode)
    ensures CodeString(a) == CodeString(b) <==> a == b
  {
  }

  /** Distinct events reach the host under distinct names. */
  lemma NameStringsDistinct(a: EventName, b: EventName)
    ensures NameString(a) == NameString(b) <==> a == b
  {
  }

  /** Event payloads: a device description ({id, name, ipAddress}, all absent when no
      device is selected), an error code, or a forwarded playback status. */
  datatype Payload =
    | DeviceBody(device: Option<Device>)
    | CodeBody(code: ErrorCode)
    | StatusBody(status: PlaybackStatus)

  datatype Event = Event(name: EventName, payload: Payload)

  /** The `ERROR_EVENT` carrying code `c`. */
  function Failure(c: ErrorCode): Event {
    Event(ErrorEvent, CodeBody(c))
  }

  const ForegroundInterval: nat := 5
  const BackgroundInterval: nat := 30

  /** The manager's state. `running` and `interval` belong to the discovery center. */
  datatype Session = Session(devices: seq<Device>, device: Option<Device>, applicationName: string,
                             lastState: Option<PlayerState>, running: bool, interval: nat)

  /** The state right after construction: nothing discovered or selected, discovery
      idle with the foreground interval. */
  const Initial: Session := Session([], None, "", None, false, ForegroundInterval)

  /** The effect of one entry point: the new state, the events emitted and the calls
      issued, each in order. */
  datatype Step = Step(session: Session, events: seq<Event>, calls: seq<Call>)

  /** No event, no call, no change. */
  function Quiet(s: Session): Step {
    Step(s, [], [])
  }

  /** `r` preceded by `calls`, issued before it. */
  function Prepend(calls: seq<Call>, r: Step): Step {
    Step(r.session, r.events, calls + r.calls)
  }
}
