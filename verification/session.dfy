/** Device selection and the connection flows built on the negotiator: pairing
    (negotiate, then ask for the PIN), connecting (negotiate, then launch the receiver
    application), the reconnect-on-demand gate used by media commands, and
    disconnecting. */
module SessionControl {
  import opened OCastTypes
  import opened Negotiator

  /** Position of the first device of `ds` whose id is `id`, if any. */
  function FirstIndex(ds: seq<Device>, id: string): (r: Option<nat>)
    ensures r.None? <==> forall i :: 0 <= i < |ds| ==> ds[i].upnpID != id
    ensures r.Some? ==> r.value < |ds| && ds[r.value].upnpID == id
    ensures r.Some? ==> forall j :: 0 <= j < r.value ==> ds[j].upnpID != id
  {
    if ds == [] then None
    else if ds[0].upnpID == id then Some(0)
    else match FirstIndex(ds[1..], id)
      case None => None
      case Some(i) => Some(i + 1)
  }

  /** The success continuation of the connect flow: launch the receiver application
      on the selected device; announce the device if that works, report a connect
      failure otherwise. */
  function LaunchApplication(s: Session, env: Env): (r: Step)
    ensures r.session == s
    ensures s.device.None? ==> r.events == [] && r.calls == []
    ensures s.device.Some? ==> r.calls == [StartApplication]
    ensures s.device.Some? && env.outcome(StartApplication) == Ok ==> r.events == [Event(DeviceConnected, DeviceBody(s.device))]
    ensures s.device.Some? && env.outcome(StartApplication) == Err ==> r.events == [Failure(ConnectFailed)]
  {
    if s.device.None? then Quiet(s)
    else if env.outcome(StartApplication) == Ok then Step(s, [Event(DeviceConnected, DeviceBody(s.device))], [StartApplication])
    else Step(s, [Failure(ConnectFailed)], [StartApplication])
  }

  /** The success continuation of the pairing flow: fetch the version info over the
      private-settings channel; ask for the PIN when it arrives, report a pairing
      error otherwise. Without a selected device or settings channel nothing happens. */
  function SendPinNeeded(s: Session, env: Env): (r: Step)
    ensures r.session == s
    ensures r.calls == [] <==> s.device.None? || !env.privateSettings
    ensures r.calls != [] ==> r.calls == [VersionInfo] && |r.events| == 1
    ensures r.calls != [] ==> (r.events[0] == Event(PinNeeded, DeviceBody(s.device)) <==> env.version.value.Some?)
    ensures r.calls != [] ==> (r.events[0] == Failure(PairingError) <==> env.version.value.None?)
    ensures r.calls == [] ==> r.events == []
  {
    if s.device.None? || !env.privateSettings then Quiet(s)
    else if env.version.value.Some? then Step(s, [Event(PinNeeded, DeviceBody(s.device))], [VersionInfo])
    else Step(s, [Failure(PairingError)], [VersionInfo])
  }

  /** What reconnecting the selected device amounts to: the connect attempts, then,
      only if one of them succeeded, the application launch and the one event it
      produces. Two failed attempts produce no event at all. */
  predicate Reconnection(s: Session, env: Env, r: Step) {
    && r.session == s
    && r.calls == Attempts(env) + (if Connected(env) then [StartApplication] else [])
    && r.events == (if !Connected(env) then []
                    else if env.outcome(StartApplication) == Ok then [Event(DeviceConnected, DeviceBody(s.device))]
                    else [Failure(ConnectFailed)])
  }

  /** Negotiate a connection to the selected device and launch the application. */
  function Reconnect(s: Session, env: Env): (r: Step)
    requires s.device.Some?
    ensures Reconnection(s, env, r)
  {
    InitDevice(s, env, false, t => LaunchApplication(t, env))
  }

  /** The gate in front of media commands. A connected device runs `onReady` at once;
      otherwise the device is reconnected and `onReady` is dropped. The Swift code
      force-unwraps the selected device here, so one must be selected. */
  function EnsureConnected(s: Session, env: Env, onReady: Session -> Step): (r: Step)
    requires s.device.Some?
    ensures env.linkUp ==> r == onReady(s)
    ensures !env.linkUp ==> Reconnection(s, env, r)
  {
    if !env.linkUp then Reconnect(s, env) else onReady(s)
  }

  /** When the device is not connected the gate's result does not depend on the
      completion: the completion is never invoked. */
  lemma EnsureConnectedDropsCompletion(s: Session, env: Env, k1: Session -> Step, k2: Session -> Step)
    requires s.device.Some? && !env.linkUp
    ensures EnsureConnected(s, env, k1) == EnsureConnected(s, env, k2)
  {
  }

  /** Select the first listed device with id `id` and pair with it; an unknown id is
      a pairing error that leaves the selection alone. */
  function PairDevice(s: Session, env: Env, id: string): (r: Step)
    ensures FirstIndex(s.devices, id).None? ==> r == Step(s, [Failure(PairingError)], [])
    ensures FirstIndex(s.devices, id).Some? ==>
      var d := s.devices[FirstIndex(s.devices, id).value];
      var asked := Connected(env) && env.privateSettings;
      && r.session == s.(device := Some(d))
      && r.calls == Attempts(env) + (if asked then [VersionInfo] else [])
      && r.events == (if !asked then []
                      else if env.version.value.Some? then [Event(PinNeeded, DeviceBody(Some(d)))]
                      else [Failure(PairingError)])
  {
    match FirstIndex(s.devices, id)
    case None => Step(s, [Failure(PairingError)], [])
    case Some(i) =>
      InitDevice(s.(device := Some(s.devices[i])), env, false, t => SendPinNeeded(t, env))
  }

  /** Select the first listed device with id `id`, remember the application name and
      connect; an unknown id is a connect failure that leaves the selection and the
      application name alone. */
  function ConnectToDevice(s: Session, env: Env, id: string, applicationName: string): (r: Step)
    ensures FirstIndex(s.devices, id).None? ==> r == Step(s, [Failure(ConnectFailed)], [])
    ensures FirstIndex(s.devices, id).Some? ==>
      var d := s.devices[FirstIndex(s.devices, id).value];
      Reconnection(s.(device := Some(d), applicationName := applicationName), env, r)
  {
    match FirstIndex(s.devices, id)
    case None => Step(s, [Failure(ConnectFailed)], [])
    case Some(i) =>
      Reconnect(s.(device := Some(s.devices[i]), applicationName := applicationName), env)
  }

  /** Disconnect the selected device. Success is announced; failure is only logged.
      The device stays selected either way. */
  function Disconnect(s: Session, env: Env): (r: Step)
    ensures r.session == s
    ensures s.device.None? ==> r.calls == [] && r.events == []
    ensures s.device.Some? ==> r.calls == [DisconnectDevice]
    ensures s.device.Some? ==> (r.events == [Event(DeviceDisconnected, DeviceBody(s.device))] <==> env.outcome(DisconnectDevice) == Ok)
    ensures s.device.Some? ==> (r.events == [] <==> env.outcome(DisconnectDevice) != Ok)
  {
    if s.device.None? then Quiet(s)
    else if env.outcome(DisconnectDevice) == Ok then Step(s, [Event(DeviceDisconnected, DeviceBody(s.device))], [DisconnectDevice])
    else Step(s, [], [DisconnectDevice])
  }
}
