/** The manager as a whole: one dispatcher over every modelled entry point and
    discovery callback, and the properties that hold across all of them and across
    runs of several of them. */
module Manager {
  import opened OCastTypes
  import Discovery
  import Negotiator
  import SessionControl
  import Media

  /** The entry points and discovery callbacks of the manager. */
  datatype Command =
    | DevicesAdded(added: seq<Device>)
    | DevicesRemoved(removed: seq<Device>, remaining: seq<Device>)
    | DiscoveryStopped(failed: bool)
    | StartScan
    | StopScan
    | EnterBackground
    | EnterForeground
    | PairDevice(id: string)
    | ConnectToDevice(id: string, applicationName: string)
    | Disconnect
    | CastMedia(media: MediaParams)
    | Resume
    | Pause
    | Seek(time: int)
    | Stop
    | Mute(mute: bool)
    | UpdatePlaybackStatus

  /** The commands that pass through the connection gate before doing anything. */
  predicate Gated(cmd: Command) {
    cmd.CastMedia? || cmd.Resume? || cmd.Pause? || cmd.Stop? || cmd.UpdatePlaybackStatus?
  }

  /** OCastManager force-unwraps the selected device in the gate: these are the states
      in which a command reaches it without one. */
  predicate Traps(s: Session, cmd: Command) {
    || (Gated(cmd) && s.device.None?)
    || (cmd.Seek? && s.device.None? && s.lastState != Some(Paused))
  }

  function Dispatch(s: Session, env: Env, cmd: Command): Step
    requires !Traps(s, cmd)
  {
    match cmd
    case DevicesAdded(added) => Discovery.DidAdd(s, added)
    case DevicesRemoved(removed, remaining) => Discovery.DidRemove(s, removed, remaining)
    case DiscoveryStopped(failed) => Discovery.CenterDidStop(s, failed)
    case StartScan => Discovery.StartScan(s)
    case StopScan => Discovery.StopScan(s)
    case EnterBackground => Discovery.EnterBackground(s)
    case EnterForeground => Discovery.EnterForeground(s)
    case PairDevice(id) => SessionControl.PairDevice(s, env, id)
    case ConnectToDevice(id, name) => SessionControl.ConnectToDevice(s, env, id, name)
    case Disconnect => SessionControl.Disconnect(s, env)
    case CastMedia(media) => Media.CastMedia(s, env, media)
    case Resume => Media.Resume(s, env)
    case Pause => Media.Pause(s, env)
    case Seek(time) => Media.Seek(s, env, time)
    case Stop => Media.Stop(s, env)
    case Mute(mute) => Media.Mute(s, env, mute)
    case UpdatePlaybackStatus => Media.UpdatePlaybackStatus(s, env)
  }

  /** The last known player state is written in three places only: a successful
      resume (to playing), a successful pause (to paused) and a status pull that
      reports a status without an error (to the reported state). */
  lemma LastStateWrites(s: Session, env: Env, cmd: Command)
    requires !Traps(s, cmd)
    ensures var r := Dispatch(s, env, cmd);
      r.session.lastState != s.lastState ==>
        || (cmd.Resume? && env.outcome(ResumeMedia) == Ok && r.session.lastState == Some(Playing))
        || (cmd.Pause? && env.outcome(PauseMedia) == Ok && r.session.lastState == Some(Paused))
        || (cmd.UpdatePlaybackStatus? && !env.status.failed && env.status.value.Some?
            && r.session.lastState == Some(env.status.value.value.state))
  {
    var r := Dispatch(s, env, cmd);
    match cmd
    case Resume =>
      if !env.linkUp { assert SessionControl.Reconnection(s, env, r); }
    case Pause =>
      if !env.linkUp { assert SessionControl.Reconnection(s, env, r); }
    case UpdatePlaybackStatus =>
      if !env.linkUp { assert SessionControl.Reconnection(s, env, r); }
    case _ =>
  }

  /** Every other part of the session has its own writers: the device list only the
      discovery callbacks, the selection and application name only pairing and
      connecting, the discovery flag only scan control and the center's stop, the
      interval only the background and foreground hooks. */
  lemma DispatchFrame(s: Session, env: Env, cmd: Command)
    requires !Traps(s, cmd)
    ensures var r := Dispatch(s, env, cmd);
      && (r.session.devices != s.devices ==> cmd.DevicesAdded? || cmd.DevicesRemoved?)
      && (r.session.device != s.device || r.session.applicationName != s.applicationName ==>
            cmd.PairDevice? || cmd.ConnectToDevice?)
      && (r.session.running != s.running ==>
            cmd.StartScan? || cmd.StopScan? || cmd.EnterBackground? || cmd.EnterForeground?
            || cmd.DiscoveryStopped?)
      && (r.session.interval != s.interval ==> cmd.EnterBackground? || cmd.EnterForeground?)
      && (r.session.device.None? ==> s.device.None?)
  {
    var r := Dispatch(s, env, cmd);
    match cmd
    case CastMedia(_) =>
      if !env.linkUp { assert SessionControl.Reconnection(s, env, r); }
    case Resume =>
      if !env.linkUp { assert SessionControl.Reconnection(s, env, r); }
    case Pause =>
      if !env.linkUp { assert SessionControl.Reconnection(s, env, r); }
    case Seek(time) =>
      if !env.linkUp { assert r.session == s; }
    case Stop =>
      if !env.linkUp { assert SessionControl.Reconnection(s, env, r); }
    case UpdatePlaybackStatus =>
      if !env.linkUp { assert SessionControl.Reconnection(s, env, r); }
    case _ =>
  }

  /** Well-formed sessions: a player state is known only once a device is selected,
      and the discovery interval is one of the two the manager sets. */
  predicate Wf(s: Session) {
    && (s.device.None? ==> s.lastState.None?)
    && (s.interval == ForegroundInterval || s.interval == BackgroundInterval)
  }

  /** Every command keeps sessions well formed. */
  lemma DispatchPreservesWf(s: Session, env: Env, cmd: Command)
    requires Wf(s) && !Traps(s, cmd)
    ensures Wf(Dispatch(s, env, cmd).session)
  {
    DispatchFrame(s, env, cmd);
    LastStateWrites(s, env, cmd);
  }

  /** In a well-formed session a command traps exactly when it is gated or a seek and
      no device is selected. */
  lemma TrapsIffUnselected(s: Session, cmd: Command)
    requires Wf(s)
    ensures Traps(s, cmd) <==> (Gated(cmd) || cmd.Seek?) && s.device.None?
  {
  }

  /** The certificate bundles of the connect calls in `calls`, in order. */
  function Connects(calls: seq<Call>): (flags: seq<string>)
    ensures |flags| <= |calls|
    ensures (forall i :: 0 <= i < |calls| ==> !calls[i].Connect?) ==> flags == []
  {
    if calls == [] then []
    else if calls[0].Connect? then [calls[0].certificate] + Connects(calls[1..])
    else Connects(calls[1..])
  }

  lemma {:induction false} ConnectsAppend(a: seq<Call>, b: seq<Call>)
    ensures Connects(a + b) == Connects(a) + Connects(b)
    decreases |a|
  {
    if a == [] {
      assert a + b == b;
    } else {
      assert (a + b)[1..] == a[1..] + b;
      ConnectsAppend(a[1..], b);
    }
  }

  /** The certificate bundles of one failover: the primary, then the fallback only if
      the primary failed. */
  function FailoverFlags(env: Env): seq<string> {
    if env.outcome(Connect("DEM412")) == Ok then ["DEM412"] else ["DEM412", "client"]
  }

  /** A reconnection connects with the primary certificate and, only after it failed,
      with the fallback; nothing else it issues is a connect. */
  lemma ReconnectionAttempts(s: Session, env: Env, r: Step)
    requires SessionControl.Reconnection(s, env, r)
    ensures Connects(r.calls) == FailoverFlags(env)
  {
    var tail: seq<Call> := if Negotiator.Connected(env) then [StartApplication] else [];
    ConnectsAppend(Negotiator.Attempts(env), tail);
    var a := Negotiator.Attempts(env);
    if env.outcome(Connect("DEM412")) == Ok {
      assert a == [Connect("DEM412")];
      assert Connects(a) == ["DEM412"] + Connects([]);
    } else {
      assert a == [Connect("DEM412"), Connect("client")];
      assert a[1..] == [Connect("client")];
      assert Connects(a) == ["DEM412"] + Connects([Connect("client")]);
      assert Connects([Connect("client")]) == ["client"] + Connects([]);
    }
  }

  /** A step behind the gate either issues no connect (device connected) or is a
      reconnection (device not connected). */
  lemma GatedAttempts(s: Session, env: Env, r: Step)
    requires env.linkUp ==> forall i :: 0 <= i < |r.calls| ==> !r.calls[i].Connect?
    requires !env.linkUp ==> SessionControl.Reconnection(s, env, r)
    ensures Connects(r.calls) == [] || Connects(r.calls) == FailoverFlags(env)
  {
    if !env.linkUp {
      ReconnectionAttempts(s, env, r);
    }
  }

  /** Pairing connects as one failover, or not at all for an unknown id. */
  lemma PairAttempts(s: Session, env: Env, id: string)
    ensures var flags := Connects(SessionControl.PairDevice(s, env, id).calls);
      flags == [] || flags == FailoverFlags(env)
  {
    match SessionControl.FirstIndex(s.devices, id) {
      case None =>
      case Some(i) =>
        var t := s.(device := Some(s.devices[i]));
        var asked := Negotiator.Connected(env) && env.privateSettings;
        var tail: seq<Call> := if asked then [VersionInfo] else [];
        var launch: seq<Call> := if Negotiator.Connected(env) then [StartApplication] else [];
        ReconnectionAttempts(t, env, SessionControl.Reconnect(t, env));
        ConnectsAppend(Negotiator.Attempts(env), tail);
        ConnectsAppend(Negotiator.Attempts(env), launch);
        assert Connects(tail) == [] && Connects(launch) == [];
    }
  }

  /** A seek connects at most as one failover, and only through the gate of its
      second half. */
  lemma SeekAttempts(s: Session, env: Env, time: int)
    requires s.device.Some? || s.lastState == Some(Paused)
    ensures var flags := Connects(Media.Seek(s, env, time).calls);
      flags == [] || flags == FailoverFlags(env)
  {
    var r := Media.Seek(s, env, time);
    if s.lastState != Some(Paused) {
      GatedAttempts(s, env, r);
    } else if s.device.Some? && env.outcome(ResumeMedia) == Ok {
      var rest := Step(r.session, r.events, r.calls[1..]);
      assert r.calls == [ResumeMedia] + rest.calls;
      ConnectsAppend([ResumeMedia], rest.calls);
      assert Connects([ResumeMedia]) == Connects([]);
      GatedAttempts(s, env, rest);
    }
  }

  /** No command makes more than two connect attempts, the first always with the
      primary bundle "DEM412" and the second, if any, with the fallback bundle
      "client" after the first failed. */
  lemma AtMostTwoAttempts(s: Session, env: Env, cmd: Command)
    requires !Traps(s, cmd)
    ensures var flags := Connects(Dispatch(s, env, cmd).calls);
      && (flags == [] || flags == ["DEM412"] || flags == ["DEM412", "client"])
      && (flags == ["DEM412", "client"] ==> env.outcome(Connect("DEM412")) == Err)
  {
    var r := Dispatch(s, env, cmd);
    match cmd
    case PairDevice(id) => PairAttempts(s, env, id);
    case ConnectToDevice(id, name) =>
      match SessionControl.FirstIndex(s.devices, id) {
        case None =>
        case Some(i) =>
          ReconnectionAttempts(s.(device := Some(s.devices[i]), applicationName := name), env, r);
      }
    case CastMedia(_) => GatedAttempts(s, env, r);
    case Resume => GatedAttempts(s, env, r);
    case Pause => GatedAttempts(s, env, r);
    case Seek(time) => SeekAttempts(s, env, time);
    case Stop => GatedAttempts(s, env, r);
    case UpdatePlaybackStatus => GatedAttempts(s, env, r);
    case _ =>
  }

  /** One command together with the SDK's answers during it. */
  datatype Input = Input(cmd: Command, env: Env)

  /** Run `script` from `s`, collecting events and calls in order; `None` if some
      command would reach the gate without a selected device. */
  function Run(s: Session, script: seq<Input>): Option<Step>
    decreases |script|
  {
    if script == [] then Some(Quiet(s))
    else if Traps(s, script[0].cmd) then None
    else
      var first := Dispatch(s, script[0].env, script[0].cmd);
      match Run(first.session, script[1..])
      case None => None
      case Some(rest) => Some(Step(rest.session, first.events + rest.events, first.calls + rest.calls))
  }

  /** Runs keep sessions well formed. */
  lemma {:induction false} RunPreservesWf(s: Session, script: seq<Input>)
    requires Wf(s) && Run(s, script).Some?
    ensures Wf(Run(s, script).value.session)
    decreases |script|
  {
    if script != [] {
      DispatchPreservesWf(s, script[0].env, script[0].cmd);
      RunPreservesWf(Dispatch(s, script[0].env, script[0].cmd).session, script[1..]);
    }
  }

  /** Once a device is selected it stays selected, so no later command traps. */
  lemma {:induction false} SelectedRunsNeverTrap(s: Session, script: seq<Input>)
    requires s.device.Some?
    ensures Run(s, script).Some?
    ensures Run(s, script).value.session.device.Some?
    decreases |script|
  {
    if script != [] {
      DispatchFrame(s, script[0].env, script[0].cmd);
      SelectedRunsNeverTrap(Dispatch(s, script[0].env, script[0].cmd).session, script[1..]);
    }
  }

  /** A run makes at most two connect attempts per command. */
  lemma {:induction false} RunAttemptsBounded(s: Session, script: seq<Input>)
    requires Run(s, script).Some?
    ensures |Connects(Run(s, script).value.calls)| <= 2 * |script|
    decreases |script|
  {
    if script != [] {
      var first := Dispatch(s, script[0].env, script[0].cmd);
      AtMostTwoAttempts(s, script[0].env, script[0].cmd);
      RunAttemptsBounded(first.session, script[1..]);
      ConnectsAppend(first.calls, Run(first.session, script[1..]).value.calls);
    }
  }

  /** A device is discovered and the host connects to it; the primary certificate
      works and the application launches: the device is announced as connected
      exactly once, after being announced as available. */
  lemma DiscoverThenConnect(d: Device, env: Env)
    requires env.outcome(Connect("DEM412")) == Ok && env.outcome(StartApplication) == Ok
    ensures var r := Run(Initial, [Input(DevicesAdded([d]), env), Input(ConnectToDevice(d.upnpID, "MyApp"), env)]);
      && r.Some?
      && r.value.session.device == Some(d)
      && r.value.session.applicationName == "MyApp"
      && r.value.events == [Event(DeviceAvailable, DeviceBody(Some(d))), Event(DeviceConnected, DeviceBody(Some(d)))]
      && r.value.calls == [Connect("DEM412"), StartApplication]
  {
    var script := [Input(DevicesAdded([d]), env), Input(ConnectToDevice(d.upnpID, "MyApp"), env)];
    var s1 := Dispatch(Initial, env, DevicesAdded([d]));
    assert s1.session == Initial.(devices := [d]);
    assert s1.events == [Event(DeviceAvailable, DeviceBody(Some(d)))] && s1.calls == [];
    assert SessionControl.FirstIndex(s1.session.devices, d.upnpID) == Some(0);
    var t := s1.session.(device := Some(d), applicationName := "MyApp");
    var s2 := Dispatch(s1.session, env, ConnectToDevice(d.upnpID, "MyApp"));
    assert SessionControl.Reconnection(t, env, s2);
    assert Negotiator.Attempts(env) == [Connect("DEM412")];
    assert s2.session == t;
    assert s2.events == [Event(DeviceConnected, DeviceBody(Some(d)))];
    assert s2.calls == [Connect("DEM412"), StartApplication];
    assert script[1..] == [Input(ConnectToDevice(d.upnpID, "MyApp"), env)];
    assert script[1..][1..] == [];
    assert Run(s2.session, script[1..][1..]) == Some(Quiet(s2.session));
    assert s2.events + [] == s2.events && s2.calls + [] == s2.calls;
    assert Run(s1.session, script[1..]) == Some(Step(t, s2.events, s2.calls));
  }
}
