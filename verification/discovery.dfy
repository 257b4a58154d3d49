/** Discovery bookkeeping and scan control: the discovery-center callbacks that maintain
    the device list and the entry points that pause and resume discovery. */
module Discovery {
  import opened OCastTypes

  /** One event named `name` per device of `ds`, in order. */
  function Notify(name: EventName, ds: seq<Device>): (r: seq<Event>)
    ensures |r| == |ds|
    ensures forall i :: 0 <= i < |ds| ==> r[i] == Event(name, DeviceBody(Some(ds[i])))
  {
    if ds == [] then [] else [Event(name, DeviceBody(Some(ds[0])))] + Notify(name, ds[1..])
  }

  /** The center found `added`: announce each one and append them all to the list,
      without looking for devices already there. */
  function DidAdd(s: Session, added: seq<Device>): (r: Step)
    ensures |r.session.devices| == |s.devices| + |added|
    ensures r.session.devices[..|s.devices|] == s.devices
    ensures r.session.devices[|s.devices|..] == added
    ensures multiset(r.session.devices) == multiset(s.devices) + multiset(added)
    ensures r.session == s.(devices := r.session.devices)
    ensures |r.events| == |added|
    ensures forall i :: 0 <= i < |added| ==> r.events[i] == Event(DeviceAvailable, DeviceBody(Some(added[i])))
    ensures r.calls == []
  {
    Step(s.(devices := s.devices + added), Notify(DeviceAvailable, added), [])
  }

  /** The center lost `removed`: announce each one and take over the center's own
      list `remaining`. */
  function DidRemove(s: Session, removed: seq<Device>, remaining: seq<Device>): (r: Step)
    ensures r.session.devices == remaining
    ensures r.session == s.(devices := remaining)
    ensures |r.events| == |removed|
    ensures forall i :: 0 <= i < |removed| ==> r.events[i] == Event(DeviceLost, DeviceBody(Some(removed[i])))
    ensures r.calls == []
  {
    Step(s.(devices := remaining), Notify(DeviceLost, removed), [])
  }

  /** The center reports that discovery stopped, with or without an error. The
      manager only logs it; the center's own running flag now reads not running. */
  function CenterDidStop(s: Session, failed: bool): (r: Step)
    ensures !r.session.running
    ensures r.session == s.(running := false)
    ensures r.events == [] && r.calls == []
  {
    Step(s.(running := false), [], [])
  }

  /** Resume discovery unless it is already running. */
  function StartScan(s: Session): (r: Step)
    ensures r.session.running
    ensures r.session == s.(running := true)
    ensures r.events == []
    ensures r.calls == (if s.running then [] else [ResumeDiscovery])
  {
    if !s.running then Step(s.(running := true), [], [ResumeDiscovery]) else Quiet(s)
  }

  /** Pause discovery if it is running. */
  function StopScan(s: Session): (r: Step)
    ensures !r.session.running
    ensures r.session == s.(running := false)
    ensures r.events == []
    ensures r.calls == (if s.running then [PauseDiscovery] else [])
  {
    if s.running then Step(s.(running := false), [], [PauseDiscovery]) else Quiet(s)
  }

  /** The host application went to the background: widen the interval and pause,
      whether or not discovery was running. */
  function EnterBackground(s: Session): (r: Step)
    ensures r.session == s.(interval := BackgroundInterval, running := false)
    ensures r.events == [] && r.calls == [PauseDiscovery]
  {
    Step(s.(interval := BackgroundInterval, running := false), [], [PauseDiscovery])
  }

  /** The host application returns to the foreground: restore the interval, then
      behave as `StartScan`. */
  function EnterForeground(s: Session): (r: Step)
    ensures r.session == s.(interval := ForegroundInterval, running := true)
    ensures r.events == []
    ensures r.calls == (if s.running then [] else [ResumeDiscovery])
  {
    StartScan(s.(interval := ForegroundInterval))
  }

  /** A second `StartScan` issues nothing and changes nothing. */
  lemma StartScanIdempotent(s: Session)
    ensures StartScan(StartScan(s).session) == Quiet(StartScan(s).session)
  {
  }

  /** A second `StopScan` issues nothing and changes nothing. */
  lemma StopScanIdempotent(s: Session)
    ensures StopScan(StopScan(s).session) == Quiet(StopScan(s).session)
  {
  }

  /** Going to the background and back restarts discovery with the foreground
      interval: exactly one pause followed by exactly one resume. */
  lemma BackgroundForegroundRoundTrip(s: Session)
    ensures EnterForeground(EnterBackground(s).session).session == s.(interval := ForegroundInterval, running := true)
    ensures EnterBackground(s).calls + EnterForeground(EnterBackground(s).session).calls == [PauseDiscovery, ResumeDiscovery]
  {
  }

  /** After the center reports a stop, `StartScan` resumes discovery again. */
  lemma StartScanAfterCenterStop(s: Session, failed: bool)
    ensures StartScan(CenterDidStop(s, failed).session).calls == [ResumeDiscovery]
    ensures StartScan(CenterDidStop(s, failed).session).session.running
  {
  }

  /** Adding a device that is already listed lists it once more. */
  lemma DidAddKeepsDuplicates(s: Session, d: Device)
    requires d in s.devices
    ensures multiset(DidAdd(s, [d]).session.devices)[d] == multiset(s.devices)[d] + 1
    ensures |DidAdd(s, [d]).session.devices| == |s.devices| + 1
  {
  }
}
