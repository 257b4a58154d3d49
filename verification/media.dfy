/** Media commands and the playback-state gating: every command except `Mute` and the
    resume inside `Seek` passes through the `EnsureConnected` gate; `Resume` and
    `Pause` are gated on the last known player state; `Seek` resumes a paused player
    before seeking. */
module Media {
  import opened OCastTypes
  import opened Negotiator
  import opened SessionControl

  const TwoTo64: int := 0x1_0000_0000_0000_0000

  /** The logo the cast request always carries. */
  const PlaceholderLogo: string := "https://placeholder.com"

  /** Reading a number as an unsigned 64-bit value: a negative number is taken modulo 2^64. */
  function UIntValue(n: int): (u: nat)
    ensures u < TwoTo64
    ensures 0 <= n < TwoTo64 ==> u == n
    ensures -TwoTo64 <= n < 0 ==> u == n + TwoTo64
  {
    n % TwoTo64
  }

  /** The seek position in whole seconds for a time in milliseconds: truncating
      division of the unsigned value by 1000. */
  function SeekSeconds(ms: int): (secs: nat)
    ensures secs * 1000 <= UIntValue(ms) < secs * 1000 + 1000
    ensures 0 <= ms < TwoTo64 ==> secs * 1000 <= ms < secs * 1000 + 1000
  {
    UIntValue(ms) / 1000
  }

  /** Sub-second remainders are dropped, never rounded up; a negative time wraps. */
  lemma SeekSecondsExamples()
    ensures SeekSeconds(5999) == 5
    ensures SeekSeconds(5000) == 5
    ensures SeekSeconds(999) == 0
    ensures SeekSeconds(-1) == 18446744073709551
  {
  }

  /** `r` is one issue of `call`: the call is made once, success is silent, failure is
      reported as `code`, and the session is untouched. */
  predicate Commanded(s: Session, env: Env, call: Call, code: ErrorCode, r: Step) {
    && r.session == s
    && r.calls == [call]
    && r.events == (if env.outcome(call) == Ok then [] else [Failure(code)])
  }

  /** Issue `call` on the selected device, if there is one. */
  function Issue(s: Session, env: Env, call: Call, code: ErrorCode): Step {
    if s.device.None? then Quiet(s)
    else Step(s, if env.outcome(call) == Ok then [] else [Failure(code)], [call])
  }

  /** Prepare the media on the device, behind the gate. */
  function CastMedia(s: Session, env: Env, media: MediaParams): (r: Step)
    requires s.device.Some?
    ensures env.linkUp ==> Commanded(s, env, PrepareMedia(media, PlaceholderLogo), CastFailed, r)
    ensures !env.linkUp ==> Reconnection(s, env, r)
  {
    EnsureConnected(s, env, t => Issue(t, env, PrepareMedia(media, PlaceholderLogo), CastFailed))
  }

  function ResumeIfPaused(s: Session, env: Env): Step {
    if s.lastState != Some(Paused) || s.device.None? then Quiet(s)
    else if env.outcome(ResumeMedia) == Ok then Step(s.(lastState := Some(Playing)), [], [ResumeMedia])
    else Step(s, [Failure(ResumeFailed)], [ResumeMedia])
  }

  /** Resume playback, behind the gate, only when the player is known to be paused. */
  function Resume(s: Session, env: Env): (r: Step)
    requires s.device.Some?
    ensures !env.linkUp ==> Reconnection(s, env, r)
    ensures env.linkUp ==> (ResumeMedia in r.calls <==> s.lastState == Some(Paused))
    ensures env.linkUp && s.lastState != Some(Paused) ==> r == Quiet(s)
    ensures env.linkUp && s.lastState == Some(Paused) ==> r.calls == [ResumeMedia]
    ensures env.linkUp && s.lastState == Some(Paused) && env.outcome(ResumeMedia) == Ok ==>
      r.session == s.(lastState := Some(Playing)) && r.events == []
    ensures env.linkUp && s.lastState == Some(Paused) && env.outcome(ResumeMedia) != Ok ==>
      r.session == s && r.events == [Failure(ResumeFailed)]
  {
    EnsureConnected(s, env, t => ResumeIfPaused(t, env))
  }

  function PauseIfPlaying(s: Session, env: Env): Step {
    if s.lastState != Some(Playing) || s.device.None? then Quiet(s)
    else if env.outcome(PauseMedia) == Ok then Step(s.(lastState := Some(Paused)), [], [PauseMedia])
    else Step(s, [Failure(PauseFailed)], [PauseMedia])
  }

  /** Pause playback, behind the gate, only when the player is known to be playing. */
  function Pause(s: Session, env: Env): (r: Step)
    requires s.device.Some?
    ensures !env.linkUp ==> Reconnection(s, env, r)
    ensures env.linkUp ==> (PauseMedia in r.calls <==> s.lastState == Some(Playing))
    ensures env.linkUp && s.lastState != Some(Playing) ==> r == Quiet(s)
    ensures env.linkUp && s.lastState == Some(Playing) ==> r.calls == [PauseMedia]
    ensures env.linkUp && s.lastState == Some(Playing) && env.outcome(PauseMedia) == Ok ==>
      r.session == s.(lastState := Some(Paused)) && r.events == []
    ensures env.linkUp && s.lastState == Some(Playing) && env.outcome(PauseMedia) != Ok ==>
      r.session == s && r.events == [Failure(PauseFailed)]
  {
    EnsureConnected(s, env, t => PauseIfPlaying(t, env))
  }

  /** Seek to `time` milliseconds, behind the gate. */
  function DoSeek(s: Session, env: Env, time: int): (r: Step)
    requires s.device.Some?
    ensures env.linkUp ==> Commanded(s, env, SeekMedia(SeekSeconds(time)), SeekFailed, r)
    ensures !env.linkUp ==> Reconnection(s, env, r)
  {
    EnsureConnected(s, env, t => Issue(t, env, SeekMedia(SeekSeconds(time)), SeekFailed))
  }

  /** Seek to `time` milliseconds. A paused player is first resumed directly, without
      the gate and without recording the new state, and the seek follows only if that
      resume succeeds. The gate force-unwraps the selected device, so the Swift code
      traps unless a device is selected or the player is paused. */
  function Seek(s: Session, env: Env, time: int): (r: Step)
    requires s.device.Some? || s.lastState == Some(Paused)
    ensures r.session == s
    ensures s.lastState != Some(Paused) && env.linkUp ==> Commanded(s, env, SeekMedia(SeekSeconds(time)), SeekFailed, r)
    ensures s.lastState != Some(Paused) && !env.linkUp ==> Reconnection(s, env, r)
    ensures s.lastState == Some(Paused) && s.device.None? ==> r == Quiet(s)
    ensures s.lastState == Some(Paused) && s.device.Some? ==> |r.calls| > 0 && r.calls[0] == ResumeMedia
    ensures s.lastState == Some(Paused) && s.device.Some? && env.outcome(ResumeMedia) != Ok ==>
      r.calls == [ResumeMedia] && r.events == [Failure(ResumeFailed)]
    ensures s.lastState == Some(Paused) && s.device.Some? && env.outcome(ResumeMedia) == Ok ==>
      var rest := Step(r.session, r.events, r.calls[1..]);
      && (env.linkUp ==> Commanded(s, env, SeekMedia(SeekSeconds(time)), SeekFailed, rest))
      && (!env.linkUp ==> Reconnection(s, env, rest))
  {
    if s.lastState == Some(Paused) then
      if s.device.None? then Quiet(s)
      else if env.outcome(ResumeMedia) == Ok then Prepend([ResumeMedia], DoSeek(s, env, time))
      else Step(s, [Failure(ResumeFailed)], [ResumeMedia])
    else DoSeek(s, env, time)
  }

  /** The seek is issued exactly when the gate finds the device connected and, for a
      paused player, the preceding resume succeeded; a failed resume is reported as a
      resume failure and never as a seek failure. */
  lemma SeekIssuedOnlyAfterResume(s: Session, env: Env, time: int)
    requires s.device.Some? || s.lastState == Some(Paused)
    ensures SeekMedia(SeekSeconds(time)) in Seek(s, env, time).calls <==>
      env.linkUp && (s.lastState == Some(Paused) ==> s.device.Some? && env.outcome(ResumeMedia) == Ok)
    ensures Failure(SeekFailed) in Seek(s, env, time).events ==> SeekMedia(SeekSeconds(time)) in Seek(s, env, time).calls
  {
    var r := Seek(s, env, time);
    var seek := SeekMedia(SeekSeconds(time));
    if !env.linkUp {
      if s.lastState != Some(Paused) {
        assert Reconnection(s, env, r);
        assert seek !in Attempts(env);
      } else if s.device.Some? && env.outcome(ResumeMedia) == Ok {
        assert Reconnection(s, env, Step(r.session, r.events, r.calls[1..]));
        assert r.calls == [ResumeMedia] + r.calls[1..];
        assert seek !in Attempts(env);
      }
    }
  }

  /** Stop playback, behind the gate. */
  function Stop(s: Session, env: Env): (r: Step)
    requires s.device.Some?
    ensures env.linkUp ==> Commanded(s, env, StopMedia, StopFailed, r)
    ensures !env.linkUp ==> Reconnection(s, env, r)
  {
    EnsureConnected(s, env, t => Issue(t, env, StopMedia, StopFailed))
  }

  /** Mute or unmute, directly, without the gate: nothing happens without a selected
      device and no reconnection is ever attempted. */
  function Mute(s: Session, env: Env, mute: bool): (r: Step)
    ensures s.device.None? ==> r == Quiet(s)
    ensures s.device.Some? ==> Commanded(s, env, MuteMedia(mute), MuteFailed, r)
  {
    Issue(s, env, MuteMedia(mute), MuteFailed)
  }

  function PullStatus(s: Session, env: Env): Step {
    if s.device.None? then Quiet(s)
    else if env.status.failed then Step(s, [Failure(PlaybackStatusUpdateFailed)], [MediaPlaybackStatus])
    else match env.status.value
      case None => Step(s, [], [MediaPlaybackStatus])
      case Some(st) => Step(s.(lastState := Some(st.state)), [Event(PlaybackStatusChanged, StatusBody(st))], [MediaPlaybackStatus])
  }

  /** Pull the playback status, behind the gate. A reported error wins over a reported
      status; a status, when it arrives alone, becomes the last known state and is
      forwarded. */
  function UpdatePlaybackStatus(s: Session, env: Env): (r: Step)
    requires s.device.Some?
    ensures !env.linkUp ==> Reconnection(s, env, r)
    ensures env.linkUp ==> r.calls == [MediaPlaybackStatus]
    ensures env.linkUp && env.status.failed ==> r.session == s && r.events == [Failure(PlaybackStatusUpdateFailed)]
    ensures env.linkUp && !env.status.failed && env.status.value.None? ==> r.session == s && r.events == []
    ensures env.linkUp && !env.status.failed && env.status.value.Some? ==>
      r.session == s.(lastState := Some(env.status.value.value.state)) &&
      r.events == [Event(PlaybackStatusChanged, StatusBody(env.status.value.value))]
  {
    EnsureConnected(s, env, t => PullStatus(t, env))
  }
}
