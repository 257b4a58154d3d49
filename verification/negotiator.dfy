/** Connection negotiation with certificate failover: connect with the primary client
    certificate, retry exactly once with the fallback certificate, and on success run a
    continuation supplied by the caller. */
module Negotiator {
  import opened OCastTypes

  /** The bundled client certificate the fallback flag selects. */
  function ClientCertificate(fallback: bool): (name: string)
    ensures fallback <==> name == "client"
    ensures !fallback <==> name == "DEM412"
  {
    if fallback then "client" else "DEM412"
  }

  /** Whether either certificate bundle gets a connection. */
  predicate Connected(env: Env) {
    env.outcome(Connect("DEM412")) == Ok || env.outcome(Connect("client")) == Ok
  }

  /** The connect attempts of one negotiation: the primary bundle "DEM412" first, the
      fallback bundle "client" only after the primary failed, never a third. */
  function Attempts(env: Env): (a: seq<Call>)
    ensures 1 <= |a| <= 2
    ensures a[0] == Connect("DEM412")
    ensures |a| == 2 <==> env.outcome(Connect("DEM412")) != Ok
    ensures |a| == 2 ==> a[1] == Connect("client")
  {
    var primary := Connect(ClientCertificate(false));
    if env.outcome(primary) == Ok then [primary] else [primary, Connect(ClientCertificate(true))]
  }

  /** Connect the selected device with the certificate bundle `fallback` picks; on failure
      with the primary, retry with the fallback; on success run `onConnected`.
      Nothing happens when no device is selected. */
  function InitDevice(s: Session, env: Env, fallback: bool, onConnected: Session -> Step): (r: Step)
    ensures s.device.None? ==> r == Quiet(s)
    ensures s.device.Some? && !fallback && Connected(env) ==> r == Prepend(Attempts(env), onConnected(s))
    ensures s.device.Some? && !fallback && !Connected(env) ==> r == Step(s, [], Attempts(env))
    decreases !fallback
  {
    if s.device.None? then Quiet(s)
    else
      var attempt := Connect(ClientCertificate(fallback));
      if env.outcome(attempt) == Ok then Prepend([attempt], onConnected(s))
      else if !fallback then Prepend([attempt], InitDevice(s, env, true, onConnected))
      else Step(s, [], [attempt])
  }
}
