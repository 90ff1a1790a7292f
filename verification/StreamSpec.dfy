/**
 The life of a streaming session: starting with up to five connection attempts, stopping, and the
 frames sent in between.  Each operation is one step; a bridge object goes in and comes out.
 */
module StreamSpec {
  import opened Prelude
  import opened BridgeData
  import opened StreamProtocol

  const MAX_CONNECTS: nat := 5

  datatype Action =
    | Connect(ok: bool)
    | Disconnect
    | StarterStop(bridge: Bridge)
    | Send(payload: seq<Byte>)

  datatype Options = Options(colorSpace: ColorSpace, useClipV2: bool, groupId: seq<Byte>)

  datatype Session = Session(copy: Option<Bridge>, running: bool, seqNr: Byte, counter: nat,
                             options: Option<Options>, renderThread: bool, log: seq<Action>)

  /** The outside: what a stop request makes of a bridge object, whether the start was granted and what it made
      of the bridge, which connection attempts succeed, and the options the settings give. */
  datatype Env = Env(stopped: Bridge -> Bridge, granted: bool, afterGrant: Bridge, connects: nat -> bool, options: Options)

  datatype Event =
    | Start(bridge: Bridge, env: Env)
    | StartWithRenderThread(bridge: Bridge, env: Env)
    | Stop(env: Env)
    | StopBridge(bridge: Bridge, env: Env)
    | Frame(lights: seq<StreamLight>)

  function Initial(): Session { Session(None, false, 0, 0, None, false, []) }

  function Logged(s: Session, a: seq<Action>): Session { s.(log := s.log + a) }

  predicate IsSame(a: Bridge, b: Bridge) { a.id == b.id && a.ip == b.ip && a.selectedGroup == b.selectedGroup }

  predicate IsStreamingTo(s: Session, b: Bridge) { s.copy.Some? && s.running && IsSame(b, s.copy.value) }

  ghost predicate Valid(s: Session) { s.running ==> s.copy.Some? && s.options.Some? }

  /** Stop for a bridge object that is not the session's own copy. */
  function StoppedFor(s: Session, b: Bridge, env: Env): (Session, Bridge)
    requires s.running ==> s.copy.Some?
  {
    if !s.running then (s, b)
    else
      var t := Logged(s.(running := false, renderThread := false), [Disconnect]);
      var u := if IsSame(b, t.copy.value) then t
               else Logged(t, [StarterStop(t.copy.value)]).(copy := Some(env.stopped(t.copy.value)));
      if b.IsStreaming() then (Logged(u, [StarterStop(b)]), env.stopped(b)) else (u, b)
  }

  /** Stop for the session's own copy. */
  function Stopped(s: Session, env: Env): Session
    requires s.running ==> s.copy.Some?
  {
    if !s.running then s
    else
      var t := Logged(s.(running := false, renderThread := false), [Disconnect]);
      if t.copy.value.IsStreaming() then Logged(t, [StarterStop(t.copy.value)]).(copy := Some(env.stopped(t.copy.value))) else t
  }

  function ConnectFrom(connects: nat -> bool, k: nat): (bool, seq<Action>)
    requires k <= MAX_CONNECTS
    decreases MAX_CONNECTS - k
  {
    if k == MAX_CONNECTS then (false, [])
    else if connects(k) then (true, [Connect(true)])
    else
      var (ok, rest) := ConnectFrom(connects, k + 1);
      (ok, [Connect(false)] + rest)
  }

  function StartSession(s: Session, env: Env): (bool, Session, Bridge)
    requires !s.running
  {
    if !env.granted then (false, s, env.afterGrant)
    else
      var (ok, attempts) := ConnectFrom(env.connects, 0);
      var t := Logged(s.(copy := Some(env.afterGrant), running := true), attempts);
      if ok then (true, t.(seqNr := 0, counter := 0), env.afterGrant) else (false, Stopped(t, env), env.afterGrant)
  }

  /** A session that runs elsewhere is stopped first, and so is a session left over on the bridge. */
  function MadeFree(s: Session, bridge: Bridge, env: Env): (Session, Bridge)
    requires s.running ==> s.copy.Some?
  {
    var t := Stopped(s, env);
    var b := bridge.(busy := false);
    if b.IsStreaming() then (Logged(t, [StarterStop(b)]), env.stopped(b)) else (t, b)
  }

  function Started(s: Session, bridge: Bridge, env: Env): (bool, Session, Bridge)
    requires s.running ==> s.copy.Some?
  {
    if IsStreamingTo(s, bridge) then (true, s, bridge)
    else
      var (u, c) := MadeFree(s, bridge, env);
      if !c.IsReadyToStream() then (false, u.(copy := None), c)
      else StartSession(u.(options := Some(env.options)), env)
  }

  function StartedWithThread(s: Session, bridge: Bridge, env: Env): (bool, Session, Bridge)
    requires s.running ==> s.copy.Some?
  {
    if IsStreamingTo(s, bridge) then (true, s, bridge)
    else
      var (ok, t, b) := Started(s, bridge, env);
      (ok, if ok then t.(renderThread := true) else t, b)
  }

  function FrameOptions(o: Options, lights: seq<StreamLight>): StreamOptions {
    StreamOptions(o.colorSpace, o.useClipV2, o.groupId, lights)
  }

  function FrameSent(s: Session, lights: seq<StreamLight>): Session
    requires Valid(s)
  {
    if !s.running then s
    else
      Logged(s, [Send(Payload(FrameOptions(s.options.value, lights), s.seqNr))])
        .(counter := s.counter + 1, seqNr := (s.seqNr + 1) % 256)
  }

  function Step(s: Session, e: Event): Session
    requires Valid(s)
  {
    match e
    case Start(b, env) => Started(s, b, env).1
    case StartWithRenderThread(b, env) => StartedWithThread(s, b, env).1
    case Stop(env) => Stopped(s, env)
    case StopBridge(b, env) => StoppedFor(s, b, env).0
    case Frame(lights) => FrameSent(s, lights)
  }
}
