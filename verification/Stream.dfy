/**
 The stream object as it is written: fields that its operations update one by one.
 */
module Stream {
  import opened Prelude
  import opened BridgeData
  import opened StreamProtocol
  import opened StreamSpec

  class StreamObject {
    var activeBridgeCopy: Option<Bridge>
    var running: bool
    var seqNr: Byte
    var streamCounter: nat
    var options: Option<Options>
    var renderThread: bool
    var log: seq<Action>

    ghost function View(): Session
      reads this
    {
      Session(activeBridgeCopy, running, seqNr, streamCounter, options, renderThread, log)
    }

    constructor ()
      ensures View() == Initial()
    {
      activeBridgeCopy, running, seqNr, streamCounter, options := None, false, 0, 0, None;
      renderThread, log := false, [];
    }

    method Note(a: Action)
      modifies this`log
      ensures View() == Logged(old(View()), [a])
    {
      log := log + [a];
    }

    method Start(bridge: Bridge, env: Env) returns (ok: bool, b: Bridge)
      requires running ==> activeBridgeCopy.Some?
      modifies this
      ensures (ok, View(), b) == Started(old(View()), bridge, env)
    {
      hide StartSession;
      hide MadeFree;
      hide Bridge.GetStatus;
      if activeBridgeCopy.Some? && running && IsSame(bridge, activeBridgeCopy.value) {
        return true, bridge;
      }
      b := MakeFree(bridge, env);
      if !b.IsReadyToStream() {
        activeBridgeCopy := None;
        return false, b;
      }
      options := Some(env.options);
      ok, b := StartStreamingSession(env);
    }

    method MakeFree(bridge: Bridge, env: Env) returns (b: Bridge)
      requires running ==> activeBridgeCopy.Some?
      modifies this
      ensures (View(), b) == MadeFree(old(View()), bridge, env)
      ensures !running
    {
      hide Stopped;
      hide Bridge.GetStatus;
      NotRunning(View(), env);
      if running {
        StopOwn(env);
      }
      b := bridge.(busy := false);
      if b.IsStreaming() {
        Note(StarterStop(b));
        b := env.stopped(b);
      }
    }

    method StartStreamingSession(env: Env) returns (ok: bool, b: Bridge)
      requires !running
      modifies this
      ensures (ok, View(), b) == StartSession(old(View()), env)
    {
      hide Stopped;
      b := env.afterGrant;
      if !env.granted {
        return false, b;
      }
      activeBridgeCopy := Some(b);
      ok := ConnectUpToFiveTimes(env);
      if !ok {
        StopOwn(env);
        return false, b;
      }
      seqNr := 0;
      streamCounter := 0;
    }

    method ConnectUpToFiveTimes(env: Env) returns (ok: bool)
      modifies this
      ensures ok == ConnectFrom(env.connects, 0).0
      ensures View() == Logged(old(View()).(running := true), ConnectFrom(env.connects, 0).1)
    {
      ok := false;
      var attempts := 0;
      ghost var done: seq<Action> := [];
      assert [] + ConnectFrom(env.connects, 0).1 == ConnectFrom(env.connects, 0).1;
      while !ok && attempts < MAX_CONNECTS
        invariant attempts <= MAX_CONNECTS
        invariant View() == old(View()).(running := running, log := old(log) + done)
        invariant running == (attempts > 0 || old(running))
        invariant ok ==> ConnectFrom(env.connects, 0) == (true, done) && attempts > 0
        invariant !ok ==> ConnectFrom(env.connects, 0).0 == ConnectFrom(env.connects, attempts).0
        invariant !ok ==> ConnectFrom(env.connects, 0).1 == done + ConnectFrom(env.connects, attempts).1
      {
        running := true;
        ok := env.connects(attempts);
        Note(Connect(ok));
        Appended(old(log), done, Connect(ok), ConnectFrom(env.connects, attempts + 1).1);
        done := done + [Connect(ok)];
        attempts := attempts + 1;
      }
    }

    /** Stop for the session's own copy of the bridge. */
    method StopOwn(env: Env)
      requires running ==> activeBridgeCopy.Some?
      modifies this
      ensures View() == Stopped(old(View()), env)
    {
      hide Bridge.GetStatus;
      if !running {
        return;
      }
      running := false;
      renderThread := false;
      Note(Disconnect);
      var bridge := activeBridgeCopy.value;
      if bridge.IsStreaming() {
        Note(StarterStop(bridge));
        activeBridgeCopy := Some(env.stopped(bridge));
      }
    }

    /** Stop for another bridge object. */
    method StopFor(bridge: Bridge, env: Env) returns (b: Bridge)
      requires running ==> activeBridgeCopy.Some?
      modifies this
      ensures (View(), b) == StoppedFor(old(View()), bridge, env)
    {
      hide Bridge.GetStatus;
      b := bridge;
      if !running {
        return;
      }
      running := false;
      renderThread := false;
      Note(Disconnect);
      if !IsSame(bridge, activeBridgeCopy.value) {
        Note(StarterStop(activeBridgeCopy.value));
        activeBridgeCopy := Some(env.stopped(activeBridgeCopy.value));
      }
      if bridge.IsStreaming() {
        Note(StarterStop(bridge));
        b := env.stopped(bridge);
      }
    }

    method StartWithThread(bridge: Bridge, env: Env) returns (ok: bool, b: Bridge)
      requires running ==> activeBridgeCopy.Some?
      modifies this
      ensures (ok, View(), b) == StartedWithThread(old(View()), bridge, env)
    {
      hide Started;
      if activeBridgeCopy.Some? && running && IsSame(bridge, activeBridgeCopy.value) {
        return true, bridge;
      }
      ok, b := Start(bridge, env);
      if ok {
        renderThread := true;
      }
    }

    method RenderSingleFrame(lights: seq<StreamLight>)
      requires Valid(View())
      modifies this
      ensures View() == FrameSent(old(View()), lights)
    {
      hide Payload;
      if !running {
        return;
      }
      streamCounter := streamCounter + 1;
      var payload := Serialize(FrameOptions(options.value, lights), seqNr);
      seqNr := (seqNr + 1) % 256;
      Note(Send(payload));
    }

    method Do(e: Event)
      requires Valid(View())
      modifies this
      ensures View() == Step(old(View()), e)
    {
      hide Started;
      hide StartedWithThread;
      hide Stopped;
      hide StoppedFor;
      hide FrameSent;
      match e {
        case Start(b, env) => var _, _ := Start(b, env);
        case StartWithRenderThread(b, env) => var _, _ := StartWithThread(b, env);
        case Stop(env) => StopOwn(env);
        case StopBridge(b, env) => var _ := StopFor(b, env);
        case Frame(lights) => RenderSingleFrame(lights);
      }
    }
  }

  lemma {:induction false} NotRunning(s: Session, env: Env)
    requires s.running ==> s.copy.Some?
    ensures !Stopped(s, env).running && (!s.running ==> Stopped(s, env) == s)
  {
    hide Bridge.GetStatus;
  }

  lemma {:induction false} Appended(log: seq<Action>, done: seq<Action>, a: Action, rest: seq<Action>)
    ensures log + done + [a] == log + (done + [a])
    ensures done + ([a] + rest) == done + [a] + rest && done + [a] + [] == done + [a]
  {
  }
}
