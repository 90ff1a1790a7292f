/**
 Streaming sessions over whole runs.
 */
module StreamRuns {
  import opened Prelude
  import opened BridgeData
  import opened StreamProtocol
  import opened StreamSpec

  // ---------------------------------------------------------------- one start

  function ConnectCount(log: seq<Action>): nat {
    if log == [] then 0 else ConnectCount(log[..|log| - 1]) + if log[|log| - 1].Connect? then 1 else 0
  }

  /** Connecting stops at the first success, after five attempts at most. */
  lemma {:induction false} ConnectFromIs(connects: nat -> bool, k: nat)
    requires k <= MAX_CONNECTS
    ensures var (ok, attempts) := ConnectFrom(connects, k);
            && |attempts| <= MAX_CONNECTS - k
            && (ok ==> attempts != [] && attempts[|attempts| - 1] == Connect(true) && connects(k + |attempts| - 1))
            && (!ok ==> |attempts| == MAX_CONNECTS - k)
            && (forall i :: 0 <= i < |attempts| - (if ok then 1 else 0) ==> attempts[i] == Connect(false) && !connects(k + i))
    decreases MAX_CONNECTS - k
  {
    if k < MAX_CONNECTS && !connects(k) {
      ConnectFromIs(connects, k + 1);
    }
  }

  lemma {:induction false} StoppedIs(s: Session, env: Env)
    requires s.running ==> s.copy.Some?
    ensures !Stopped(s, env).running && ConnectCount(Stopped(s, env).log) == ConnectCount(s.log)
  {
    hide Bridge.GetStatus;
    hide ConnectCount;
    if s.running {
      NoConnect(s.log, Disconnect);
      NoConnect(s.log + [Disconnect], StarterStop(s.copy.value));
    }
  }

  lemma {:induction false} MadeFreeIs(s: Session, b: Bridge, env: Env)
    requires s.running ==> s.copy.Some?
    ensures !MadeFree(s, b, env).0.running && ConnectCount(MadeFree(s, b, env).0.log) == ConnectCount(s.log)
  {
    hide Bridge.GetStatus;
    hide ConnectCount;
    hide Stopped;
    StoppedIs(s, env);
    NoConnect(Stopped(s, env).log, StarterStop(b.(busy := false)));
  }

  lemma {:induction false} NoConnect(log: seq<Action>, a: Action)
    requires !a.Connect?
    ensures ConnectCount(log + [a]) == ConnectCount(log)
  {
    assert (log + [a])[..|log|] == log;
  }

  lemma {:induction false} ConnectCountAppends(log: seq<Action>, more: seq<Action>)
    ensures ConnectCount(log + more) <= ConnectCount(log) + |more|
  {
    if more == [] {
      assert log + more == log;
    } else {
      ConnectCountAppends(log, more[..|more| - 1]);
      assert (log + more)[..|log + more| - 1] == log + more[..|more| - 1];
    }
  }

  lemma {:induction false} StartSessionIs(s: Session, env: Env)
    requires !s.running
    ensures var (ok, t, _) := StartSession(s, env);
            && t.running == ok && t.options == s.options && (ok ==> t.copy.Some?)
            && ConnectCount(t.log) <= ConnectCount(s.log) + MAX_CONNECTS
  {
    var (ok, attempts) := ConnectFrom(env.connects, 0);
    ConnectFromIs(env.connects, 0);
    ConnectCountAppends(s.log, attempts);
    hide ConnectFrom;
    hide ConnectCount;
    var t := Logged(s.(copy := Some(env.afterGrant), running := true), attempts);
    StoppedIs(t, env);
    StoppedKeepsOptions(t, env);
    hide Stopped;
  }

  lemma {:induction false} StoppedKeepsOptions(s: Session, env: Env)
    requires s.running ==> s.copy.Some?
    ensures Stopped(s, env).options == s.options
  {
    hide Bridge.GetStatus;
  }

  /** A start answers whether the session runs, from every state, leaves a valid session, and connects at most
      five times. */
  lemma {:induction false} StartAnswersRunning(s: Session, b: Bridge, env: Env)
    requires Valid(s)
    ensures var (ok, t, _) := Started(s, b, env);
            Valid(t) && t.running == ok && ConnectCount(t.log) <= ConnectCount(s.log) + MAX_CONNECTS
  {
    MadeFreeIs(s, b, env);
    var (u, c) := MadeFree(s, b, env);
    StartSessionIs(u.(options := Some(env.options)), env);
    hide StartSession;
    hide MadeFree;
    hide ConnectCount;
    hide Bridge.IsReadyToStream;
  }

  lemma {:induction false} ThreadStartAnswersRunning(s: Session, b: Bridge, env: Env)
    requires Valid(s)
    ensures var (ok, t, _) := StartedWithThread(s, b, env);
            Valid(t) && t.running == ok && ConnectCount(t.log) <= ConnectCount(s.log) + MAX_CONNECTS
  {
    StartAnswersRunning(s, b, env);
    hide Started;
    hide ConnectCount;
  }

  /** When all five attempts fail the session is taken down again: disconnected, and the stream stopped on the
      bridge if it still counts as streaming. */
  lemma {:induction false} FailedConnectStops(s: Session, env: Env)
    requires !s.running && env.granted && forall k: nat :: k < MAX_CONNECTS ==> !env.connects(k)
    ensures var (ok, t, b) := StartSession(s, env);
            && !ok && !t.running && b == env.afterGrant
            && t.log == s.log + [Connect(false), Connect(false), Connect(false), Connect(false), Connect(false), Disconnect]
                        + if b.IsStreaming() then [StarterStop(b)] else []
  {
    hide Bridge.GetStatus;
    ConnectFromIs(env.connects, 0);
    var (ok, attempts) := ConnectFrom(env.connects, 0);
    hide ConnectFrom;
    assert attempts == [Connect(false), Connect(false), Connect(false), Connect(false), Connect(false)];
    var t := Logged(s.(copy := Some(env.afterGrant), running := true), attempts);
    Extend(s.log, attempts, [Disconnect], if env.afterGrant.IsStreaming() then [StarterStop(env.afterGrant)] else []);
  }

  lemma {:induction false} Extend(log: seq<Action>, a: seq<Action>, b: seq<Action>, c: seq<Action>)
    ensures log + a + b + c == log + (a + b) + c && log + a + b + [] == log + a + b
  {
  }

  // ---------------------------------------------------------------- frames

  /** The frames sent since the last successful connection. */
  function FramesSince(log: seq<Action>): nat {
    if log == [] then 0
    else
      match log[|log| - 1]
      case Connect(true) => 0
      case Send(_) => FramesSince(log[..|log| - 1]) + 1
      case _ => FramesSince(log[..|log| - 1])
  }

  /** The k-th frame after a connection carries the number k - 1 modulo 256. */
  ghost predicate Numbered(log: seq<Action>) {
    forall i :: 0 <= i < |log| && log[i].Send? ==>
      |log[i].payload| >= HEADER_SIZE && log[i].payload[11] == FramesSince(log[..i]) % 256
  }

  ghost predicate Counting(s: Session) {
    && Valid(s) && Numbered(s.log)
    && (s.running ==> s.counter == FramesSince(s.log) && s.seqNr == s.counter % 256)
  }

  lemma {:induction false} NumberedOneMore(log: seq<Action>, a: Action)
    requires Numbered(log)
    requires a.Send? ==> |a.payload| >= HEADER_SIZE && a.payload[11] == FramesSince(log) % 256
    ensures Numbered(log + [a])
    ensures FramesSince(log + [a]) == match a case Connect(true) => 0 case Send(_) => FramesSince(log) + 1 case _ => FramesSince(log)
  {
    var more := log + [a];
    assert more[..|log|] == log;
    forall i | 0 <= i < |more| && more[i].Send?
      ensures |more[i].payload| >= HEADER_SIZE && more[i].payload[11] == FramesSince(more[..i]) % 256
    {
      if i < |log| {
        assert more[..i] == log[..i];
      }
    }
  }

  lemma {:induction false} NumberedQuietly(log: seq<Action>, more: seq<Action>)
    requires Numbered(log) && forall i :: 0 <= i < |more| ==> !more[i].Send?
    ensures Numbered(log + more)
    ensures more != [] && more[|more| - 1] == Connect(true) ==> FramesSince(log + more) == 0
  {
    hide Numbered;
    hide FramesSince;
    if more == [] {
      assert log + more == log;
    } else {
      var front, last := more[..|more| - 1], more[|more| - 1];
      NumberedQuietly(log, front);
      NumberedOneMore(log + front, last);
      assert log + front + [last] == log + more;
    }
  }

  lemma {:induction false} StoppedCounts(s: Session, env: Env)
    requires Counting(s)
    ensures Counting(Stopped(s, env)) && !Stopped(s, env).running
  {
    hide Numbered;
    hide FramesSince;
    hide Bridge.GetStatus;
    if s.running {
      NumberedQuietly(s.log, [Disconnect]);
      NumberedQuietly(s.log + [Disconnect], [StarterStop(s.copy.value)]);
    }
  }

  lemma {:induction false} StoppedForCounts(s: Session, b: Bridge, env: Env)
    requires Counting(s)
    ensures Counting(StoppedFor(s, b, env).0) && !StoppedFor(s, b, env).0.running
  {
    hide Numbered;
    hide FramesSince;
    hide Bridge.GetStatus;
    if s.running {
      var l := s.log + [Disconnect];
      NumberedQuietly(s.log, [Disconnect]);
      NumberedQuietly(l, [StarterStop(s.copy.value)]);
      NumberedQuietly(l, [StarterStop(b)]);
      NumberedQuietly(l + [StarterStop(s.copy.value)], [StarterStop(b)]);
    }
  }

  lemma {:induction false} StartSessionCounts(s: Session, env: Env)
    requires Counting(s) && !s.running && s.options.Some?
    ensures Counting(StartSession(s, env).1)
  {
    var (ok, attempts) := ConnectFrom(env.connects, 0);
    ConnectFromIs(env.connects, 0);
    hide ConnectFrom;
    hide Numbered;
    hide FramesSince;
    hide Bridge.GetStatus;
    hide Stopped;
    if env.granted {
      NumberedQuietly(s.log, attempts);
      if !ok {
        var t := Logged(s.(copy := Some(env.afterGrant), running := true), attempts);
        StoppedNumbered(t, env);
      }
    }
  }

  lemma {:induction false} StoppedNumbered(s: Session, env: Env)
    requires Valid(s) && Numbered(s.log)
    ensures Counting(Stopped(s, env)) && !Stopped(s, env).running
  {
    hide Numbered;
    hide FramesSince;
    hide Bridge.GetStatus;
    if s.running {
      NumberedQuietly(s.log, [Disconnect]);
      NumberedQuietly(s.log + [Disconnect], [StarterStop(s.copy.value)]);
    }
  }

  lemma {:induction false} StartedCounts(s: Session, b: Bridge, env: Env)
    requires Counting(s)
    ensures Counting(Started(s, b, env).1)
  {
    hide Numbered;
    hide FramesSince;
    hide Bridge.GetStatus;
    hide MadeFree;
    hide StartSession;
    if !IsStreamingTo(s, b) {
      MadeFreeCounts(s, b, env);
      var u := MadeFree(s, b, env).0;
      StartSessionCounts(u.(options := Some(env.options)), env);
    }
  }

  lemma {:induction false} MadeFreeCounts(s: Session, b: Bridge, env: Env)
    requires Counting(s)
    ensures Counting(MadeFree(s, b, env).0) && !MadeFree(s, b, env).0.running
  {
    hide Numbered;
    hide FramesSince;
    hide Bridge.GetStatus;
    hide Stopped;
    StoppedCounts(s, env);
    NumberedQuietly(Stopped(s, env).log, [StarterStop(b.(busy := false))]);
  }

  lemma {:induction false} FrameCounts(s: Session, lights: seq<StreamLight>)
    requires Counting(s)
    ensures Counting(FrameSent(s, lights))
  {
    hide Numbered;
    hide FramesSince;
    hide Payload;
    hide FrameOptions;
    if s.running {
      var payload := Payload(FrameOptions(s.options.value, lights), s.seqNr);
      CarriesNumber(FrameOptions(s.options.value, lights), s.seqNr);
      NextNumber(s.counter);
      NumberedOneMore(s.log, Send(payload));
    }
  }

  lemma {:induction false} CarriesNumber(o: StreamOptions, seqNr: Byte)
    ensures |Payload(o, seqNr)| >= HEADER_SIZE && Payload(o, seqNr)[11] == seqNr
  {
    PayloadStripped(o, seqNr);
  }

  lemma {:induction false} NextNumber(n: nat)
    ensures (n % 256 + 1) % 256 == (n + 1) % 256
  {
  }

  lemma {:induction false} StepCounts(s: Session, e: Event)
    requires Counting(s)
    ensures Counting(Step(s, e))
  {
    hide *;
    assert Valid(s) by { CountingIsValid(s); }
    StepIs(s, e);
    match e
    case Start(b, env) => StartedCounts(s, b, env);
    case StartWithRenderThread(b, env) => StartedCounts(s, b, env); ThreadCounts(s, b, env);
    case Stop(env) => StoppedCounts(s, env);
    case StopBridge(b, env) => StoppedForCounts(s, b, env);
    case Frame(lights) => FrameCounts(s, lights);
  }

  lemma {:induction false} CountingIsValid(s: Session)
    requires Counting(s)
    ensures Valid(s)
  {
  }

  lemma {:induction false} StepIs(s: Session, e: Event)
    requires Valid(s)
    ensures e.Start? ==> Step(s, e) == Started(s, e.bridge, e.env).1
    ensures e.StartWithRenderThread? ==> Step(s, e) == StartedWithThread(s, e.bridge, e.env).1
    ensures e.Stop? ==> Step(s, e) == Stopped(s, e.env)
    ensures e.StopBridge? ==> Step(s, e) == StoppedFor(s, e.bridge, e.env).0
    ensures e.Frame? ==> Step(s, e) == FrameSent(s, e.lights)
  {
    hide Started;
    hide StartedWithThread;
    hide Stopped;
    hide StoppedFor;
    hide FrameSent;
  }

  lemma {:induction false} ThreadCounts(s: Session, b: Bridge, env: Env)
    requires Counting(s) && Counting(Started(s, b, env).1)
    ensures Counting(StartedWithThread(s, b, env).1)
  {
    hide Started;
    hide Numbered;
    hide FramesSince;
  }

  // ---------------------------------------------------------------- runs

  ghost function After(run: seq<Event>): (s: Session)
    ensures Counting(s)
  {
    if run == [] then Initial()
    else
      StepCounts(After(run[..|run| - 1]), run[|run| - 1]);
      Step(After(run[..|run| - 1]), run[|run| - 1])
  }

  /** In every run: a running session has its bridge and options; within a session the k-th frame carries k - 1
      modulo 256; and the counter is the number of frames sent in the session. */
  lemma {:induction false} EverySessionCounts(run: seq<Event>)
    ensures var s := After(run);
            && (s.running ==> s.copy.Some? && s.options.Some? && s.counter == FramesSince(s.log))
            && Numbered(s.log)
  {
  }
}
