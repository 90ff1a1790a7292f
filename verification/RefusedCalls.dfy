/**
 When a call of the application leads to a procedure, and when it only leaves the front busy.
 */
module RefusedCalls {
  import opened Prelude
  import opened BridgeData
  import opened FlowProtocol
  import opened FlowMessages
  import opened FlowSpec
  import opened FlowInvariant
  import opened FlowRuns
  import opened FlowTrace
  import opened ConnectSpec
  import opened ConnectSystem
  import D = DispatcherSpec
  import BridgeStreamingChecker

  // ---------------------------------------------------------------- what a call of an idle flow says first

  function RequestOf(e: Event): Request {
    match e
    case Load => LoadBridge
    case ConnectToBridge => Connect
    case ConnectToBridgeBackground => ConnectBackground
    case ConnectToBridgeWithIp(_) => ConnectIp
    case ConnectToNewBridge => ConnectNew
    case SetManual(_) => SetManualBridge
    case ConnectWithIdKey(_, _, _) => ConnectIdKey
    case Reset(onlyActive) => if onlyActive then ResetBridge else ResetAll
    case SelectGroup(_) => Select
    case _ => Internal
  }

  predicate IsLoudCall(e: Event) { IsCall(e) && !IsSilentCall(e) }

  function Announcement(f: Flow, e: Event): Message { Message(RequestOf(e), UserProcedureStarted, f.Active()) }

  lemma {:induction false} BeginSays(f: Flow, e: Event)
    requires f.state.Idle? && IsLoudCall(e)
    ensures Begin(f, RequestOf(e)).trace == f.trace + [Announcement(f, e)]
  {
  }

  lemma {:induction false} LoadingCallAnnounces(f: Flow, e: Event, cfg: Config, env: Env)
    requires f.state.Idle? && IsLoudCall(e) && !e.ConnectToBridge? && !e.Reset? && !e.SelectGroup?
    ensures Grown(Begin(f, RequestOf(e)).trace, Step(f, e, cfg, env))
  {
    hide Begin;
    hide StartLoadingData;
    hide StopIfStreaming;
    hide SetActiveBridge;
    hide IpBridge;
    hide ManualBridge;
    hide IdKeyBridge;
    StartsGrow(Begin(f, RequestOf(e)).trace);
  }

  lemma {:induction false} OtherCallAnnounces(f: Flow, e: Event, cfg: Config, env: Env)
    requires f.state.Idle? && (e.ConnectToBridge? || e.Reset? || e.SelectGroup?)
    ensures Grown(Begin(f, RequestOf(e)).trace, Step(f, e, cfg, env))
  {
    hide Begin;
    hide Finish;
    hide Tell;
    hide StartLoadingData;
    hide StartSavingData;
    hide StartAuthentication;
    hide ReportActionRequired;
    hide StopIfStreaming;
    hide ClearActiveBridge;
    hide Bridge.SelectGroup;
    hide Bridge.GetGroup;
    var sent := Begin(f, RequestOf(e)).trace;
    MessagesGrow(sent);
    FinishGrows(sent);
    StartsGrow(sent);
    MoreStartsGrow(sent);
  }

  /** A loud call that an idle flow takes is announced at once; another flow ignores it. */
  lemma {:induction false} LoudCallAnnounces(f: Flow, e: Event, cfg: Config, env: Env)
    requires IsLoudCall(e)
    ensures f.state.Idle? ==> f.trace + [Announcement(f, e)] <= Step(f, e, cfg, env).trace
    ensures !f.state.Idle? ==> Step(f, e, cfg, env) == f
  {
    if f.state.Idle? {
      BeginSays(f, e);
      if e.ConnectToBridge? || e.Reset? || e.SelectGroup? {
        OtherCallAnnounces(f, e, cfg, env);
      } else {
        LoadingCallAnnounces(f, e, cfg, env);
      }
      hide Step;
      hide Begin;
    } else {
      RefusedCall(f, e, cfg, env);
    }
  }

  lemma {:induction false} RefusedCall(f: Flow, e: Event, cfg: Config, env: Env)
    requires IsLoudCall(e) && !f.state.Idle?
    ensures Step(f, e, cfg, env) == f
  {
    hide Begin;
    hide Finish;
    hide StartLoadingData;
    hide StartSavingData;
    hide StopIfStreaming;
  }

  // ---------------------------------------------------------------- receiving several messages

  function ReceivedAll(c: Front, ms: seq<Message>): Front {
    if ms == [] then c else Received(ReceivedAll(c, ms[..|ms| - 1]), ms[|ms| - 1])
  }

  ghost predicate HasBoundary(ms: seq<Message>) { exists i :: 0 <= i < |ms| && IsBoundary(Observe(ms[i])) }

  lemma {:induction false} HasBoundaryLast(ms: seq<Message>, m: Message)
    ensures HasBoundary(ms + [m]) <==> HasBoundary(ms) || IsBoundary(Observe(m))
  {
    hide IsBoundary;
    hide Observe;
    var all := ms + [m];
    if HasBoundary(ms) {
      var i :| 0 <= i < |ms| && IsBoundary(Observe(ms[i]));
      assert all[i] == ms[i];
    }
    assert all[|ms|] == m;
  }

  lemma {:induction false} PhaseAtBoundary(p: Phase, n: Note)
    requires !Advance(p, n).Broken?
    ensures !p.Broken?
    ensures IsBoundary(n) ==> (Advance(p, n).Open? <==> n.kind.Started?) && (n.kind.Started? <==> !n.kind.Finished?)
    ensures !IsBoundary(n) ==> (Advance(p, n).Open? <==> p.Open?)
  {
  }

  /** After messages with a boundary among them the front is idle exactly when no procedure is open. */
  lemma {:induction false} IdleAfterBoundary(before: seq<Message>, c: Front, ms: seq<Message>)
    requires !PhaseAfter(before + ms).Broken?
    ensures HasBoundary(ms) ==> (ReceivedAll(c, ms).isIdle <==> !PhaseAfter(before + ms).Open?)
    ensures !HasBoundary(ms) ==> ReceivedAll(c, ms).isIdle == c.isIdle
  {
    if ms != [] {
      var front, last := ms[..|ms| - 1], ms[|ms| - 1];
      var sofar := before + front;
      assert before + ms == sofar + [last] && ms == front + [last];
      PhaseStep(sofar, last);
      PhaseAtBoundary(PhaseAfter(sofar), Observe(last));
      IdleAfterBoundary(before, c, front);
      HasBoundaryLast(front, last);
      ReceivedIdle(ReceivedAll(c, front), last);
      ObservedKind(last);
      hide PhaseAfter;
      hide Received;
      hide HasBoundary;
      hide Advance;
      hide Observe;
    }
  }

  lemma {:induction false} ObservedKind(m: Message)
    ensures Observe(m).kind == KindOf(m.id)
    ensures IsBoundary(Observe(m)) <==> KindOf(m.id).Started? || KindOf(m.id).Finished?
  {
    hide Bridge.IsStreaming;
  }

  // ---------------------------------------------------------------- handling the next action

  function NextAction(s: System): Input
    requires D.CanTake(s.dispatch)
  {
    s.dispatch.waiting[|s.dispatch.waiting| - 1]
  }

  /** All messages on their way are delivered. */
  function AllDelivered(s: System): System
    requires |s.delivered| <= |s.flow.trace|
  {
    s.(front := ReceivedAll(s.front, s.flow.trace[|s.delivered|..]), delivered := s.flow.trace)
  }

  /** The next action is taken, its messages are delivered, and it ends. */
  ghost function Handled(s: System, cfg: Config): System
    requires Consistent(s, cfg) && D.CanTake(s.dispatch)
  {
    TakenIs(s, cfg);
    var u := AllDelivered(Moved(s, cfg, Take));
    u.(dispatch := D.Next(u.dispatch, D.Done))
  }

  lemma {:induction false} TakenIs(s: System, cfg: Config)
    requires Consistent(s, cfg) && D.CanTake(s.dispatch)
    ensures var t, input := Moved(s, cfg, Take), NextAction(s);
            && t.flow == Step(s.flow, input.event, cfg, input.env) && t.delivered == s.delivered == s.flow.trace
            && t.front == s.front && t.dispatch.loop == D.Executing(input) && t.dispatch.isRunning
            && t.dispatch.waiting == s.dispatch.waiting[..|s.dispatch.waiting| - 1]
            && Consistent(t, cfg) && t.delivered <= t.flow.trace
  {
    hide Run;
    hide Step;
    hide PhaseAfter;
    hide D.Fifo;
    TakeKeeps(s, cfg);
  }

  lemma {:induction false} HandledIs(s: System, cfg: Config)
    requires Consistent(s, cfg) && D.CanTake(s.dispatch)
    ensures var u, input := Handled(s, cfg), NextAction(s);
            && u.flow == Step(s.flow, input.event, cfg, input.env) && s.flow.trace <= u.flow.trace && u.delivered == u.flow.trace
            && u.front == ReceivedAll(s.front, u.flow.trace[|s.flow.trace|..])
            && u.dispatch.loop.Waiting? && u.dispatch.isRunning
            && u.dispatch.waiting == s.dispatch.waiting[..|s.dispatch.waiting| - 1]
  {
    TakenIs(s, cfg);
    hide Moved;
    hide Consistent;
    hide Step;
    hide ReceivedAll;
  }

  ghost predicate SaysStarted(ms: seq<Message>) { exists i :: 0 <= i < |ms| && ms[i].id.UserProcedureStarted? }

  /** For every call that marks the front busy, when its turn comes in any consistent state, whatever was queued and has
      run since it was made: it opens a procedure exactly when the flow is idle then; and it leaves the front busy with no
      procedure open exactly when the flow is at work on something of its own, and no procedure that has ended since has
      made the front idle again. */
  lemma {:induction false} CallIsLostExactlyWhen(s: System, cfg: Config)
    requires Consistent(s, cfg) && D.CanTake(s.dispatch) && IsLoudCall(NextAction(s).event)
    ensures var t := Handled(s, cfg);
            && s.flow.trace <= t.flow.trace && t.delivered == t.flow.trace && t.dispatch.loop.Waiting?
            && t.dispatch.waiting == s.dispatch.waiting[..|s.dispatch.waiting| - 1]
            && (SaysStarted(t.flow.trace[|s.flow.trace|..]) <==> s.flow.state.Idle?)
            && (!MayReturn(t.front) && !PhaseAfter(t.delivered).Open? <==>
                !s.flow.state.Idle? && s.flow.request.Internal? && !s.front.isIdle)
  {
    hide *;
    TakenIs(s, cfg);
    HandledIs(s, cfg);
    var t, input := Handled(s, cfg), NextAction(s);
    var news := t.flow.trace[|s.flow.trace|..];
    LoudCallAnnounces(s.flow, input.event, cfg, input.env);
    MayTake(s);
    UnbrokenTraces(Moved(s, cfg, Take), cfg);
    UnbrokenTraces(s, cfg);
    assert s.flow.trace + news == t.flow.trace;
    IdleAfterBoundary(s.flow.trace, s.front, news);
    if s.flow.state.Idle? {
      FirstIsStarted(news, Announcement(s.flow, input.event), s.flow, input.event);
    } else {
      assert news == [];
      NoNews(news);
    }
    MayReturnIs(t.front);
  }

  ghost predicate IsQuiet(s: System) { s.dispatch.loop.Waiting? && s.dispatch.isRunning && s.dispatch.waiting == [] }

  /** A call on an empty dispatcher has its turn at once, so nothing comes in between: it is lost exactly when the flow
      is at work on something of its own. */
  lemma {:induction false} QuietCallIsLostExactlyWhen(s: System, cfg: Config, input: Input)
    requires Consistent(s, cfg) && IsQuiet(s) && IsLoudCall(input.event)
    ensures var c := Moved(s, cfg, Call(input));
            && Consistent(c, cfg) && D.CanTake(c.dispatch)
            && var t := Handled(c, cfg);
               && s.flow.trace <= t.flow.trace && t.delivered == t.flow.trace && IsQuiet(t)
               && (SaysStarted(t.flow.trace[|s.flow.trace|..]) <==> s.flow.state.Idle?)
               && (!MayReturn(t.front) && !PhaseAfter(t.delivered).Open? <==> !s.flow.state.Idle? && s.flow.request.Internal?)
  {
    CallKeeps(s, cfg, input);
    CalledIsBusy(s.front, input.event);
    hide Consistent;
    hide PhaseAfter;
    hide Handled;
    hide Called;
    hide SaysStarted;
    var c := Moved(s, cfg, Call(input));
    assert c.dispatch.waiting == [input];
    CallIsLostExactlyWhen(c, cfg);
    HandledIs(c, cfg);
    hide ReceivedAll;
    hide Step;
  }

  lemma {:induction false} MayReturnIs(c: Front)
    ensures MayReturn(c) <==> c.isIdle
  {
  }

  lemma {:induction false} CalledIsBusy(c: Front, e: Event)
    requires IsLoudCall(e)
    ensures !Called(c, e).isIdle
  {
  }

  lemma {:induction false} UnbrokenTraces(s: System, cfg: Config)
    requires Consistent(s, cfg)
    ensures !PhaseAfter(s.flow.trace).Broken? && (PhaseAfter(s.flow.trace).Open? <==> !s.flow.request.Internal?)
    ensures s.flow.state.Idle? ==> s.flow.request.Internal?
  {
    hide Run;
    hide PhaseAfter;
    hide D.Fifo;
    EveryRunFollowsTheProtocol(cfg, s.inputs);
  }

  lemma {:induction false} FirstIsStarted(news: seq<Message>, m: Message, f: Flow, e: Event)
    requires m == Announcement(f, e) && [m] <= news
    ensures SaysStarted(news) && HasBoundary(news)
  {
    hide Bridge.IsStreaming;
    assert news[0] == m;
  }

  lemma {:induction false} NoNews(news: seq<Message>)
    requires news == []
    ensures !SaysStarted(news) && !HasBoundary(news)
  {
  }

  // ---------------------------------------------------------------- these states are reached

  lemma {:induction false} ReachesOn(cfg: Config, moves: seq<Move>, s: System, m: Move)
    requires Reaches(cfg, moves, s) && MayMove(s, m)
    ensures Reaches(cfg, moves + [m], Moved(s, cfg, m))
  {
    hide Moved;
    hide MayMove;
    var all := moves + [m];
    assert all[..|all| - 1] == moves && all[|all| - 1] == m;
  }

  lemma {:induction false} ReceivedFirst(c: Front, ms: seq<Message>)
    requires ms != []
    ensures ReceivedAll(c, ms) == ReceivedAll(Received(c, ms[0]), ms[1..])
  {
    hide Received;
    if |ms| > 1 {
      ReceivedFirst(c, ms[..|ms| - 1]);
      assert ms[..|ms| - 1][1..] == ms[1..][..|ms| - 2];
    } else {
      assert ms[..0] == [] && ms[1..] == [];
    }
  }

  lemma {:induction false} NothingToDeliver(s: System)
    requires s.delivered <= s.flow.trace && |s.delivered| == |s.flow.trace|
    ensures AllDelivered(s) == s
  {
    assert s.delivered == s.flow.trace && s.flow.trace[|s.delivered|..] == [];
  }

  lemma {:induction false} DeliverFirst(s: System, cfg: Config)
    requires s.delivered <= s.flow.trace && |s.delivered| < |s.flow.trace|
    ensures var t := Moved(s, cfg, Deliver);
            t.delivered <= t.flow.trace && t.flow == s.flow && |t.delivered| == |s.delivered| + 1 && AllDelivered(t) == AllDelivered(s)
  {
    hide Received;
    hide Step;
    var t := Moved(s, cfg, Deliver);
    var rest := s.flow.trace[|s.delivered|..];
    ReceivedFirst(s.front, rest);
    assert rest[1..] == t.flow.trace[|t.delivered|..];
  }

  /** Delivering one by one delivers all. */
  lemma {:induction false} DeliversAll(cfg: Config, moves: seq<Move>, s: System) returns (more: seq<Move>)
    requires Reaches(cfg, moves, s) && s.delivered <= s.flow.trace
    ensures Reaches(cfg, more, AllDelivered(s))
    decreases |s.flow.trace| - |s.delivered|
  {
    hide Reaches;
    hide Moved;
    hide AllDelivered;
    if |s.delivered| == |s.flow.trace| {
      more := moves;
      NothingToDeliver(s);
    } else {
      ReachesOn(cfg, moves, s, Deliver);
      DeliverFirst(s, cfg);
      more := DeliversAll(cfg, moves + [Deliver], Moved(s, cfg, Deliver));
    }
  }

  /** What handling the next action leads to is reached. */
  lemma {:induction false} HandledIsReached(cfg: Config, moves: seq<Move>, s: System) returns (more: seq<Move>)
    requires Reaches(cfg, moves, s) && Consistent(s, cfg) && D.CanTake(s.dispatch)
    ensures Reaches(cfg, more, Handled(s, cfg)) && Consistent(Handled(s, cfg), cfg)
  {
    hide *;
    TakenIs(s, cfg);
    MayTake(s);
    var u := Moved(s, cfg, Take);
    ReachesOn(cfg, moves, s, Take);
    var delivered := DeliversAll(cfg, moves + [Take], u);
    DeliveredIs(u);
    more := DoneIsReached(cfg, delivered, AllDelivered(u));
    HandledByDone(s, cfg);
    ReachedIsConsistent(cfg, more, Handled(s, cfg));
  }

  lemma {:induction false} MayTake(s: System)
    requires D.CanTake(s.dispatch)
    ensures MayMove(s, Take)
  {
  }

  lemma {:induction false} DeliveredIs(s: System)
    requires |s.delivered| <= |s.flow.trace|
    ensures AllDelivered(s).delivered == AllDelivered(s).flow.trace && AllDelivered(s).dispatch == s.dispatch
  {
    hide ReceivedAll;
  }

  lemma {:induction false} DoneIsReached(cfg: Config, moves: seq<Move>, s: System) returns (more: seq<Move>)
    requires Reaches(cfg, moves, s) && s.dispatch.loop.Executing? && s.delivered == s.flow.trace
    ensures Reaches(cfg, more, s.(dispatch := D.Next(s.dispatch, D.Done)))
  {
    hide Reaches;
    ReachesOn(cfg, moves, s, Done);
    more := moves + [Done];
  }

  lemma {:induction false} HandledByDone(s: System, cfg: Config)
    requires Consistent(s, cfg) && D.CanTake(s.dispatch)
    ensures var t := Moved(s, cfg, Take);
            && |t.delivered| <= |t.flow.trace| && D.Enabled(AllDelivered(t).dispatch, D.Done)
            && Handled(s, cfg) == AllDelivered(t).(dispatch := D.Next(AllDelivered(t).dispatch, D.Done))
  {
    TakenIs(s, cfg);
    hide Moved;
    hide Consistent;
    hide ReceivedAll;
    hide Step;
  }

  // ---------------------------------------------------------------- a run

  /** A version 2 bridge as it was saved: known and authorized, but out of reach when it was saved. */
  function Saved(): Bridge {
    NewBridge().(id := "001788fffe200001", ip := "10.0.0.1", modelId := "BSB002", modelSupported := true, apiSupported := true,
                 swSupportsClipV2 := true, user := "user", appId := "user", clientKey := "0123456789abcdef0123456789abcdef",
                 authorized := true)
  }

  /** The monitor finds it within reach. */
  function Back(): Bridge { Saved().(validIp := true) }

  /** An event that is queued, with an environment in which a retriever really starts. */
  function Queueing(e: Event): Input { Input(e, Env(NewBridge(), false, NewBridge(), true)) }

  function Reconnect(): Event { Monitor(Message(Internal, BridgeConnected, Back())) }

  lemma {:induction false} BackIsConnected()
    ensures !Saved().IsConnected() && Saved().IsConnectable() && Back().IsConnected() && Back().IsSupportingClipV2()
  {
  }

  lemma {:induction false} Loads(cfg: Config)
    ensures Step(FlowSpec.Initial(), Load, cfg, Queueing(Load).env).state.Loading?
    ensures Step(FlowSpec.Initial(), Load, cfg, Queueing(Load).env).request.LoadBridge?
  {
  }

  lemma {:induction false} LoadEnds(f: Flow, cfg: Config)
    requires f.state.Loading? && f.request.LoadBridge?
    ensures var e := LoadingCompleted(true, [Saved()], ThenFinish);
            var g := Step(f, e, cfg, Queueing(e).env);
            g.state.Idle? && g.data == [Saved()]
  {
    hide BridgeStreamingChecker.Differences;
    hide DifferenceMessages;
    hide Saved;
  }

  lemma {:induction false} ReconnectRetrieves(f: Flow, cfg: Config)
    requires f.state.Idle?
    ensures var g := Step(f, Reconnect(), cfg, Queueing(Reconnect()).env);
            g.state.Retrieving? && g.request.Internal? && exists b :: g.trace == f.trace + [Message(Internal, StartRetrieving, b)]
  {
    BackIsConnected();
    hide Back;
    hide SetActiveBridge;
  }

  /** An event comes while the dispatcher is empty, and is handled. */
  lemma {:induction false} EventIsHandled(cfg: Config, moves: seq<Move>, s: System, input: Input) returns (more: seq<Move>, t: System)
    requires Reaches(cfg, moves, s) && Consistent(s, cfg) && IsQuiet(s) && (IsCall(input.event) || MayQueue(input))
    ensures Reaches(cfg, more, t) && Consistent(t, cfg) && IsQuiet(t) && t.flow == Step(s.flow, input.event, cfg, input.env)
  {
    var m := if IsCall(input.event) then Call(input) else Enqueue(input);
    MoveKeeps(s, cfg, m);
    hide Consistent;
    hide Handled;
    hide Step;
    hide Reaches;
    ReachesOn(cfg, moves, s, m);
    var q := Moved(s, cfg, m);
    assert q.dispatch.waiting == [input] && q.flow == s.flow;
    more := HandledIsReached(cfg, moves + [m], q);
    HandledIs(q, cfg);
    hide ReceivedAll;
    t := Handled(q, cfg);
  }

  function Waiting(): System { InitialSystem().(dispatch := D.Next(D.Initial<Input>(), D.Enter)) }

  lemma {:induction false} WaitingIsReached(cfg: Config)
    ensures Reaches(cfg, [] + [Move.Other(D.Enter)], Waiting()) && IsQuiet(Waiting()) && Waiting().flow == FlowSpec.Initial()
  {
    var s := InitialSystem();
    assert Reaches(cfg, [], s);
    ReachesOn(cfg, [], s, Move.Other(D.Enter));
  }

  /** The application has loaded the saved bridge, and the monitor writes into it that it is within reach. */
  lemma {:induction false} LoadedIsReached(cfg: Config) returns (moves: seq<Move>, s: System)
    ensures Reaches(cfg, moves, s) && Consistent(s, cfg) && IsQuiet(s) && s.flow.state.Idle? && s.flow.Active() == Back()
  {
    hide *;
    WaitingIsReached(cfg);
    ReachedIsConsistent(cfg, [] + [Move.Other(D.Enter)], Waiting());
    Loads(cfg);
    LoadMayBeCalled();
    var m1, s1 := EventIsHandled(cfg, [] + [Move.Other(D.Enter)], Waiting(), Queueing(Load));
    LoadEnds(s1.flow, cfg);
    var e := LoadingCompleted(true, [Saved()], ThenFinish);
    var m2, s2 := EventIsHandled(cfg, m1, s1, Queueing(e));
    moves, s := Written(cfg, m2, s2, Back(), Queueing(Load).env);
    ReachedIsConsistent(cfg, moves, s);
  }

  lemma {:induction false} LoadMayBeCalled()
    ensures IsCall(Queueing(Load).event) && Queueing(Load).event == Load
    ensures var e := LoadingCompleted(true, [Saved()], ThenFinish); MayQueue(Queueing(e)) && Queueing(e).event == e
    ensures MayQueue(Queueing(Reconnect())) && Queueing(Reconnect()).event == Reconnect()
  {
  }

  lemma {:induction false} Written(cfg: Config, moves: seq<Move>, s: System, b: Bridge, env: Env) returns (more: seq<Move>, t: System)
    requires Reaches(cfg, moves, s) && IsQuiet(s)
    ensures Reaches(cfg, more, t) && IsQuiet(t) && t.flow == s.flow.(data := WithActive(s.flow.data, b)) && t.flow.Active() == b
  {
    hide Reaches;
    ReachesOn(cfg, moves, s, Write(b, env));
    more := moves + [Write(b, env)];
    t := Moved(s, cfg, Write(b, env));
  }

  /** The reconnected bridge makes the flow retrieve by itself: what comes in then finds it at work. */
  lemma {:induction false} WorkIsReached(cfg: Config) returns (moves: seq<Move>, s: System)
    ensures Reaches(cfg, moves, s) && Consistent(s, cfg) && IsQuiet(s) && !s.flow.state.Idle? && s.flow.request.Internal?
  {
    hide *;
    var before, w := LoadedIsReached(cfg);
    ReconnectRetrieves(w.flow, cfg);
    LoadMayBeCalled();
    moves, s := EventIsHandled(cfg, before, w, Queueing(Reconnect()));
  }

  /** Any call that marks the front busy is then lost: a state is reached in which nothing is open, nothing waits,
      nothing runs, and the front is busy. */
  lemma {:induction false} LostCallIsReached(cfg: Config, input: Input) returns (moves: seq<Move>, s: System)
    requires IsLoudCall(input.event)
    ensures Reaches(cfg, moves, s) && IsQuiet(s) && s.delivered == s.flow.trace
    ensures !PhaseAfter(s.delivered).Open? && !MayReturn(s.front)
  {
    hide *;
    var before, w := WorkIsReached(cfg);
    QuietCallIsLostExactlyWhen(w, cfg, input);
    MayCall(w, input);
    ReachesOn(cfg, before, w, Call(input));
    moves := HandledIsReached(cfg, before + [Call(input)], Moved(w, cfg, Call(input)));
    s := Handled(Moved(w, cfg, Call(input)), cfg);
  }

  lemma {:induction false} MayCall(s: System, input: Input)
    requires IsLoudCall(input.event)
    ensures MayMove(s, Call(input))
  {
  }

  // ---------------------------------------------------------------- a call behind a reconnect

  lemma {:induction false} ReconnectIsQueued(cfg: Config, moves: seq<Move>, s: System) returns (more: seq<Move>, t: System)
    requires Reaches(cfg, moves, s) && IsQuiet(s)
    ensures Reaches(cfg, more, t) && t.flow == s.flow
    ensures t.dispatch.loop.Waiting? && t.dispatch.isRunning && t.dispatch.waiting == [Queueing(Reconnect())]
  {
    hide Reaches;
    var m := Enqueue(Queueing(Reconnect()));
    ReachesOn(cfg, moves, s, m);
    more, t := moves + [m], Moved(s, cfg, m);
  }

  lemma {:induction false} CalledBehind(w: System, cfg: Config, input: Input, first: Input)
    requires w.dispatch.loop.Waiting? && w.dispatch.isRunning && w.dispatch.waiting == [first] && IsLoudCall(input.event)
    ensures MayMove(w, Call(input))
    ensures var c := Moved(w, cfg, Call(input));
            && D.CanTake(c.dispatch) && NextAction(c) == first && c.dispatch.waiting == [input, first]
            && !c.front.isIdle && c.flow == w.flow
  {
    CalledIsBusy(w.front, input.event);
  }

  /** Handling the reconnect says nothing that makes the front idle, and leaves the call next. */
  lemma {:induction false} BehindReconnect(c: System, cfg: Config, input: Input)
    requires Consistent(c, cfg) && D.CanTake(c.dispatch) && c.dispatch.waiting == [input, Queueing(Reconnect())]
    requires c.flow.state.Idle? && !c.front.isIdle
    ensures var d := Handled(c, cfg);
            && D.CanTake(d.dispatch) && NextAction(d) == input && d.dispatch.waiting == [input]
            && !d.front.isIdle && d.flow.state.Retrieving? && d.flow.request.Internal?
  {
    HandledIs(c, cfg);
    ReconnectRetrieves(c.flow, cfg);
    LoadMayBeCalled();
    hide Consistent;
    hide Handled;
    hide Step;
    hide Reconnect;
    hide Queueing;
    var d := Handled(c, cfg);
    assert [input, Queueing(Reconnect())][..1] == [input];
    var b :| d.flow.trace == c.flow.trace + [Message(Internal, StartRetrieving, b)];
    assert d.flow.trace[|c.flow.trace|..] == [Message(Internal, StartRetrieving, b)];
    OneQuietMessage(c.front, Message(Internal, StartRetrieving, b));
    hide ReceivedAll;
  }

  lemma {:induction false} OneQuietMessage(c: Front, m: Message)
    requires m.id.StartRetrieving?
    ensures ReceivedAll(c, [m]) == c
  {
    assert [m][..0] == [];
  }

  /** The same when the reconnect is only queued as the call is made: the flow is idle then and nothing is open, yet the
      call is lost. */
  lemma {:induction false} LostBehindReconnect(cfg: Config, input: Input) returns (moves: seq<Move>, w: System, s: System)
    requires IsLoudCall(input.event)
    ensures Reaches(cfg, moves, s) && IsQuiet(s) && s.delivered == s.flow.trace
    ensures !PhaseAfter(s.delivered).Open? && !MayReturn(s.front)
    ensures w.flow.state.Idle? && MayMove(w, Call(input))
    ensures var c := Moved(w, cfg, Call(input));
            && Consistent(c, cfg) && D.CanTake(c.dispatch)
            && var d := Handled(c, cfg); Consistent(d, cfg) && D.CanTake(d.dispatch) && NextAction(d) == input && s == Handled(d, cfg)
  {
    hide *;
    var before, l := LoadedIsReached(cfg);
    var queued, q := ReconnectIsQueued(cfg, before, l);
    w := q;
    CalledBehind(w, cfg, input, Queueing(Reconnect()));
    ReachesOn(cfg, queued, w, Call(input));
    var c := Moved(w, cfg, Call(input));
    ReachedIsConsistent(cfg, queued + [Call(input)], c);
    BehindReconnect(c, cfg, input);
    var one := HandledIsReached(cfg, queued + [Call(input)], c);
    var d := Handled(c, cfg);
    CallIsLostExactlyWhen(d, cfg);
    moves := HandledIsReached(cfg, one, d);
    s := Handled(d, cfg);
    HandledIs(d, cfg);
    NothingIsLeft(s, d.dispatch.waiting);
  }

  lemma {:induction false} NothingIsLeft(s: System, waiting: seq<Input>)
    requires |waiting| == 1 && s.dispatch.waiting == waiting[..0] && s.dispatch.loop.Waiting? && s.dispatch.isRunning
    ensures IsQuiet(s)
  {
  }
}
