/**
 The front, the dispatcher and the connection flow together, with the interleavings that their
 locks allow: calls and completions queue actions at any time, the loop runs one action after the
 other, and the messages of an action reach the front one by one.
 */
module ConnectSystem {
  import opened BridgeData
  import opened FlowProtocol
  import opened FlowMessages
  import opened FlowSpec
  import opened FlowInvariant
  import opened FlowRuns
  import opened FlowTrace
  import opened ConnectSpec
  import D = DispatcherSpec

  /** `inputs` records the actions the flow has taken; what the flow has sent and the front has not yet received
      is on its way. */
  datatype System = System(dispatch: D.Dispatch<Input>, flow: Flow, front: Front, delivered: seq<Message>, inputs: seq<Input>)

  datatype Move =
    | Call(input: Input)
    | Enqueue(input: Input)
    | Write(bridge: Bridge, env: Env)
    | Take
    | Deliver
    | Done
    | Other(step: D.Step<Input>)

  function InitialSystem(): System { System(D.Initial(), FlowSpec.Initial(), InitialFront(), [], []) }

  /** Completions and monitor events are queued; writes to the active bridge object are not. */
  predicate MayQueue(input: Input) { Legal(input.event) && !input.event.ActiveBridgeWritten? }

  ghost predicate MayMove(s: System, m: Move) {
    match m
    case Call(input) => IsCall(input.event)
    case Enqueue(input) => !IsCall(input.event) && MayQueue(input)
    case Write(_, _) => !s.dispatch.loop.Executing?
    case Take => D.CanTake(s.dispatch)
    case Deliver => |s.delivered| < |s.flow.trace|
    case Done => s.dispatch.loop.Executing? && |s.delivered| == |s.flow.trace|
    case Other(step) => (step.Enter? || step.Leave? || step.Stop?) && D.Enabled(s.dispatch, step)
  }

  function Processed(s: System, cfg: Config, input: Input): System {
    s.(flow := Step(s.flow, input.event, cfg, input.env), inputs := s.inputs + [input])
  }

  ghost function Moved(s: System, cfg: Config, m: Move): System
    requires MayMove(s, m)
  {
    match m
    case Call(input) => s.(front := Called(s.front, input.event), dispatch := D.Queued(s.dispatch, input))
    case Enqueue(input) => s.(dispatch := D.Queued(s.dispatch, input))
    case Write(b, env) => Processed(s, cfg, Input(ActiveBridgeWritten(b), env))
    case Take =>
      var d := D.Taken(s.dispatch);
      Processed(s.(dispatch := d), cfg, d.loop.action)
    case Deliver =>
      var message := s.flow.trace[|s.delivered|];
      s.(front := Received(s.front, message), delivered := s.delivered + [message])
    case Done => s.(dispatch := D.Next(s.dispatch, D.Done))
    case Other(step) => s.(dispatch := D.Next(s.dispatch, step))
  }

  ghost predicate AllLegal(s: seq<Input>) { forall i :: 0 <= i < |s| ==> Legal(s[i].event) }

  ghost predicate AllQueueable(s: seq<Input>) { forall i :: 0 <= i < |s| ==> MayQueue(s[i]) }

  /** The inputs that came through the queue. */
  function Dispatched(inputs: seq<Input>): seq<Input> {
    if inputs == [] then []
    else
      var last := inputs[|inputs| - 1];
      Dispatched(inputs[..|inputs| - 1]) + if last.event.ActiveBridgeWritten? then [] else [last]
  }

  ghost predicate Consistent(s: System, cfg: Config) {
    && D.Fifo(s.dispatch) && AllQueueable(s.dispatch.waiting) && AllLegal(s.inputs)
    && Dispatched(s.inputs) == s.dispatch.started
    && s.flow == Run(FlowSpec.Initial(), cfg, s.inputs)
    && s.delivered <= s.flow.trace
    && (s.delivered != s.flow.trace ==> s.dispatch.loop.Executing?)
    && (PhaseAfter(s.delivered).Open? ==> !s.front.isIdle)
  }

  // ---------------------------------------------------------------- delivering

  lemma {:induction false} UnbrokenPrefix(ms: seq<Message>, k: nat)
    requires k <= |ms| && !PhaseAfter(ms).Broken?
    ensures !PhaseAfter(ms[..k]).Broken?
    decreases |ms|
  {
    hide PhaseAfter;
    hide Observe;
    if k < |ms| {
      var front, last := ms[..|ms| - 1], ms[|ms| - 1];
      assert ms == front + [last];
      PhaseStep(front, last);
      UnbrokenPrefix(front, k);
      assert front[..k] == ms[..k];
    } else {
      assert ms[..k] == ms;
    }
  }

  lemma {:induction false} OpenSince(p: Phase, n: Note)
    requires Advance(p, n).Open?
    ensures !n.kind.Finished? && (n.kind.Started? || p.Open?)
  {
  }

  /** A message that leaves a procedure open leaves the front busy. */
  lemma {:induction false} DeliveryKeepsBusy(delivered: seq<Message>, front: Front, m: Message)
    requires PhaseAfter(delivered).Open? ==> !front.isIdle
    ensures PhaseAfter(delivered + [m]).Open? ==> !Received(front, m).isIdle
  {
    hide PhaseAfter;
    hide Received;
    hide Bridge.IsStreaming;
    PhaseStep(delivered, m);
    ReceivedIdle(front, m);
    if PhaseAfter(delivered + [m]).Open? {
      OpenSince(PhaseAfter(delivered), Observe(m));
    }
  }

  // ---------------------------------------------------------------- moves

  lemma {:induction false} ProcessedKeeps(s: System, cfg: Config, input: Input)
    requires s.flow == Run(FlowSpec.Initial(), cfg, s.inputs) && AllLegal(s.inputs) && Legal(input.event)
    requires s.delivered == s.flow.trace
    ensures var t := Processed(s, cfg, input);
            && t.flow == Run(FlowSpec.Initial(), cfg, t.inputs) && AllLegal(t.inputs) && t.delivered <= t.flow.trace
            && Dispatched(t.inputs) == Dispatched(s.inputs) + if input.event.ActiveBridgeWritten? then [] else [input]
  {
    hide Step;
    StepGrows(s.flow, input.event, cfg, input.env);
    assert (s.inputs + [input])[..|s.inputs|] == s.inputs;
  }

  lemma {:induction false} QueueKeeps(s: System, cfg: Config, input: Input)
    requires Consistent(s, cfg) && MayQueue(input)
    ensures Consistent(s.(dispatch := D.Queued(s.dispatch, input)), cfg)
  {
    hide PhaseAfter;
    hide Run;
    hide D.Fifo;
    D.StepKeepsFifo(s.dispatch, D.Queue(input));
  }

  lemma {:induction false} DispatchKeeps(s: System, cfg: Config, step: D.Step<Input>)
    requires Consistent(s, cfg) && D.Enabled(s.dispatch, step)
    requires step.Enter? || step.Leave? || step.Stop? || (step.Done? && s.delivered == s.flow.trace)
    ensures Consistent(s.(dispatch := D.Next(s.dispatch, step)), cfg)
  {
    hide PhaseAfter;
    hide Run;
    hide D.Fifo;
    D.StepKeepsFifo(s.dispatch, step);
  }

  lemma {:induction false} TakeKeeps(s: System, cfg: Config)
    requires Consistent(s, cfg) && MayMove(s, Take)
    ensures Consistent(Moved(s, cfg, Take), cfg)
  {
    hide PhaseAfter;
    hide Run;
    hide Step;
    hide D.Fifo;
    D.StepKeepsFifo(s.dispatch, D.Take);
    var d := D.Taken(s.dispatch);
    ProcessedKeeps(s.(dispatch := d), cfg, d.loop.action);
  }

  lemma {:induction false} WriteKeeps(s: System, cfg: Config, b: Bridge, env: Env)
    requires Consistent(s, cfg) && !s.dispatch.loop.Executing?
    ensures Consistent(Processed(s, cfg, Input(ActiveBridgeWritten(b), env)), cfg)
  {
    hide PhaseAfter;
    hide Run;
    hide D.Fifo;
    var input := Input(ActiveBridgeWritten(b), env);
    ProcessedKeeps(s, cfg, input);
    assert Processed(s, cfg, input).flow.trace == s.flow.trace;
  }

  lemma {:induction false} DeliverKeeps(s: System, cfg: Config)
    requires Consistent(s, cfg) && MayMove(s, Deliver)
    ensures Consistent(Moved(s, cfg, Deliver), cfg)
  {
    hide PhaseAfter;
    hide Run;
    hide Received;
    hide D.Fifo;
    DeliveryKeepsBusy(s.delivered, s.front, s.flow.trace[|s.delivered|]);
  }

  lemma {:induction false} CallKeeps(s: System, cfg: Config, input: Input)
    requires Consistent(s, cfg) && IsCall(input.event)
    ensures Consistent(Moved(s, cfg, Call(input)), cfg)
  {
    hide PhaseAfter;
    hide Run;
    hide D.Fifo;
    QueueKeeps(s, cfg, input);
  }

  lemma {:induction false} MoveKeeps(s: System, cfg: Config, m: Move)
    requires Consistent(s, cfg) && MayMove(s, m)
    ensures Consistent(Moved(s, cfg, m), cfg)
  {
    match m {
      case Call(input) => CallKeeps(s, cfg, input);
      case Enqueue(input) => QueueKeeps(s, cfg, input);
      case Write(b, env) => WriteKeeps(s, cfg, b, env);
      case Take => TakeKeeps(s, cfg);
      case Deliver => DeliverKeeps(s, cfg);
      case Done => DispatchKeeps(s, cfg, D.Done);
      case Other(step) => DispatchKeeps(s, cfg, step);
    }
    hide Consistent;
    hide Processed;
    hide Received;
  }

  // ---------------------------------------------------------------- runs

  ghost predicate Reaches(cfg: Config, moves: seq<Move>, s: System)
    decreases |moves|
  {
    if moves == [] then s == InitialSystem()
    else
      var m := moves[|moves| - 1];
      exists t :: Reaches(cfg, moves[..|moves| - 1], t) && MayMove(t, m) && s == Moved(t, cfg, m)
  }

  lemma {:induction false} InitialIsConsistent(cfg: Config)
    ensures Consistent(InitialSystem(), cfg)
  {
    assert D.Reversed<Input>([]) == [];
    assert Observed([]) == [];
  }

  lemma {:induction false} ReachedIsConsistent(cfg: Config, moves: seq<Move>, s: System)
    requires Reaches(cfg, moves, s)
    ensures Consistent(s, cfg)
    decreases |moves|
  {
    if moves == [] {
      InitialIsConsistent(cfg);
    } else {
      var m := moves[|moves| - 1];
      var t :| Reaches(cfg, moves[..|moves| - 1], t) && MayMove(t, m) && s == Moved(t, cfg, m);
      ReachedIsConsistent(cfg, moves[..|moves| - 1], t);
      MoveKeeps(t, cfg, m);
    }
  }

  /** In every reachable state: what the front has received is unbroken; while it shows an open procedure, and
      between actions while the flow works on a request, the front answers busy and no waiter returns. */
  lemma {:induction false} OpenMeansBusy(cfg: Config, moves: seq<Move>, s: System)
    requires Reaches(cfg, moves, s)
    ensures !PhaseAfter(s.delivered).Broken?
    ensures PhaseAfter(s.delivered).Open? ==> Result(s.front).IsBusy? && !MayReturn(s.front)
    ensures !s.dispatch.loop.Executing? && !s.flow.request.Internal? ==> Result(s.front).IsBusy? && !MayReturn(s.front)
  {
    ReachedIsConsistent(cfg, moves, s);
    hide PhaseAfter;
    hide Run;
    hide D.Fifo;
    EveryRunFollowsTheProtocol(cfg, s.inputs);
    UnbrokenPrefix(s.flow.trace, |s.delivered|);
    assert s.flow.trace[..|s.delivered|] == s.delivered;
  }

  /** The flow runs the queued actions in lock order, one at a time, and no message is lost or doubled. */
  lemma {:induction false} ActionsInLockOrder(cfg: Config, moves: seq<Move>, s: System)
    requires Reaches(cfg, moves, s)
    ensures s.flow == Run(FlowSpec.Initial(), cfg, s.inputs)
    ensures Dispatched(s.inputs) == s.dispatch.finished + D.Current(s.dispatch.loop)
    ensures s.dispatch.queued == s.dispatch.finished + D.Current(s.dispatch.loop) + D.Reversed(s.dispatch.waiting)
    ensures s.delivered <= s.flow.trace && (s.dispatch.loop.Executing? || s.delivered == s.flow.trace)
  {
    ReachedIsConsistent(cfg, moves, s);
    hide PhaseAfter;
    hide Run;
  }
}
