/**
 The three objects together over whole runs: the front, the dispatcher and the connection flow go through the moves of the
 system, so what is proved about every interleaving holds of their fields.
 */
module ConnectObjects {
  import opened Prelude
  import opened BridgeData
  import opened FlowProtocol
  import opened FlowMessages
  import opened FlowSpec
  import opened FlowRuns
  import opened ConnectSpec
  import opened ConnectSystem
  import opened ConnectionFlow
  import opened MessageDispatcher
  import opened Connect
  import D = DispatcherSpec

  /** The objects as one system; what the front has reported is what was delivered to it. */
  ghost function SystemOf(d: Dispatcher<Input>, m: Machine, c: ConnectObject, inputs: seq<Input>): System
    reads d, m, c
  {
    System(d.View(), m.View(), c.View(), c.reported, inputs)
  }

  /** One move, made by the methods of the objects. */
  method Make(d: Dispatcher<Input>, m: Machine, c: ConnectObject, ghost inputs: seq<Input>, move: Move) returns (ghost more: seq<Input>)
    requires c.dispatcher == d && MayMove(SystemOf(d, m, c, inputs), move)
    modifies d, m, c
    ensures SystemOf(d, m, c, more) == Moved(old(SystemOf(d, m, c, inputs)), m.cfg, move)
  {
    hide Step;
    hide Received;
    more := inputs;
    match move {
      case Call(input) =>
        c.Call(input);
      case Enqueue(input) =>
        d.Queue(input);
      case Write(bridge, env) =>
        more := inputs + [Input(ActiveBridgeWritten(bridge), env)];
        m.Dispatch(ActiveBridgeWritten(bridge), env);
      case Take =>
        var _ := d.Pass();
        var input := d.loop.action;
        more := inputs + [input];
        m.Dispatch(input.event, input.env);
      case Deliver =>
        c.NewMessage(m.trace[|c.reported|]);
      case Done =>
        d.ActionDone();
      case Other(step) =>
        Follow(d, step);
    }
  }

  method Follow(d: Dispatcher<Input>, step: D.Step<Input>)
    requires (step.Enter? || step.Leave? || step.Stop?) && D.Enabled(d.View(), step)
    modifies d
    ensures d.View() == D.Next(old(d.View()), step)
  {
    match step {
      case Enter => d.EnterLoop();
      case Leave => var _ := d.Pass();
      case Stop => d.Stop();
    }
  }

  // ---------------------------------------------------------------- which moves are possible

  lemma {:induction false} OneOutcome(cfg: Config, moves: seq<Move>, s: System, t: System)
    requires Reaches(cfg, moves, s) && Reaches(cfg, moves, t)
    ensures s == t
    decreases |moves|
  {
    hide MayMove;
    hide Moved;
    if moves != [] {
      var front, last := moves[..|moves| - 1], moves[|moves| - 1];
      var u :| Reaches(cfg, front, u) && MayMove(u, last) && s == Moved(u, cfg, last);
      var v :| Reaches(cfg, front, v) && MayMove(v, last) && t == Moved(v, cfg, last);
      OneOutcome(cfg, front, u, v);
    }
  }

  /** A prefix of a possible run is possible, and so is its next move. */
  lemma {:induction false} PrefixReaches(cfg: Config, moves: seq<Move>, s: System, k: nat) returns (t: System)
    requires Reaches(cfg, moves, s) && k < |moves|
    ensures Reaches(cfg, moves[..k], t) && MayMove(t, moves[k])
    decreases |moves|
  {
    hide MayMove;
    hide Moved;
    var front, last := moves[..|moves| - 1], moves[|moves| - 1];
    var u :| Reaches(cfg, front, u) && MayMove(u, last) && s == Moved(u, cfg, last);
    if k == |moves| - 1 {
      t := u;
    } else {
      t := PrefixReaches(cfg, front, u, k);
      assert front[..k] == moves[..k];
    }
  }

  lemma {:induction false} OneMoreMove(cfg: Config, moves: seq<Move>, k: nat, t: System)
    requires k < |moves| && Reaches(cfg, moves[..k], t) && MayMove(t, moves[k])
    ensures Reaches(cfg, moves[..k + 1], Moved(t, cfg, moves[k]))
  {
    hide MayMove;
    hide Moved;
    assert moves[..k + 1][..k] == moves[..k];
  }

  // ---------------------------------------------------------------- runs

  /** New objects, and any moves that are possible: the state they end in is the one the system reaches.  While the
      messages received show an open procedure, and between actions while the flow works on a request, the front is not
      idle; and the flow has taken the queued actions in lock order. */
  method Lifetime(cfg: Config, moves: seq<Move>, ghost s: System)
    returns (d: Dispatcher<Input>, m: Machine, c: ConnectObject, ghost inputs: seq<Input>)
    requires Reaches(cfg, moves, s)
    ensures fresh(d) && fresh(m) && fresh(c) && c.dispatcher == d && SystemOf(d, m, c, inputs) == s
    ensures !PhaseAfter(c.reported).Broken? && (PhaseAfter(c.reported).Open? ==> !c.isIdle)
    ensures !d.loop.Executing? && !m.request.Internal? ==> !c.isIdle
    ensures Dispatched(inputs) == d.finished + D.Current(d.loop)
    ensures c.reported <= m.trace && (d.loop.Executing? || c.reported == m.trace)
  {
    hide Moved;
    hide MayMove;
    hide PhaseAfter;
    hide Dispatched;
    d := new Dispatcher<Input>();
    m := new Machine(cfg);
    c := new ConnectObject(d);
    inputs := [];
    for i := 0 to |moves|
      invariant fresh(d) && fresh(m) && fresh(c) && c.dispatcher == d && m.cfg == cfg
      invariant Reaches(cfg, moves[..i], SystemOf(d, m, c, inputs))
    {
      ghost var t := PrefixReaches(cfg, moves, s, i);
      OneOutcome(cfg, moves[..i], t, SystemOf(d, m, c, inputs));
      OneMoreMove(cfg, moves, i, t);
      inputs := Make(d, m, c, inputs, moves[i]);
    }
    assert moves[..|moves|] == moves;
    OneOutcome(cfg, moves, s, SystemOf(d, m, c, inputs));
    OpenMeansBusy(cfg, moves, s);
    ActionsInLockOrder(cfg, moves, s);
  }
}
