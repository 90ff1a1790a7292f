/**
 The connection flow object over whole runs: what is proved about runs of the specification holds of the fields of the
 object, whatever is dispatched to it.
 */
module FlowObject {
  import opened Prelude
  import opened BridgeData
  import opened FlowProtocol
  import opened FlowMessages
  import opened FlowSpec
  import opened FlowInvariant
  import opened FlowRuns
  import opened ConnectionFlow

  /** One dispatched action is one step, and keeps the invariant. */
  method Handle(m: Machine, e: Event, env: Env)
    modifies m
    ensures m.View() == Step(old(m.View()), e, m.cfg, env)
    ensures old(Inv(m.View())) && Legal(e) ==> Inv(m.View())
  {
    hide *;
    if Inv(m.View()) && Legal(e) {
      StepKeeps(m.View(), e, m.cfg, env);
    }
    m.Dispatch(e, env);
  }

  /** Any run of dispatched actions on an object is the run of the specification. */
  method Replay(m: Machine, inputs: seq<Input>)
    modifies m
    ensures m.View() == Run(old(m.View()), m.cfg, inputs)
    ensures old(Inv(m.View())) && LegalRun(inputs) ==> Inv(m.View())
  {
    hide *;
    ghost var f := m.View();
    RunsOn(f, m.cfg, inputs, 0);
    for i := 0 to |inputs|
      invariant m.View() == Run(f, m.cfg, inputs[..i])
    {
      RunsOn(f, m.cfg, inputs, i + 1);
      Handle(m, inputs[i].event, inputs[i].env);
    }
    assert inputs[..|inputs|] == inputs;
    if old(Inv(m.View())) && LegalRun(inputs) {
      RunKeeps(f, m.cfg, inputs);
    }
  }

  lemma {:induction false} RunsOn(f: Flow, cfg: Config, inputs: seq<Input>, n: nat)
    requires n <= |inputs|
    ensures Run(f, cfg, inputs[..n]) == if n == 0 then f else Step(Run(f, cfg, inputs[..n - 1]), inputs[n - 1].event, cfg, inputs[n - 1].env)
  {
    hide Step;
    if n > 0 {
      assert inputs[..n][..n - 1] == inputs[..n - 1];
    }
  }

  /** The next boundary after each STARTED is a FINISHED of the same request, and the streaming edges between the two
      are reported exactly as they happened. */
  ghost predicate ProceduresAreWellFormed(ms: seq<Message>) {
    forall i, j :: 0 <= i < j < |ms| && IsProcedure(ms, i, j) ==> IsWellFormed(ms, i, j)
  }

  ghost predicate IsProcedure(ms: seq<Message>, i: nat, j: nat)
    requires i < j < |ms|
  {
    var t := Observed(ms);
    t[i].kind.Started? && IsBoundary(t[j]) && NoBoundary(t, i + 1, j)
  }

  ghost predicate IsWellFormed(ms: seq<Message>, i: nat, j: nat)
    requires i < j < |ms|
  {
    && ms[j].id.UserProcedureFinished?
    && ms[j].request == ms[i].request && !ms[i].request.Internal?
    && Ups(Observed(ms), i + 1, j) == One(!ms[i].bridge.IsStreaming() && ms[j].bridge.IsStreaming())
    && Downs(Observed(ms), i + 1, j) == One(ms[i].bridge.IsStreaming() && !ms[j].bridge.IsStreaming())
  }

  /** A new object, whatever is dispatched to it: its messages are well formed procedures, a procedure is open exactly
      while it works on a request other than INTERNAL, and it is idle only without one. */
  method Lifetime(cfg: Config, inputs: seq<Input>) returns (m: Machine)
    requires LegalRun(inputs)
    ensures fresh(m) && m.View() == Run(Initial(), cfg, inputs)
    ensures ProceduresAreWellFormed(m.trace)
    ensures PhaseAfter(m.trace).Open? <==> !m.request.Internal?
    ensures PhaseAfter(m.trace).Open? ==> LastStarted(m.trace) == Some(m.start)
    ensures m.state.Idle? ==> m.request.Internal?
    ensures m.state.Authenticating? ==> m.authCount >= 1
  {
    hide *;
    m := new Machine(cfg);
    Replay(m, inputs);
    EveryRunFollowsTheProtocol(cfg, inputs);
    RunIsWellFormed(cfg, inputs);
    SeeFields(m);
  }

  lemma {:induction false} SeeFields(m: Machine)
    ensures var f := m.View();
            f.trace == m.trace && f.request == m.request && f.start == m.start && f.state == m.state && f.authCount == m.authCount
  {
  }

  lemma {:induction false} RunIsWellFormed(cfg: Config, inputs: seq<Input>)
    requires LegalRun(inputs)
    ensures ProceduresAreWellFormed(Run(Initial(), cfg, inputs).trace)
  {
    hide Run;
    hide Observed;
    hide LegalRun;
    hide NoBoundary;
    hide IsBoundary;
    hide Ups;
    hide Downs;
    hide Bridge.IsStreaming;
    var ms := Run(Initial(), cfg, inputs).trace;
    forall i, j | 0 <= i < j < |ms| && IsProcedure(ms, i, j) ensures IsWellFormed(ms, i, j) {
      EveryProcedureIsWellFormed(cfg, inputs, i, j);
    }
  }
}
