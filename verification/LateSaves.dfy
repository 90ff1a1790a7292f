/**
 Saves that end late: the one completion that no state guards.
 */
module LateSaves {
  import opened Prelude
  import opened BridgeData
  import opened FlowProtocol
  import opened FlowMessages
  import opened FlowSpec
  import opened FlowInvariant
  import opened FlowRuns
  import opened FlowTrace
  import BridgeStreamingChecker

  /** The last word of the flow is that the procedure of the request is finished. */
  ghost predicate EndsWith(f: Flow, r: Request) {
    f.trace != [] && f.trace[|f.trace| - 1].id.UserProcedureFinished? && f.trace[|f.trace| - 1].request == r
  }

  lemma {:induction false} FinishEnds(f: Flow)
    ensures Finish(f).state.Idle? && Finish(f).request.Internal?
    ensures !f.request.Internal? ==> EndsWith(Finish(f), f.request)
  {
    hide BridgeStreamingChecker.Differences;
    hide DifferenceMessages;
  }

  lemma {:induction false} ConcludeEnds(f: Flow, cfg: Config, env: Env)
    ensures var g := Conclude(f, cfg, env); g.state.Idle? && g.request.Internal? && (!f.request.Internal? ==> EndsWith(g, f.request))
    ensures Grown(f.trace, Conclude(f, cfg, env))
  {
    hide Bridge.GetStatus;
    hide StatusMessage;
    hide Finish;
    forall g: Flow ensures Finish(g).state.Idle? && Finish(g).request.Internal? && (!g.request.Internal? ==> EndsWith(Finish(g), g.request)) {
      FinishEnds(g);
    }
    hide EndsWith;
    MessagesGrow(f.trace);
    FinishGrows(f.trace);
    MoreStartsGrow(f.trace);
    hide Grown;
    assert Grown(f.trace, f) by { GrownItself(f); }
  }

  lemma {:induction false} GrownItself(f: Flow)
    ensures Grown(f.trace, f)
  {
  }

  /** A save that ends speaks, and it ends whatever is going on, in every state. */
  lemma {:induction false} SaveEndsEverything(f: Flow, ok: bool, cfg: Config, env: Env)
    ensures var g := DoSavingCompleted(f, ok, cfg, env);
            && g.state.Idle? && g.request.Internal?
            && (!f.request.Internal? ==> EndsWith(g, f.request))
            && f.trace <= g.trace && |f.trace| < |g.trace|
  {
    var t := Tell(f, if ok then FinishSavingSaved else FinishSavingFailed);
    var u := t.(data := WithActive(t.data, t.Active().(busy := false)));
    ConcludeEnds(u, cfg, env);
    hide Conclude;
    hide EndsWith;
  }

  predicate IsSave(e: Event) { e.SavingCompleted? }

  ghost predicate NoSaves(inputs: seq<Input>) { forall i :: 0 <= i < |inputs| ==> !IsSave(inputs[i].event) }

  ghost predicate OnlyCompletions(inputs: seq<Input>) {
    forall i :: 0 <= i < |inputs| ==> IsLateCompletion(inputs[i].event) || IsSave(inputs[i].event)
  }

  lemma {:induction false} SaveStep(f: Flow, e: Event, cfg: Config, env: Env)
    requires IsSave(e)
    ensures Step(f, e, cfg, env) == DoSavingCompleted(f, e.ok, cfg, env)
  {
    hide DoSavingCompleted;
  }

  lemma {:induction false} IdleStays(f: Flow, cfg: Config, inputs: seq<Input>)
    requires f.state.Idle? && OnlyCompletions(inputs)
    ensures Run(f, cfg, inputs).state.Idle? && f.trace <= Run(f, cfg, inputs).trace
    ensures Run(f, cfg, inputs).trace == f.trace <==> NoSaves(inputs)
  {
    hide Step;
    if inputs != [] {
      var front, last := inputs[..|inputs| - 1], inputs[|inputs| - 1];
      IdleStays(f, cfg, front);
      var g := Run(f, cfg, front);
      if IsSave(last.event) {
        SaveStep(g, last.event, cfg, last.env);
        SaveEndsEverything(g, last.event.ok, cfg, last.env);
      } else {
        LateCompletionIsIgnored(g, last.event, cfg, last.env);
        SameTrace(Step(g, last.event, cfg, last.env), g);
      }
    }
  }

  lemma {:induction false} SameTrace(f: Flow, g: Flow)
    requires f.(calls := g.calls) == g
    ensures f.trace == g.trace && f.state == g.state
  {
  }

  /** Aborting is quiet exactly as long as no save ends: any completions may come in any order. */
  lemma {:induction false} AbortIsQuietExactlyWithoutSaves(f: Flow, cfg: Config, env: Env, inputs: seq<Input>)
    requires Inv(f) && !f.request.Internal? && OnlyCompletions(inputs)
    ensures var g := Step(f, Abort, cfg, env);
            && Run(g, cfg, inputs).state.Idle? && g.trace <= Run(g, cfg, inputs).trace
            && (Run(g, cfg, inputs).trace == g.trace <==> NoSaves(inputs))
  {
    hide *;
    AbortRestoresTheStart(f);
    AbortStep(f, cfg, env);
    IdleStays(DoAbort(f), cfg, inputs);
  }

  // ---------------------------------------------------------------- a run

  lemma {:induction false} ResetSaves(cfg: Config)
    ensures var f := Run(Initial(), cfg, [] + [Inp(Reset(false))]); f.state.Saving? && f.request.ResetAll?
  {
    RunOneMore(Initial(), cfg, [], Reset(false));
    assert !NewBridge().IsStreaming();
  }

  lemma {:induction false} AbortIdles(f: Flow, cfg: Config)
    requires !f.state.Idle?
    ensures Step(f, Abort, cfg, Inp(Abort).env).state.Idle?
  {
    AbortStep(f, cfg, Inp(Abort).env);
    hide Step;
    hide Finish;
    hide AbortOutside;
    hide SetActiveBridge;
    var g := AbortOutside(f);
    FinishEnds(Tell(g.(data := SetActiveBridge(g.data, g.start)), DoneAborted));
  }

  lemma {:induction false} LoadLoads(f: Flow, cfg: Config)
    requires f.state.Idle?
    ensures var g := Step(f, Load, cfg, Inp(Load).env); g.state.Loading? && g.request.LoadBridge?
  {
  }

  /** Resetting, aborting and loading: the save of the reset ends the load, of which nothing has come back. */
  lemma {:induction false} LateSaveEndsTheNextProcedure(cfg: Config) returns (inputs: seq<Input>)
    ensures LegalRun(inputs) && |inputs| == 4
    ensures var f := Run(Initial(), cfg, inputs[..3]); f.state.Loading? && f.request.LoadBridge?
    ensures inputs[3].event == SavingCompleted(true)
    ensures var f := Run(Initial(), cfg, inputs); f.state.Idle? && f.request.Internal? && EndsWith(f, LoadBridge)
  {
    hide Run;
    hide Step;
    hide EndsWith;
    var one := [] + [Inp(Reset(false))];
    var two := one + [Inp(Abort)];
    var three := two + [Inp(Load)];
    inputs := three + [Inp(SavingCompleted(true))];
    assert inputs[..3] == three;
    ResetSaves(cfg);
    RunOneMore(Initial(), cfg, one, Abort);
    AbortIdles(Run(Initial(), cfg, one), cfg);
    RunOneMore(Initial(), cfg, two, Load);
    LoadLoads(Run(Initial(), cfg, two), cfg);
    RunOneMore(Initial(), cfg, three, SavingCompleted(true));
    var f, e := Run(Initial(), cfg, three), SavingCompleted(true);
    SaveStep(f, e, cfg, Inp(e).env);
    SaveEndsEverything(f, true, cfg, Inp(e).env);
  }
}
