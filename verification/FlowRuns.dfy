/**
 Whole runs of the connection flow: any sequence of requests, monitor events, aborts and
 completions, in any order and with any answers.
 */
module FlowRuns {
  import opened Prelude
  import opened BridgeData
  import opened FlowProtocol
  import opened FlowMessages
  import opened FlowSpec
  import opened FlowInvariant
  import BridgeStreamingChecker

  datatype Input = Input(event: Event, env: Env)

  function Run(f: Flow, cfg: Config, inputs: seq<Input>): Flow {
    if inputs == [] then f
    else
      var last := inputs[|inputs| - 1];
      Step(Run(f, cfg, inputs[..|inputs| - 1]), last.event, cfg, last.env)
  }

  ghost predicate LegalRun(inputs: seq<Input>) { forall i :: 0 <= i < |inputs| ==> Legal(inputs[i].event) }

  lemma {:induction false} InitialInv()
    ensures Inv(Initial())
  {
    assert Observed([]) == [];
  }

  lemma {:induction false} RunKeeps(f: Flow, cfg: Config, inputs: seq<Input>)
    requires Inv(f) && LegalRun(inputs)
    ensures Inv(Run(f, cfg, inputs))
  {
    hide InStep;
    hide Step;
    if inputs != [] {
      RunKeeps(f, cfg, inputs[..|inputs| - 1]);
      var last := inputs[|inputs| - 1];
      StepKeeps(Run(f, cfg, inputs[..|inputs| - 1]), last.event, cfg, last.env);
    }
  }

  /** In every run: the trace follows the procedure protocol, a procedure is open exactly while a request other
      than INTERNAL is current, the flow is idle only without one, and the authentication counter is positive
      while authenticating. */
  lemma {:induction false} EveryRunFollowsTheProtocol(cfg: Config, inputs: seq<Input>)
    requires LegalRun(inputs)
    ensures var f := Run(Initial(), cfg, inputs);
            && !PhaseAfter(f.trace).Broken?
            && (PhaseAfter(f.trace).Open? <==> !f.request.Internal?)
            && (PhaseAfter(f.trace).Open? ==> PhaseAfter(f.trace).request == f.request && LastStarted(f.trace) == Some(f.start))
            && (f.state.Idle? ==> f.request.Internal?)
            && (f.state.Authenticating? ==> f.authCount >= 1)
  {
    hide PhaseAfter;
    hide Step;
    hide Initial;
    InitialInv();
    RunKeeps(Initial(), cfg, inputs);
  }

  /** STARTED and FINISHED alternate and belong together: in every run, the next of the two after a STARTED is a
      FINISHED of the same request, and in between the streaming edges are reported exactly as they happened. */
  lemma {:induction false} EveryProcedureIsWellFormed(cfg: Config, inputs: seq<Input>, i: nat, j: nat)
    requires LegalRun(inputs)
    requires i < j < |Run(Initial(), cfg, inputs).trace|
    requires var t := Observed(Run(Initial(), cfg, inputs).trace);
             t[i].kind.Started? && IsBoundary(t[j]) && NoBoundary(t, i + 1, j)
    ensures var ms := Run(Initial(), cfg, inputs).trace;
            && ms[j].id.UserProcedureFinished?
            && ms[j].request == ms[i].request && !ms[i].request.Internal?
            && Ups(Observed(ms), i + 1, j) == One(!ms[i].bridge.IsStreaming() && ms[j].bridge.IsStreaming())
            && Downs(Observed(ms), i + 1, j) == One(ms[i].bridge.IsStreaming() && !ms[j].bridge.IsStreaming())
  {
    hide Bridge.IsStreaming;
    hide Run;
    hide Scan;
    EveryRunFollowsTheProtocol(cfg, inputs);
    var ms := Run(Initial(), cfg, inputs).trace;
    ProcedureInTrace(Observed(ms), i, j);
  }

  /** A procedure is open exactly when some STARTED of the current request has no boundary after it. */
  lemma {:induction false} OpenMeansStarted(cfg: Config, inputs: seq<Input>)
    requires LegalRun(inputs)
    ensures var f := Run(Initial(), cfg, inputs);
            !f.request.Internal? <==>
            exists i :: 0 <= i < |f.trace| && f.trace[i].id.UserProcedureStarted? && NoBoundary(Observed(f.trace), i + 1, |f.trace|)
    ensures var f := Run(Initial(), cfg, inputs);
            forall i :: 0 <= i < |f.trace| && f.trace[i].id.UserProcedureStarted? && NoBoundary(Observed(f.trace), i + 1, |f.trace|)
                        ==> f.trace[i].request == f.request
  {
    hide *;
    EveryRunFollowsTheProtocol(cfg, inputs);
    var f := Run(Initial(), cfg, inputs);
    var t := Observed(f.trace);
    ObservedStarts(f.trace);
    OpenPhase(f.trace);
    OpenExactly(t);
  }

  lemma {:induction false} ObservedStarts(ms: seq<Message>)
    ensures forall i :: 0 <= i < |ms| ==> (Observed(ms)[i].kind.Started? <==> ms[i].id.UserProcedureStarted?)
    ensures forall i :: 0 <= i < |ms| ==> Observed(ms)[i].request == ms[i].request
  {
    hide Bridge.IsStreaming;
  }

  lemma {:induction false} OpenPhase(ms: seq<Message>)
    ensures PhaseAfter(ms) == Scan(Observed(ms))
  {
  }

  // ---------------------------------------------------------------- concrete runs

  /** An event with an environment that answers no more than it must. */
  function Inp(e: Event): Input { Input(e, Env(NewBridge(), false, NewBridge(), false)) }

  lemma {:induction false} RunOneMore(f: Flow, cfg: Config, inputs: seq<Input>, e: Event)
    ensures Run(f, cfg, inputs + [Inp(e)]) == Step(Run(f, cfg, inputs), e, cfg, Inp(e).env)
  {
    assert (inputs + [Inp(e)])[..|inputs|] == inputs;
  }

  // ---------------------------------------------------------------- abort

  /** Aborting a user procedure: the bridge of its STARTED is active again, and all that is said is ABORTED and
      FINISHED, because a bridge does not differ from itself. */
  lemma {:induction false} AbortRestoresTheStart(f: Flow)
    requires Inv(f) && !f.request.Internal?
    ensures var r := DoAbort(f);
            && LastStarted(f.trace) == Some(r.Active())
            && r.state.Idle? && r.request.Internal?
            && r.trace == f.trace + [Message(f.request, DoneAborted, r.Active()), Message(f.request, UserProcedureFinished, r.Active())]
  {
    hide Bridge.GetStatus;
    hide PhaseAfter;
    hide BridgeStreamingChecker.Differences;
    BridgeStreamingChecker.NoDifferenceWithItself(f.start);
    var reports := DifferenceMessages(f.request, BridgeStreamingChecker.Differences(f.start, f.start), f.start);
    assert reports == [];
    var aborted := Message(f.request, DoneAborted, f.start);
    assert f.trace + [aborted] + [] == f.trace + [aborted];
    assert f.trace + [aborted] + [Message(f.request, UserProcedureFinished, f.start)]
        == f.trace + [aborted, Message(f.request, UserProcedureFinished, f.start)];
  }

  /** Completions other than that of a save. */
  predicate IsLateCompletion(e: Event) {
    e.LoadingCompleted? || e.SearchCompleted? || e.AuthenticationCompleted? || e.PushLink? ||
    e.SmallConfigCompleted? || e.FullConfigCompleted?
  }

  lemma {:induction false} LateCompletionIsIgnored(f: Flow, e: Event, cfg: Config, env: Env)
    requires f.state.Idle? && IsLateCompletion(e)
    ensures Step(f, e, cfg, env).(calls := f.calls) == f
  {
    hide Bridge.GetStatus;
    hide Continue;
    hide NothingFound;
    hide ValidFound;
    hide InvalidFound;
    hide RetrieveFailed;
    hide StartRetrieveFullConfig;
    hide StartAuthentication;
    hide StartBridgeSearch;
    hide StartSavingData;
    hide ReportActionRequired;
  }

  /** With no save outstanding, nothing that completes late changes an idle flow or says anything, until the next
      request or monitor event; all a late pushlink retry does is ask the bridge again. */
  lemma {:induction false} LateCompletionsAreIgnored(f: Flow, cfg: Config, inputs: seq<Input>)
    requires f.state.Idle? && forall i :: 0 <= i < |inputs| ==> IsLateCompletion(inputs[i].event)
    ensures Run(f, cfg, inputs).(calls := f.calls) == f
  {
    hide Step;
    if inputs != [] {
      LateCompletionsAreIgnored(f, cfg, inputs[..|inputs| - 1]);
      var last := inputs[|inputs| - 1];
      LateCompletionIsIgnored(Run(f, cfg, inputs[..|inputs| - 1]), last.event, cfg, last.env);
    }
  }

  lemma {:induction false} AbortStep(f: Flow, cfg: Config, env: Env)
    ensures Step(f, Abort, cfg, env) == DoAbort(f)
  {
    hide DoAbort;
  }

  lemma {:induction false} ActiveIgnoresCalls(f: Flow, g: Flow)
    requires f.(calls := g.calls) == g
    ensures f.Active() == g.Active()
  {
  }

  /** Both together: abort a user procedure, then let anything but a save complete. */
  lemma {:induction false} AbortIsQuiescent(f: Flow, cfg: Config, env: Env, inputs: seq<Input>)
    requires Inv(f) && !f.request.Internal?
    requires forall i :: 0 <= i < |inputs| ==> IsLateCompletion(inputs[i].event)
    ensures var r := Run(Step(f, Abort, cfg, env), cfg, inputs);
            && r.state.Idle? && r.request.Internal?
            && LastStarted(f.trace) == Some(r.Active())
            && r.trace == f.trace + [Message(f.request, DoneAborted, r.Active()), Message(f.request, UserProcedureFinished, r.Active())]
  {
    hide *;
    AbortRestoresTheStart(f);
    AbortStep(f, cfg, env);
    LateCompletionsAreIgnored(DoAbort(f), cfg, inputs);
    ActiveIgnoresCalls(Run(DoAbort(f), cfg, inputs), DoAbort(f));
  }

  // ---------------------------------------------------------------- loading

  /** The bridge a request names is the one whose configuration is asked for, once the data is loaded: the loader is
      left with a continuation, and running it asks that bridge. */
  lemma {:induction false} NamedBridgeIsAsked(f: Flow, e: Event, cfg: Config, env: Env, ok: bool, loaded: KnownBridges)
    requires f.state.Idle? && (e.ConnectToBridgeWithIp? || e.SetManual? || e.ConnectWithIdKey?)
    ensures var named := match e
                         case ConnectToBridgeWithIp(ip) => IpBridge(ip)
                         case SetManual(b) => ManualBridge(b)
                         case ConnectWithIdKey(id, user, clientKey) => IdKeyBridge(cfg, id, user, clientKey)
                         case _ => NewBridge();
            var g := Step(f, e, cfg, env);
            && g.state.Loading? && g.calls != [] && g.calls[|g.calls| - 1].LoadData?
            && var h := DoLoadingCompleted(g, ok, loaded, g.calls[|g.calls| - 1].next);
               h.state.Retrieving? && h.calls == g.calls + [RetrieveSmall(named)]
  {
    hide Bridge.GetStatus;
    hide Begin;
    hide StopIfStreaming;
    hide IpBridge;
    hide ManualBridge;
    hide IdKeyBridge;
    hide SetActiveBridge;
  }
}
