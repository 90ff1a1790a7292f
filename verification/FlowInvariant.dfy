/**
 What every dispatched action of the connection flow keeps, whatever the environment answers.
 */
module FlowInvariant {
  import opened Prelude
  import opened BridgeData
  import opened FlowProtocol
  import opened FlowMessages
  import opened FlowSpec
  import BridgeStreamingChecker

  /** The trace is unbroken, and open exactly for the current request with no streaming edge reported yet;
      `start` is the bridge as it was when the procedure was announced. */
  ghost predicate InStep(trace: seq<Message>, request: Request, start: Bridge) {
    && PhaseAfter(trace) == (if request.Internal? then Closed else Open(request, start.IsStreaming(), 0, 0))
    && (request.Internal? || LastStarted(trace) == Some(start))
  }

  ghost predicate Mid(f: Flow) { InStep(f.trace, f.request, f.start) }

  /** What holds between dispatched actions. */
  ghost predicate Inv(f: Flow) {
    && Mid(f)
    && (f.state.Idle? ==> f.request.Internal?)
    && (f.state.Authenticating? ==> f.authCount >= 1)
    && !f.state.Activating? && !f.state.Deactivating?
  }

  predicate Quiet(id: MessageId) { KindOf(id).Other? }

  // ---------------------------------------------------------------- messages

  lemma {:induction false} QuietMessage(trace: seq<Message>, request: Request, start: Bridge, m: Message)
    requires InStep(trace, request, start) && m.request == request && Quiet(m.id)
    ensures InStep(trace + [m], request, start)
  {
    hide Bridge.GetStatus;
    PhaseStep(trace, m);
    LastStartedStep(trace, m);
    QuietNote(PhaseAfter(trace), Observe(m), request);
  }

  lemma {:induction false} QuietNote(p: Phase, n: Note, request: Request)
    requires n.kind.Other? && n.request == request
    requires (p.Closed? && request.Internal?) || (p.Open? && p.request == request)
    ensures Advance(p, n) == p
  {
  }

  lemma {:induction false} StartedMessage(trace: seq<Message>, request: Request, start: Bridge, b: Bridge)
    requires InStep(trace, Internal, start) && !request.Internal?
    ensures InStep(trace + [Message(request, UserProcedureStarted, b)], request, b)
  {
    hide Bridge.GetStatus;
    PhaseStep(trace, Message(request, UserProcedureStarted, b));
    LastStartedStep(trace, Message(request, UserProcedureStarted, b));
  }

  lemma {:induction false} FinishedNote(request: Request, was: bool, now: bool)
    ensures Advance(Open(request, was, One(!was && now), One(was && !now)), Note(request, Finished, now)) == Closed
  {
  }

  /** The edges that the differences report are the ones the protocol wants to have seen. */
  lemma {:induction false} DifferenceEdges(start: Bridge, b: Bridge)
    ensures var c := BridgeStreamingChecker.Changes(start, b);
            && EdgeSeen(c, |c|, 2) == One(!start.IsStreaming() && b.IsStreaming())
            && EdgeSeen(c, |c|, 3) == One(start.IsStreaming() && !b.IsStreaming())
  {
    hide Bridge.IsStreaming;
    hide Bridge.IsConnected;
  }

  lemma {:induction false} FinishedMessages(trace: seq<Message>, request: Request, start: Bridge, b: Bridge)
    requires InStep(trace, request, start) && !request.Internal?
    ensures var reports := DifferenceMessages(request, BridgeStreamingChecker.Differences(start, b), b);
            InStep(trace + reports + [Message(request, UserProcedureFinished, b)], Internal, start)
  {
    hide Bridge.IsStreaming;
    hide PhaseAfter;
    hide BridgeStreamingChecker.Changes;
    hide Advance;
    hide EdgeSeen;
    var c := BridgeStreamingChecker.Changes(start, b);
    var reports := DifferenceMessages(request, BridgeStreamingChecker.Differences(start, b), b);
    PhaseAfterDifferences(trace, request, c, |c|, b, start.IsStreaming());
    DifferenceEdges(start, b);
    PhaseStep(trace + reports, Message(request, UserProcedureFinished, b));
    FinishedNote(request, start.IsStreaming(), b.IsStreaming());
  }

  /** Between procedures any monitor message may pass; inside one only the news that the bridge is back. */
  lemma {:induction false} ForwardedNote(p: Phase, n: Note)
    requires n.request.Internal? && !n.kind.Started? && !n.kind.Finished?
    requires p.Closed? || (p.Open? && n.kind.BridgeUp?)
    ensures Advance(p, n) == p
  {
  }

  lemma {:induction false} ForwardedMessage(trace: seq<Message>, request: Request, start: Bridge, m: Message)
    requires InStep(trace, request, start) && IsMonitorMessage(m) && (request.Internal? || m.id.BridgeConnected?)
    ensures InStep(trace + [m], request, start)
  {
    hide Bridge.IsStreaming;
    hide PhaseAfter;
    hide Advance;
    PhaseStep(trace, m);
    LastStartedStep(trace, m);
    ForwardedNote(PhaseAfter(trace), Observe(m));
  }

  // ---------------------------------------------------------------- building blocks

  lemma {:induction false} TellKeeps(f: Flow, id: MessageId, b: Bridge)
    ensures Mid(f) && Quiet(id) ==> Mid(TellAbout(f, id, b))
  {
    hide InStep;
    if Mid(f) && Quiet(id) {
      QuietMessage(f.trace, f.request, f.start, Message(f.request, id, b));
    }
  }

  lemma {:induction false} BeginKeeps(f: Flow, request: Request)
    requires f.state.Idle?
    ensures Mid(f) && f.request.Internal? ==> Mid(Begin(f, request))
  {
    hide InStep;
    if Mid(f) && f.request.Internal? && !request.Internal? {
      StartedMessage(f.trace, request, f.start, f.Active());
    }
  }

  lemma {:induction false} FinishKeeps(f: Flow)
    ensures Mid(f) ==> Inv(Finish(f))
    ensures Finish(f).state.Idle? && Finish(f).request.Internal?
  {
    hide InStep;
    if Mid(f) && !f.request.Internal? {
      FinishedMessages(f.trace, f.request, f.start, f.Active());
    }
  }

  lemma {:induction false} ForwardKeeps(f: Flow, m: Message)
    ensures Mid(f) && IsMonitorMessage(m) && (f.request.Internal? || m.id.BridgeConnected?) ==> Mid(Forward(f, m))
  {
    hide InStep;
    if Mid(f) && IsMonitorMessage(m) && (f.request.Internal? || m.id.BridgeConnected?) {
      ForwardedMessage(f.trace, f.request, f.start, m);
    }
  }

  /** The building blocks keep the trace in step, for all arguments at once. */
  lemma {:induction false} TellsKeep()
    ensures forall f, id, b {:trigger TellAbout(f, id, b)} :: Mid(f) && Quiet(id) ==> Mid(TellAbout(f, id, b))
    ensures forall f: Flow, r {:trigger Begin(f, r)} :: f.state.Idle? && Mid(f) && f.request.Internal? ==> Mid(Begin(f, r))
  {
    forall f, id, b ensures Mid(f) && Quiet(id) ==> Mid(TellAbout(f, id, b)) {
      TellKeeps(f, id, b);
    }
    forall f: Flow, r | f.state.Idle? && Mid(f) && f.request.Internal? ensures Mid(Begin(f, r)) {
      BeginKeeps(f, r);
    }
  }

  lemma {:induction false} FinishesKeep()
    ensures forall f {:trigger Finish(f)} :: Mid(f) ==> Inv(Finish(f))
    ensures forall f {:trigger Finish(f)} :: Finish(f).state.Idle? && Finish(f).request.Internal?
  {
    forall f ensures (Mid(f) ==> Inv(Finish(f))) && Finish(f).state.Idle? && Finish(f).request.Internal? {
      FinishKeeps(f);
    }
  }

  lemma {:induction false} StartLoadingKeeps(f: Flow, next: Continuation)
    ensures Mid(f) ==> Inv(StartLoadingData(f, next))
  {
    hide InStep;
    TellsKeep();
  }

  lemma {:induction false} StartBridgeSearchKeeps(f: Flow)
    ensures Mid(f) ==> Inv(StartBridgeSearch(f))
  {
    hide InStep;
    TellsKeep();
  }

  lemma {:induction false} StartSavingKeeps(f: Flow)
    ensures Mid(f) ==> Inv(StartSavingData(f))
  {
    hide InStep;
    TellsKeep();
  }

  lemma {:induction false} ReportKeeps(f: Flow)
    ensures Mid(f) ==> Mid(ReportActionRequired(f))
  {
    hide InStep;
    hide Bridge.GetStatus;
    TellsKeep();
    assert forall s :: Quiet(StatusMessage(s));
  }

  lemma {:induction false} StartAuthenticationKeeps(f: Flow, bridges: seq<Found>)
    ensures Mid(f) && bridges != [] ==> Inv(StartAuthentication(f, bridges))
  {
    hide InStep;
    TellKeeps(f, StartAuthorizing, f.Active());
    TellKeeps(Tell(f, StartAuthorizing), PressPushLink, f.Active());
  }

  lemma {:induction false} StartRetrieveSmallKeeps(f: Flow, b: Bridge)
    ensures Mid(f) ==> Inv(StartRetrieveSmallConfig(f, b))
  {
    hide InStep;
    TellsKeep();
  }

  lemma {:induction false} StartRetrieveFullKeeps(f: Flow, env: Env)
    ensures Mid(f) ==> Inv(StartRetrieveFullConfig(f, env))
  {
    hide InStep;
    TellsKeep();
  }

  lemma {:induction false} StartsKeep()
    ensures forall f, next {:trigger StartLoadingData(f, next)} :: Mid(f) ==> Inv(StartLoadingData(f, next))
    ensures forall f {:trigger StartBridgeSearch(f)} :: Mid(f) ==> Inv(StartBridgeSearch(f))
    ensures forall f {:trigger StartSavingData(f)} :: Mid(f) ==> Inv(StartSavingData(f))
    ensures forall f {:trigger ReportActionRequired(f)} :: Mid(f) ==> Mid(ReportActionRequired(f))
    ensures forall f, bs {:trigger StartAuthentication(f, bs)} :: Mid(f) && bs != [] ==> Inv(StartAuthentication(f, bs))
    ensures forall f, b {:trigger StartRetrieveSmallConfig(f, b)} :: Mid(f) ==> Inv(StartRetrieveSmallConfig(f, b))
    ensures forall f, env {:trigger StartRetrieveFullConfig(f, env)} :: Mid(f) ==> Inv(StartRetrieveFullConfig(f, env))
  {
    hide *;
    forall f, next ensures Mid(f) ==> Inv(StartLoadingData(f, next)) { StartLoadingKeeps(f, next); }
    forall f ensures Mid(f) ==> Inv(StartBridgeSearch(f)) { StartBridgeSearchKeeps(f); }
    forall f ensures Mid(f) ==> Inv(StartSavingData(f)) { StartSavingKeeps(f); }
    forall f ensures Mid(f) ==> Mid(ReportActionRequired(f)) { ReportKeeps(f); }
    forall f, bs ensures Mid(f) && bs != [] ==> Inv(StartAuthentication(f, bs)) { StartAuthenticationKeeps(f, bs); }
    forall f, b ensures Mid(f) ==> Inv(StartRetrieveSmallConfig(f, b)) { StartRetrieveSmallKeeps(f, b); }
    forall f, env ensures Mid(f) ==> Inv(StartRetrieveFullConfig(f, env)) { StartRetrieveFullKeeps(f, env); }
  }

  // ---------------------------------------------------------------- actions

  lemma {:induction false} ActivateKeeps(f: Flow, cfg: Config, env: Env)
    ensures Mid(f) ==> Inv(ActivateStreaming(f, cfg, env))
    ensures ActivateStreaming(f, cfg, env).state.Idle? && ActivateStreaming(f, cfg, env).request.Internal?
  {
    hide InStep;
    hide Bridge.GetStatus;
    hide Finish;
    hide ReportActionRequired;
    TellsKeep();
    FinishesKeep();
    StartsKeep();
  }

  lemma {:induction false} RequestsKeep(f: Flow, e: Event, cfg: Config, env: Env)
    requires Inv(f) && (e.Load? || e.ConnectToBridge? || e.ConnectToBridgeBackground? || e.ConnectToBridgeWithIp? ||
                        e.StartStreaming? || e.StopStreaming?)
    ensures Inv(Step(f, e, cfg, env))
  {
    hide InStep;
    hide Bridge.GetStatus;
    hide Finish;
    hide StartLoadingData;
    hide StartAuthentication;
    hide StartRetrieveFullConfig;
    TellsKeep();
    FinishesKeep();
    StartsKeep();
  }

  lemma {:induction false} StoppingRequestsKeep(f: Flow, e: Event, cfg: Config, env: Env)
    requires Inv(f) && (e.ConnectToNewBridge? || e.SetManual? || e.ConnectWithIdKey? || e.Reset?)
    ensures Inv(Step(f, e, cfg, env))
  {
    hide InStep;
    hide Bridge.GetStatus;
    hide StartLoadingData;
    hide StartSavingData;
    TellsKeep();
    StartsKeep();
  }

  lemma {:induction false} SelectGroupKeeps(f: Flow, group: string)
    requires Inv(f)
    ensures Inv(DoSelectGroup(f, group))
  {
    hide InStep;
    hide Bridge.GetStatus;
    hide Finish;
    hide StartSavingData;
    hide ReportActionRequired;
    TellsKeep();
    FinishesKeep();
    StartsKeep();
  }

  lemma {:induction false} AbortKeeps(f: Flow)
    requires Inv(f)
    ensures Inv(DoAbort(f))
  {
    hide InStep;
    hide Finish;
    TellsKeep();
    FinishesKeep();
  }

  lemma {:induction false} MonitorKeeps(f: Flow, m: Message, env: Env)
    requires Inv(f) && IsMonitorMessage(m)
    ensures Inv(DoMonitor(f, m, env))
  {
    hide InStep;
    hide Bridge.GetStatus;
    hide Finish;
    hide Forward;
    hide StartSavingData;
    hide StartRetrieveFullConfig;
    forall g ensures Mid(g) && (g.request.Internal? || m.id.BridgeConnected?) ==> Mid(Forward(g, m)) {
      ForwardKeeps(g, m);
    }
    ForwardFrame(f, m);
    TellsKeep();
    FinishesKeep();
    StartsKeep();
  }

  lemma {:induction false} ForwardFrame(f: Flow, m: Message)
    ensures var g := Forward(f, m);
            g.state == f.state && g.request == f.request && g.authCount == f.authCount && g.start == f.start
  {
  }

  lemma {:induction false} ContinueKeeps(f: Flow, next: Continuation)
    ensures Mid(f) ==> Inv(Continue(f, next))
  {
    hide InStep;
    hide Finish;
    hide StartBridgeSearch;
    hide StartRetrieveSmallConfig;
    FinishesKeep();
    StartsKeep();
  }

  lemma {:induction false} LoadingCompletedKeeps(f: Flow, ok: bool, loaded: KnownBridges, next: Continuation)
    requires Inv(f)
    ensures Inv(DoLoadingCompleted(f, ok, loaded, next))
  {
    hide InStep;
    hide Continue;
    TellsKeep();
    forall g ensures Mid(g) ==> Inv(Continue(g, next)) {
      ContinueKeeps(g, next);
    }
  }

  lemma {:induction false} FoundKeeps(f: Flow, bridges: seq<Found>)
    requires bridges != []
    ensures Mid(f) ==> Inv(ValidFound(f, bridges)) && Inv(InvalidFound(f, bridges))
  {
    hide InStep;
    hide Bridge.GetStatus;
    hide Finish;
    hide RediscoverKnownBridge;
    hide StartSavingData;
    hide StartRetrieveSmallConfig;
    hide StartAuthentication;
    hide ReportActionRequired;
    TellsKeep();
    FinishesKeep();
    StartsKeep();
  }

  lemma {:induction false} NothingFoundKeeps(f: Flow)
    ensures Mid(f) ==> Inv(NothingFound(f))
  {
    hide InStep;
    hide Finish;
    hide StartSavingData;
    hide StartBridgeSearch;
    hide ReportActionRequired;
    TellsKeep();
    FinishesKeep();
    StartsKeep();
  }

  lemma {:induction false} SearchCompletedKeeps(f: Flow, discovered: seq<Found>)
    requires Inv(f)
    ensures Inv(DoSearchCompleted(f, discovered))
  {
    hide InStep;
    hide FilterBridges;
    hide NothingFound;
    hide ValidFound;
    hide InvalidFound;
    NothingFoundKeeps(f);
    if FilterBridges(discovered) != [] {
      FoundKeeps(f, FilterBridges(discovered));
    }
  }

  lemma {:induction false} AuthenticationCompletedKeeps(f: Flow, found: Found, env: Env)
    requires Inv(f)
    ensures Inv(DoAuthenticationCompleted(f, found, env))
    ensures f.state.Authenticating? ==> DoAuthenticationCompleted(f, found, env).authCount <= f.authCount
  {
    hide InStep;
    hide StartRetrieveFullConfig;
    TellsKeep();
    StartsKeep();
    RetrieveFullFrame(env);
  }

  lemma {:induction false} RetrieveFullFrame(env: Env)
    ensures forall f {:trigger StartRetrieveFullConfig(f, env)} :: StartRetrieveFullConfig(f, env).authCount == f.authCount
  {
  }

  lemma {:induction false} RetrieveFailedKeeps(f: Flow, found: Found, shared: bool)
    ensures Mid(f) ==> Inv(RetrieveFailed(f, found, shared))
  {
    hide InStep;
    hide Bridge.GetStatus;
    hide Finish;
    hide StartSavingData;
    hide StartBridgeSearch;
    hide StartAuthentication;
    hide ReportActionRequired;
    TellsKeep();
    FinishesKeep();
    StartsKeep();
  }

  lemma {:induction false} SmallConfigCompletedKeeps(f: Flow, ok: bool, found: Found, shared: bool, env: Env)
    requires Inv(f)
    ensures Inv(DoSmallConfigCompleted(f, ok, found, shared, env))
  {
    hide InStep;
    hide RetrieveFailed;
    hide StartBridgeSearch;
    hide StartAuthentication;
    hide StartRetrieveFullConfig;
    TellsKeep();
    StartsKeep();
    forall g ensures Mid(g) ==> Inv(RetrieveFailed(g, found, shared)) {
      RetrieveFailedKeeps(g, found, shared);
    }
  }

  lemma {:induction false} FullConfigCompletedKeeps(f: Flow, ok: bool, found: Found)
    requires Inv(f)
    ensures Inv(DoFullConfigCompleted(f, ok, found))
  {
    hide InStep;
    hide Bridge.GetStatus;
    hide RetrieveFailed;
    hide StartSavingData;
    hide ReportActionRequired;
    TellsKeep();
    StartsKeep();
    forall g ensures Mid(g) ==> Inv(RetrieveFailed(g, found, true)) {
      RetrieveFailedKeeps(g, found, true);
    }
  }

  /** A completed save always ends in Idle, whichever procedure it hits. */
  lemma {:induction false} SavingCompletedKeeps(f: Flow, ok: bool, cfg: Config, env: Env)
    ensures Mid(f) ==> Inv(DoSavingCompleted(f, ok, cfg, env))
    ensures DoSavingCompleted(f, ok, cfg, env).state.Idle? && DoSavingCompleted(f, ok, cfg, env).request.Internal?
  {
    hide InStep;
    hide Bridge.GetStatus;
    hide Finish;
    hide ActivateStreaming;
    TellsKeep();
    FinishesKeep();
    forall g ensures Mid(g) ==> Inv(ActivateStreaming(g, cfg, env)) {
      ActivateKeeps(g, cfg, env);
    }
    forall g ensures ActivateStreaming(g, cfg, env).state.Idle? && ActivateStreaming(g, cfg, env).request.Internal? {
      ActivateKeeps(g, cfg, env);
    }
  }

  /** Every action keeps the invariant, in every state and with every answer from outside. */
  lemma {:induction false} StepKeeps(f: Flow, e: Event, cfg: Config, env: Env)
    requires Inv(f) && Legal(e)
    ensures Inv(Step(f, e, cfg, env))
  {
    hide InStep;
    hide DoLoad;
    hide DoConnectToBridge;
    hide DoConnectToBridgeBackground;
    hide DoConnectToBridgeWithIp;
    hide DoConnectToNewBridge;
    hide DoSetManual;
    hide DoConnectWithIdKey;
    hide DoReset;
    hide DoSelectGroup;
    hide DoStartStream;
    hide DoStopStream;
    hide DoAbort;
    hide DoMonitor;
    hide DoLoadingCompleted;
    hide DoSearchCompleted;
    hide DoAuthenticationCompleted;
    hide DoSmallConfigCompleted;
    hide DoFullConfigCompleted;
    hide DoSavingCompleted;
    match e {
      case SelectGroup(group) => SelectGroupKeeps(f, group);
      case Abort => AbortKeeps(f);
      case Monitor(m) => MonitorKeeps(f, m, env);
      case LoadingCompleted(ok, loaded, next) => LoadingCompletedKeeps(f, ok, loaded, next);
      case SearchCompleted(bridges) => SearchCompletedKeeps(f, bridges);
      case AuthenticationCompleted(found) => AuthenticationCompletedKeeps(f, found, env);
      case SmallConfigCompleted(ok, found, shared) => SmallConfigCompletedKeeps(f, ok, found, shared, env);
      case FullConfigCompleted(ok, found) => FullConfigCompletedKeeps(f, ok, found);
      case SavingCompleted(ok) => SavingCompletedKeeps(f, ok, cfg, env);
      case PushLink(_) =>
      case ActiveBridgeWritten(_) =>
      case ConnectToNewBridge => StoppingRequestsKeep(f, e, cfg, env);
      case SetManual(_) => StoppingRequestsKeep(f, e, cfg, env);
      case ConnectWithIdKey(_, _, _) => StoppingRequestsKeep(f, e, cfg, env);
      case Reset(_) => StoppingRequestsKeep(f, e, cfg, env);
      case _ => RequestsKeep(f, e, cfg, env);
    }
  }
}
