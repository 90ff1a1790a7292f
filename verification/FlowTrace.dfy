/**
 Messages that were sent stay sent: every step of the connection flow only adds to the trace.
 */
module FlowTrace {
  import opened BridgeData
  import opened FlowProtocol
  import opened FlowMessages
  import opened FlowSpec
  import BridgeStreamingChecker

  /** The flow has sent at least the messages `sent`, in that order. */
  ghost predicate Grown(sent: seq<Message>, f: Flow) { sent <= f.trace }

  lemma {:induction false} MessagesGrow(sent: seq<Message>)
    ensures forall f: Flow, id, b :: Grown(sent, f) ==> Grown(sent, TellAbout(f, id, b))
    ensures forall f: Flow, id :: Grown(sent, f) ==> Grown(sent, Tell(f, id))
    ensures forall f: Flow, m :: Grown(sent, f) ==> Grown(sent, Forward(f, m))
    ensures forall f: Flow, c :: Grown(sent, f) ==> Grown(sent, Do(f, c))
  {
  }

  lemma {:induction false} FinishGrows(sent: seq<Message>)
    ensures forall f: Flow :: Grown(sent, f) ==> Grown(sent, Finish(f))
    ensures forall f: Flow, r :: f.state.Idle? && Grown(sent, f) ==> Grown(sent, Begin(f, r))
  {
    hide BridgeStreamingChecker.Differences;
    hide DifferenceMessages;
  }

  lemma {:induction false} StartsGrow(sent: seq<Message>)
    ensures forall f: Flow, env :: Grown(sent, f) ==> Grown(sent, StopStreamOf(f, env))
    ensures forall f: Flow, env :: Grown(sent, f) ==> Grown(sent, StopIfStreaming(f, env))
    ensures forall f: Flow, next :: Grown(sent, f) ==> Grown(sent, StartLoadingData(f, next))
    ensures forall f: Flow :: Grown(sent, f) ==> Grown(sent, StartBridgeSearch(f))
    ensures forall f: Flow :: Grown(sent, f) ==> Grown(sent, StartSavingData(f))
    ensures forall f: Flow, env :: Grown(sent, f) ==> Grown(sent, StartRetrieveFullConfig(f, env))
  {
    hide Bridge.GetStatus;
    hide Tell;
    hide Do;
    MessagesGrow(sent);
    MessageParts(sent);
  }

  /** Changing other fields than the trace does not matter. */
  lemma {:induction false} MessageParts(sent: seq<Message>)
    ensures forall f: Flow, g: Flow :: Grown(sent, f) && g.trace == f.trace ==> Grown(sent, g)
  {
  }

  lemma {:induction false} MoreStartsGrow(sent: seq<Message>)
    ensures forall f: Flow :: Grown(sent, f) ==> Grown(sent, ReportActionRequired(f))
    ensures forall f: Flow, b :: Grown(sent, f) ==> Grown(sent, StartRetrieveSmallConfig(f, b))
    ensures forall f: Flow, bs :: Grown(sent, f) ==> Grown(sent, StartAuthentication(f, bs))
    ensures forall f: Flow, cfg, env :: Grown(sent, f) ==> Grown(sent, ActivateStreaming(f, cfg, env))
  {
    hide Bridge.GetStatus;
    hide StatusMessage;
    hide Tell;
    hide Do;
    hide Finish;
    hide AuthTable;
    hide Refs;
    MessagesGrow(sent);
    FinishGrows(sent);
  }

  // ---------------------------------------------------------------- actions

  lemma {:induction false} LoadingRequestsGrow(f: Flow, e: Event, cfg: Config, env: Env)
    ensures Grown(f.trace, DoLoad(f)) && Grown(f.trace, DoConnectToBridgeBackground(f))
    ensures Grown(f.trace, DoConnectToNewBridge(f, env))
    ensures e.ConnectToBridgeWithIp? ==> Grown(f.trace, DoConnectToBridgeWithIp(f, e.ip))
    ensures e.SetManual? ==> Grown(f.trace, DoSetManual(f, e.bridge, env))
    ensures e.ConnectWithIdKey? ==> Grown(f.trace, DoConnectWithIdKey(f, e.id, e.user, e.clientKey, cfg, env))
  {
    hide Begin;
    hide StartLoadingData;
    hide StopIfStreaming;
    hide SetActiveBridge;
    FinishGrows(f.trace);
    StartsGrow(f.trace);
  }

  lemma {:induction false} OtherRequestsGrow(f: Flow, onlyActive: bool, group: string, env: Env)
    ensures Grown(f.trace, DoConnectToBridge(f)) && Grown(f.trace, DoReset(f, onlyActive, env))
    ensures Grown(f.trace, DoSelectGroup(f, group)) && Grown(f.trace, DoStartStream(f, env))
    ensures Grown(f.trace, DoStopStream(f, env)) && Grown(f.trace, DoAbort(f))
  {
    hide Begin;
    hide Finish;
    hide Tell;
    hide StartLoadingData;
    hide StartSavingData;
    hide StartRetrieveFullConfig;
    hide StartAuthentication;
    hide ReportActionRequired;
    hide StopIfStreaming;
    hide StopStreamOf;
    hide SetActiveBridge;
    hide ClearActiveBridge;
    hide Bridge.SelectGroup;
    hide Bridge.GetGroup;
    MessagesGrow(f.trace);
    FinishGrows(f.trace);
    StartsGrow(f.trace);
    MoreStartsGrow(f.trace);
  }

  lemma {:induction false} MonitorGrows(f: Flow, m: Message, env: Env)
    ensures Grown(f.trace, DoMonitor(f, m, env))
  {
    hide Begin;
    hide Finish;
    hide Forward;
    hide Do;
    hide StartSavingData;
    hide StartRetrieveFullConfig;
    hide StopStreamOf;
    hide SetActiveBridge;
    MessagesGrow(f.trace);
    FinishGrows(f.trace);
    StartsGrow(f.trace);
  }

  lemma {:induction false} ContinueGrows(sent: seq<Message>, f: Flow, next: Continuation)
    requires Grown(sent, f)
    ensures Grown(sent, Continue(f, next))
  {
    hide Finish;
    hide StartBridgeSearch;
    hide StartRetrieveSmallConfig;
    hide SetActiveBridge;
    FinishGrows(sent);
    StartsGrow(sent);
    MoreStartsGrow(sent);
  }

  lemma {:induction false} LoadingCompletedGrows(f: Flow, ok: bool, loaded: KnownBridges, next: Continuation)
    ensures Grown(f.trace, DoLoadingCompleted(f, ok, loaded, next))
  {
    hide Tell;
    hide Continue;
    MessagesGrow(f.trace);
    if f.state.Loading? {
      var g := f.(data := loaded);
      ContinueGrows(f.trace, Tell(g, FinishLoadingBridgeConfigured), next);
      var h := Tell(g, FinishLoadingNoBridgeConfigured);
      ContinueGrows(f.trace, h.(data := WithActive(h.data, h.Active().Cleared())), next);
    }
  }

  lemma {:induction false} SearchCompletedGrows(f: Flow, discovered: seq<Found>)
    ensures Grown(f.trace, DoSearchCompleted(f, discovered))
  {
    hide Tell;
    hide Finish;
    hide StartBridgeSearch;
    hide StartRetrieveSmallConfig;
    hide StartAuthentication;
    hide StartSavingData;
    hide ReportActionRequired;
    hide RediscoverKnownBridge;
    hide FilterBridges;
    hide ContainsValidBridge;
    hide Bridges;
    MessagesGrow(f.trace);
    FinishGrows(f.trace);
    StartsGrow(f.trace);
    MoreStartsGrow(f.trace);
  }

  lemma {:induction false} AuthenticationCompletedGrows(f: Flow, found: Found, env: Env)
    ensures Grown(f.trace, DoAuthenticationCompleted(f, found, env))
  {
    hide Tell;
    hide Do;
    hide StartBridgeSearch;
    hide StartRetrieveFullConfig;
    hide SetActiveBridge;
    MessagesGrow(f.trace);
    StartsGrow(f.trace);
  }

  lemma {:induction false} RetrieveFailedGrows(sent: seq<Message>, f: Flow, found: Found, shared: bool)
    requires Grown(sent, f)
    ensures Grown(sent, RetrieveFailed(f, found, shared))
  {
    hide Tell;
    hide TellAbout;
    hide Finish;
    hide StartBridgeSearch;
    hide StartAuthentication;
    hide StartSavingData;
    hide ReportActionRequired;
    MessagesGrow(sent);
    FinishGrows(sent);
    StartsGrow(sent);
    MoreStartsGrow(sent);
  }

  lemma {:induction false} ConfigCompletedGrows(f: Flow, ok: bool, found: Found, shared: bool, env: Env)
    ensures Grown(f.trace, DoSmallConfigCompleted(f, ok, found, shared, env))
    ensures Grown(f.trace, DoFullConfigCompleted(f, ok, found))
  {
    hide Tell;
    hide TellAbout;
    hide RetrieveFailed;
    hide StartBridgeSearch;
    hide StartAuthentication;
    hide StartSavingData;
    hide StartRetrieveFullConfig;
    hide ReportActionRequired;
    hide SetActiveBridge;
    hide Bridge.GetStatus;
    hide Bridge.GetGroup;
    hide Bridge.SelectGroupIfOnlyOneOption;
    MessagesGrow(f.trace);
    StartsGrow(f.trace);
    MoreStartsGrow(f.trace);
    RetrieveFailedGrows(f.trace, if shared then f.(data := WithActive(f.data, found.bridge)) else f, found, shared);
    RetrieveFailedGrows(f.trace, f.(data := SetActiveBridge(f.data, found.bridge)), found, true);
  }

  lemma {:induction false} SavingCompletedGrows(f: Flow, ok: bool, cfg: Config, env: Env)
    ensures Grown(f.trace, DoSavingCompleted(f, ok, cfg, env))
  {
    hide Tell;
    hide Finish;
    hide ActivateStreaming;
    hide Bridge.GetStatus;
    MessagesGrow(f.trace);
    FinishGrows(f.trace);
    MoreStartsGrow(f.trace);
  }

  lemma {:induction false} StepGrows(f: Flow, e: Event, cfg: Config, env: Env)
    ensures Grown(f.trace, Step(f, e, cfg, env))
  {
    hide DoLoad;
    hide DoConnectToBridge;
    hide DoConnectToBridgeBackground;
    hide DoConnectToBridgeWithIp;
    hide DoConnectToNewBridge;
    hide DoSetManual;
    hide DoConnectWithIdKey;
    hide DoReset;
    hide DoSelectGroup;
    hide DoStartStream;
    hide DoStopStream;
    hide DoAbort;
    hide DoMonitor;
    hide DoLoadingCompleted;
    hide DoSearchCompleted;
    hide DoAuthenticationCompleted;
    hide DoSmallConfigCompleted;
    hide DoFullConfigCompleted;
    hide DoSavingCompleted;
    match e {
      case Reset(onlyActive) => OtherRequestsGrow(f, onlyActive, "", env);
      case SelectGroup(group) => OtherRequestsGrow(f, false, group, env);
      case Monitor(m) => MonitorGrows(f, m, env);
      case LoadingCompleted(ok, loaded, next) => LoadingCompletedGrows(f, ok, loaded, next);
      case SearchCompleted(bridges) => SearchCompletedGrows(f, bridges);
      case AuthenticationCompleted(found) => AuthenticationCompletedGrows(f, found, env);
      case SmallConfigCompleted(ok, found, shared) => ConfigCompletedGrows(f, ok, found, shared, env);
      case FullConfigCompleted(ok, found) => ConfigCompletedGrows(f, ok, found, true, env);
      case SavingCompleted(ok) => SavingCompletedGrows(f, ok, cfg, env);
      case _ =>
        LoadingRequestsGrow(f, e, cfg, env);
        OtherRequestsGrow(f, false, "", env);
    }
  }
}
