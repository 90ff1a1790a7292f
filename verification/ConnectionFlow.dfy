/**
 The connection flow as it is written: an object whose actions change its fields in place and
 send messages one by one.  Every action is shown to be the transition the specification gives.
 */
module ConnectionFlow {
  import opened Prelude
  import opened BridgeData
  import opened FlowProtocol
  import opened FlowMessages
  import opened FlowSpec
  import BridgeStreamingChecker
  import DifferenceReport

  class Machine {
    const cfg: Config
    var state: State
    var request: Request
    var authCount: nat
    var authInfo: map<nat, AuthInfo>
    var background: seq<Found>
    var data: KnownBridges
    var start: Bridge
    var fullRetriever: Option<bool>
    var calls: seq<Call>
    var trace: seq<Message>

    ghost function View(): Flow
      reads this
    {
      Flow(state, request, authCount, authInfo, background, data, start, fullRetriever, calls, trace)
    }

    function Active(): Bridge
      reads this
    {
      GetActiveBridge(data)
    }

    constructor (cfg: Config)
      ensures View() == Initial() && this.cfg == cfg
    {
      this.cfg := cfg;
      state, request, authCount, authInfo := Idle, Internal, 0, map[];
      background, data, start := [], [NewBridge()], NewBridge();
      fullRetriever, calls, trace := None, [], [];
    }

    method Issue(c: Call)
      modifies this`calls
      ensures View() == Do(old(View()), c)
    {
      calls := calls + [c];
    }

    method NewMessage(id: MessageId)
      modifies this`trace
      ensures View() == Tell(old(View()), id)
    {
      trace := trace + [Message(request, id, Active())];
    }

    method NewMessageAbout(id: MessageId, b: Bridge)
      modifies this`trace
      ensures View() == TellAbout(old(View()), id, b)
    {
      trace := trace + [Message(request, id, b)];
    }

    method PassOn(m: Message)
      modifies this`trace
      ensures View() == Forward(old(View()), m)
    {
      trace := trace + [m];
    }

    method Start(r: Request) returns (started: bool)
      modifies this
      ensures started <==> old(state).Idle?
      ensures View() == if old(state).Idle? then Begin(old(View()), r) else old(View())
    {
      if state != Idle {
        return false;
      }
      request := r;
      if r != Internal {
        NewMessage(UserProcedureStarted);
        start := Active();
      }
      return true;
    }

    method Finish()
      modifies this
      ensures View() == FlowSpec.Finish(old(View()))
    {
      hide DifferenceMessages;
      hide BridgeStreamingChecker.Differences;
      state := Idle;
      if request != Internal {
        var differences := BridgeStreamingChecker.CompareBridges(start, Active());
        ReportDifferences(differences);
        NewMessage(UserProcedureFinished);
      }
      request := Internal;
    }

    method ReportDifferences(differences: seq<DifferenceReport.Difference>)
      modifies this`trace
      ensures trace == old(trace) + DifferenceMessages(request, differences, Active())
    {
      ghost var reports := DifferenceMessages(request, differences, Active());
      for i := 0 to |differences|
        invariant trace == old(trace) + reports[..i]
      {
        NewMessage(DifferenceId(differences[i]));
      }
      assert reports[..|differences|] == reports;
    }

    // -------------------------------------------------------------- starting things

    method StopIfStreaming(env: Env)
      modifies this
      ensures View() == FlowSpec.StopIfStreaming(old(View()), env)
    {
      if Active().IsStreaming() {
        StopStreamNow(env);
      }
    }

    method StopStreamNow(env: Env)
      modifies this
      ensures View() == StopStreamOf(old(View()), env)
    {
      Issue(StopStream(Active()));
      data := WithActive(data, env.afterStop);
    }

    method StartLoading(next: Continuation)
      modifies this
      ensures View() == StartLoadingData(old(View()), next)
    {
      NewMessage(MessageId.StartLoading);
      state := Loading;
      Issue(LoadData(next));
    }

    method StartBridgeSearch()
      modifies this
      ensures View() == FlowSpec.StartBridgeSearch(old(View()))
    {
      NewMessage(StartSearching);
      var bruteForce := false;
      if state == SearchingFirst {
        state := SearchingRetry;
        bruteForce := true;
      } else {
        state := SearchingFirst;
      }
      Issue(SearchNew(bruteForce));
    }

    method StartSaving()
      modifies this
      ensures View() == StartSavingData(old(View()))
    {
      NewMessage(MessageId.StartSaving);
      state := Saving;
      Issue(SaveData(data));
    }

    method ReportActionRequired()
      modifies this
      ensures View() == FlowSpec.ReportActionRequired(old(View()))
    {
      NewMessage(DoneActionRequired);
      var status := Active().GetStatus();
      NewMessage(StatusMessage(status));
    }

    method StartAuthentication(bridges: seq<Found>)
      modifies this
      ensures View() == FlowSpec.StartAuthentication(old(View()), bridges)
    {
      NewMessage(StartAuthorizing);
      NewMessage(PressPushLink);
      state := Authenticating;
      authCount := |bridges|;
      authInfo := map[];
      Issue(StartScheduler);
      ghost var before := View();
      for i := 0 to |bridges|
        invariant authInfo == AuthTable(bridges[..i])
        invariant calls == before.calls + Refs(bridges[..i])
        invariant View() == before.(authInfo := authInfo, calls := calls)
      {
        assert bridges[..i + 1][..i] == bridges[..i];
        if bridges[i].ref !in authInfo {
          authInfo := authInfo[bridges[i].ref := AuthInfo(0, i)];
        }
        Issue(Authenticate(bridges[i].ref));
      }
      assert bridges[..|bridges|] == bridges;
    }

    method StartRetrieveSmallConfig(b: Bridge)
      modifies this
      ensures View() == FlowSpec.StartRetrieveSmallConfig(old(View()), b)
    {
      state := Retrieving;
      NewMessage(StartRetrievingSmall);
      Issue(RetrieveSmall(b));
    }

    method StartRetrieveFullConfig(env: Env)
      modifies this
      ensures View() == FlowSpec.StartRetrieveFullConfig(old(View()), env)
    {
      state := Retrieving;
      var bridge := Active();
      if fullRetriever.None? || fullRetriever.value != bridge.IsSupportingClipV2() {
        fullRetriever := Some(bridge.IsSupportingClipV2());
      }
      Issue(RetrieveFull(bridge, fullRetriever.value));
      if env.executed {
        NewMessageAbout(StartRetrieving, bridge);
      }
    }

    method ActivateStreaming(env: Env)
      modifies this
      ensures View() == FlowSpec.ActivateStreaming(old(View()), cfg, env)
    {
      NewMessage(StartActivating);
      state := Activating;
      Issue(StartStream(Active(), cfg.useRenderThread));
      data := WithActive(data, env.afterStart);
      if env.startOk {
        NewMessage(FinishActivatingActive);
        NewMessage(DoneCompleted);
      } else {
        NewMessage(FinishActivatingFailed);
        ReportActionRequired();
      }
      Finish();
    }

    // -------------------------------------------------------------- user requests

    method DoLoad()
      modifies this
      ensures View() == FlowSpec.DoLoad(old(View()))
    {
      var started := Start(LoadBridge);
      if started {
        StartLoading(ThenFinish);
      }
    }

    method DoConnectToBridge()
      modifies this
      ensures View() == FlowSpec.DoConnectToBridge(old(View()))
    {
      var started := Start(Connect);
      if !started {
        return;
      }
      if background != [] {
        var bridges := background;
        background := [];
        StartAuthentication(bridges);
      } else {
        StartLoading(ThenSearchOrRetrieve);
      }
    }

    method DoConnectToBridgeBackground()
      modifies this
      ensures View() == FlowSpec.DoConnectToBridgeBackground(old(View()))
    {
      var started := Start(ConnectBackground);
      if started {
        StartLoading(ThenSearchOrRetrieve);
      }
    }

    method DoConnectToBridgeWithIp(ip: string)
      modifies this
      ensures View() == FlowSpec.DoConnectToBridgeWithIp(old(View()), ip)
    {
      var started := Start(ConnectIp);
      if started {
        var bridge := NewBridge();
        bridge := bridge.(ip := ip);
        bridge := bridge.(validIp := true);
        StartLoading(ThenRetrieve(bridge));
      }
    }

    method DoConnectToNewBridge(env: Env)
      modifies this
      ensures View() == FlowSpec.DoConnectToNewBridge(old(View()), env)
    {
      var started := Start(ConnectNew);
      if started {
        StopIfStreaming(env);
        data := SetActiveBridge(data, NewBridge());
        StartLoading(ThenSearch);
      }
    }

    method DoSetManual(bridge: Bridge, env: Env)
      modifies this
      ensures View() == FlowSpec.DoSetManual(old(View()), bridge, env)
    {
      var started := Start(SetManualBridge);
      if started {
        StopIfStreaming(env);
        StartLoading(ThenRetrieve(bridge.(validIp := true, authorized := true)));
      }
    }

    method DoConnectWithIdKey(id: string, user: string, clientKey: string, env: Env)
      modifies this
      ensures View() == FlowSpec.DoConnectWithIdKey(old(View()), id, user, clientKey, cfg, env)
    {
      var started := Start(ConnectIdKey);
      if started {
        StopIfStreaming(env);
        var bridge := NewBridge();
        bridge := bridge.(id := id, user := user, appId := user, clientKey := clientKey);
        bridge := bridge.(ip := "127.0.0.1", modelId := "BSB002", modelSupported := cfg.supportsBsb002);
        bridge := bridge.(validIp := true, authorized := true);
        StartLoading(ThenActivateAndRetrieve(bridge));
      }
    }

    method DoReset(onlyActive: bool, env: Env)
      modifies this
      ensures View() == FlowSpec.DoReset(old(View()), onlyActive, env)
    {
      var started := Start(if onlyActive then ResetBridge else ResetAll);
      if !started {
        return;
      }
      StopIfStreaming(env);
      ClearBridge();
    }

    method ClearBridge()
      requires request.ResetBridge? || request.ResetAll?
      modifies this
      ensures View() == StartSavingData(Tell(old(View()).(data := if old(request).ResetBridge? then ClearActiveBridge(old(data))
                                                                  else [NewBridge()]), DoneReset))
    {
      if request == ResetBridge {
        data := ClearActiveBridge(data);
      }
      if request == ResetAll {
        data := [NewBridge()];
      }
      NewMessage(DoneReset);
      StartSaving();
    }

    method DoSelectGroup(group: string)
      modifies this
      ensures View() == FlowSpec.DoSelectGroup(old(View()), group)
    {
      var started := Start(Select);
      if !started {
        return;
      }
      var (selected, b) := Active().SelectGroup(group);
      data := WithActive(data, b);
      if !Active().IsValidGroupSelected() {
        ReportActionRequired();
      }
      if selected {
        StartSaving();
      } else {
        Finish();
      }
    }

    method DoStartStream(env: Env)
      modifies this
      ensures View() == FlowSpec.DoStartStream(old(View()), env)
    {
      var started := Start(Activate);
      if started {
        StartRetrieveFullConfig(env);
      }
    }

    method DoStopStream(env: Env)
      modifies this
      ensures View() == FlowSpec.DoStopStream(old(View()), env)
    {
      var started := Start(Deactivate);
      if started {
        state := Deactivating;
        StopStreamNow(env);
        Finish();
      }
    }

    method DoAbort()
      modifies this
      ensures View() == FlowSpec.DoAbort(old(View()))
    {
      hide FlowSpec.Finish;
      hide FlowSpec.AbortOutside;
      hide SetActiveBridge;
      if state == Idle {
        return;
      }
      AbortOutside();
      data := SetActiveBridge(data, start);
      NewMessage(DoneAborted);
      Finish();
    }

    method AbortOutside()
      modifies this
      ensures View() == FlowSpec.AbortOutside(old(View()))
    {
      if state == SearchingFirst || state == SearchingRetry {
        Issue(AbortSearch);
      }
      if state == Authenticating {
        authCount := 0;
      }
    }

    // -------------------------------------------------------------- monitor events and completions

    method DoMonitor(m: Message, env: Env)
      modifies this
      ensures View() == FlowSpec.DoMonitor(old(View()), m, env)
    {
      var started := Start(Internal);
      if !started {
        if m.id.BridgeConnected? && m.bridge.IsSupportingClipV2() {
          PassOn(m);
        }
        return;
      }
      data := SetActiveBridge(data, m.bridge);
      if m.id.StreamingDisconnected? {
        StopStreamNow(env);
      }
      if m.id.BridgeConnected? && m.bridge.IsSupportingClipV2() {
        StartRetrieveFullConfig(env);
        return;
      }
      if m.id.InvalidEventingConnection? {
        if fullRetriever.Some? {
          Issue(RefreshConnection);
        }
      }
      if m.id.BridgeRefreshed? {
        StartSaving();
      } else {
        PassOn(m);
      }
      Finish();
    }

    method RunContinuation(next: Continuation)
      modifies this
      ensures View() == Continue(old(View()), next)
    {
      match next {
        case ThenFinish =>
          Finish();
        case ThenSearchOrRetrieve =>
          if Active().IsEmpty() {
            StartBridgeSearch();
          } else {
            StartRetrieveSmallConfig(Active());
          }
        case ThenRetrieve(b) =>
          StartRetrieveSmallConfig(b);
        case ThenSearch =>
          StartBridgeSearch();
        case ThenActivateAndRetrieve(b) =>
          data := SetActiveBridge(data, b);
          StartRetrieveSmallConfig(b);
      }
    }

    method LoadingCompleted(ok: bool, loaded: KnownBridges, next: Continuation)
      modifies this
      ensures View() == DoLoadingCompleted(old(View()), ok, loaded, next)
    {
      if state != Loading {
        return;
      }
      data := loaded;
      if ok {
        NewMessage(FinishLoadingBridgeConfigured);
      } else {
        NewMessage(FinishLoadingNoBridgeConfigured);
        data := WithActive(data, Active().Cleared());
      }
      RunContinuation(next);
    }

    static method FilterInvalidAndDuplicateIpAddresses(bridges: seq<Found>) returns (kept: seq<Found>)
      ensures kept == FilterBridges(bridges)
    {
      kept := [];
      for i := 0 to |bridges|
        invariant kept == FilterBridges(bridges[..i])
      {
        assert bridges[..i + 1][..i] == bridges[..i];
        if bridges[i].bridge.validIp && !HasIp(kept, bridges[i].bridge.ip) {
          kept := kept + [bridges[i]];
        }
      }
      assert bridges[..|bridges|] == bridges;
    }

    static method ContainsValid(bridges: seq<Found>) returns (found: bool)
      ensures found <==> ContainsValidBridge(bridges)
    {
      for i := 0 to |bridges|
        invariant forall k :: 0 <= k < i ==> !bridges[k].bridge.modelSupported
      {
        if bridges[i].bridge.modelSupported {
          return true;
        }
      }
      return false;
    }

    method BridgeSearchCompleted(discovered: seq<Found>)
      modifies this
      ensures View() == DoSearchCompleted(old(View()), discovered)
    {
      if state != SearchingFirst && state != SearchingRetry {
        return;
      }
      var bridges := FilterInvalidAndDuplicateIpAddresses(discovered);
      if |bridges| == 0 {
        NoBridgesFound();
        return;
      }
      var valid := ContainsValid(bridges);
      if valid {
        ValidBridgesFound(bridges);
      } else {
        InvalidBridgesFound(bridges);
      }
    }

    method NoBridgesFound()
      modifies this
      ensures View() == NothingFound(old(View()))
    {
      NewMessage(FinishSearchingNoBridgesFound);
      if request == ConnectBackground {
        NewMessage(DoneNoBridgeFound);
        Finish();
      } else if state == SearchingFirst {
        StartBridgeSearch();
      } else {
        ReportActionRequired();
        StartSaving();
      }
    }

    method ValidBridgesFound(bridges: seq<Found>)
      requires bridges != []
      modifies this
      ensures View() == ValidFound(old(View()), bridges)
    {
      NewMessage(FinishSearchBridgesFound);
      if request != ConnectNew {
        var (known, refreshed) := RediscoverKnownBridge(data, Bridges(bridges));
        data := refreshed;
        if known {
          StartRetrieveSmallConfig(Active());
          return;
        }
      }
      if request == ConnectBackground {
        NewMessage(DoneBridgeFound);
        background := bridges;
        Finish();
        return;
      }
      StartAuthentication(bridges);
    }

    method InvalidBridgesFound(bridges: seq<Found>)
      requires bridges != []
      modifies this
      ensures View() == InvalidFound(old(View()), bridges)
    {
      NewMessage(FinishSearchingInvalidBridgesFound);
      if request == ConnectBackground {
        if Active().IsEmpty() {
          NewMessage(DoneNoBridgeFound);
          Finish();
        } else {
          ReportActionRequired();
          StartSaving();
        }
        return;
      }
      StartAuthentication(bridges);
    }

    method DecrementCount()
      modifies this`authCount
      ensures View() == old(View()).(authCount := Decrement(old(authCount)))
    {
      authCount := if authCount == 0 then SIZE_MAX else authCount - 1;
    }

    method AuthenticationCompleted(found: Found, env: Env)
      modifies this
      ensures View() == DoAuthenticationCompleted(old(View()), found, env)
    {
      hide FlowSpec.GiveUp;
      hide FlowSpec.Authorized;
      if state != Authenticating {
        return;
      }
      ghost var before := authInfo;
      if found.ref !in authInfo {
        authInfo := authInfo[found.ref := AuthInfo(0, -1)];
      }
      var bridge := found.bridge;
      var number := authInfo[found.ref].bridgeNumber;
      if !bridge.validIp {
        var tries := authInfo[found.ref].failedTries + 1;
        authInfo := authInfo[found.ref := AuthInfo(tries, number)];
        if tries > PUSHLINK_INVALID_IP_MAX_RETRIES {
          GiveUp();
          return;
        }
        bridge := bridge.(validIp := true);
      }
      assert authInfo == before[found.ref := authInfo[found.ref]];
      if bridge.authorized {
        Authorized(bridge, env);
      } else {
        Issue(ScheduleRetry(number, found.ref));
      }
    }

    method Authorized(bridge: Bridge, env: Env)
      modifies this
      ensures View() == FlowSpec.Authorized(old(View()), bridge, env)
    {
      hide FlowSpec.StartRetrieveFullConfig;
      hide SetActiveBridge;
      DecrementCount();
      data := SetActiveBridge(data, bridge);
      NewMessage(FinishAuthorizingAuthorized);
      Issue(StopScheduler);
      StartRetrieveFullConfig(env);
    }

    method GiveUp()
      modifies this
      ensures View() == FlowSpec.GiveUp(old(View()))
    {
      DecrementCount();
      if authCount == 0 {
        NewMessage(FinishAuthorizingFailed);
        StartBridgeSearch();
        Issue(StopScheduler);
      }
    }

    /** A scheduled retry asks the bridge again, whatever the flow is doing by then. */
    method PushLinkBridge(ref: nat)
      modifies this`calls
      ensures View() == Do(old(View()), Authenticate(ref))
    {
      Issue(Authenticate(ref));
    }

    method RetrieveFailed(found: Found, shared: bool)
      modifies this
      ensures View() == FlowSpec.RetrieveFailed(old(View()), found, shared)
    {
      var bridge := found.bridge;
      NewMessageAbout(FinishRetrievingFailed, bridge);
      if !bridge.validIp && bridge.authorized {
        StartBridgeSearch();
        return;
      }
      if bridge.validIp && !bridge.authorized {
        if request == ConnectBackground {
          NewMessage(DoneBridgeFound);
          Finish();
        } else {
          StartAuthentication([found]);
        }
        return;
      }
      if shared {
        data := WithActive(data, bridge.(validIp := false, authorized := false));
      }
      ReportActionRequired();
      StartSaving();
    }

    method RetrieveSmallConfigCompleted(ok: bool, found: Found, shared: bool, env: Env)
      modifies this
      ensures View() == DoSmallConfigCompleted(old(View()), ok, found, shared, env)
    {
      if state != Retrieving {
        return;
      }
      var bridge := found.bridge;
      if shared {
        data := WithActive(data, bridge);
      }
      if !ok {
        RetrieveFailed(found, shared);
        return;
      }
      NewMessageAbout(FinishRetrievingSmall, bridge);
      data := SetActiveBridge(data, bridge);
      if !bridge.modelSupported {
        StartBridgeSearch();
        return;
      }
      if bridge.authorized || bridge.HasEverBeenAuthorizedForStreaming() {
        StartRetrieveFullConfig(env);
      } else {
        StartAuthentication([found]);
      }
    }

    method RetrieveFullConfigCompleted(ok: bool, found: Found)
      modifies this
      ensures View() == DoFullConfigCompleted(old(View()), ok, found)
    {
      if state != Retrieving {
        return;
      }
      data := SetActiveBridge(data, found.bridge);
      if !ok {
        RetrieveFailed(found, true);
        return;
      }
      JudgeConfiguration();
      StartSaving();
    }

    /** Whether the fetched configuration can be streamed to, or what the user has to do first. */
    method JudgeConfiguration()
      modifies this
      ensures View() ==
              if NeedsAction(old(Active().GetStatus())) then
                FlowSpec.ReportActionRequired(Tell(old(View()), FinishRetrievingActionRequired))
              else if old(Active().IsValidGroupSelected()) then Tell(old(View()), FinishRetrievingReadyToStart)
              else
                var (chosen, b) := old(Active().SelectGroupIfOnlyOneOption());
                var h := old(View()).(data := WithActive(old(data), b));
                if chosen then Tell(h, FinishRetrievingReadyToStart)
                else FlowSpec.ReportActionRequired(Tell(h, FinishRetrievingActionRequired))
    {
      var status := Active().GetStatus();
      if status == InvalidModel || status == InvalidVersion || status == InvalidClientKey || status == NoGroupAvailable {
        NewMessage(FinishRetrievingActionRequired);
        ReportActionRequired();
        return;
      }
      if !Active().IsValidGroupSelected() {
        var (chosen, b) := Active().SelectGroupIfOnlyOneOption();
        data := WithActive(data, b);
        if !chosen {
          NewMessage(FinishRetrievingActionRequired);
          ReportActionRequired();
          return;
        }
      }
      NewMessage(FinishRetrievingReadyToStart);
    }

    method SavingCompleted(ok: bool, env: Env)
      modifies this
      ensures View() == DoSavingCompleted(old(View()), ok, cfg, env)
    {
      hide FlowSpec.Conclude;
      hide Bridge.GetStatus;
      if ok {
        NewMessage(FinishSavingSaved);
      } else {
        NewMessage(FinishSavingFailed);
      }
      data := WithActive(data, Active().(busy := false));
      Conclude(env);
    }

    method Conclude(env: Env)
      modifies this
      ensures View() == FlowSpec.Conclude(old(View()), cfg, env)
    {
      hide FlowSpec.ActivateStreaming;
      hide FlowSpec.Finish;
      hide Bridge.GetStatus;
      var switchGroupWhileStreaming := start.IsStreaming() && request == Select;
      var activationRequired := request == Activate || cfg.autoStart || switchGroupWhileStreaming;
      var ready := Active().IsReadyToStream();
      var canActivateStreaming := ready || Active().IsStreaming();
      if activationRequired && canActivateStreaming {
        ActivateStreaming(env);
      } else if !activationRequired && ready {
        NewMessage(DoneCompleted);
        Finish();
      } else {
        Finish();
      }
    }

    /** The active bridge object is shared, and written from outside. */
    method WriteActive(bridge: Bridge)
      modifies this`data
      ensures View() == old(View()).(data := WithActive(old(data), bridge))
    {
      data := WithActive(data, bridge);
    }

    // -------------------------------------------------------------- all actions

    /** One action from the dispatcher. */
    method Dispatch(e: Event, env: Env)
      modifies this
      ensures View() == Step(old(View()), e, cfg, env)
    {
      hide *;
      StepIs(View(), e, cfg, env);
      match e {
        case Load => DoLoad();
        case ConnectToBridge => DoConnectToBridge();
        case ConnectToBridgeBackground => DoConnectToBridgeBackground();
        case ConnectToBridgeWithIp(ip) => DoConnectToBridgeWithIp(ip);
        case ConnectToNewBridge => DoConnectToNewBridge(env);
        case SetManual(b) => DoSetManual(b, env);
        case ConnectWithIdKey(id, user, clientKey) => DoConnectWithIdKey(id, user, clientKey, env);
        case Reset(onlyActive) => DoReset(onlyActive, env);
        case SelectGroup(group) => DoSelectGroup(group);
        case StartStreaming => DoStartStream(env);
        case StopStreaming => DoStopStream(env);
        case Abort => DoAbort();
        case Monitor(m) => DoMonitor(m, env);
        case LoadingCompleted(ok, loaded, next) => LoadingCompleted(ok, loaded, next);
        case SearchCompleted(bridges) => BridgeSearchCompleted(bridges);
        case AuthenticationCompleted(found) => AuthenticationCompleted(found, env);
        case PushLink(ref) => PushLinkBridge(ref);
        case SmallConfigCompleted(ok, found, shared) => RetrieveSmallConfigCompleted(ok, found, shared, env);
        case FullConfigCompleted(ok, found) => RetrieveFullConfigCompleted(ok, found);
        case SavingCompleted(ok) => SavingCompleted(ok, env);
        case ActiveBridgeWritten(b) =>
          ViewData();
          WriteActive(b);
      }
    }

    lemma {:induction false} ViewData()
      ensures View().data == data
    {
    }
  }

  /** A step, event by event. */
  lemma {:induction false} StepIs(f: Flow, e: Event, cfg: Config, env: Env)
    ensures Step(f, e, cfg, env) ==
            match e
            case Load => FlowSpec.DoLoad(f)
            case ConnectToBridge => FlowSpec.DoConnectToBridge(f)
            case ConnectToBridgeBackground => FlowSpec.DoConnectToBridgeBackground(f)
            case ConnectToBridgeWithIp(ip) => FlowSpec.DoConnectToBridgeWithIp(f, ip)
            case ConnectToNewBridge => FlowSpec.DoConnectToNewBridge(f, env)
            case SetManual(b) => FlowSpec.DoSetManual(f, b, env)
            case ConnectWithIdKey(id, user, clientKey) => FlowSpec.DoConnectWithIdKey(f, id, user, clientKey, cfg, env)
            case Reset(onlyActive) => FlowSpec.DoReset(f, onlyActive, env)
            case SelectGroup(group) => FlowSpec.DoSelectGroup(f, group)
            case StartStreaming => FlowSpec.DoStartStream(f, env)
            case StopStreaming => FlowSpec.DoStopStream(f, env)
            case Abort => FlowSpec.DoAbort(f)
            case Monitor(m) => FlowSpec.DoMonitor(f, m, env)
            case LoadingCompleted(ok, loaded, next) => DoLoadingCompleted(f, ok, loaded, next)
            case SearchCompleted(bridges) => DoSearchCompleted(f, bridges)
            case AuthenticationCompleted(found) => DoAuthenticationCompleted(f, found, env)
            case PushLink(ref) => Do(f, Authenticate(ref))
            case SmallConfigCompleted(ok, found, shared) => DoSmallConfigCompleted(f, ok, found, shared, env)
            case FullConfigCompleted(ok, found) => DoFullConfigCompleted(f, ok, found)
            case SavingCompleted(ok) => DoSavingCompleted(f, ok, cfg, env)
            case ActiveBridgeWritten(b) => f.(data := WithActive(f.data, b))
  {
  }
}
