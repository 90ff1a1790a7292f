/**
 The connection flow as a transition system: one function per dispatched action, from the
 state before to the state after.  External calls are appended to `calls`, feedback to `trace`;
 what the outside answers comes in through the events and the environment of a step.
 */
module FlowSpec {
  import opened Prelude
  import opened BridgeData
  import opened FlowProtocol
  import opened FlowMessages
  import BridgeStreamingChecker

  const PUSHLINK_INVALID_IP_MAX_RETRIES: int := 3
  const SIZE_MAX: nat := 0xFFFF_FFFF_FFFF_FFFF

  datatype State =
    | Idle | Loading | SearchingFirst | SearchingRetry | Authenticating | Retrieving | Saving | Activating | Deactivating

  /** A bridge object that was discovered: `ref` is its identity, which keys the authentication table. */
  datatype Found = Found(ref: nat, bridge: Bridge)

  datatype AuthInfo = AuthInfo(failedTries: int, bridgeNumber: int)

  datatype Call =
    | LoadData(next: Continuation)
    | SaveData(data: KnownBridges)
    | SearchNew(bruteForce: bool)
    | AbortSearch
    | Authenticate(ref: nat)
    | StartScheduler
    | StopScheduler
    | ScheduleRetry(task: int, ref: nat)
    | RetrieveSmall(bridge: Bridge)
    | RetrieveFull(bridge: Bridge, clipV2: bool)
    | RefreshConnection
    | StopStream(bridge: Bridge)
    | StartStream(bridge: Bridge, renderThread: bool)

  /** What a loading request does once the data is there. */
  datatype Continuation =
    | ThenFinish
    | ThenSearchOrRetrieve
    | ThenRetrieve(bridge: Bridge)
    | ThenSearch
    | ThenActivateAndRetrieve(bridge: Bridge)

  datatype Config = Config(autoStart: bool, useRenderThread: bool, supportsBsb002: bool)

  /** Replies of synchronous calls: the active bridge after a stream stop and after a stream start, whether the
      start succeeded, and whether the config retriever really started. */
  datatype Env = Env(afterStop: Bridge, startOk: bool, afterStart: Bridge, executed: bool)

  datatype Flow = Flow(state: State, request: Request, authCount: nat, authInfo: map<nat, AuthInfo>,
                       background: seq<Found>, data: KnownBridges, start: Bridge,
                       fullRetriever: Option<bool>, calls: seq<Call>, trace: seq<Message>)
  {
    function Active(): Bridge { GetActiveBridge(data) }
  }

  datatype Event =
    | Load
    | ConnectToBridge
    | ConnectToBridgeBackground
    | ConnectToBridgeWithIp(ip: string)
    | ConnectToNewBridge
    | SetManual(bridge: Bridge)
    | ConnectWithIdKey(id: string, user: string, clientKey: string)
    | Reset(onlyActive: bool)
    | SelectGroup(group: string)
    | StartStreaming
    | StopStreaming
    | Abort
    | Monitor(message: Message)
    | LoadingCompleted(ok: bool, loaded: KnownBridges, next: Continuation)
    | SearchCompleted(bridges: seq<Found>)
    | AuthenticationCompleted(found: Found)
    | PushLink(ref: nat)
    | SmallConfigCompleted(ok: bool, found: Found, shared: bool)
    | FullConfigCompleted(ok: bool, found: Found)
    | SavingCompleted(ok: bool)
    | ActiveBridgeWritten(bridge: Bridge)

  /** Monitor events are INTERNAL messages; every other event is possible with any payload, at any time. */
  predicate Legal(e: Event) { e.Monitor? ==> IsMonitorMessage(e.message) }

  function Initial(): Flow {
    Flow(Idle, Internal, 0, map[], [], [NewBridge()], NewBridge(), None, [], [])
  }

  // ---------------------------------------------------------------- building blocks

  function Do(f: Flow, c: Call): Flow { f.(calls := f.calls + [c]) }

  function TellAbout(f: Flow, id: MessageId, b: Bridge): Flow
  {
    f.(trace := f.trace + [Message(f.request, id, b)])
  }

  function Tell(f: Flow, id: MessageId): Flow
  {
    TellAbout(f, id, f.Active())
  }

  /** Start: refused unless idle. */
  function Begin(f: Flow, request: Request): Flow
    requires f.state.Idle?
  {
    var g := f.(request := request);
    if request.Internal? then g
    else
      var m := Message(request, UserProcedureStarted, f.Active());
      g.(trace := f.trace + [m], start := f.Active())
  }

  function Finish(f: Flow): Flow
  {
    if f.request.Internal? then f.(state := Idle)
    else
      var reports := DifferenceMessages(f.request, BridgeStreamingChecker.Differences(f.start, f.Active()), f.Active());
      var last := Message(f.request, UserProcedureFinished, f.Active());
      f.(state := Idle, request := Internal, trace := f.trace + reports + [last])
  }

  function StopStreamOf(f: Flow, env: Env): Flow
  {
    Do(f, StopStream(f.Active())).(data := WithActive(f.data, env.afterStop))
  }

  function StopIfStreaming(f: Flow, env: Env): Flow
  {
    if f.Active().IsStreaming() then StopStreamOf(f, env) else f
  }

  /** The data is loaded, and what to do then is left with the loader. */
  function StartLoadingData(f: Flow, next: Continuation): Flow
  {
    Do(Tell(f, StartLoading), LoadData(next)).(state := Loading)
  }

  function StartBridgeSearch(f: Flow): Flow
  {
    var retry := f.state.SearchingFirst?;
    Do(Tell(f, StartSearching), SearchNew(retry)).(state := if retry then SearchingRetry else SearchingFirst)
  }

  function StartSavingData(f: Flow): Flow
  {
    Do(Tell(f, StartSaving), SaveData(f.data)).(state := Saving)
  }

  function StatusMessage(s: BridgeStatus): MessageId
  {
    match s
    case Empty => NoBridgeFound
    case NotFound => NoBridgeFound
    case InvalidModel => IdInvalidModel
    case NotConnectable => BridgeNotFound
    case NotConnected => BridgeNotFound
    case InvalidVersion => IdInvalidVersion
    case NoGroupAvailable => IdNoGroupAvailable
    case InvalidGroupSelected => IdSelectGroup
    case Busy => BusyStreaming
    case _ => InternalError
  }

  function ReportActionRequired(f: Flow): Flow
  {
    Tell(Tell(f, DoneActionRequired), StatusMessage(f.Active().GetStatus()))
  }

  function Refs(bridges: seq<Found>): seq<Call> {
    if bridges == [] then [] else Refs(bridges[..|bridges| - 1]) + [Authenticate(bridges[|bridges| - 1].ref)]
  }

  /** emplace: the first entry for an object stays; entries are numbered in list order. */
  function AuthTable(bridges: seq<Found>): map<nat, AuthInfo> {
    if bridges == [] then map[]
    else
      var table := AuthTable(bridges[..|bridges| - 1]);
      var ref := bridges[|bridges| - 1].ref;
      if ref in table then table else table[ref := AuthInfo(0, |bridges| - 1)]
  }

  function StartAuthentication(f: Flow, bridges: seq<Found>): Flow
  {
    var g := Tell(Tell(f, StartAuthorizing), PressPushLink);
    g.(state := Authenticating, authCount := |bridges|, authInfo := AuthTable(bridges),
       calls := g.calls + [StartScheduler] + Refs(bridges))
  }

  function StartRetrieveSmallConfig(f: Flow, b: Bridge): Flow
  {
    Do(Tell(f, StartRetrievingSmall), RetrieveSmall(b)).(state := Retrieving)
  }

  function StartRetrieveFullConfig(f: Flow, env: Env): Flow
  {
    var v2 := f.Active().IsSupportingClipV2();
    var g := Do(f, RetrieveFull(f.Active(), v2)).(state := Retrieving, fullRetriever := Some(v2));
    if env.executed then Tell(g, StartRetrieving) else g
  }

  function ActivateStreaming(f: Flow, cfg: Config, env: Env): Flow
  {
    var g := Do(Tell(f, StartActivating), StartStream(f.Active(), cfg.useRenderThread));
    var h := g.(state := Activating, data := WithActive(g.data, env.afterStart));
    if env.startOk then Finish(Tell(Tell(h, FinishActivatingActive), DoneCompleted))
    else Finish(ReportActionRequired(Tell(h, FinishActivatingFailed)))
  }

  // ---------------------------------------------------------------- user requests

  function DoLoad(f: Flow): Flow
  {
    if !f.state.Idle? then f else StartLoadingData(Begin(f, LoadBridge), ThenFinish)
  }

  function DoConnectToBridge(f: Flow): Flow
  {
    if !f.state.Idle? then f
    else
      var g := Begin(f, Connect);
      if g.background != [] then StartAuthentication(g.(background := []), g.background)
      else StartLoadingData(g, ThenSearchOrRetrieve)
  }

  function DoConnectToBridgeBackground(f: Flow): Flow
  {
    if !f.state.Idle? then f else StartLoadingData(Begin(f, ConnectBackground), ThenSearchOrRetrieve)
  }

  function DoConnectToBridgeWithIp(f: Flow, ip: string): Flow
  {
    if !f.state.Idle? then f else StartLoadingData(Begin(f, ConnectIp), ThenRetrieve(IpBridge(ip)))
  }

  function DoConnectToNewBridge(f: Flow, env: Env): Flow
  {
    if !f.state.Idle? then f
    else
      var g := StopIfStreaming(Begin(f, ConnectNew), env);
      StartLoadingData(g.(data := SetActiveBridge(g.data, NewBridge())), ThenSearch)
  }

  function DoSetManual(f: Flow, bridge: Bridge, env: Env): Flow
  {
    if !f.state.Idle? then f
    else StartLoadingData(StopIfStreaming(Begin(f, SetManualBridge), env), ThenRetrieve(ManualBridge(bridge)))
  }

  function DoConnectWithIdKey(f: Flow, id: string, user: string, clientKey: string, cfg: Config, env: Env): Flow
  {
    if !f.state.Idle? then f
    else
      StartLoadingData(StopIfStreaming(Begin(f, ConnectIdKey), env),
                       ThenActivateAndRetrieve(IdKeyBridge(cfg, id, user, clientKey)))
  }

  /** The bridges that the requests make up. */
  function IpBridge(ip: string): Bridge { NewBridge().(ip := ip, validIp := true) }

  function ManualBridge(b: Bridge): Bridge { b.(validIp := true, authorized := true) }

  function IdKeyBridge(cfg: Config, id: string, user: string, clientKey: string): Bridge {
    NewBridge().(id := id, user := user, appId := user, clientKey := clientKey, ip := "127.0.0.1",
                 modelId := "BSB002", modelSupported := cfg.supportsBsb002, validIp := true, authorized := true)
  }

  function DoReset(f: Flow, onlyActive: bool, env: Env): Flow
  {
    if !f.state.Idle? then f
    else
      var g := StopIfStreaming(Begin(f, if onlyActive then ResetBridge else ResetAll), env);
      var h := g.(data := if onlyActive then ClearActiveBridge(g.data) else [NewBridge()]);
      StartSavingData(Tell(h, DoneReset))
  }

  function DoSelectGroup(f: Flow, group: string): Flow
  {
    if !f.state.Idle? then f
    else
      var g := Begin(f, Select);
      var (selected, b) := g.Active().SelectGroup(group);
      var h := g.(data := WithActive(g.data, b));
      var i := if b.IsValidGroupSelected() then h else ReportActionRequired(h);
      if selected then StartSavingData(i) else Finish(i)
  }

  function DoStartStream(f: Flow, env: Env): Flow
  {
    if !f.state.Idle? then f else StartRetrieveFullConfig(Begin(f, Activate), env)
  }

  function DoStopStream(f: Flow, env: Env): Flow
  {
    if !f.state.Idle? then f else Finish(StopStreamOf(Begin(f, Deactivate).(state := Deactivating), env))
  }

  function AbortOutside(f: Flow): Flow
  {
    var g := if f.state.SearchingFirst? || f.state.SearchingRetry? then Do(f, AbortSearch) else f;
    if f.state.Authenticating? then g.(authCount := 0) else g
  }

  function DoAbort(f: Flow): Flow
  {
    if f.state.Idle? then f
    else
      var g := AbortOutside(f);
      Finish(Tell(g.(data := SetActiveBridge(g.data, g.start)), DoneAborted))
  }

  // ---------------------------------------------------------------- monitor events and completions

  /** A monitor message that is passed on as it is. */
  function Forward(f: Flow, m: Message): Flow
  {
    f.(trace := f.trace + [m])
  }

  function DoMonitor(f: Flow, m: Message, env: Env): Flow
  {
    var reconnected := m.id.BridgeConnected? && m.bridge.IsSupportingClipV2();
    if !f.state.Idle? then (if reconnected then Forward(f, m) else f)
    else
      var g := Begin(f, Internal);
      var h := g.(data := SetActiveBridge(g.data, m.bridge));
      var i := if m.id.StreamingDisconnected? then StopStreamOf(h, env) else h;
      if reconnected then StartRetrieveFullConfig(i, env)
      else
        var j := if m.id.InvalidEventingConnection? && i.fullRetriever.Some? then Do(i, RefreshConnection) else i;
        Finish(if m.id.BridgeRefreshed? then StartSavingData(j) else Forward(j, m))
  }

  function Continue(f: Flow, next: Continuation): Flow
  {
    match next
    case ThenFinish => Finish(f)
    case ThenSearchOrRetrieve =>
      if f.Active().IsEmpty() then StartBridgeSearch(f) else StartRetrieveSmallConfig(f, f.Active())
    case ThenRetrieve(b) => StartRetrieveSmallConfig(f, b)
    case ThenSearch => StartBridgeSearch(f)
    case ThenActivateAndRetrieve(b) => StartRetrieveSmallConfig(f.(data := SetActiveBridge(f.data, b)), b)
  }

  function DoLoadingCompleted(f: Flow, ok: bool, loaded: KnownBridges, next: Continuation): Flow
  {
    if !f.state.Loading? then f
    else
      var g := f.(data := loaded);
      if ok then Continue(Tell(g, FinishLoadingBridgeConfigured), next)
      else
        var h := Tell(g, FinishLoadingNoBridgeConfigured);
        Continue(h.(data := WithActive(h.data, h.Active().Cleared())), next)
  }

  /** The valid bridges with the first of each address. */
  function FilterBridges(bridges: seq<Found>): seq<Found> {
    if bridges == [] then []
    else
      var kept := FilterBridges(bridges[..|bridges| - 1]);
      var b := bridges[|bridges| - 1];
      if b.bridge.validIp && !HasIp(kept, b.bridge.ip) then kept + [b] else kept
  }

  predicate HasIp(bridges: seq<Found>, ip: string) { exists i :: 0 <= i < |bridges| && bridges[i].bridge.ip == ip }

  predicate ContainsValidBridge(bridges: seq<Found>) {
    exists i :: 0 <= i < |bridges| && bridges[i].bridge.modelSupported
  }

  function Bridges(bridges: seq<Found>): seq<Bridge> {
    seq(|bridges|, i requires 0 <= i < |bridges| => bridges[i].bridge)
  }

  function NothingFound(f: Flow): Flow
  {
    var g := Tell(f, FinishSearchingNoBridgesFound);
    if f.request.ConnectBackground? then Finish(Tell(g, DoneNoBridgeFound))
    else if f.state.SearchingFirst? then StartBridgeSearch(g)
    else StartSavingData(ReportActionRequired(g))
  }

  function ValidFound(f: Flow, bridges: seq<Found>): Flow
    requires bridges != []
  {
    var g := Tell(f, FinishSearchBridgesFound);
    var (known, refreshed) := if f.request.ConnectNew? then (false, g.data) else RediscoverKnownBridge(g.data, Bridges(bridges));
    var h := g.(data := refreshed);
    if known then StartRetrieveSmallConfig(h, h.Active())
    else if f.request.ConnectBackground? then Finish(Tell(h, DoneBridgeFound).(background := bridges))
    else StartAuthentication(h, bridges)
  }

  function InvalidFound(f: Flow, bridges: seq<Found>): Flow
    requires bridges != []
  {
    var g := Tell(f, FinishSearchingInvalidBridgesFound);
    if !f.request.ConnectBackground? then StartAuthentication(g, bridges)
    else if f.Active().IsEmpty() then Finish(Tell(g, DoneNoBridgeFound))
    else StartSavingData(ReportActionRequired(g))
  }

  function DoSearchCompleted(f: Flow, discovered: seq<Found>): Flow
  {
    if !f.state.SearchingFirst? && !f.state.SearchingRetry? then f
    else
      var bridges := FilterBridges(discovered);
      if bridges == [] then NothingFound(f)
      else if ContainsValidBridge(bridges) then ValidFound(f, bridges)
      else InvalidFound(f, bridges)
  }

  /** The decrement of an unsigned counter. */
  function Decrement(n: nat): nat { if n == 0 then SIZE_MAX else n - 1 }

  function GiveUp(f: Flow): Flow
  {
    var g := f.(authCount := Decrement(f.authCount));
    if g.authCount == 0 then Do(StartBridgeSearch(Tell(g, FinishAuthorizingFailed)), StopScheduler) else g
  }

  function Authorized(f: Flow, bridge: Bridge, env: Env): Flow
  {
    var g := f.(authCount := Decrement(f.authCount), data := SetActiveBridge(f.data, bridge));
    StartRetrieveFullConfig(Do(Tell(g, FinishAuthorizingAuthorized), StopScheduler), env)
  }

  function DoAuthenticationCompleted(f: Flow, found: Found, env: Env): Flow
  {
    if !f.state.Authenticating? then f
    else
      var info := if found.ref in f.authInfo then f.authInfo[found.ref] else AuthInfo(0, -1);
      var tried := if found.bridge.validIp then info else info.(failedTries := info.failedTries + 1);
      var g := f.(authInfo := f.authInfo[found.ref := tried]);
      if !found.bridge.validIp && tried.failedTries > PUSHLINK_INVALID_IP_MAX_RETRIES then
        GiveUp(g)
      else if found.bridge.authorized then
        Authorized(g, found.bridge.(validIp := true), env)
      else
        Do(g, ScheduleRetry(info.bridgeNumber, found.ref))
  }

  /** A failed retrieval; `shared` tells that the reported bridge is the active bridge object itself. */
  function RetrieveFailed(f: Flow, found: Found, shared: bool): Flow
  {
    var b := found.bridge;
    var g := TellAbout(f, FinishRetrievingFailed, b);
    if !b.validIp && b.authorized then StartBridgeSearch(g)
    else if b.validIp && !b.authorized then
      if f.request.ConnectBackground? then Finish(Tell(g, DoneBridgeFound)) else StartAuthentication(g, [found])
    else
      var h := if shared then g.(data := WithActive(g.data, b.(validIp := false, authorized := false))) else g;
      StartSavingData(ReportActionRequired(h))
  }

  function DoSmallConfigCompleted(f: Flow, ok: bool, found: Found, shared: bool, env: Env): Flow
  {
    if !f.state.Retrieving? then f
    else
      var b := found.bridge;
      var g := if shared then f.(data := WithActive(f.data, b)) else f;
      if !ok then RetrieveFailed(g, found, shared)
      else
        var h := TellAbout(g, FinishRetrievingSmall, b).(data := SetActiveBridge(g.data, b));
        if !b.modelSupported then StartBridgeSearch(h)
        else if b.authorized || b.HasEverBeenAuthorizedForStreaming() then StartRetrieveFullConfig(h, env)
        else StartAuthentication(h, [found])
  }

  predicate NeedsAction(s: BridgeStatus) {
    s.InvalidModel? || s.InvalidVersion? || s.InvalidClientKey? || s.NoGroupAvailable?
  }

  function DoFullConfigCompleted(f: Flow, ok: bool, found: Found): Flow
  {
    if !f.state.Retrieving? then f
    else
      var g := f.(data := SetActiveBridge(f.data, found.bridge));
      if !ok then RetrieveFailed(g, found, true)
      else if NeedsAction(g.Active().GetStatus()) then
        StartSavingData(ReportActionRequired(Tell(g, FinishRetrievingActionRequired)))
      else if g.Active().IsValidGroupSelected() then StartSavingData(Tell(g, FinishRetrievingReadyToStart))
      else
        var (chosen, b) := g.Active().SelectGroupIfOnlyOneOption();
        var h := g.(data := WithActive(g.data, b));
        StartSavingData(if chosen then Tell(h, FinishRetrievingReadyToStart)
                        else ReportActionRequired(Tell(h, FinishRetrievingActionRequired)))
  }

  /** After saving: stream when that was asked for and is possible, else end the procedure. */
  function Conclude(f: Flow, cfg: Config, env: Env): Flow
  {
    var switchGroup := f.start.IsStreaming() && f.request.Select?;
    var activate := f.request.Activate? || cfg.autoStart || switchGroup;
    if activate && (f.Active().IsReadyToStream() || f.Active().IsStreaming()) then ActivateStreaming(f, cfg, env)
    else if !activate && f.Active().IsReadyToStream() then Finish(Tell(f, DoneCompleted))
    else Finish(f)
  }

  /** Not guarded by the state: a late save can end whatever procedure is going on. */
  function DoSavingCompleted(f: Flow, ok: bool, cfg: Config, env: Env): Flow
  {
    var g := Tell(f, if ok then FinishSavingSaved else FinishSavingFailed);
    Conclude(g.(data := WithActive(g.data, g.Active().(busy := false))), cfg, env)
  }

  // ---------------------------------------------------------------- steps

  function Step(f: Flow, e: Event, cfg: Config, env: Env): Flow
  {
    match e
    case Load => DoLoad(f)
    case ConnectToBridge => DoConnectToBridge(f)
    case ConnectToBridgeBackground => DoConnectToBridgeBackground(f)
    case ConnectToBridgeWithIp(ip) => DoConnectToBridgeWithIp(f, ip)
    case ConnectToNewBridge => DoConnectToNewBridge(f, env)
    case SetManual(b) => DoSetManual(f, b, env)
    case ConnectWithIdKey(id, user, clientKey) => DoConnectWithIdKey(f, id, user, clientKey, cfg, env)
    case Reset(onlyActive) => DoReset(f, onlyActive, env)
    case SelectGroup(group) => DoSelectGroup(f, group)
    case StartStreaming => DoStartStream(f, env)
    case StopStreaming => DoStopStream(f, env)
    case Abort => DoAbort(f)
    case Monitor(m) => DoMonitor(f, m, env)
    case LoadingCompleted(ok, loaded, next) => DoLoadingCompleted(f, ok, loaded, next)
    case SearchCompleted(bridges) => DoSearchCompleted(f, bridges)
    case AuthenticationCompleted(found) => DoAuthenticationCompleted(f, found, env)
    case PushLink(ref) => Do(f, Authenticate(ref))
    case SmallConfigCompleted(ok, found, shared) => DoSmallConfigCompleted(f, ok, found, shared, env)
    case FullConfigCompleted(ok, found) => DoFullConfigCompleted(f, ok, found)
    case SavingCompleted(ok) => DoSavingCompleted(f, ok, cfg, env)
    case ActiveBridgeWritten(b) => f.(data := WithActive(f.data, b))
  }
}

