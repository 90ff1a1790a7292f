/**
 Authentication in whole runs: each request of a bridge is answered at most once and each scheduled retry fires at
 most once, and then only the bridges of a round report in it; and whenever a flow authenticates, some round has begun
 in its run.
 */
module AuthenticationRuns {
  import opened Prelude
  import opened BridgeData
  import opened FlowProtocol
  import opened FlowMessages
  import opened FlowSpec
  import opened FlowRuns
  import opened AuthenticationRounds
  import opened AuthenticationCounts
  import FlowInvariant
  import LateSaves
  import BridgeStreamingChecker

  // ---------------------------------------------------------------- what can have been dispatched

  /** How often the bridge was asked. */
  function Asks(calls: seq<Call>, ref: nat): nat {
    if calls == [] then 0 else Asks(calls[..|calls| - 1], ref) + if calls[|calls| - 1] == Authenticate(ref) then 1 else 0
  }

  /** How often another try was scheduled for it. */
  function Retries(calls: seq<Call>, ref: nat): nat {
    if calls == [] then 0
    else
      var last := calls[|calls| - 1];
      Retries(calls[..|calls| - 1], ref) + if last.ScheduleRetry? && last.ref == ref then 1 else 0
  }

  function Answers(inputs: seq<Input>, ref: nat): nat {
    if inputs == [] then 0
    else
      var e := inputs[|inputs| - 1].event;
      Answers(inputs[..|inputs| - 1], ref) + if e.AuthenticationCompleted? && e.found.ref == ref then 1 else 0
  }

  function Fired(inputs: seq<Input>, ref: nat): nat {
    if inputs == [] then 0
    else
      var e := inputs[|inputs| - 1].event;
      Fired(inputs[..|inputs| - 1], ref) + if e == PushLink(ref) then 1 else 0
  }

  /** A bridge answers only when it was asked, at most once for each time; and a retry fires only when it was scheduled,
      at most once for each time.  Only what happens after the calls `base` counts. */
  ghost predicate CanFollow(base: seq<Call>, f: Flow, before: seq<Input>, e: Event) {
    && (e.AuthenticationCompleted? ==> Asks(base, e.found.ref) + Answers(before, e.found.ref) < Asks(f.calls, e.found.ref))
    && (e.PushLink? ==> Retries(base, e.ref) + Fired(before, e.ref) < Retries(f.calls, e.ref))
  }

  ghost predicate Happens(base: seq<Call>, f: Flow, cfg: Config, inputs: seq<Input>) {
    inputs == [] ||
    var before := inputs[..|inputs| - 1];
    Happens(base, f, cfg, before) && CanFollow(base, Run(f, cfg, before), before, inputs[|inputs| - 1].event)
  }

  // ---------------------------------------------------------------- only the bridges of the round report

  lemma {:induction false} OneMoreCall(calls: seq<Call>, c: Call, ref: nat)
    ensures Asks(calls + [c], ref) == Asks(calls, ref) + if c == Authenticate(ref) then 1 else 0
    ensures Retries(calls + [c], ref) == Retries(calls, ref) + if c.ScheduleRetry? && c.ref == ref then 1 else 0
  {
    assert (calls + [c])[..|calls|] == calls;
  }

  lemma {:induction false} AsksOfRound(calls: seq<Call>, bridges: seq<Found>, ref: nat)
    requires DistinctRefs(bridges)
    ensures Asks(calls + Refs(bridges), ref) == Asks(calls, ref) + if ref in RefSet(bridges) then 1 else 0
    ensures Retries(calls + Refs(bridges), ref) == Retries(calls, ref)
  {
    if bridges == [] {
      assert calls + Refs(bridges) == calls;
    } else {
      var init, last := bridges[..|bridges| - 1], bridges[|bridges| - 1];
      assert forall i :: 0 <= i < |init| ==> init[i] == bridges[i];
      AsksOfRound(calls, init, ref);
      RefSetMembers(init, last.ref);
      Associate(calls, Refs(init), [Authenticate(last.ref)]);
      OneMoreCall(calls + Refs(init), Authenticate(last.ref), ref);
    }
  }

  /** What is asked and not answered, and what is scheduled and has not fired, are the pending bridges. */
  ghost predicate Balanced(base: seq<Call>, s: Round, inputs: seq<Input>) {
    forall ref :: BalancedFor(base, s, inputs, ref)
  }

  ghost predicate BalancedFor(base: seq<Call>, s: Round, inputs: seq<Input>, ref: nat) {
    && s.pending[ref] == (Asks(s.flow.calls, ref) - Asks(base, ref) - Answers(inputs, ref))
                         + (Retries(s.flow.calls, ref) - Retries(base, ref) - Fired(inputs, ref))
    && Asks(base, ref) + Answers(inputs, ref) <= Asks(s.flow.calls, ref)
    && Retries(base, ref) + Fired(inputs, ref) <= Retries(s.flow.calls, ref)
  }

  lemma {:induction false} BeginsBalanced(f: Flow, bridges: seq<Found>)
    requires DistinctRefs(bridges)
    ensures Balanced(f.calls, Begun(f, bridges), [])
  {
    var calls := f.calls + [StartScheduler];
    assert StartAuthentication(f, bridges).calls == calls + Refs(bridges);
    forall ref ensures BalancedFor(f.calls, Begun(f, bridges), [], ref) {
      OneMoreCall(f.calls, StartScheduler, ref);
      AsksOfRound(calls, bridges, ref);
    }
  }

  /** The calls of one report: none of these, or another try for the bridge that has reported. */
  lemma {:induction false} ReportCalls(f: Flow, found: Found, env: Env)
    requires f.state.Authenticating? && DoAuthenticationCompleted(f, found, env).state.Authenticating?
    ensures var g := DoAuthenticationCompleted(f, found, env);
            if SchedulesRetry(f, g, found.ref) then g.calls == f.calls + [g.calls[|f.calls|]] else g.calls == f.calls
  {
    hide Bridge.GetStatus;
    hide SetActiveBridge;
  }

  lemma {:induction false} StaysBalanced(base: seq<Call>, s: Round, cfg: Config, before: seq<Input>, input: Input)
    requires Balanced(base, s, before) && s.flow.state.Authenticating? && CanFollow(base, s.flow, before, input.event)
    ensures input.event.AuthenticationCompleted? ==> input.event.found.ref in s.pending
    ensures Went(s, cfg, input).flow.state.Authenticating? ==> Balanced(base, Went(s, cfg, input), before + [input])
  {
    var e, g := input.event, Step(s.flow, input.event, cfg, input.env);
    if e.AuthenticationCompleted? {
      assert BalancedFor(base, s, before, e.found.ref);
    }
    if g.state.Authenticating? {
      forall ref ensures BalancedFor(base, Went(s, cfg, input), before + [input], ref) {
        assert BalancedFor(base, s, before, ref);
        BalanceOf(base, s, cfg, before, input, ref);
      }
    }
    hide Step;
    hide BalancedFor;
  }

  lemma {:induction false} BalanceOf(base: seq<Call>, s: Round, cfg: Config, before: seq<Input>, input: Input, ref: nat)
    requires s.flow.state.Authenticating? && CanFollow(base, s.flow, before, input.event)
    requires BalancedFor(base, s, before, ref) && Went(s, cfg, input).flow.state.Authenticating?
    ensures BalancedFor(base, Went(s, cfg, input), before + [input], ref)
  {
    hide Step;
    hide DoAuthenticationCompleted;
    var e, g := input.event, Step(s.flow, input.event, cfg, input.env);
    assert (before + [input])[..|before|] == before;
    if e.AuthenticationCompleted? {
      ReportStep(s.flow, e, cfg, input.env);
      ReportCalls(s.flow, e.found, input.env);
      if SchedulesRetry(s.flow, g, e.found.ref) {
        OneMoreCall(s.flow.calls, g.calls[|s.flow.calls|], ref);
      }
    } else {
      OtherEvents(s.flow, e, cfg, input.env);
      if e.PushLink? {
        OneMoreCall(s.flow.calls, Authenticate(e.ref), ref);
      }
    }
    hide Asks;
    hide Retries;
  }

  lemma {:induction false} HappensIsBalanced(f: Flow, bridges: seq<Found>, cfg: Config, inputs: seq<Input>)
    requires bridges != [] && DistinctRefs(bridges)
    requires Happens(f.calls, StartAuthentication(f, bridges), cfg, inputs) && Lasts(StartAuthentication(f, bridges), cfg, inputs)
    ensures OwnReports(Begun(f, bridges), cfg, inputs)
    ensures var s := After(Begun(f, bridges), cfg, inputs); s.flow.state.Authenticating? ==> Balanced(f.calls, s, inputs)
  {
    hide StartAuthentication;
    hide Went;
    hide Balanced;
    hide CanFollow;
    if inputs == [] {
      BeginsBalanced(f, bridges);
    } else {
      var before, last := inputs[..|inputs| - 1], inputs[|inputs| - 1];
      HappensIsBalanced(f, bridges, cfg, before);
      FlowOfRound(Begun(f, bridges), cfg, before);
      StaysBalanced(f.calls, After(Begun(f, bridges), cfg, before), cfg, before, last);
      assert before + [last] == inputs;
    }
  }

  /** In a round in which each bridge answers at most once each time it is asked, and each retry fires at most once each
      time it is scheduled, and nothing is left over from earlier rounds: the counter is the number of bridges that have
      failed at most three times, and the search starts again exactly when there is none left.  Anything else may be
      dispatched. */
  lemma {:induction false} RoundsCountRight(f: Flow, bridges: seq<Found>, cfg: Config, inputs: seq<Input>)
    requires bridges != [] && DistinctRefs(bridges)
    requires Happens(f.calls, StartAuthentication(f, bridges), cfg, inputs) && Lasts(StartAuthentication(f, bridges), cfg, inputs)
    ensures var g, live := Run(StartAuthentication(f, bridges), cfg, inputs), Live(RefSet(bridges), Reported(inputs));
            && (g.state.Authenticating? ==> g.authCount == |live| >= 1)
            && (g.state.SearchingFirst? <==> live == {})
  {
    hide StartAuthentication;
    hide Live;
    hide Happens;
    hide Lasts;
    hide OwnReports;
    hide Run;
    HappensIsBalanced(f, bridges, cfg, inputs);
    CounterCountsLiveBridges(f, bridges, cfg, inputs);
    if inputs == [] {
      NothingReported();
      BegunInv(f, bridges);
      RunOfNothing(StartAuthentication(f, bridges), cfg);
    } else {
      var before, last := inputs[..|inputs| - 1], inputs[|inputs| - 1];
      assert before + [last] == inputs;
      FallbackExactlyAfterTheLast(f, bridges, cfg, before, last);
    }
  }

  lemma {:induction false} RunOfNothing(f: Flow, cfg: Config)
    ensures Run(f, cfg, []) == f
  {
  }

  // ---------------------------------------------------------------- how rounds begin

  /** Two events begin a round with the bridges that were found. */
  lemma {:induction false} SearchEnters(f: Flow, discovered: seq<Found>) returns (h: Flow, bridges: seq<Found>)
    requires !f.state.Authenticating? && DoSearchCompleted(f, discovered).state.Authenticating?
    ensures bridges == FilterBridges(discovered) != [] && DoSearchCompleted(f, discovered) == StartAuthentication(h, bridges)
  {
    hide Bridge.GetStatus;
    hide FilterBridges;
    hide ContainsValidBridge;
    hide RediscoverKnownBridge;
    hide Bridges;
    hide Finish;
    hide StartAuthentication;
    hide ReportActionRequired;
    FlowInvariant.FinishesKeep();
    bridges := FilterBridges(discovered);
    h := f;
    if bridges != [] {
      var g := Tell(f, if ContainsValidBridge(bridges) then FinishSearchBridgesFound else FinishSearchingInvalidBridgesFound);
      h := if ContainsValidBridge(bridges) && !f.request.ConnectNew? then g.(data := RediscoverKnownBridge(g.data, Bridges(bridges)).1) else g;
    }
  }

  /** A retrieval that fails begins one with the bridge it was about. */
  lemma {:induction false} FailureEnters(f: Flow, found: Found, shared: bool) returns (h: Flow)
    requires !f.state.Authenticating? && RetrieveFailed(f, found, shared).state.Authenticating?
    ensures RetrieveFailed(f, found, shared) == StartAuthentication(h, [found])
  {
    hide Bridge.GetStatus;
    hide Finish;
    hide StartAuthentication;
    hide ReportActionRequired;
    hide WithActive;
    FlowInvariant.FinishesKeep();
    h := TellAbout(f, FinishRetrievingFailed, found.bridge);
  }

  lemma {:induction false} SmallConfigEnters(f: Flow, ok: bool, found: Found, shared: bool, env: Env) returns (h: Flow)
    requires !f.state.Authenticating? && DoSmallConfigCompleted(f, ok, found, shared, env).state.Authenticating?
    ensures DoSmallConfigCompleted(f, ok, found, shared, env) == StartAuthentication(h, [found])
  {
    hide RetrieveFailed;
    hide StartAuthentication;
    hide SetActiveBridge;
    hide WithActive;
    hide Bridge.HasEverBeenAuthorizedForStreaming;
    var g := if shared then f.(data := WithActive(f.data, found.bridge)) else f;
    if ok {
      h := TellAbout(g, FinishRetrievingSmall, found.bridge).(data := SetActiveBridge(g.data, found.bridge));
    } else {
      h := FailureEnters(g, found, shared);
    }
  }

  lemma {:induction false} FullConfigEnters(f: Flow, ok: bool, found: Found) returns (h: Flow)
    requires !f.state.Authenticating? && DoFullConfigCompleted(f, ok, found).state.Authenticating?
    ensures DoFullConfigCompleted(f, ok, found) == StartAuthentication(h, [found])
  {
    hide RetrieveFailed;
    hide SetActiveBridge;
    hide WithActive;
    hide Bridge.GetStatus;
    hide Bridge.GetGroup;
    hide ReportActionRequired;
    h := FailureEnters(f.(data := SetActiveBridge(f.data, found.bridge)), found, true);
  }

  lemma {:induction false} RequestsDoNotEnter(f: Flow, e: Event, cfg: Config, env: Env)
    requires !f.state.Authenticating? && !IsLateCompletion(e) && !e.ConnectToBridge?
    ensures !Step(f, e, cfg, env).state.Authenticating?
  {
    hide Bridge.GetStatus;
    hide Bridge.SelectGroup;
    hide Bridge.GetGroup;
    hide Begin;
    hide Finish;
    hide ReportActionRequired;
    hide StopIfStreaming;
    hide SetActiveBridge;
    hide WithActive;
    hide ClearActiveBridge;
    hide AbortOutside;
    hide DoSavingCompleted;
    FlowInvariant.FinishesKeep();
    BeginningsKeep();
    if e.SavingCompleted? {
      LateSaves.SaveEndsEverything(f, e.ok, cfg, env);
    }
  }

  lemma {:induction false} BeginningsKeep()
    ensures forall f: Flow, r {:trigger Begin(f, r)} :: f.state.Idle? ==> Begin(f, r).state.Idle?
  {
  }

  lemma {:induction false} LoadingDoesNotEnter(f: Flow, e: Event, cfg: Config, env: Env)
    requires !f.state.Authenticating? && (e.LoadingCompleted? || e.AuthenticationCompleted? || e.PushLink?)
    ensures !Step(f, e, cfg, env).state.Authenticating?
  {
    hide Bridge.GetStatus;
    hide Finish;
    hide SetActiveBridge;
    hide WithActive;
    FlowInvariant.FinishesKeep();
  }

  lemma {:induction false} ConnectEnters(f: Flow) returns (h: Flow)
    requires !f.state.Authenticating? && DoConnectToBridge(f).state.Authenticating?
    ensures f.background != [] && DoConnectToBridge(f) == StartAuthentication(h, f.background)
  {
    hide StartAuthentication;
    h := if f.state.Idle? then Begin(f, Connect).(background := []) else f;
  }

  /** Whenever authenticating begins, a round of bridges is started: the ones found, those found in the background, or
      the one that could not be retrieved. */
  lemma {:induction false} EntersRound(f: Flow, e: Event, cfg: Config, env: Env) returns (h: Flow, bridges: seq<Found>)
    requires !f.state.Authenticating? && Step(f, e, cfg, env).state.Authenticating?
    ensures bridges != [] && Step(f, e, cfg, env) == StartAuthentication(h, bridges)
    ensures bridges == f.background || |bridges| == 1 || (e.SearchCompleted? && bridges == FilterBridges(e.bridges))
  {
    hide DoConnectToBridge;
    hide DoSearchCompleted;
    hide DoSmallConfigCompleted;
    hide DoFullConfigCompleted;
    hide StartAuthentication;
    match e
    case ConnectToBridge =>
      h := ConnectEnters(f);
      bridges := f.background;
    case SearchCompleted(discovered) =>
      h, bridges := SearchEnters(f, discovered);
    case SmallConfigCompleted(ok, found, shared) =>
      h := SmallConfigEnters(f, ok, found, shared, env);
      bridges := [found];
    case FullConfigCompleted(ok, found) =>
      h := FullConfigEnters(f, ok, found);
      bridges := [found];
    case _ =>
      if IsLateCompletion(e) {
        LoadingDoesNotEnter(f, e, cfg, env);
      } else {
        RequestsDoNotEnter(f, e, cfg, env);
      }
      assert false;
  }

  // ---------------------------------------------------------------- whole runs

  /** One object found by a search is one bridge. */
  ghost predicate AllCoherent(inputs: seq<Input>) {
    forall i :: 0 <= i < |inputs| && inputs[i].event.SearchCompleted? ==> Coherent(inputs[i].event.bridges)
  }

  lemma {:induction false} SearchAndBackground(f: Flow, discovered: seq<Found>)
    ensures var g := DoSearchCompleted(f, discovered); g.background == f.background || g.background == FilterBridges(discovered)
  {
    hide Bridge.GetStatus;
    hide FilterBridges;
    hide ContainsValidBridge;
    hide RediscoverKnownBridge;
    hide Bridges;
    hide ReportActionRequired;
    hide Finish;
    FinishKeepsBackground();
    ReportKeepsBackground();
  }

  lemma {:induction false} FinishKeepsBackground()
    ensures forall f {:trigger Finish(f)} :: Finish(f).background == f.background
  {
    hide BridgeStreamingChecker.Differences;
    hide DifferenceMessages;
  }

  lemma {:induction false} ReportKeepsBackground()
    ensures forall f {:trigger ReportActionRequired(f)} :: ReportActionRequired(f).background == f.background
  {
    hide Bridge.GetStatus;
    hide StatusMessage;
  }

  lemma {:induction false} FailureAndBackground(f: Flow, found: Found, shared: bool)
    ensures RetrieveFailed(f, found, shared).background == f.background
  {
    hide ReportActionRequired;
    hide Finish;
    hide WithActive;
    FinishKeepsBackground();
    ReportKeepsBackground();
  }

  lemma {:induction false} SmallConfigAndBackground(f: Flow, ok: bool, found: Found, shared: bool, env: Env)
    ensures DoSmallConfigCompleted(f, ok, found, shared, env).background == f.background
  {
    hide Bridge.HasEverBeenAuthorizedForStreaming;
    hide SetActiveBridge;
    hide WithActive;
    hide RetrieveFailed;
    FailureAndBackground(if shared then f.(data := WithActive(f.data, found.bridge)) else f, found, shared);
  }

  lemma {:induction false} FullConfigAndBackground(f: Flow, ok: bool, found: Found)
    ensures DoFullConfigCompleted(f, ok, found).background == f.background
  {
    hide Bridge.GetStatus;
    hide Bridge.GetGroup;
    hide ReportActionRequired;
    hide SetActiveBridge;
    hide WithActive;
    hide RetrieveFailed;
    ReportKeepsBackground();
    FailureAndBackground(f.(data := SetActiveBridge(f.data, found.bridge)), found, true);
  }

  lemma {:induction false} CompletionAndBackground(f: Flow, e: Event, cfg: Config, env: Env)
    requires IsLateCompletion(e) && !e.SearchCompleted?
    ensures Step(f, e, cfg, env).background == f.background
  {
    hide DoSmallConfigCompleted;
    hide DoFullConfigCompleted;
    if e.SmallConfigCompleted? {
      SmallConfigAndBackground(f, e.ok, e.found, e.shared, env);
    } else if e.FullConfigCompleted? {
      FullConfigAndBackground(f, e.ok, e.found);
    } else {
      LoadingAndBackground(f, e, cfg, env);
      hide Step;
    }
  }

  lemma {:induction false} LoadingAndBackground(f: Flow, e: Event, cfg: Config, env: Env)
    requires e.LoadingCompleted? || e.AuthenticationCompleted? || e.PushLink?
    ensures Step(f, e, cfg, env).background == f.background
  {
    hide DoLoadingCompleted;
    hide DoAuthenticationCompleted;
    if e.LoadingCompleted? {
      LoadedAndBackground(f, e.ok, e.loaded, e.next);
    } else if e.AuthenticationCompleted? {
      ReportAndBackground(f, e.found, env);
    }
  }

  lemma {:induction false} LoadedAndBackground(f: Flow, ok: bool, loaded: KnownBridges, next: Continuation)
    ensures DoLoadingCompleted(f, ok, loaded, next).background == f.background
  {
    hide Finish;
    hide SetActiveBridge;
    hide WithActive;
    hide Bridge.Cleared;
    FinishKeepsBackground();
  }

  lemma {:induction false} ReportAndBackground(f: Flow, found: Found, env: Env)
    ensures DoAuthenticationCompleted(f, found, env).background == f.background
  {
    hide SetActiveBridge;
    hide Bridge.IsSupportingClipV2;
  }

  lemma {:induction false} SaveAndBackground(f: Flow, ok: bool, cfg: Config, env: Env)
    ensures DoSavingCompleted(f, ok, cfg, env).background == f.background
  {
    hide Bridge.GetStatus;
    hide ReportActionRequired;
    hide Finish;
    hide WithActive;
    FinishKeepsBackground();
    ReportKeepsBackground();
  }

  lemma {:induction false} RequestAndBackground(f: Flow, e: Event, cfg: Config, env: Env)
    requires !IsLateCompletion(e) && !e.SavingCompleted?
    ensures var g := Step(f, e, cfg, env); g.background == f.background || g.background == []
  {
    hide DoMonitor;
    hide DoAbort;
    hide DoSelectGroup;
    hide DoReset;
    hide Bridge.GetStatus;
    hide Finish;
    hide SetActiveBridge;
    hide WithActive;
    hide IdKeyBridge;
    hide IpBridge;
    hide ManualBridge;
    FinishKeepsBackground();
    if e.Monitor? {
      MonitorAndBackground(f, e.message, env);
    } else if e.Abort? {
      AbortAndBackground(f);
    } else if e.SelectGroup? {
      SelectAndBackground(f, e.group);
    } else if e.Reset? {
      ResetAndBackground(f, e.onlyActive, env);
    }
  }

  lemma {:induction false} MonitorAndBackground(f: Flow, m: Message, env: Env)
    ensures DoMonitor(f, m, env).background == f.background
  {
    hide Finish;
    hide SetActiveBridge;
    hide WithActive;
    FinishKeepsBackground();
  }

  lemma {:induction false} AbortAndBackground(f: Flow)
    ensures DoAbort(f).background == f.background
  {
    hide Finish;
    hide SetActiveBridge;
    FinishKeepsBackground();
  }

  lemma {:induction false} SelectAndBackground(f: Flow, group: string)
    ensures DoSelectGroup(f, group).background == f.background
  {
    hide Bridge.SelectGroup;
    hide Bridge.GetGroup;
    hide ReportActionRequired;
    hide Finish;
    hide WithActive;
    FinishKeepsBackground();
    ReportKeepsBackground();
  }

  lemma {:induction false} ResetAndBackground(f: Flow, onlyActive: bool, env: Env)
    ensures DoReset(f, onlyActive, env).background == f.background
  {
    hide Bridge.GetStatus;
    hide WithActive;
    hide ClearActiveBridge;
  }

  /** Bridges found in the background come from a search. */
  lemma {:induction false} StepAndBackground(f: Flow, e: Event, cfg: Config, env: Env)
    ensures var g := Step(f, e, cfg, env);
            g.background == f.background || g.background == [] || (e.SearchCompleted? && g.background == FilterBridges(e.bridges))
  {
    hide DoSearchCompleted;
    hide DoSavingCompleted;
    if e.SearchCompleted? {
      SearchAndBackground(f, e.bridges);
    } else if e.SavingCompleted? {
      SaveAndBackground(f, e.ok, cfg, env);
    } else if IsLateCompletion(e) {
      CompletionAndBackground(f, e, cfg, env);
      hide Step;
    } else {
      RequestAndBackground(f, e, cfg, env);
      hide Step;
    }
  }

  lemma {:induction false} BackgroundIsDistinct(cfg: Config, inputs: seq<Input>)
    requires AllCoherent(inputs)
    ensures DistinctRefs(Run(Initial(), cfg, inputs).background)
  {
    hide Step;
    hide Coherent;
    hide FilterBridges;
    if inputs != [] {
      var before, last := inputs[..|inputs| - 1], inputs[|inputs| - 1];
      BackgroundIsDistinct(cfg, before);
      StepAndBackground(Run(Initial(), cfg, before), last.event, cfg, last.env);
      if last.event.SearchCompleted? {
        FilteredRefsAreDistinct(last.event.bridges);
      }
    }
  }

  lemma {:induction false} LastsOneMore(f: Flow, cfg: Config, inputs: seq<Input>, last: Input)
    requires Lasts(f, cfg, inputs) && Run(f, cfg, inputs).state.Authenticating?
    ensures Lasts(f, cfg, inputs + [last])
    ensures Run(f, cfg, inputs + [last]) == Step(Run(f, cfg, inputs), last.event, cfg, last.env)
  {
    hide Step;
    assert (inputs + [last])[..|inputs|] == inputs;
  }

  /** In every run that is authenticating a round has begun, and the flow was authenticating ever since. */
  lemma {:induction false} RoundInProgress(cfg: Config, inputs: seq<Input>) returns (k: nat, h: Flow, bridges: seq<Found>)
    requires Run(Initial(), cfg, inputs).state.Authenticating?
    ensures k <= |inputs| && bridges != [] && Run(Initial(), cfg, inputs[..k]) == StartAuthentication(h, bridges)
    ensures Lasts(StartAuthentication(h, bridges), cfg, inputs[k..])
    ensures Run(StartAuthentication(h, bridges), cfg, inputs[k..]) == Run(Initial(), cfg, inputs)
    ensures AllCoherent(inputs) ==> DistinctRefs(bridges)
  {
    hide Step;
    hide StartAuthentication;
    hide DistinctRefs;
    hide Coherent;
    if inputs != [] {
      var before, last := inputs[..|inputs| - 1], inputs[|inputs| - 1];
      var f := Run(Initial(), cfg, before);
      if f.state.Authenticating? {
        k, h, bridges := RoundInProgress(cfg, before);
        assert before[..k] == inputs[..k] && inputs[k..] == before[k..] + [last];
        LastsOneMore(StartAuthentication(h, bridges), cfg, before[k..], last);
      } else {
        h, bridges := EntersRound(f, last.event, cfg, last.env);
        k := |inputs|;
        assert inputs[..k] == inputs && inputs[k..] == [];
        if AllCoherent(inputs) {
          BackgroundIsDistinct(cfg, before);
          EnteredDistinct(f, last.event, bridges);
        }
      }
    }
  }

  lemma {:induction false} EnteredDistinct(f: Flow, e: Event, bridges: seq<Found>)
    requires DistinctRefs(f.background) && (e.SearchCompleted? ==> Coherent(e.bridges))
    requires bridges == f.background || |bridges| == 1 || (e.SearchCompleted? && bridges == FilterBridges(e.bridges))
    ensures DistinctRefs(bridges)
  {
    if e.SearchCompleted? {
      FilteredRefsAreDistinct(e.bridges);
    }
    hide FilterBridges;
    hide Coherent;
  }

  /** In every run, whenever the flow authenticates: the counter is the number of bridges of the round in progress less
      the reports since its beginning that were a fourth or later failure of their bridge; and it is the number of
      bridges of the round that have failed at most three times exactly when no bridge outside the round has failed more
      than three times since then and none of the round more than four times. */
  lemma {:induction false} EveryRoundCounts(cfg: Config, inputs: seq<Input>) returns (k: nat, h: Flow, bridges: seq<Found>)
    requires Run(Initial(), cfg, inputs).state.Authenticating?
    ensures k <= |inputs| && bridges != [] && Run(Initial(), cfg, inputs[..k]) == StartAuthentication(h, bridges)
    ensures var count, answers := Run(Initial(), cfg, inputs).authCount, Reported(inputs[k..]);
            && count + GivenUps(answers) == |bridges| && count >= 1
            && (AllCoherent(inputs) ==>
                DistinctRefs(bridges) && (count == |Live(RefSet(bridges), answers)| <==> FewFailures(RefSet(bridges), answers)))
  {
    hide Run;
    hide StartAuthentication;
    hide Live;
    hide FewFailures;
    hide GivenUps;
    hide AllCoherent;
    hide DistinctRefs;
    hide Reported;
    hide Lasts;
    k, h, bridges := RoundInProgress(cfg, inputs);
    CounterForAnyReports(h, bridges, cfg, inputs[k..]);
    if AllCoherent(inputs) {
      CounterIsLiveExactlyWhen(h, bridges, cfg, inputs[k..]);
    }
  }
}
