/**
 One round of authentication: every bridge of the round is asked until it is authorized or
 has failed too often, and the search starts again exactly when the last one is given up.
 Between two reports anything may be dispatched: retries, refused requests, stray completions.
 */
module AuthenticationRounds {
  import opened BridgeData
  import opened FlowProtocol
  import opened FlowMessages
  import opened FlowSpec
  import opened FlowRuns
  import FlowInvariant
  import LateSaves

  ghost predicate DistinctRefs(bridges: seq<Found>) {
    forall i, j :: 0 <= i < j < |bridges| ==> bridges[i].ref != bridges[j].ref
  }

  /** One object is one bridge. */
  ghost predicate Coherent(bridges: seq<Found>) {
    forall i, j :: 0 <= i < j < |bridges| && bridges[i].ref == bridges[j].ref ==> bridges[i].bridge == bridges[j].bridge
  }

  function RefSet(bridges: seq<Found>): set<nat> {
    if bridges == [] then {} else RefSet(bridges[..|bridges| - 1]) + {bridges[|bridges| - 1].ref}
  }

  lemma {:induction false} RefSetMembers(bridges: seq<Found>, ref: nat)
    ensures ref in RefSet(bridges) <==> exists i :: 0 <= i < |bridges| && bridges[i].ref == ref
  {
    if bridges != [] {
      var init := bridges[..|bridges| - 1];
      RefSetMembers(init, ref);
      assert forall i :: 0 <= i < |init| ==> init[i] == bridges[i];
    }
  }

  // ---------------------------------------------------------------- the bridges of a round

  /** Filtering keeps valid bridges of the list only, all of them up to their address, no address twice. */
  lemma {:induction false} FilterIsExact(bridges: seq<Found>)
    ensures forall i :: 0 <= i < |FilterBridges(bridges)| ==>
              FilterBridges(bridges)[i] in bridges && FilterBridges(bridges)[i].bridge.validIp
    ensures forall i :: 0 <= i < |bridges| && bridges[i].bridge.validIp ==> HasIp(FilterBridges(bridges), bridges[i].bridge.ip)
    ensures forall i, j :: 0 <= i < j < |FilterBridges(bridges)| ==>
              FilterBridges(bridges)[i].bridge.ip != FilterBridges(bridges)[j].bridge.ip
  {
    if bridges != [] {
      var init, last := bridges[..|bridges| - 1], bridges[|bridges| - 1];
      FilterIsExact(init);
      var kept, all := FilterBridges(init), FilterBridges(bridges);
      assert kept <= all;
      forall i | 0 <= i < |bridges| && bridges[i].bridge.validIp ensures HasIp(all, bridges[i].bridge.ip) {
        if i < |init| {
          assert HasIp(kept, init[i].bridge.ip);
          var n :| 0 <= n < |kept| && kept[n].bridge.ip == init[i].bridge.ip;
          assert all[n] == kept[n];
        } else if all != kept {
          assert all[|kept|] == last;
        }
      }
    }
  }

  /** So a round started from a search asks every bridge object once. */
  lemma {:induction false} FilteredRefsAreDistinct(bridges: seq<Found>)
    requires Coherent(bridges)
    ensures DistinctRefs(FilterBridges(bridges))
  {
    FilterIsExact(bridges);
  }

  lemma {:induction false} AuthTableIsFresh(bridges: seq<Found>)
    requires DistinctRefs(bridges)
    ensures AuthTable(bridges).Keys == RefSet(bridges) && |RefSet(bridges)| == |bridges|
    ensures forall r :: r in AuthTable(bridges) ==> AuthTable(bridges)[r].failedTries == 0
  {
    if bridges != [] {
      var init, last := bridges[..|bridges| - 1], bridges[|bridges| - 1].ref;
      assert forall i :: 0 <= i < |init| ==> init[i] == bridges[i];
      AuthTableIsFresh(init);
      RefSetMembers(init, last);
    }
  }

  // ---------------------------------------------------------------- reports

  datatype Answer = Answer(found: Found, env: Env)

  /** The reports among the dispatched events. */
  function Reported(inputs: seq<Input>): seq<Answer> {
    if inputs == [] then []
    else
      var last := inputs[|inputs| - 1];
      Reported(inputs[..|inputs| - 1])
      + if last.event.AuthenticationCompleted? then [Answer(last.event.found, last.env)] else []
  }

  lemma {:induction false} ReportedLast(inputs: seq<Input>)
    requires inputs != []
    ensures var before, last := inputs[..|inputs| - 1], inputs[|inputs| - 1];
            Reported(inputs) == if last.event.AuthenticationCompleted? then Reported(before) + [Answer(last.event.found, last.env)]
                                else Reported(before)
  {
  }

  /** The flow was authenticating before each of the events. */
  ghost predicate Lasts(f: Flow, cfg: Config, inputs: seq<Input>) {
    inputs == [] || (Lasts(f, cfg, inputs[..|inputs| - 1]) && Run(f, cfg, inputs[..|inputs| - 1]).state.Authenticating?)
  }

  lemma {:induction false} RequestInRound(f: Flow, e: Event, cfg: Config, env: Env)
    requires f.state.Authenticating?
    requires !FlowRuns.IsLateCompletion(e) && !e.Abort? && !e.SavingCompleted? && !e.Monitor? && !e.ActiveBridgeWritten?
    ensures Step(f, e, cfg, env) == f
  {
    hide Begin;
    hide Finish;
    hide StartLoadingData;
    hide StartSavingData;
    hide StopIfStreaming;
  }

  lemma {:induction false} CompletionInRound(f: Flow, e: Event, cfg: Config, env: Env)
    requires f.state.Authenticating? && IsLateCompletion(e) && !e.AuthenticationCompleted?
    ensures Step(f, e, cfg, env) == if e.PushLink? then Do(f, Authenticate(e.ref)) else f
  {
    hide Bridge.GetStatus;
    hide Continue;
    hide NothingFound;
    hide ValidFound;
    hide InvalidFound;
    hide RetrieveFailed;
    hide StartRetrieveFullConfig;
    hide StartAuthentication;
    hide StartBridgeSearch;
    hide StartSavingData;
    hide ReportActionRequired;
  }

  lemma {:induction false} EndOfRound(f: Flow, e: Event, cfg: Config, env: Env)
    requires f.state.Authenticating? && (e.Abort? || e.SavingCompleted?)
    ensures Step(f, e, cfg, env).state.Idle?
  {
    hide Finish;
    hide SetActiveBridge;
    hide AbortOutside;
    if e.Abort? {
      FlowInvariant.FinishesKeep();
    } else {
      LateSaves.SaveEndsEverything(f, e.ok, cfg, env);
    }
    hide DoSavingCompleted;
  }

  lemma {:induction false} MonitorInRound(f: Flow, e: Event, cfg: Config, env: Env)
    requires f.state.Authenticating? && (e.Monitor? || e.ActiveBridgeWritten?)
    ensures var g := Step(f, e, cfg, env); g == f.(trace := g.trace, data := g.data)
  {
    hide Begin;
    hide Finish;
    hide StartSavingData;
    hide StartRetrieveFullConfig;
    hide SetActiveBridge;
    hide WithActive;
  }

  /** What is dispatched between the reports leaves the round alone, or ends it: an abort, or a save of earlier. */
  lemma {:induction false} OtherEvents(f: Flow, e: Event, cfg: Config, env: Env)
    requires f.state.Authenticating? && !e.AuthenticationCompleted?
    ensures var g := Step(f, e, cfg, env);
            && (e.Abort? || e.SavingCompleted? ==> g.state.Idle?)
            && (!e.Abort? && !e.SavingCompleted? ==>
                && g.state.Authenticating? && g.authCount == f.authCount && g.authInfo == f.authInfo
                && g.calls == if e.PushLink? then f.calls + [Authenticate(e.ref)] else f.calls)
  {
    hide Step;
    if e.Abort? || e.SavingCompleted? {
      EndOfRound(f, e, cfg, env);
    } else if IsLateCompletion(e) {
      CompletionInRound(f, e, cfg, env);
    } else if e.Monitor? || e.ActiveBridgeWritten? {
      MonitorInRound(f, e, cfg, env);
    } else {
      RequestInRound(f, e, cfg, env);
    }
  }

  lemma {:induction false} ReportStep(f: Flow, e: Event, cfg: Config, env: Env)
    requires e.AuthenticationCompleted?
    ensures Step(f, e, cfg, env) == DoAuthenticationCompleted(f, e.found, env)
  {
    hide DoAuthenticationCompleted;
  }

  // ---------------------------------------------------------------- the bridges that may report

  /** The flow during a round, and the bridges that are being asked or will be asked again. */
  datatype Round = Round(flow: Flow, pending: multiset<nat>)

  function Begun(f: Flow, bridges: seq<Found>): Round {
    Round(StartAuthentication(f, bridges), multiset(RefSet(bridges)))
  }

  /** The flow schedules another try for the bridge. */
  predicate SchedulesRetry(f: Flow, g: Flow, ref: nat) {
    var n := |f.calls|;
    |g.calls| == n + 1 && g.calls[n].ScheduleRetry? && g.calls[n].ref == ref
  }

  /** A bridge that has reported stays pending exactly when the flow schedules another try for it. */
  function Went(s: Round, cfg: Config, input: Input): Round {
    var g := Step(s.flow, input.event, cfg, input.env);
    Round(g, if input.event.AuthenticationCompleted? && !SchedulesRetry(s.flow, g, input.event.found.ref)
             then s.pending - multiset{input.event.found.ref} else s.pending)
  }

  function After(s: Round, cfg: Config, inputs: seq<Input>): Round {
    if inputs == [] then s else Went(After(s, cfg, inputs[..|inputs| - 1]), cfg, inputs[|inputs| - 1])
  }

  /** Only bridges that are being asked report, and only as long as the round lasts; the rest is free. */
  ghost predicate OwnReports(s: Round, cfg: Config, inputs: seq<Input>) {
    inputs == [] ||
    var before, last := inputs[..|inputs| - 1], inputs[|inputs| - 1];
    && OwnReports(s, cfg, before) && After(s, cfg, before).flow.state.Authenticating?
    && (last.event.AuthenticationCompleted? ==> last.event.found.ref in After(s, cfg, before).pending)
  }

  lemma {:induction false} FlowOfRound(s: Round, cfg: Config, inputs: seq<Input>)
    ensures After(s, cfg, inputs).flow == Run(s.flow, cfg, inputs)
  {
    hide Step;
    if inputs != [] {
      FlowOfRound(s, cfg, inputs[..|inputs| - 1]);
    }
  }

  /** How often a bridge reported an invalid address. */
  function Failures(answers: seq<Answer>, ref: nat): nat {
    if answers == [] then 0
    else Failures(answers[..|answers| - 1], ref)
         + (if answers[|answers| - 1].found.ref == ref && !answers[|answers| - 1].found.bridge.validIp then 1 else 0)
  }

  /** The bridges that have not been given up. */
  function Live(refs: set<nat>, answers: seq<Answer>): set<nat> {
    set r | r in refs && Failures(answers, r) <= PUSHLINK_INVALID_IP_MAX_RETRIES
  }

  ghost predicate RoundInv(s: Round, refs: set<nat>, answers: seq<Answer>) {
    && s.flow.authInfo.Keys == refs
    && (forall r :: r in refs ==> s.flow.authInfo[r].failedTries == Failures(answers, r))
    && s.pending == multiset(Live(refs, answers))
    && s.flow.authCount == |Live(refs, answers)|
    && s.flow.authCount >= 1
  }

  /** The handler, for a bridge that is in the table. */
  lemma {:induction false} CompletionMeans(f: Flow, found: Found, env: Env)
    requires f.state.Authenticating? && found.ref in f.authInfo && f.authCount >= 1
    ensures var g := DoAuthenticationCompleted(f, found, env);
            var info := f.authInfo[found.ref];
            var tries := info.failedTries + (if found.bridge.validIp then 0 else 1);
            && g.authInfo == f.authInfo[found.ref := info.(failedTries := tries)]
            && if tries > PUSHLINK_INVALID_IP_MAX_RETRIES && !found.bridge.validIp then
                 && g.authCount == f.authCount - 1
                 && (if f.authCount == 1 then g.state.SearchingFirst? && g.calls == f.calls + [SearchNew(false), StopScheduler]
                     else g.state.Authenticating? && g.calls == f.calls)
               else if found.bridge.authorized then g.state.Retrieving?
               else
                 && g.state.Authenticating? && g.authCount == f.authCount
                 && g.calls == f.calls + [ScheduleRetry(info.bridgeNumber, found.ref)]
  {
    hide Bridge.GetStatus;
    hide SetActiveBridge;
  }

  lemma {:induction false} FailuresStep(before: seq<Answer>, a: Answer, ref: nat)
    ensures Failures(before + [a], ref)
         == Failures(before, ref) + (if a.found.ref == ref && !a.found.bridge.validIp then 1 else 0)
  {
    assert (before + [a])[..|before|] == before;
  }

  lemma {:induction false} LiveStep(refs: set<nat>, before: seq<Answer>, a: Answer)
    requires a.found.ref in Live(refs, before)
    ensures Live(refs, before + [a]) ==
            if Failures(before + [a], a.found.ref) > PUSHLINK_INVALID_IP_MAX_RETRIES
            then Live(refs, before) - {a.found.ref} else Live(refs, before)
  {
    forall r ensures Failures(before + [a], r)
                  == Failures(before, r) + (if a.found.ref == r && !a.found.bridge.validIp then 1 else 0)
    {
      FailuresStep(before, a, r);
    }
  }

  /** What one report does to the round. */
  lemma {:induction false} ReportMeans(s: Round, cfg: Config, refs: set<nat>, before: seq<Answer>, input: Input)
    requires s.flow.state.Authenticating? && RoundInv(s, refs, before)
    requires input.event.AuthenticationCompleted? && input.event.found.ref in s.pending
    ensures var found := input.event.found;
            var answers := before + [Answer(found, input.env)];
            var g := Went(s, cfg, input);
            var givenUp := Failures(answers, found.ref) > PUSHLINK_INVALID_IP_MAX_RETRIES;
            && (g.flow.state.Authenticating? ==> RoundInv(g, refs, answers))
            && (g.flow.state.SearchingFirst? <==> givenUp && Live(refs, answers) == {})
            && (g.flow.state.Retrieving? <==> !givenUp && found.bridge.authorized)
            && (g.flow.state.Authenticating? || g.flow.state.SearchingFirst? || g.flow.state.Retrieving?)
  {
    hide DoAuthenticationCompleted;
    hide Failures;
    hide Live;
    hide Step;
    var a := Answer(input.event.found, input.env);
    ReportStep(s.flow, input.event, cfg, input.env);
    LiveMembers(refs, before);
    CompletionMeans(s.flow, a.found, a.env);
    LiveStep(refs, before, a);
    forall r ensures Failures(before + [a], r)
                  == Failures(before, r) + (if a.found.ref == r && !a.found.bridge.validIp then 1 else 0)
    {
      FailuresStep(before, a, r);
    }
    LastOne(Live(refs, before), a.found.ref);
  }

  /** What anything else does to it. */
  lemma {:induction false} OtherMeans(s: Round, cfg: Config, refs: set<nat>, answers: seq<Answer>, input: Input)
    requires s.flow.state.Authenticating? && RoundInv(s, refs, answers) && !input.event.AuthenticationCompleted?
    ensures var g := Went(s, cfg, input);
            && (g.flow.state.Authenticating? ==> RoundInv(g, refs, answers))
            && (g.flow.state.Authenticating? || g.flow.state.Idle?)
            && (g.flow.state.Idle? <==> input.event.Abort? || input.event.SavingCompleted?)
  {
    hide Step;
    hide Failures;
    hide Live;
    OtherEvents(s.flow, input.event, cfg, input.env);
  }

  lemma {:induction false} LiveMembers(refs: set<nat>, answers: seq<Answer>)
    ensures forall r :: r in Live(refs, answers) <==> r in refs && Failures(answers, r) <= PUSHLINK_INVALID_IP_MAX_RETRIES
  {
  }

  lemma {:induction false} LastOne(live: set<nat>, r: nat)
    requires r in live
    ensures |live - {r}| == |live| - 1
    ensures live - {r} == {} <==> |live| == 1
    ensures multiset(live - {r}) == multiset(live) - multiset{r}
  {
  }

  /** As long as only the round's own bridges report, whatever else is dispatched, and the flow is still
      authenticating: the counter is the number of bridges with at most three invalid-address failures, there is at
      least one, and these are the bridges that may still report. */
  lemma {:induction false} CounterCountsLiveBridges(f: Flow, bridges: seq<Found>, cfg: Config, inputs: seq<Input>)
    requires bridges != [] && DistinctRefs(bridges) && OwnReports(Begun(f, bridges), cfg, inputs)
    ensures After(Begun(f, bridges), cfg, inputs).flow == Run(StartAuthentication(f, bridges), cfg, inputs)
    ensures var s := After(Begun(f, bridges), cfg, inputs);
            s.flow.state.Authenticating? ==>
              && RoundInv(s, RefSet(bridges), Reported(inputs))
              && s.flow.authCount == |Live(RefSet(bridges), Reported(inputs))| >= 1
  {
    hide Went;
    hide StartAuthentication;
    hide Live;
    hide Reported;
    FlowOfRound(Begun(f, bridges), cfg, inputs);
    var s := Begun(f, bridges);
    if inputs == [] {
      NothingReported();
      BegunInv(f, bridges);
    } else {
      var before, last := inputs[..|inputs| - 1], inputs[|inputs| - 1];
      CounterCountsLiveBridges(f, bridges, cfg, before);
      ReportedLast(inputs);
      if last.event.AuthenticationCompleted? {
        ReportMeans(After(s, cfg, before), cfg, RefSet(bridges), Reported(before), last);
      } else {
        OtherMeans(After(s, cfg, before), cfg, RefSet(bridges), Reported(before), last);
      }
    }
  }

  lemma {:induction false} NothingReported()
    ensures Reported([]) == []
  {
  }

  lemma {:induction false} BegunInv(f: Flow, bridges: seq<Found>)
    requires bridges != [] && DistinctRefs(bridges)
    ensures RoundInv(Begun(f, bridges), RefSet(bridges), []) && Begun(f, bridges).flow.state.Authenticating?
  {
    AuthTableIsFresh(bridges);
    assert Live(RefSet(bridges), []) == RefSet(bridges);
  }

  /** The search starts again exactly with the report that gives up the last bridge; an authorized bridge that is not
      given up ends the round, and so do an abort and a save of earlier; everything else leaves it going. */
  lemma {:induction false} FallbackExactlyAfterTheLast(f: Flow, bridges: seq<Found>, cfg: Config, before: seq<Input>, last: Input)
    requires bridges != [] && DistinctRefs(bridges) && OwnReports(Begun(f, bridges), cfg, before + [last])
    ensures var answers := Reported(before + [last]);
            var g := Run(StartAuthentication(f, bridges), cfg, before + [last]);
            && (g.state.SearchingFirst? <==> Live(RefSet(bridges), answers) == {})
            && (g.state.Retrieving? <==> last.event.AuthenticationCompleted? && last.event.found.bridge.authorized
                                         && Failures(answers, last.event.found.ref) <= PUSHLINK_INVALID_IP_MAX_RETRIES)
            && (g.state.Idle? <==> last.event.Abort? || last.event.SavingCompleted?)
            && (g.state.Authenticating? || g.state.SearchingFirst? || g.state.Retrieving? || g.state.Idle?)
  {
    hide Went;
    hide Live;
    hide StartAuthentication;
    hide Reported;
    var s, refs, all := Begun(f, bridges), RefSet(bridges), before + [last];
    assert all[..|before|] == before && all[|all| - 1] == last;
    CounterCountsLiveBridges(f, bridges, cfg, before);
    FlowOfRound(s, cfg, all);
    ReportedLast(all);
    LiveMembers(refs, Reported(all));
    if last.event.AuthenticationCompleted? {
      ReportMeans(After(s, cfg, before), cfg, refs, Reported(before), last);
      LiveMembers(refs, Reported(before));
      if Failures(Reported(all), last.event.found.ref) <= PUSHLINK_INVALID_IP_MAX_RETRIES {
        assert last.event.found.ref in Live(refs, Reported(all));
      }
    } else {
      OtherMeans(After(s, cfg, before), cfg, refs, Reported(before), last);
    }
  }

  /** A report from outside the round can break the count: a stale bridge may use up the counter and send the flow
      back to searching while a bridge of the round has never failed. */
  lemma {:induction false} StaleReportsBreakTheCount(f: Flow, own: nat, stale: Found, env: Env)
    requires f.state.Authenticating? && f.authCount == 1 && f.authInfo == map[own := AuthInfo(0, 0)]
    requires stale.ref != own && !stale.bridge.validIp && !stale.bridge.authorized
    ensures var g := DoAuthenticationCompleted(DoAuthenticationCompleted(DoAuthenticationCompleted(
                       DoAuthenticationCompleted(f, stale, env), stale, env), stale, env), stale, env);
            g.state.SearchingFirst? && own in g.authInfo && g.authInfo[own].failedTries == 0
  {
    var f1 := DoAuthenticationCompleted(f, stale, env);
    assert f1.state.Authenticating? && f1.authInfo[stale.ref].failedTries == 1 && f1.authCount == 1;
    var f2 := DoAuthenticationCompleted(f1, stale, env);
    assert f2.state.Authenticating? && f2.authInfo[stale.ref].failedTries == 2 && f2.authCount == 1;
    var f3 := DoAuthenticationCompleted(f2, stale, env);
    assert f3.state.Authenticating? && f3.authInfo[stale.ref].failedTries == 3 && f3.authCount == 1;
  }
}
