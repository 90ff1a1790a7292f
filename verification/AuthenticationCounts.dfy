/**
 The authentication counter under any reports, also of bridges that do not belong to the round, and with anything
 else dispatched in between.
 */
module AuthenticationCounts {
  import opened Prelude
  import opened BridgeData
  import opened FlowProtocol
  import opened FlowMessages
  import opened FlowSpec
  import opened FlowRuns
  import opened AuthenticationRounds

  /** The report is a fourth or later failure of its bridge. */
  predicate GivesUp(answers: seq<Answer>) {
    answers != [] &&
    var a := answers[|answers| - 1];
    !a.found.bridge.validIp && Failures(answers, a.found.ref) > PUSHLINK_INVALID_IP_MAX_RETRIES
  }

  /** How many reports were a fourth or later failure of their bridge. */
  function GivenUps(answers: seq<Answer>): nat {
    if answers == [] then 0 else GivenUps(answers[..|answers| - 1]) + if GivesUp(answers) then 1 else 0
  }

  function Tries(f: Flow, ref: nat): int { if ref in f.authInfo then f.authInfo[ref].failedTries else 0 }

  /** What one report does, whoever sent it. */
  lemma {:induction false} AnyReport(f: Flow, a: Answer)
    requires f.state.Authenticating? && f.authCount >= 1
    ensures var g := DoAuthenticationCompleted(f, a.found, a.env);
            var tries := Tries(f, a.found.ref) + if a.found.bridge.validIp then 0 else 1;
            var up := !a.found.bridge.validIp && tries > PUSHLINK_INVALID_IP_MAX_RETRIES;
            && (forall r :: Tries(g, r) == if r == a.found.ref then tries else Tries(f, r))
            && (g.state.Authenticating? ==> g.authCount == f.authCount - if up then 1 else 0)
            && (g.state.SearchingFirst? <==> up && f.authCount == 1)
            && (g.state.Retrieving? <==> !up && a.found.bridge.authorized)
            && (g.state.Authenticating? || g.state.SearchingFirst? || g.state.Retrieving?)
  {
    hide Bridge.GetStatus;
    hide SetActiveBridge;
  }

  lemma {:induction false} NothingTried(bridges: seq<Found>)
    ensures forall r :: r in AuthTable(bridges) ==> AuthTable(bridges)[r].failedTries == 0
  {
    if bridges != [] {
      NothingTried(bridges[..|bridges| - 1]);
    }
  }

  ghost predicate Counts(f: Flow, bridges: seq<Found>, answers: seq<Answer>) {
    f.state.Authenticating? ==>
      && f.authCount + GivenUps(answers) == |bridges| && f.authCount >= 1
      && forall r :: Tries(f, r) == Failures(answers, r)
  }

  lemma {:induction false} CountsAtFirst(f: Flow, bridges: seq<Found>)
    requires bridges != []
    ensures StartAuthentication(f, bridges).state.Authenticating? && Counts(StartAuthentication(f, bridges), bridges, [])
  {
    NothingTried(bridges);
  }

  lemma {:induction false} FailuresLast(answers: seq<Answer>)
    requires answers != []
    ensures var before, a := answers[..|answers| - 1], answers[|answers| - 1];
            forall r :: Failures(answers, r)
                     == Failures(before, r) + (if a.found.ref == r && !a.found.bridge.validIp then 1 else 0)
  {
  }

  /** One more event, whatever it is. */
  lemma {:induction false} CountsOneMore(f: Flow, bridges: seq<Found>, cfg: Config, before: seq<Answer>, input: Input)
    requires f.state.Authenticating? && Counts(f, bridges, before)
    ensures var g := Step(f, input.event, cfg, input.env);
            Counts(g, bridges, if input.event.AuthenticationCompleted? then before + [Answer(input.event.found, input.env)] else before)
  {
    hide Step;
    hide Failures;
    hide DoAuthenticationCompleted;
    if input.event.AuthenticationCompleted? {
      var a := Answer(input.event.found, input.env);
      assert (before + [a])[..|before|] == before;
      ReportStep(f, input.event, cfg, input.env);
      AnyReport(f, a);
      FailuresLast(before + [a]);
      hide Tries;
    } else {
      OtherEvents(f, input.event, cfg, input.env);
    }
  }

  /** From the beginning of a round on, as long as the flow authenticates, whatever is dispatched: the counter is the
      number of bridges of the round less the reports that were a fourth or later failure of their bridge. */
  lemma {:induction false} CounterForAnyReports(f: Flow, bridges: seq<Found>, cfg: Config, inputs: seq<Input>)
    requires bridges != [] && Lasts(StartAuthentication(f, bridges), cfg, inputs)
    ensures Counts(Run(StartAuthentication(f, bridges), cfg, inputs), bridges, Reported(inputs))
  {
    hide StartAuthentication;
    hide Step;
    hide Counts;
    hide Reported;
    if inputs == [] {
      NothingReported();
      CountsAtFirst(f, bridges);
    } else {
      var before := inputs[..|inputs| - 1];
      CounterForAnyReports(f, bridges, cfg, before);
      ReportedLast(inputs);
      CountsOneMore(Run(StartAuthentication(f, bridges), cfg, before), bridges, cfg, Reported(before), inputs[|inputs| - 1]);
    }
  }

  /** The flow falls back to searching exactly with the report that makes these as many as the round has bridges; it
      goes on to retrieving exactly with an authorized bridge that this report does not give up. */
  lemma {:induction false} FallbackForAnyReports(f: Flow, bridges: seq<Found>, cfg: Config, inputs: seq<Input>)
    requires bridges != [] && inputs != [] && Lasts(StartAuthentication(f, bridges), cfg, inputs)
    ensures var g := Run(StartAuthentication(f, bridges), cfg, inputs);
            var answers, last := Reported(inputs), inputs[|inputs| - 1].event;
            && (g.state.SearchingFirst? <==> GivenUps(answers) == |bridges|)
            && (g.state.Retrieving? <==> last.AuthenticationCompleted? && last.found.bridge.authorized && !GivesUp(answers))
            && (g.state.Idle? <==> last.Abort? || last.SavingCompleted?)
            && (g.state.Authenticating? || g.state.SearchingFirst? || g.state.Retrieving? || g.state.Idle?)
  {
    hide StartAuthentication;
    hide Step;
    hide Reported;
    var before, last := inputs[..|inputs| - 1], inputs[|inputs| - 1];
    var g := Run(StartAuthentication(f, bridges), cfg, before);
    CounterForAnyReports(f, bridges, cfg, before);
    ReportedLast(inputs);
    FallbackOneMore(g, bridges, cfg, Reported(before), last);
    hide Counts;
    hide GivesUp;
    hide GivenUps;
    hide Run;
    assert Run(StartAuthentication(f, bridges), cfg, inputs) == Step(g, last.event, cfg, last.env) by {
      RunLast(StartAuthentication(f, bridges), cfg, inputs);
    }
  }

  lemma {:induction false} RunLast(f: Flow, cfg: Config, inputs: seq<Input>)
    requires inputs != []
    ensures var last := inputs[|inputs| - 1];
            Run(f, cfg, inputs) == Step(Run(f, cfg, inputs[..|inputs| - 1]), last.event, cfg, last.env)
  {
    hide Step;
  }

  lemma {:induction false} FallbackOneMore(f: Flow, bridges: seq<Found>, cfg: Config, before: seq<Answer>, input: Input)
    requires f.state.Authenticating? && Counts(f, bridges, before)
    ensures var g, last := Step(f, input.event, cfg, input.env), input.event;
            var answers := if last.AuthenticationCompleted? then before + [Answer(last.found, input.env)] else before;
            && (g.state.SearchingFirst? <==> GivenUps(answers) == |bridges|)
            && (g.state.Retrieving? <==> last.AuthenticationCompleted? && last.found.bridge.authorized && !GivesUp(answers))
            && (g.state.Idle? <==> last.Abort? || last.SavingCompleted?)
            && (g.state.Authenticating? || g.state.SearchingFirst? || g.state.Retrieving? || g.state.Idle?)
  {
    hide Step;
    hide Failures;
    hide DoAuthenticationCompleted;
    if input.event.AuthenticationCompleted? {
      var a := Answer(input.event.found, input.env);
      assert (before + [a])[..|before|] == before;
      ReportStep(f, input.event, cfg, input.env);
      AnyReport(f, a);
      FailuresLast(before + [a]);
      hide Tries;
    } else {
      OtherEvents(f, input.event, cfg, input.env);
    }
  }

  // ---------------------------------------------------------------- when the counter counts the live bridges

  /** A report that takes from the counter although no bridge of the round is given up by it. */
  predicate TakesTooMuch(refs: set<nat>, answers: seq<Answer>) {
    GivesUp(answers) &&
    var ref := answers[|answers| - 1].found.ref;
    ref in refs ==> Failures(answers, ref) > PUSHLINK_INVALID_IP_MAX_RETRIES + 1
  }

  function Surplus(refs: set<nat>, answers: seq<Answer>): nat {
    if answers == [] then 0
    else Surplus(refs, answers[..|answers| - 1]) + if TakesTooMuch(refs, answers) then 1 else 0
  }

  lemma {:induction false} LiveLast(refs: set<nat>, answers: seq<Answer>)
    requires answers != []
    ensures var before, ref := answers[..|answers| - 1], answers[|answers| - 1].found.ref;
            Live(refs, answers) == if GivesUp(answers) && !TakesTooMuch(refs, answers) then Live(refs, before) - {ref} else Live(refs, before)
    ensures GivesUp(answers) && !TakesTooMuch(refs, answers) ==> answers[|answers| - 1].found.ref in Live(refs, answers[..|answers| - 1])
  {
    FailuresLast(answers);
    hide Failures;
  }

  /** Each report that takes from the counter gives up a bridge of the round, or takes too much. */
  lemma {:induction false} GivenUpsAre(refs: set<nat>, answers: seq<Answer>)
    ensures GivenUps(answers) + |Live(refs, answers)| == |refs| + Surplus(refs, answers)
  {
    if answers == [] {
      assert Live(refs, answers) == refs;
    } else {
      GivenUpsAre(refs, answers[..|answers| - 1]);
      LiveLast(refs, answers);
      hide Live;
      hide GivesUp;
      hide TakesTooMuch;
      TakesFromGivesUp(refs, answers);
    }
  }

  lemma {:induction false} TakesFromGivesUp(refs: set<nat>, answers: seq<Answer>)
    requires answers != []
    ensures TakesTooMuch(refs, answers) ==> GivesUp(answers)
  {
  }

  /** No bridge outside the round has failed more than three times, and none of the round more than four times. */
  ghost predicate FewFailures(refs: set<nat>, answers: seq<Answer>) {
    forall r :: Failures(answers, r) <= if r in refs then PUSHLINK_INVALID_IP_MAX_RETRIES + 1 else PUSHLINK_INVALID_IP_MAX_RETRIES
  }

  lemma {:induction false} NoSurplusWhen(refs: set<nat>, answers: seq<Answer>)
    ensures Surplus(refs, answers) == 0 <==> FewFailures(refs, answers)
  {
    if answers != [] {
      NoSurplusWhen(refs, answers[..|answers| - 1]);
      FewFailuresLast(refs, answers);
      hide FewFailures;
      hide TakesTooMuch;
    }
  }

  lemma {:induction false} FewFailuresLast(refs: set<nat>, answers: seq<Answer>)
    requires answers != []
    ensures FewFailures(refs, answers) <==> FewFailures(refs, answers[..|answers| - 1]) && !TakesTooMuch(refs, answers)
  {
    FailuresLast(answers);
    hide Failures;
    var a := answers[|answers| - 1];
    var before := answers[..|answers| - 1];
    if FewFailures(refs, answers) {
      forall r ensures Failures(before, r) <= if r in refs then PUSHLINK_INVALID_IP_MAX_RETRIES + 1 else PUSHLINK_INVALID_IP_MAX_RETRIES {
        assert Failures(before, r) <= Failures(answers, r);
      }
      assert Failures(answers, a.found.ref) <= PUSHLINK_INVALID_IP_MAX_RETRIES + 1;
    }
  }

  /** The counter is the number of bridges of the round with at most three failures exactly when no bridge outside
      the round has failed more than three times and no bridge of the round more than four times. */
  lemma {:induction false} CounterIsLiveExactlyWhen(f: Flow, bridges: seq<Found>, cfg: Config, inputs: seq<Input>)
    requires bridges != [] && DistinctRefs(bridges)
    requires Lasts(StartAuthentication(f, bridges), cfg, inputs) && Run(StartAuthentication(f, bridges), cfg, inputs).state.Authenticating?
    ensures Run(StartAuthentication(f, bridges), cfg, inputs).authCount == |Live(RefSet(bridges), Reported(inputs))|
            <==> FewFailures(RefSet(bridges), Reported(inputs))
  {
    hide Run;
    hide Live;
    hide FewFailures;
    hide GivenUps;
    hide Surplus;
    hide StartAuthentication;
    CounterForAnyReports(f, bridges, cfg, inputs);
    GivenUpsAre(RefSet(bridges), Reported(inputs));
    NoSurplusWhen(RefSet(bridges), Reported(inputs));
    AuthTableIsFresh(bridges);
  }

  /** The fallback comes although some bridge of the round is live exactly when the counter was used up by reports
      that took too much; without those it comes exactly when no bridge is live. */
  lemma {:induction false} FallbackTooEarlyExactlyWhen(f: Flow, bridges: seq<Found>, cfg: Config, inputs: seq<Input>)
    requires bridges != [] && DistinctRefs(bridges) && inputs != [] && Lasts(StartAuthentication(f, bridges), cfg, inputs)
    ensures var g, answers := Run(StartAuthentication(f, bridges), cfg, inputs), Reported(inputs);
            && (g.state.SearchingFirst? && Live(RefSet(bridges), answers) != {}
                <==> GivenUps(answers) == |bridges| && !FewFailures(RefSet(bridges), answers))
            && (FewFailures(RefSet(bridges), answers) ==> (g.state.SearchingFirst? <==> Live(RefSet(bridges), answers) == {}))
  {
    hide Run;
    hide Live;
    hide FewFailures;
    hide GivenUps;
    hide GivesUp;
    hide Surplus;
    hide StartAuthentication;
    hide Reported;
    FallbackForAnyReports(f, bridges, cfg, inputs);
    GivenUpsAre(RefSet(bridges), Reported(inputs));
    NoSurplusWhen(RefSet(bridges), Reported(inputs));
    AuthTableIsFresh(bridges);
    var live := Live(RefSet(bridges), Reported(inputs));
    assert |live| == 0 <==> live == {};
  }
}
