/**
 A run in which a bridge of an earlier round uses up the counter of the next one: the first round is aborted while a
 retry is scheduled for its bridge, and the flow gives up on a bridge that has never failed.
 */
module StaleRound {
  import opened Prelude
  import opened BridgeData
  import opened FlowProtocol
  import opened FlowMessages
  import opened FlowSpec
  import opened FlowRuns
  import opened AuthenticationRounds
  import opened AuthenticationCounts
  import opened AuthenticationRuns

  /** A bridge as a search finds it: not known, not authorized. */
  function Discovered(id: string, ip: string): Bridge { NewBridge().(id := id, ip := ip, validIp := true, modelSupported := true) }

  /** Connecting with nothing known: loading, searching and a round with the bridge that is found. */
  ghost predicate Ready(f: Flow) { f.state.Idle? && f.background == [] }

  ghost predicate InRound(f: Flow, ref: nat) {
    f.state.Authenticating? && f.authCount == 1 && f.authInfo == map[ref := AuthInfo(0, 0)] && f.background == []
  }

  lemma {:induction false} Connects(f: Flow, cfg: Config)
    requires Ready(f)
    ensures var g := Step(f, ConnectToBridge, cfg, Inp(ConnectToBridge).env);
            g.state.Loading? && g.request.Connect? && g.background == [] && g.calls == f.calls + [LoadData(ThenSearchOrRetrieve)]
  {
    hide DifferenceMessages;
  }

  lemma {:induction false} Loads(f: Flow, cfg: Config)
    requires f.state.Loading? && f.request.Connect? && f.background == []
    ensures var e := LoadingCompleted(true, [NewBridge()], ThenSearchOrRetrieve);
            var g := Step(f, e, cfg, Inp(e).env);
            && g.state.SearchingFirst? && g.request.Connect? && g.background == [] && g.data == [NewBridge()]
            && g.calls == f.calls + [SearchNew(false)]
  {
    assert NewBridge().IsEmpty();
    assert GetActiveBridge([NewBridge()]) == NewBridge();
  }

  lemma {:induction false} OneIsKept(x: Found)
    requires x.bridge.validIp && x.bridge.modelSupported
    ensures FilterBridges([x]) == [x] && ContainsValidBridge([x])
  {
    assert [x][..0] == [] && FilterBridges([]) == [];
    assert !HasIp([], x.bridge.ip);
    assert [x][0].bridge.modelSupported;
  }

  lemma {:induction false} NothingKnown(found: seq<Bridge>)
    ensures RediscoverKnownBridge([NewBridge()], found) == (false, [NewBridge()])
  {
    assert [NewBridge()][..0] == [];
    assert !NewBridge().IsAuthorizedForStreaming();
    assert LastRefreshed([], found) == None;
  }

  lemma {:induction false} OneAsked(x: Found)
    ensures AuthTable([x]) == map[x.ref := AuthInfo(0, 0)] && Refs([x]) == [Authenticate(x.ref)]
  {
    assert [x][..0] == [];
  }

  lemma {:induction false} Finds(f: Flow, cfg: Config, x: Found)
    requires f.state.SearchingFirst? && f.request.Connect? && f.background == [] && f.data == [NewBridge()]
    requires x.bridge.validIp && x.bridge.modelSupported
    ensures var g := Step(f, SearchCompleted([x]), cfg, Inp(SearchCompleted([x])).env);
            InRound(g, x.ref) && g.calls == f.calls + [StartScheduler] + [Authenticate(x.ref)]
  {
    hide *;
    OneIsKept(x);
    SearchStep(f, cfg, [x]);
    SearchFinds(f, [x]);
    FoundIsNew(f, x);
  }

  lemma {:induction false} SearchStep(f: Flow, cfg: Config, found: seq<Found>)
    ensures Step(f, SearchCompleted(found), cfg, Inp(SearchCompleted(found)).env) == DoSearchCompleted(f, found)
  {
    hide DoSearchCompleted;
  }

  lemma {:induction false} SearchFinds(f: Flow, found: seq<Found>)
    requires f.state.SearchingFirst? && found != [] && FilterBridges(found) == found && ContainsValidBridge(found)
    ensures DoSearchCompleted(f, found) == ValidFound(f, found)
  {
    hide ValidFound;
    hide InvalidFound;
    hide NothingFound;
    hide FilterBridges;
    hide ContainsValidBridge;
  }

  lemma {:induction false} FoundIsNew(f: Flow, x: Found)
    requires f.request.Connect? && f.background == [] && f.data == [NewBridge()]
    ensures InRound(ValidFound(f, [x]), x.ref) && ValidFound(f, [x]).calls == f.calls + [StartScheduler] + [Authenticate(x.ref)]
  {
    OneAsked(x);
    NothingKnown(Bridges([x]));
    hide RediscoverKnownBridge;
    hide AuthTable;
    hide Refs;
    hide Bridges;
    hide Finish;
    hide StartRetrieveSmallConfig;
  }

  lemma {:induction false} Aborts(f: Flow, cfg: Config)
    requires f.state.Authenticating? && f.background == []
    ensures Ready(Step(f, Abort, cfg, Inp(Abort).env)) && Step(f, Abort, cfg, Inp(Abort).env).calls == f.calls
  {
    hide DifferenceMessages;
    hide SetActiveBridge;
  }

  // ---------------------------------------------------------------- what was asked and answered

  /** Answers, retries that fired, requests and scheduled retries of the two bridges. */
  datatype Tally = Tally(answers1: nat, answers2: nat, fired1: nat, asks1: nat, asks2: nat, retries1: nat)

  function TallyOf(inputs: seq<Input>, calls: seq<Call>): Tally {
    Tally(Answers(inputs, 1), Answers(inputs, 2), Fired(inputs, 1), Asks(calls, 1), Asks(calls, 2), Retries(calls, 1))
  }

  /** The inputs can happen, and this is the tally after them. */
  ghost predicate Stands(cfg: Config, inputs: seq<Input>, t: Tally) {
    Happens([], Initial(), cfg, inputs) && TallyOf(inputs, Run(Initial(), cfg, inputs).calls) == t
  }

  function Handed(t: Tally, e: Event): Tally {
    match e
    case AuthenticationCompleted(found) =>
      if found.ref == 1 then t.(answers1 := t.answers1 + 1) else if found.ref == 2 then t.(answers2 := t.answers2 + 1) else t
    case PushLink(ref) => if ref == 1 then t.(fired1 := t.fired1 + 1) else t
    case _ => t
  }

  function Issued(t: Tally, c: Call): Tally {
    match c
    case Authenticate(ref) => if ref == 1 then t.(asks1 := t.asks1 + 1) else if ref == 2 then t.(asks2 := t.asks2 + 1) else t
    case ScheduleRetry(_, ref) => if ref == 1 then t.(retries1 := t.retries1 + 1) else t
    case _ => t
  }

  function AllIssued(t: Tally, calls: seq<Call>): Tally {
    if calls == [] then t else Issued(AllIssued(t, calls[..|calls| - 1]), calls[|calls| - 1])
  }

  /** An answer needs a request, and a firing a scheduled retry. */
  predicate MayCome(t: Tally, e: Event) {
    match e
    case AuthenticationCompleted(found) => (found.ref == 1 && t.answers1 < t.asks1) || (found.ref == 2 && t.answers2 < t.asks2)
    case PushLink(ref) => ref == 1 && t.fired1 < t.retries1
    case _ => true
  }

  lemma {:induction false} CallsTallied(inputs: seq<Input>, calls: seq<Call>, more: seq<Call>)
    ensures TallyOf(inputs, calls + more) == AllIssued(TallyOf(inputs, calls), more)
  {
    if more == [] {
      assert calls + more == calls;
    } else {
      var front, last := more[..|more| - 1], more[|more| - 1];
      CallsTallied(inputs, calls, front);
      OneMoreCall(calls + front, last, 1);
      OneMoreCall(calls + front, last, 2);
      assert calls + more == calls + front + [last];
    }
  }

  /** One more event, and the calls it makes. */
  lemma {:induction false} StandsOn(cfg: Config, inputs: seq<Input>, t: Tally, e: Event, more: seq<Call>)
    requires Stands(cfg, inputs, t) && MayCome(t, e)
    requires var f := Run(Initial(), cfg, inputs); Step(f, e, cfg, Inp(e).env).calls == f.calls + more
    ensures Stands(cfg, inputs + [Inp(e)], AllIssued(Handed(t, e), more))
  {
    hide Step;
    hide Initial;
    var f, all := Run(Initial(), cfg, inputs), inputs + [Inp(e)];
    assert all[..|inputs|] == inputs;
    RunOneMore(Initial(), cfg, inputs, e);
    CallsTallied(all, f.calls, more);
    hide Run;
    hide Asks;
    hide Retries;
    hide AllIssued;
    NothingAsked();
  }

  lemma {:induction false} NothingAsked()
    ensures forall ref :: Asks([], ref) == 0 && Retries([], ref) == 0
  {
  }

  // ---------------------------------------------------------------- the run

  /** The three actions that begin a round with one bridge. */
  function RoundWith(x: Found): seq<Input> {
    [Inp(ConnectToBridge), Inp(LoadingCompleted(true, [NewBridge()], ThenSearchOrRetrieve)), Inp(SearchCompleted([x]))]
  }

  lemma {:induction false} RoundBegins(cfg: Config, before: seq<Input>, x: Found, t: Tally)
    requires Ready(Run(Initial(), cfg, before)) && x.bridge.validIp && x.bridge.modelSupported && Stands(cfg, before, t)
    ensures InRound(Run(Initial(), cfg, before + RoundWith(x)), x.ref)
    ensures Stands(cfg, before + RoundWith(x), Issued(t, Authenticate(x.ref)))
  {
    hide Run;
    hide Step;
    hide Inp;
    hide Stands;
    hide Initial;
    var a, b, c := ConnectToBridge, LoadingCompleted(true, [NewBridge()], ThenSearchOrRetrieve), SearchCompleted([x]);
    var one := before + [Inp(a)];
    var two := one + [Inp(b)];
    assert before + RoundWith(x) == two + [Inp(c)];
    RunOneMore(Initial(), cfg, before, a);
    Connects(Run(Initial(), cfg, before), cfg);
    StandsOn(cfg, before, t, a, [LoadData(ThenSearchOrRetrieve)]);
    RunOneMore(Initial(), cfg, one, b);
    Loads(Run(Initial(), cfg, one), cfg);
    StandsOn(cfg, one, t, b, [SearchNew(false)]);
    RunOneMore(Initial(), cfg, two, c);
    Finds(Run(Initial(), cfg, two), cfg, x);
    var f := Run(Initial(), cfg, two);
    assert f.calls + [StartScheduler] + [Authenticate(x.ref)] == f.calls + [StartScheduler, Authenticate(x.ref)];
    assert [StartScheduler, Authenticate(x.ref)][..1] == [StartScheduler];
    StandsOn(cfg, two, t, c, [StartScheduler, Authenticate(x.ref)]);
  }

  /** A round with bridge 2, in which bridge 1 has failed n times. */
  ghost predicate Stale(f: Flow, n: nat) {
    && f.state.Authenticating? && f.authCount == 1 && 2 in f.authInfo && f.authInfo[2].failedTries == 0
    && Tries(f, 1) == n
  }

  /** A bridge that is found but not authorized yet is asked again. */
  lemma {:induction false} Waits(f: Flow, x: Found, env: Env)
    requires InRound(f, x.ref) && x.bridge.validIp && !x.bridge.authorized
    ensures DoAuthenticationCompleted(f, x, env) == Do(f, ScheduleRetry(0, x.ref))
  {
  }

  lemma {:induction false} WaitsAgain(f: Flow, x: Found, env: Env)
    requires Stale(f, 0) && x.ref == 2 && x.bridge.validIp && !x.bridge.authorized
    ensures var g := DoAuthenticationCompleted(f, x, env);
            Stale(g, 0) && g.calls == f.calls + [ScheduleRetry(f.authInfo[2].bridgeNumber, 2)]
  {
  }

  /** Bridge 1 fails: it is asked again three times, and ends the round with the fourth. */
  lemma {:induction false} Fails(f: Flow, x: Found, env: Env, n: nat)
    requires Stale(f, n) && n <= 3 && x.ref == 1 && !x.bridge.validIp && !x.bridge.authorized
    ensures var g := DoAuthenticationCompleted(f, x, env);
            && (n < 3 ==> Stale(g, n + 1) && exists k :: g.calls == f.calls + [ScheduleRetry(k, 1)])
            && (n == 3 ==> g.state.SearchingFirst? && 2 in g.authInfo && g.authInfo[2].failedTries == 0
                           && g.calls == f.calls + [SearchNew(false)] + [StopScheduler])
  {
    var k := if 1 in f.authInfo then f.authInfo[1].bridgeNumber else -1;
    if n < 3 {
      assert DoAuthenticationCompleted(f, x, env).calls == f.calls + [ScheduleRetry(k, 1)];
    }
  }

  /** The retry fires, and bridge 1 answers that it has failed. */
  lemma {:induction false} FailsOnceMore(cfg: Config, inputs: seq<Input>, x: Found, n: nat, t: Tally)
    requires Stale(Run(Initial(), cfg, inputs), n) && n < 3 && x.ref == 1 && !x.bridge.validIp && !x.bridge.authorized
    requires Stands(cfg, inputs, t) && t.answers1 < t.asks1 && t.fired1 <= t.retries1
    ensures var more := inputs + [Inp(AuthenticationCompleted(x))] + [Inp(PushLink(1))];
            && Stale(Run(Initial(), cfg, more), n + 1)
            && Stands(cfg, more, t.(answers1 := t.answers1 + 1, retries1 := t.retries1 + 1, fired1 := t.fired1 + 1, asks1 := t.asks1 + 1))
  {
    hide Run;
    hide Step;
    hide DoAuthenticationCompleted;
    hide Stale;
    hide Stands;
    hide Initial;
    var e, f := AuthenticationCompleted(x), Run(Initial(), cfg, inputs);
    var one := inputs + [Inp(e)];
    ReportStep(f, e, cfg, Inp(e).env);
    Fails(f, x, Inp(e).env, n);
    RunOneMore(Initial(), cfg, inputs, e);
    var g := Run(Initial(), cfg, one);
    var k :| g.calls == f.calls + [ScheduleRetry(k, 1)];
    StandsOn(cfg, inputs, t, e, [ScheduleRetry(k, 1)]);
    Pushed(cfg, one, n + 1, t.(answers1 := t.answers1 + 1, retries1 := t.retries1 + 1));
  }

  lemma {:induction false} Pushed(cfg: Config, inputs: seq<Input>, n: nat, t: Tally)
    requires Stale(Run(Initial(), cfg, inputs), n) && Stands(cfg, inputs, t) && t.fired1 < t.retries1
    ensures var more := inputs + [Inp(PushLink(1))];
            Stale(Run(Initial(), cfg, more), n) && Stands(cfg, more, t.(fired1 := t.fired1 + 1, asks1 := t.asks1 + 1))
  {
    hide Run;
    hide Step;
    hide Stands;
    hide Initial;
    var e, f := PushLink(1), Run(Initial(), cfg, inputs);
    PushLinkStep(f, cfg, Inp(e).env, 1);
    RunOneMore(Initial(), cfg, inputs, e);
    StandsOn(cfg, inputs, t, e, [Authenticate(1)]);
  }

  lemma {:induction false} PushLinkStep(f: Flow, cfg: Config, env: Env, ref: nat)
    ensures Step(f, PushLink(ref), cfg, env) == Do(f, Authenticate(ref))
  {
  }

  /** The first round: bridge 1 is asked, answers that it is not authorized yet, and the user aborts; the retry is
      left.  The second round: bridge 2 is asked, the retry fires, and bridge 2 answers that it is not authorized yet. */
  lemma {:induction false} TwoRounds(cfg: Config, a: Found, b: Found) returns (inputs: seq<Input>)
    requires a == Found(1, Discovered("a", "10.0.0.1")) && b == Found(2, Discovered("b", "10.0.0.2"))
    ensures inputs == [] + RoundWith(a) + [Inp(AuthenticationCompleted(a))] + [Inp(Abort)] + RoundWith(b)
                      + [Inp(PushLink(1))] + [Inp(AuthenticationCompleted(b))]
    ensures Stale(Run(Initial(), cfg, inputs), 0) && Stands(cfg, inputs, Tally(1, 1, 1, 2, 1, 1))
  {
    hide Run;
    hide Step;
    hide DoAuthenticationCompleted;
    hide Stands;
    hide Initial;
    hide Discovered;
    DiscoveredIs();
    StartIsReady(cfg);
    RoundBegins(cfg, [], a, Tally(0, 0, 0, 0, 0, 0));
    var first := [] + RoundWith(a);
    var answered := FirstRoundEnds(cfg, first, a);
    RoundBegins(cfg, answered, b, Tally(1, 0, 0, 1, 0, 1));
    var second := answered + RoundWith(b);
    StaleBegins(Run(Initial(), cfg, second));
    Pushed(cfg, second, 0, Tally(1, 0, 0, 1, 1, 1));
    var pushed := second + [Inp(PushLink(1))];
    inputs := pushed + [Inp(AuthenticationCompleted(b))];
    var f, e := Run(Initial(), cfg, pushed), AuthenticationCompleted(b);
    ReportStep(f, e, cfg, Inp(e).env);
    WaitsAgain(f, b, Inp(e).env);
    RunOneMore(Initial(), cfg, pushed, e);
    StandsOn(cfg, pushed, Tally(1, 0, 1, 2, 1, 1), e, [ScheduleRetry(f.authInfo[2].bridgeNumber, 2)]);
  }

  lemma {:induction false} FirstRoundEnds(cfg: Config, inputs: seq<Input>, a: Found) returns (more: seq<Input>)
    requires InRound(Run(Initial(), cfg, inputs), 1) && Stands(cfg, inputs, Tally(0, 0, 0, 1, 0, 0))
    requires a.ref == 1 && a.bridge.validIp && !a.bridge.authorized
    ensures more == inputs + [Inp(AuthenticationCompleted(a))] + [Inp(Abort)]
    ensures Ready(Run(Initial(), cfg, more)) && Stands(cfg, more, Tally(1, 0, 0, 1, 0, 1))
  {
    hide Run;
    hide Step;
    hide DoAuthenticationCompleted;
    hide Stands;
    hide Initial;
    var e, f := AuthenticationCompleted(a), Run(Initial(), cfg, inputs);
    var one := inputs + [Inp(e)];
    more := one + [Inp(Abort)];
    ReportStep(f, e, cfg, Inp(e).env);
    Waits(f, a, Inp(e).env);
    RunOneMore(Initial(), cfg, inputs, e);
    StandsOn(cfg, inputs, Tally(0, 0, 0, 1, 0, 0), e, [ScheduleRetry(0, 1)]);
    var g := Run(Initial(), cfg, one);
    Aborts(g, cfg);
    RunOneMore(Initial(), cfg, one, Abort);
    assert g.calls + [] == g.calls;
    StandsOn(cfg, one, Tally(1, 0, 0, 1, 0, 1), Abort, []);
  }

  lemma {:induction false} DiscoveredIs()
    ensures forall id, ip :: Discovered(id, ip).validIp && Discovered(id, ip).modelSupported && !Discovered(id, ip).authorized
  {
  }

  lemma {:induction false} StaleBegins(f: Flow)
    requires InRound(f, 2)
    ensures Stale(f, 0)
  {
  }

  lemma {:induction false} StartIsReady(cfg: Config)
    ensures Ready(Run(Initial(), cfg, [])) && Stands(cfg, [], Tally(0, 0, 0, 0, 0, 0))
  {
  }

  /** From the start, with each answer and each retry in its place: a round with bridge 1, which is not authorized yet;
      abort; a round with bridge 2, which is not authorized yet either, while bridge 1 is still asked and fails four
      times.  The flow searches again although the only bridge of the round has never failed. */
  lemma {:induction false} StaleBridgeEndsTheRound(cfg: Config) returns (inputs: seq<Input>)
    ensures |inputs| == 17 && LegalRun(inputs) && Happens([], Initial(), cfg, inputs)
    ensures var f := Run(Initial(), cfg, inputs);
            f.state.SearchingFirst? && 2 in f.authInfo && f.authInfo[2].failedTries == 0
  {
    hide Run;
    hide Step;
    hide DoAuthenticationCompleted;
    hide Stale;
    hide Initial;
    hide Happens;
    hide TallyOf;
    hide Discovered;
    var a, b := Found(1, Discovered("a", "10.0.0.1")), Found(2, Discovered("b", "10.0.0.2"));
    var x := Found(1, Discovered("a", "10.0.0.1").(validIp := false));
    DiscoveredIs();
    var e := AuthenticationCompleted(x);
    var i0 := TwoRounds(cfg, a, b);
    FailsOnceMore(cfg, i0, x, 0, Tally(1, 1, 1, 2, 1, 1));
    var i1 := i0 + [Inp(e)] + [Inp(PushLink(1))];
    FailsOnceMore(cfg, i1, x, 1, Tally(2, 1, 2, 3, 1, 2));
    var i2 := i1 + [Inp(e)] + [Inp(PushLink(1))];
    FailsOnceMore(cfg, i2, x, 2, Tally(3, 1, 3, 4, 1, 3));
    var i3 := i2 + [Inp(e)] + [Inp(PushLink(1))];
    inputs := i3 + [Inp(e)];
    var f := Run(Initial(), cfg, i3);
    ReportStep(f, e, cfg, Inp(e).env);
    Fails(f, x, Inp(e).env, 3);
    RunOneMore(Initial(), cfg, i3, e);
    assert f.calls + [SearchNew(false)] + [StopScheduler] == f.calls + [SearchNew(false), StopScheduler];
    StandsOn(cfg, i3, Tally(4, 1, 4, 5, 1, 4), e, [SearchNew(false), StopScheduler]);
  }
}
