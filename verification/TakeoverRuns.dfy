/**
 The starter object over whole runs: starts and stops in any order, whatever the bridge replies.
 */
module TakeoverRuns {
  import opened Prelude
  import opened BridgeData
  import opened TakeoverPolicy
  import opened TakeoverProofs
  import opened TakeoverGroups
  import opened TakeoverStop
  import opened TakeoverExactly
  import opened StreamStarter

  datatype Call = StartAt(level: Override) | StopIt

  function Called(t: Talk, script: Script, c: Call): Talk {
    match c
    case StartAt(level) => StartStream(t, script, level).1
    case StopIt => StopStream(t, script)
  }

  function Run(t: Talk, script: Script, calls: seq<Call>): Talk {
    if calls == [] then t else Called(Run(t, script, calls[..|calls| - 1]), script, calls[|calls| - 1])
  }

  predicate NeverAlways(calls: seq<Call>) { forall i :: 0 <= i < |calls| ==> calls[i] != StartAt(Always) }

  /** What the requests of some calls may be. */
  ghost predicate Polite(news: seq<Request>, group: string, gentle: bool, n: nat) {
    && |news| <= 5 * n
    && (forall r :: r in news && r.activate ==> r.group == group)
    && (gentle ==> forall r :: r in news ==> r.group == group)
  }

  lemma {:induction false} OneCall(t: Talk, script: Script, c: Call) returns (news: seq<Request>)
    ensures var u := Called(t, script, c);
            && u.sent == t.sent + news && u.bridge.selectedGroup == t.bridge.selectedGroup
            && Polite(news, t.bridge.selectedGroup, c != StartAt(Always), 1)
  {
    hide StartStream;
    hide StopStream;
    match c
    case StartAt(level) =>
      news := RequestPolicy(t, script, level);
      StartKeepsSelection(t, script, level);
    case StopIt =>
      StopMeans(t, script);
      news := [Request(t.bridge.selectedGroup, false)];
  }

  lemma {:induction false} StartKeepsSelection(t: Talk, script: Script, level: Override)
    ensures StartStream(t, script, level).1.bridge.selectedGroup == t.bridge.selectedGroup
  {
    hide Tried;
    hide Prepared;
    hide Bridge.GetGroup;
    hide SetFirst;
    if !MissesGroupAtOnce(t.bridge, level) {
      PreparedIs(t, script, level);
      TriedIs(Prepared(t, script, level), script, level);
      hide Put;
      hide Accepts;
      hide StopFirst;
      hide StopOther;
    }
  }

  /** In every run of starts and stops only the selected group is ever activated, and unless a start may always override,
      no request names any other group: the streams of others are left alone. */
  lemma {:induction false} OthersAreLeftAlone(t: Talk, script: Script, calls: seq<Call>) returns (news: seq<Request>)
    ensures var u := Run(t, script, calls);
            && u.sent == t.sent + news && u.bridge.selectedGroup == t.bridge.selectedGroup
            && Polite(news, t.bridge.selectedGroup, NeverAlways(calls), |calls|)
  {
    hide Called;
    if calls == [] {
      news := [];
      assert t.sent + [] == t.sent;
    } else {
      var front, last := calls[..|calls| - 1], calls[|calls| - 1];
      var before := OthersAreLeftAlone(t, script, front);
      var more := OneCall(Run(t, script, front), script, last);
      news := before + more;
      assert t.sent + (before + more) == t.sent + before + more;
    }
  }

  // ---------------------------------------------------------------- the object

  /** One start: the outcome, and what holds of the bridge object then. */
  method StartNow(s: Starter, level: Override) returns (outcome: Outcome)
    modifies s
    ensures (outcome, s.View()) == StartStream(old(s.View()), s.script, level)
    ensures outcome.Started? ==> !s.bridge.busy && s.bridge.IsValidGroupSelected() && s.bridge.selectedGroup == old(s.bridge.selectedGroup)
                                 && s.bridge.GetGroup().value.active && s.bridge.GetGroup().value.owner == old(s.bridge.appId)
    ensures UniqueGroups(old(s.bridge)) ==> (outcome.NoGroup? <==> EndsAtMissingGroup(old(s.View()), s.script, level))
  {
    hide *;
    ghost var t := s.View();
    SeeFields(s);
    if UniqueGroups(s.bridge) {
      EndsAtMissingGroupExactly(t, s.script, level);
    }
    if MissesGroupAtOnce(t.bridge, level) {
      MissesAtOnce(t, s.script, level);
    } else {
      StartedMeans(t, s.script, level);
    }
    outcome := s.StartStream(level);
    SeeFields(s);
  }

  lemma {:induction false} MissesAtOnce(t: Talk, script: Script, level: Override)
    requires MissesGroupAtOnce(t.bridge, level)
    ensures StartStream(t, script, level).0.NoGroup?
  {
    hide Bridge.GetGroup;
  }

  lemma {:induction false} SeeFields(s: Starter)
    ensures s.View().bridge == s.bridge && s.View().sent == s.sent
  {
  }

  /** Any run of calls on a new object. */
  method Lifetime(bridge: Bridge, script: Script, calls: seq<Call>) returns (s: Starter)
    ensures fresh(s) && s.script == script && s.View() == Run(Talk(bridge, []), script, calls)
    ensures |s.sent| <= 5 * |calls|
    ensures forall r :: r in s.sent && r.activate ==> r.group == bridge.selectedGroup
    ensures NeverAlways(calls) ==> forall r :: r in s.sent ==> r.group == bridge.selectedGroup
  {
    hide StartStream;
    hide StopStream;
    ghost var t := Talk(bridge, []);
    s := new Starter(bridge, script);
    for i := 0 to |calls|
      invariant fresh(s) && s.script == script && s.View() == Run(t, script, calls[..i])
    {
      assert calls[..i + 1][..i] == calls[..i];
      match calls[i] {
        case StartAt(level) => var _ := s.StartStream(level);
        case StopIt => s.Stop();
      }
    }
    assert calls[..|calls|] == calls;
    ghost var news := OthersAreLeftAlone(t, script, calls);
    assert [] + news == news;
  }
}
