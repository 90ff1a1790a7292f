/**
 What the takeover policy guarantees against every bridge, whatever it replies.
 */
module TakeoverProofs {
  import opened Prelude
  import opened BridgeData
  import opened TakeoverPolicy

  lemma {:induction false} PutIs(t: Talk, script: Script, r: Request)
    ensures var (ok, u) := Put(t, script, r);
            && u.sent == t.sent + [r] && SameSession(t.bridge, u.bridge)
            && (ok <==> Accepts(t.bridge.IsSupportingClipV2(), script(|t.sent|)))
            && (ok ==> !u.bridge.busy)
  {
    hide Checked;
    hide Accepts;
    CheckedIsExact(t.bridge, script(|t.sent|));
  }

  lemma {:induction false} DeactivatedIs(t: Talk, script: Script, id: string)
    ensures var u := Deactivated(t, script, id).1;
            u.sent == t.sent + [Request(id, false)] && SameSession(t.bridge, u.bridge)
  {
    PutIs(t, script, Request(id, false));
  }

  // ---------------------------------------------------------------- which requests are sent

  function StopFirst(b: Bridge, level: Override): seq<Request>
    requires !MissesGroupAtOnce(b, level)
  {
    if b.IsSupportingClipV2() && HasOtherOwner(b) && MayStop(b, level) then [Request(FirstOther(b).id, false)] else []
  }

  lemma {:induction false} PreparedIs(t: Talk, script: Script, level: Override)
    requires !MissesGroupAtOnce(t.bridge, level)
    ensures var u := Prepared(t, script, level);
            u.sent == t.sent + StopFirst(t.bridge, level) && SameSession(t.bridge, u.bridge)
  {
    hide Deactivated;
    if t.bridge.IsSupportingClipV2() && HasOtherOwner(t.bridge) && MayStop(t.bridge, level) {
      DeactivatedIs(t, script, FirstOther(t.bridge).id);
    }
  }

  function StopOther(b: Bridge, level: Override): seq<Request> {
    if level.Always? && HasOtherOwner(b) then [Request(FirstOther(b).id, false)] else []
  }

  lemma {:induction false} OtherStoppedIs(t: Talk, script: Script, level: Override)
    ensures var u := OtherStopped(t, script, level);
            u.sent == t.sent + StopOther(t.bridge, level) && SameSession(t.bridge, u.bridge)
  {
    hide Deactivated;
    if level.Always? && HasOtherOwner(t.bridge) {
      DeactivatedIs(t, script, FirstOther(t.bridge).id);
    }
  }

  lemma {:induction false} RetriedIs(t: Talk, script: Script, level: Override)
    ensures var (ok, u) := Retried(t, script, level);
            var g := t.bridge.selectedGroup;
            && u.sent == t.sent + StopOther(t.bridge, level) + [Request(g, false), Request(g, true)]
            && SameSession(t.bridge, u.bridge)
            && (ok <==> Accepts(t.bridge.IsSupportingClipV2(), script(|u.sent| - 1)))
            && (ok ==> !u.bridge.busy)
  {
    hide OtherStopped;
    hide Put;
    OtherStoppedIs(t, script, level);
    var o := OtherStopped(t, script, level);
    PutIs(o, script, Request(o.bridge.selectedGroup, false));
    var p := Execute(o, script, false).1;
    PutIs(p, script, Request(p.bridge.selectedGroup, true));
  }

  /** The start request, and after a refusal by a busy bridge the retry, unless taking over is not allowed. */
  lemma {:induction false} TriedIs(t: Talk, script: Script, level: Override)
    ensures var (ok, u) := Tried(t, script, level);
            var (_, first) := Execute(t, script, true);
            var g := t.bridge.selectedGroup;
            && (u.sent == t.sent + [Request(g, true)] ||
                (!level.Never? && u.sent == t.sent + [Request(g, true)] + StopOther(first.bridge, level) + [Request(g, false), Request(g, true)]))
            && SameSession(t.bridge, u.bridge)
            && (ok <==> Accepts(t.bridge.IsSupportingClipV2(), script(|u.sent| - 1)))
            && (ok ==> !u.bridge.busy)
  {
    hide Retried;
    hide Put;
    PutIs(t, script, Request(t.bridge.selectedGroup, true));
    RetriedIs(Execute(t, script, true).1, script, level);
  }

  /** All requests of a start: perhaps a stop, the start, and perhaps a retry. */
  lemma {:induction false} RequestsAre(t: Talk, script: Script, level: Override) returns (retry: seq<Request>)
    requires !MissesGroupAtOnce(t.bridge, level)
    ensures StartStream(t, script, level).1.sent
         == t.sent + (StopFirst(t.bridge, level) + [Request(t.bridge.selectedGroup, true)] + retry)
    ensures IsRetry(retry, t.bridge.selectedGroup, level)
  {
    var p := Prepared(t, script, level);
    PreparedIs(t, script, level);
    TriedIs(p, script, level);
    hide Tried;
    hide Prepared;
    hide Put;
    hide StopOther;
    hide Accepts;
    var g, u := t.bridge.selectedGroup, Tried(p, script, level).1;
    var busy := Execute(p, script, true).1.bridge;
    retry := if u.sent == p.sent + [Request(g, true)] then [] else StopOther(busy, level) + [Request(g, false), Request(g, true)];
    RetryIs(busy, g, level);
    Join(t.sent, StopFirst(t.bridge, level), [Request(g, true)], retry);
    if retry != [] {
      Join(p.sent, [Request(g, true)], StopOther(busy, level), [Request(g, false), Request(g, true)]);
    }
  }

  lemma {:induction false} Join(a: seq<Request>, b: seq<Request>, c: seq<Request>, d: seq<Request>)
    ensures a + b + c + d == a + (b + c + d) && a + b + c + d == a + b + (c + d) && a + b + [] == a + b
  {
  }

  ghost predicate IsRetry(retry: seq<Request>, group: string, level: Override) {
    retry != [] ==>
      && !level.Never? && 2 <= |retry| <= 3
      && retry[|retry| - 2] == Request(group, false) && retry[|retry| - 1] == Request(group, true)
      && (|retry| == 3 ==> level.Always? && !retry[0].activate)
  }

  lemma {:induction false} RetryIs(b: Bridge, group: string, level: Override)
    ensures !level.Never? ==> IsRetry(StopOther(b, level) + [Request(group, false), Request(group, true)], group, level)
  {
  }

  /** Never sends one request and stops nobody; the same-group level stops only the selected group; only the
      level that always overrides may stop another group; and five requests are the most. */
  lemma {:induction false} RequestPolicy(t: Talk, script: Script, level: Override) returns (news: seq<Request>)
    ensures StartStream(t, script, level).1.sent == t.sent + news && |news| <= 5
    ensures level.Never? ==> news == [Request(t.bridge.selectedGroup, true)]
    ensures !level.Always? ==> forall r :: r in news ==> r.group == t.bridge.selectedGroup
    ensures forall r :: r in news && r.activate ==> r.group == t.bridge.selectedGroup
    ensures news != [] ==> news[|news| - 1] == Request(t.bridge.selectedGroup, true)
  {
    hide *;
    if MissesGroupAtOnce(t.bridge, level) {
      news := [];
      NothingSent(t, script, level);
    } else {
      var retry := RequestsAre(t, script, level);
      StopsOnlySelected(t.bridge, level);
      news := StopFirst(t.bridge, level) + [Request(t.bridge.selectedGroup, true)] + retry;
      PolicyHolds(StopFirst(t.bridge, level), t.bridge.selectedGroup, retry, level);
    }
  }

  lemma {:induction false} NothingSent(t: Talk, script: Script, level: Override)
    requires MissesGroupAtOnce(t.bridge, level)
    ensures StartStream(t, script, level).1.sent == t.sent + [] && !level.Never?
  {
    hide Bridge.GetGroup;
  }

  lemma {:induction false} PolicyHolds(first: seq<Request>, group: string, retry: seq<Request>, level: Override)
    requires |first| <= 1 && (level.Never? ==> first == []) && (forall r :: r in first ==> !r.activate)
    requires !level.Always? ==> forall r :: r in first ==> r == Request(group, false)
    requires IsRetry(retry, group, level)
    ensures var news := first + [Request(group, true)] + retry;
            && |news| <= 5
            && (level.Never? ==> news == [Request(group, true)])
            && (!level.Always? ==> forall r :: r in news ==> r.group == group)
            && (forall r :: r in news && r.activate ==> r.group == group)
            && news[|news| - 1] == Request(group, true)
  {
    assert forall r :: r in retry ==> r == retry[|retry| - 2] || r == retry[|retry| - 1] || (|retry| == 3 && r == retry[0]);
    assert level.Never? ==> retry == [];
  }

  lemma {:induction false} StopsOnlySelected(b: Bridge, level: Override)
    requires !MissesGroupAtOnce(b, level)
    ensures !level.Always? ==> forall r :: r in StopFirst(b, level) ==> r == Request(b.selectedGroup, false)
    ensures |StopFirst(b, level)| <= 1 && (level.Never? ==> StopFirst(b, level) == [])
    ensures forall r :: r in StopFirst(b, level) ==> !r.activate
  {
    FirstGroupIsSound(b.groups, b.selectedGroup);
  }

  // ---------------------------------------------------------------- when it has started

  lemma {:induction false} SetFirstKeepsIds(groups: seq<Group>, id: string, active: bool, owner: string, other: string)
    ensures |SetFirst(groups, id, active, owner)| == |groups|
    ensures FirstGroup(SetFirst(groups, id, active, owner), other).Some? == FirstGroup(groups, other).Some?
    ensures FirstGroup(groups, id).Some? ==>
              FirstGroup(SetFirst(groups, id, active, owner), id)
              == Some(FirstGroup(groups, id).value.(active := active, owner := owner))
  {
    if groups != [] {
      SetFirstKeepsIds(groups[1..], id, active, owner, other);
      assert SetFirst(groups, id, active, owner)[1..]
          == if groups[0].id == id then groups[1..] else SetFirst(groups[1..], id, active, owner);
    }
  }

  /** Success means that the last request, a start of the selected group, was accepted; then the bridge is free
      and its selected group belongs to this application. */
  lemma {:induction false} StartedMeans(t: Talk, script: Script, level: Override)
    requires !MissesGroupAtOnce(t.bridge, level)
    ensures var (outcome, u) := StartStream(t, script, level);
            && u.sent != []
            && (outcome.NotStarted? <==> !Accepts(t.bridge.IsSupportingClipV2(), script(|u.sent| - 1)))
            && (outcome.Started? ==> !u.bridge.busy && u.bridge.IsValidGroupSelected() && u.bridge.selectedGroup == t.bridge.selectedGroup
                                     && u.bridge.GetGroup().value.active && u.bridge.GetGroup().value.owner == t.bridge.appId)
  {
    hide Tried;
    hide Prepared;
    hide Finished;
    hide Accepts;
    hide Bridge.GetGroup;
    hide StopFirst;
    hide Put;
    var p := Prepared(t, script, level);
    PreparedIs(t, script, level);
    TriedIs(p, script, level);
    var (ok, u) := Tried(p, script, level);
    FinishedMeans(ok, u, level);
  }

  lemma {:induction false} FinishedMeans(ok: bool, t: Talk, level: Override)
    ensures var (outcome, u) := Finished(ok, t, level);
            && u.sent == t.sent && (outcome.NotStarted? <==> !ok)
            && (outcome.Started? ==> ok && u.bridge.busy == t.bridge.busy && u.bridge.selectedGroup == t.bridge.selectedGroup
                                     && u.bridge.IsValidGroupSelected()
                                     && u.bridge.GetGroup().value.active && u.bridge.GetGroup().value.owner == t.bridge.appId)
  {
    SetFirstKeepsIds(t.bridge.groups, t.bridge.selectedGroup, true, t.bridge.appId, t.bridge.selectedGroup);
    hide FirstGroup;
    hide SetFirst;
  }
}
