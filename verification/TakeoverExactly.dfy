/**
 When a start ends at a missing group, told from the bridge, the level and the replies alone.
 */
module TakeoverExactly {
  import opened Prelude
  import opened BridgeData
  import opened TakeoverPolicy
  import opened TakeoverProofs
  import opened TakeoverGroups

  // ---------------------------------------------------------------- reading the replies

  /** A refusal that says the bridge is busy. */
  predicate SaysBusy(v2: bool, reply: Reply) {
    reply.Answer? &&
    if v2 then FirstCode(reply.errors, 0) == Some(V2_IS_BUSY) || FirstCode(reply.errors, 0) == Some(V2_BODY_ERROR)
    else reply.isArray && FirstError(reply.entries, 0) == Error(Some(CANT_ACTIVATE))
  }

  /** Version 2 stops another client beforehand: always, or when it has the selected group. */
  predicate StopsBefore(b: Bridge, level: Override) {
    b.IsSupportingClipV2() && HasOtherOwner(b) &&
    (level.Always? || (level.SameGroup? && FirstOther(b).id == b.selectedGroup))
  }

  /** The number of the reply to the first start request. */
  function StartReply(t: Talk, level: Override): nat { |t.sent| + if StopsBefore(t.bridge, level) then 1 else 0 }

  /** The stop beforehand was granted. */
  ghost predicate StoppedBefore(t: Talk, script: Script, level: Override) {
    StopsBefore(t.bridge, level) && Accepts(true, script(|t.sent|))
  }

  /** After a refused start the bridge counts as busy: the refusal says so, or it was busy and no stop was granted. */
  ghost predicate BusyAfterRefusal(t: Talk, script: Script, level: Override) {
    var v2 := t.bridge.IsSupportingClipV2();
    || SaysBusy(v2, script(StartReply(t, level)))
    || (!StoppedBefore(t, script, level) && (t.bridge.busy || (StopsBefore(t.bridge, level) && SaysBusy(v2, script(|t.sent|)))))
  }

  predicate ForOther(b: Bridge, g: Group) { g.active && g.owner != b.appId }

  /** After a refused start some group is still active for another client: one that was not stopped beforehand, and
      not deleted by the refusal. */
  ghost predicate OtherIsLeft(t: Talk, script: Script, level: Override) {
    var b := t.bridge;
    var v2 := b.IsSupportingClipV2();
    exists i :: 0 <= i < |b.groups| && ForOther(b, b.groups[i])
      && !(StoppedBefore(t, script, level) && b.groups[i].id == FirstOther(b).id)
      && !(Deletes(v2, script(StartReply(t, level))) && b.groups[i].id == b.selectedGroup)
  }

  /** The number of the reply to the second start request: after the first come perhaps a stop of another client, and a
      stop of the selected group. */
  ghost function RestartReply(t: Talk, script: Script, level: Override): nat {
    StartReply(t, level) + if level.Always? && OtherIsLeft(t, script, level) then 3 else 2
  }

  /** Either the group is needed and missing at once; or the first start is granted and it is missing; or the first
      start is refused by a busy bridge, taking over is allowed, the second start is granted, and the group was missing
      or has been deleted by a reply in between. */
  ghost predicate EndsAtMissingGroup(t: Talk, script: Script, level: Override) {
    var b := t.bridge;
    var v2 := b.IsSupportingClipV2();
    var first, last := StartReply(t, level), RestartReply(t, script, level);
    || MissesGroupAtOnce(b, level)
    || (if Accepts(v2, script(first)) then !HasSelected(b)
        else
          && !level.Never? && BusyAfterRefusal(t, script, level) && Accepts(v2, script(last))
          && (!HasSelected(b) || AnyDeletes(v2, script, first, last)))
  }

  // ---------------------------------------------------------------- what a reply does to the busy flag

  lemma {:induction false} CheckedBusy(b: Bridge, reply: Reply)
    ensures Checked(b, reply).1.busy == (!Checked(b, reply).0 && (b.busy || SaysBusy(b.IsSupportingClipV2(), reply)))
  {
    hide CheckedV1;
    hide CheckedV2;
    if reply.Answer? {
      CheckedV1Busy(b, reply.entries);
      CheckedV2Busy(b, reply.errors);
    }
  }

  lemma {:induction false} CheckedV1Busy(b: Bridge, entries: seq<Entry>)
    ensures CheckedV1(b, entries).1.busy == (!CheckedV1(b, entries).0 && (b.busy || FirstError(entries, 0) == Error(Some(CANT_ACTIVATE))))
  {
    hide FirstError;
    hide DeleteFirst;
  }

  lemma {:induction false} CheckedV2Busy(b: Bridge, errors: seq<Option<int>>)
    ensures CheckedV2(b, errors).1.busy ==
            (!CheckedV2(b, errors).0 &&
             (b.busy || FirstCode(errors, 0) == Some(V2_IS_BUSY) || FirstCode(errors, 0) == Some(V2_BODY_ERROR)))
  {
    hide FirstCode;
  }

  lemma {:induction false} OtherOwnerMeans(b: Bridge)
    ensures HasOtherOwner(b) <==> exists i :: 0 <= i < |b.groups| && ForOther(b, b.groups[i])
    ensures HasOtherOwner(b) ==> ForOther(b, FirstOther(b)) && FirstOther(b) in b.groups
  {
    OwnedFrom(b, 0);
  }

  lemma {:induction false} OwnedFrom(b: Bridge, i: nat)
    requires i <= |b.groups|
    ensures i <= OwnedByOther(b, i) <= |b.groups|
    ensures OwnedByOther(b, i) < |b.groups| ==> ForOther(b, b.groups[OwnedByOther(b, i)])
    ensures OwnedByOther(b, i) == |b.groups| ==> forall k :: i <= k < |b.groups| ==> !ForOther(b, b.groups[k])
    decreases |b.groups| - i
  {
    if i < |b.groups| && !ForOther(b, b.groups[i]) {
      OwnedFrom(b, i + 1);
    }
  }

  // ---------------------------------------------------------------- before the start

  lemma {:induction false} StopsBeforeIs(b: Bridge, level: Override)
    requires !MissesGroupAtOnce(b, level)
    ensures StopsBefore(b, level) <==> b.IsSupportingClipV2() && HasOtherOwner(b) && MayStop(b, level)
    ensures |StopFirst(b, level)| == if StopsBefore(b, level) then 1 else 0
  {
    FirstGroupIsSound(b.groups, b.selectedGroup);
    if HasOtherOwner(b) {
      OtherOwnerMeans(b);
    }
    hide FirstGroup;
  }

  lemma {:induction false} PreparedBusy(t: Talk, script: Script, level: Override)
    requires !MissesGroupAtOnce(t.bridge, level)
    ensures var p := Prepared(t, script, level);
            && |p.sent| == StartReply(t, level)
            && p.bridge.busy == (!StoppedBefore(t, script, level) &&
                                 (t.bridge.busy || (StopsBefore(t.bridge, level) && SaysBusy(true, script(|t.sent|)))))
  {
    PreparedIs(t, script, level);
    StopsBeforeIs(t.bridge, level);
    CheckedBusy(t.bridge, script(|t.sent|));
    CheckedIsExact(t.bridge, script(|t.sent|));
    hide Checked;
    hide SaysBusy;
    hide Accepts;
    hide MayStop;
    hide SetFirst;
    hide StopFirst;
  }

  /** The groups before the start. */
  lemma {:induction false} PreparedGroups(t: Talk, script: Script, level: Override)
    requires !MissesGroupAtOnce(t.bridge, level)
    ensures Prepared(t, script, level).bridge.groups ==
            if StoppedBefore(t, script, level) then SetFirst(t.bridge.groups, FirstOther(t.bridge).id, false, "") else t.bridge.groups
  {
    StopsBeforeIs(t.bridge, level);
    CheckedGroups(t.bridge, script(|t.sent|));
    CheckedIsExact(t.bridge, script(|t.sent|));
    hide Checked;
    hide Accepts;
    hide MayStop;
    hide SetFirst;
    hide StopFirst;
  }

  // ---------------------------------------------------------------- after a refused start

  lemma {:induction false} StartOutcome(t: Talk, script: Script, level: Override)
    requires !MissesGroupAtOnce(t.bridge, level)
    ensures var (ok, u) := Execute(Prepared(t, script, level), script, true);
            && (ok <==> Accepts(t.bridge.IsSupportingClipV2(), script(StartReply(t, level))))
            && |u.sent| == StartReply(t, level) + 1
            && (!ok ==> (u.bridge.busy <==> BusyAfterRefusal(t, script, level)))
  {
    var p := Prepared(t, script, level);
    PreparedIs(t, script, level);
    PreparedBusy(t, script, level);
    SameVersion(t.bridge, p.bridge);
    CheckedBusy(p.bridge, script(|p.sent|));
    PutIs(p, script, Request(p.bridge.selectedGroup, true));
    hide Prepared;
    hide Checked;
    hide SaysBusy;
    hide Accepts;
    hide StopsBefore;
  }

  // ---------------------------------------------------------------- who is left after a refused start

  ghost predicate ActiveForOther(groups: seq<Group>, appId: string) {
    exists i :: 0 <= i < |groups| && groups[i].active && groups[i].owner != appId
  }

  lemma {:induction false} SetFirstAt(groups: seq<Group>, id: string, active: bool, owner: string)
    requires forall i, j :: 0 <= i < j < |groups| ==> groups[i].id != groups[j].id
    ensures var s := SetFirst(groups, id, active, owner);
            && |s| == |groups|
            && forall i :: 0 <= i < |s| ==> s[i] == if groups[i].id == id then groups[i].(active := active, owner := owner) else groups[i]
  {
    if groups != [] {
      SetFirstAt(groups[1..], id, active, owner);
    }
  }

  /** A group set free is not active for another client any more; the others are as before. */
  lemma {:induction false} OtherThanFreed(groups: seq<Group>, id: string, appId: string)
    requires forall i, j :: 0 <= i < j < |groups| ==> groups[i].id != groups[j].id
    ensures ActiveForOther(SetFirst(groups, id, false, ""), appId) <==>
            exists i :: 0 <= i < |groups| && groups[i].active && groups[i].owner != appId && groups[i].id != id
  {
    SetFirstAt(groups, id, false, "");
    hide SetFirst;
    var s := SetFirst(groups, id, false, "");
    forall i | 0 <= i < |groups|
      ensures s[i].active && s[i].owner != appId <==> groups[i].active && groups[i].owner != appId && groups[i].id != id
    {
    }
  }

  /** A deleted group is not active for another client any more; the others are as before. */
  lemma {:induction false} OtherThanDeleted(groups: seq<Group>, id: string, appId: string)
    requires forall i, j :: 0 <= i < j < |groups| ==> groups[i].id != groups[j].id
    ensures ActiveForOther(DeleteFirst(groups, id), appId) <==>
            exists i :: 0 <= i < |groups| && groups[i].active && groups[i].owner != appId && groups[i].id != id
  {
    DeleteFirstIds(groups, id);
    hide DeleteFirst;
    var d := DeleteFirst(groups, id);
    if ActiveForOther(d, appId) {
      var k :| 0 <= k < |d| && d[k].active && d[k].owner != appId;
      assert d[k] in groups;
    }
    if i :| 0 <= i < |groups| && groups[i].active && groups[i].owner != appId && groups[i].id != id {
      assert groups[i] in d;
    }
  }

  lemma {:induction false} OtherOwnerIs(b: Bridge)
    ensures HasOtherOwner(b) <==> ActiveForOther(b.groups, b.appId)
  {
    OtherOwnerMeans(b);
    hide HasOtherOwner;
  }

  /** The groups after the first start request. */
  lemma {:induction false} StartGroups(t: Talk, script: Script, level: Override)
    requires !MissesGroupAtOnce(t.bridge, level)
    ensures var c := Execute(Prepared(t, script, level), script, true).1.bridge;
            && c.appId == t.bridge.appId && c.selectedGroup == t.bridge.selectedGroup
            && (StoppedBefore(t, script, level) ==> c.groups == SetFirst(t.bridge.groups, FirstOther(t.bridge).id, false, ""))
            && (!StoppedBefore(t, script, level) ==>
                c.groups == if Deletes(t.bridge.IsSupportingClipV2(), script(StartReply(t, level)))
                            then DeleteFirst(t.bridge.groups, t.bridge.selectedGroup) else t.bridge.groups)
  {
    var p := Prepared(t, script, level);
    PreparedIs(t, script, level);
    PreparedBusy(t, script, level);
    PreparedGroups(t, script, level);
    SameVersion(t.bridge, p.bridge);
    CheckedGroups(p.bridge, script(|p.sent|));
    CheckedIsExact(p.bridge, script(|p.sent|));
    hide Prepared;
    hide Checked;
    hide SaysBusy;
    hide Accepts;
    hide StopsBefore;
    hide SetFirst;
    hide DeleteFirst;
    hide FirstError;
    NoDeletesInV2(script(|p.sent|));
    StoppedMeansV2(t, script, level);
    hide StoppedBefore;
    hide StopFirst;
    hide HasOtherOwner;
  }

  lemma {:induction false} NoDeletesInV2(reply: Reply)
    ensures !Deletes(true, reply)
  {
  }

  lemma {:induction false} StoppedMeansV2(t: Talk, script: Script, level: Override)
    ensures StoppedBefore(t, script, level) ==> t.bridge.IsSupportingClipV2() && HasOtherOwner(t.bridge)
  {
  }

  lemma {:induction false} OtherLeft(t: Talk, script: Script, level: Override)
    requires UniqueGroups(t.bridge) && !MissesGroupAtOnce(t.bridge, level)
    ensures HasOtherOwner(Execute(Prepared(t, script, level), script, true).1.bridge) <==> OtherIsLeft(t, script, level)
  {
    StartGroups(t, script, level);
    var c := Execute(Prepared(t, script, level), script, true).1.bridge;
    hide Execute;
    hide Prepared;
    OtherOwnerIs(c);
    StoppedMeansV2(t, script, level);
    var b := t.bridge;
    if StoppedBefore(t, script, level) {
      OtherThanFreed(b.groups, FirstOther(b).id, b.appId);
      NoDeletesInV2(script(StartReply(t, level)));
    } else {
      OtherThanDeleted(b.groups, b.selectedGroup, b.appId);
    }
    hide HasOtherOwner;
    hide StoppedBefore;
    hide Deletes;
    hide StartReply;
    hide SetFirst;
    hide DeleteFirst;
    hide FirstOther;
    hide Bridge.IsSupportingClipV2;
    hide MissesGroupAtOnce;
  }

  // ---------------------------------------------------------------- the whole start

  lemma {:induction false} NothingDeletesBefore(t: Talk, script: Script, level: Override)
    ensures !AnyDeletes(t.bridge.IsSupportingClipV2(), script, |t.sent|, StartReply(t, level))
  {
    hide HasOtherOwner;
  }

  lemma {:induction false} AnyDeletesSplits(v2: bool, script: Script, from: nat, mid: nat, to: nat)
    requires from <= mid <= to
    ensures AnyDeletes(v2, script, from, to) <==> AnyDeletes(v2, script, from, mid) || AnyDeletes(v2, script, mid, to)
  {
    hide Deletes;
  }

  lemma {:induction false} StartIsFinished(t: Talk, script: Script, level: Override)
    requires !MissesGroupAtOnce(t.bridge, level)
    ensures var (ok, u) := Tried(Prepared(t, script, level), script, level);
            StartStream(t, script, level).0.NoGroup? <==> ok && !HasSelected(u.bridge)
  {
    var (ok, u) := Tried(Prepared(t, script, level), script, level);
    hide Tried;
    hide Prepared;
    hide HasSelected;
    hide MissesGroupAtOnce;
    FinishedIs(ok, u, level);
    hide Finished;
    SelectedIsValid(u.bridge);
  }

  /** A start that is tried once, or once more: which reply it ends with, and whether that grants it. */
  lemma {:induction false} TriedEndsWith(t: Talk, script: Script, level: Override)
    requires UniqueGroups(t.bridge) && !MissesGroupAtOnce(t.bridge, level)
    ensures var (ok, u) := Tried(Prepared(t, script, level), script, level);
            var v2 := t.bridge.IsSupportingClipV2();
            var first, last := StartReply(t, level), RestartReply(t, script, level);
            if Accepts(v2, script(first)) then ok && |u.sent| == first + 1
            else if !level.Never? && BusyAfterRefusal(t, script, level) then
              |u.sent| == last + 1 && (ok <==> Accepts(v2, script(last)))
            else !ok
  {
    hide *;
    var p := Prepared(t, script, level);
    var (ok, u) := Execute(p, script, true);
    StartOutcome(t, script, level);
    TriedUnfolds(p, script, level);
    if !ok && u.bridge.busy && !level.Never? {
      RetriedIs(u, script, level);
      OtherLeft(t, script, level);
      StopOtherIs(u.bridge, level);
      RestartReplyIs(t, script, level);
      PreparedIs(t, script, level);
      PutIs(p, script, Request(p.bridge.selectedGroup, true));
      ExecuteIsPut(p, script);
      SameVersion(t.bridge, p.bridge);
      SameVersion(p.bridge, u.bridge);
    }
  }

  lemma {:induction false} TriedUnfolds(t: Talk, script: Script, level: Override)
    ensures var (ok, u) := Execute(t, script, true);
            Tried(t, script, level) == if !ok && u.bridge.busy && !level.Never? then Retried(u, script, level) else (ok, u)
  {
    hide Execute;
    hide Retried;
  }

  lemma {:induction false} ExecuteIsPut(t: Talk, script: Script)
    ensures Execute(t, script, true) == Put(t, script, Request(t.bridge.selectedGroup, true))
  {
    hide Put;
  }

  lemma {:induction false} StopOtherIs(b: Bridge, level: Override)
    ensures |StopOther(b, level)| == if level.Always? && HasOtherOwner(b) then 1 else 0
  {
    hide HasOtherOwner;
  }

  lemma {:induction false} RestartReplyIs(t: Talk, script: Script, level: Override)
    ensures RestartReply(t, script, level) ==
            StartReply(t, level) + 2 + if level.Always? && OtherIsLeft(t, script, level) then 1 else 0
  {
    hide OtherIsLeft;
    hide StartReply;
  }

  lemma {:induction false} TriedTracksStart(t: Talk, script: Script, level: Override)
    requires UniqueGroups(t.bridge) && !MissesGroupAtOnce(t.bridge, level)
    ensures Tracks(t, script, Tried(Prepared(t, script, level), script, level).1)
  {
    hide *;
    var p := Prepared(t, script, level);
    PreparedTracks(t, script, level);
    StaysUnique(t, script, p);
    TriedTracks(p, script, level);
    TracksOn(t, script, p, Tried(p, script, level).1);
  }

  /** The group is missing after the last request exactly when it was missing before, or a reply between the first
      start request and the last one has deleted it. */
  lemma {:induction false} MissingAfter(t: Talk, script: Script, level: Override, last: nat)
    requires UniqueGroups(t.bridge) && !MissesGroupAtOnce(t.bridge, level)
    requires |Tried(Prepared(t, script, level), script, level).1.sent| == last + 1 && StartReply(t, level) <= last
    requires Accepts(t.bridge.IsSupportingClipV2(), script(last))
    ensures HasSelected(Tried(Prepared(t, script, level), script, level).1.bridge) <==>
            HasSelected(t.bridge) && !AnyDeletes(t.bridge.IsSupportingClipV2(), script, StartReply(t, level), last)
  {
    hide *;
    var u := Tried(Prepared(t, script, level), script, level).1;
    var v2 := t.bridge.IsSupportingClipV2();
    TriedTracksStart(t, script, level);
    TracksMeans(t, script, u);
    StartsAfter(t, level);
    AcceptedDeletesNothing(v2, script, |t.sent|, last + 1);
    AnyDeletesSplits(v2, script, |t.sent|, StartReply(t, level), last);
    NothingDeletesBefore(t, script, level);
  }

  lemma {:induction false} StartsAfter(t: Talk, level: Override)
    ensures |t.sent| <= StartReply(t, level)
  {
    hide StopsBefore;
  }

  /** For every bridge with unique group ids, selected group or not, every level and all replies: the start ends at a
      missing group exactly under the condition above. */
  lemma {:induction false} EndsAtMissingGroupExactly(t: Talk, script: Script, level: Override)
    requires UniqueGroups(t.bridge)
    ensures StartStream(t, script, level).0.NoGroup? <==> EndsAtMissingGroup(t, script, level)
  {
    if MissesGroupAtOnce(t.bridge, level) {
    } else {
      var v2 := t.bridge.IsSupportingClipV2();
      var first, last := StartReply(t, level), RestartReply(t, script, level);
      TriedEndsWith(t, script, level);
      StartIsFinished(t, script, level);
      EmptyRange(v2, script, first);
      RestartReplyIs(t, script, level);
      if Accepts(v2, script(first)) {
        MissingAfter(t, script, level, first);
      } else if !level.Never? && BusyAfterRefusal(t, script, level) && Accepts(v2, script(last)) {
        MissingAfter(t, script, level, last);
      }
      hide StartStream;
      hide Tried;
      hide Prepared;
      hide Accepts;
      hide AnyDeletes;
      hide BusyAfterRefusal;
      hide StartReply;
      hide RestartReply;
      hide MissesGroupAtOnce;
      hide HasSelected;
    }
  }

  lemma {:induction false} EmptyRange(v2: bool, script: Script, k: nat)
    ensures !AnyDeletes(v2, script, k, k)
  {
  }

  /** Version 2 never loses its group: with a selected group, its start never ends at a missing one; nor does a start
      of any version that may not take over. */
  lemma {:induction false} NeverMissingInV2(t: Talk, script: Script, level: Override)
    requires UniqueGroups(t.bridge) && t.bridge.IsValidGroupSelected()
    ensures t.bridge.IsSupportingClipV2() || level.Never? ==> !StartStream(t, script, level).0.NoGroup?
  {
    EndsAtMissingGroupExactly(t, script, level);
    SelectedIsValid(t.bridge);
    hide HasSelected;
    hide StartStream;
    hide RestartReply;
    hide StartReply;
    hide BusyAfterRefusal;
    hide Accepts;
    hide HasOtherOwner;
  }
}
