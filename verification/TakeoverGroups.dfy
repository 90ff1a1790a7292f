/**
 When a start finds its own group gone: a refused request can delete the selected group, and a
 later accepted start then has no group to mark.
 */
module TakeoverGroups {
  import opened Prelude
  import opened BridgeData
  import opened TakeoverPolicy
  import opened TakeoverProofs

  ghost predicate UniqueGroups(b: Bridge) {
    forall i, j :: 0 <= i < j < |b.groups| ==> b.groups[i].id != b.groups[j].id
  }

  /** A version 1 reply whose first error says that the group does not exist. */
  predicate Deletes(v2: bool, reply: Reply) {
    !v2 && reply.Answer? && reply.isArray &&
    match FirstError(reply.entries, 0)
    case Error(Some(code)) => IsNotExistingOrInvalidGroup(code)
    case _ => false
  }

  lemma {:induction false} DeleteFirstIds(groups: seq<Group>, id: string)
    requires forall i, j :: 0 <= i < j < |groups| ==> groups[i].id != groups[j].id
    ensures var d := DeleteFirst(groups, id);
            && (forall g :: g in d <==> g in groups && g.id != id)
            && (forall i, j :: 0 <= i < j < |d| ==> d[i].id != d[j].id)
  {
    if groups != [] {
      assert groups == [groups[0]] + groups[1..];
      DeleteFirstIds(groups[1..], id);
      var d := DeleteFirst(groups[1..], id);
      assert forall j :: 0 <= j < |d| ==> d[j] in d;
    }
  }

  lemma {:induction false} SetFirstIds(groups: seq<Group>, id: string, active: bool, owner: string)
    ensures var s := SetFirst(groups, id, active, owner);
            |s| == |groups| && forall i :: 0 <= i < |s| ==> s[i].id == groups[i].id
  {
    if groups != [] {
      SetFirstIds(groups[1..], id, active, owner);
    }
  }

  ghost predicate HasSelected(b: Bridge) { exists i :: 0 <= i < |b.groups| && b.groups[i].id == b.selectedGroup }

  lemma {:induction false} SelectedIsValid(b: Bridge)
    ensures b.IsValidGroupSelected() <==> HasSelected(b)
  {
    FirstGroupIsSound(b.groups, b.selectedGroup);
    assert forall i :: 0 <= i < |b.groups| ==> b.groups[i] in b.groups;
  }

  lemma {:induction false} SameIdsSameSelection(b: Bridge, c: Bridge)
    requires UniqueGroups(b) && b.selectedGroup == c.selectedGroup
    requires |b.groups| == |c.groups| && forall i :: 0 <= i < |b.groups| ==> b.groups[i].id == c.groups[i].id
    ensures UniqueGroups(c) && (HasSelected(c) <==> HasSelected(b))
  {
    if HasSelected(b) {
      var i :| 0 <= i < |b.groups| && b.groups[i].id == b.selectedGroup;
      assert c.groups[i].id == c.selectedGroup;
    }
    if HasSelected(c) {
      var i :| 0 <= i < |c.groups| && c.groups[i].id == c.selectedGroup;
      assert b.groups[i].id == b.selectedGroup;
    }
  }

  lemma {:induction false} DeletedLosesSelection(b: Bridge)
    requires UniqueGroups(b)
    ensures UniqueGroups(SelectedDeleted(b)) && !HasSelected(SelectedDeleted(b))
  {
    DeleteFirstIds(b.groups, b.selectedGroup);
    hide DeleteFirst;
    var c := SelectedDeleted(b);
    assert forall i :: 0 <= i < |c.groups| ==> c.groups[i] in c.groups;
  }

  lemma {:induction false} CheckedGroups(b: Bridge, reply: Reply)
    ensures Checked(b, reply).1.groups ==
            if Deletes(b.IsSupportingClipV2(), reply) then SelectedDeleted(b).groups else b.groups
  {
    hide SelectedDeleted;
    hide FirstError;
    if reply.Answer? {
      CheckedV2IsExact(b, reply.errors);
    }
    hide CheckedV2;
  }

  /** A request loses the selected group exactly when its reply deletes it. */
  lemma {:induction false} PutGroups(t: Talk, script: Script, r: Request)
    requires UniqueGroups(t.bridge)
    ensures var c := Put(t, script, r).1.bridge;
            && UniqueGroups(c)
            && (HasSelected(c) <==> HasSelected(t.bridge) && !Deletes(t.bridge.IsSupportingClipV2(), script(|t.sent|)))
  {
    var reply := script(|t.sent|);
    CheckedIsExact(t.bridge, reply);
    CheckedGroups(t.bridge, reply);
    DeletedLosesSelection(t.bridge);
    var c := Put(t, script, r).1.bridge;
    hide Checked;
    hide Deletes;
    hide SelectedDeleted;
  }

  lemma {:induction false} WithGroupGroups(b: Bridge, id: string, active: bool, owner: string)
    requires UniqueGroups(b)
    ensures UniqueGroups(WithGroup(b, id, active, owner)) && (HasSelected(WithGroup(b, id, active, owner)) <==> HasSelected(b))
  {
    SetFirstIds(b.groups, id, active, owner);
    hide SetFirst;
    SameIdsSameSelection(b, WithGroup(b, id, active, owner));
  }

  lemma {:induction false} DeactivatedGroups(t: Talk, script: Script, id: string)
    requires UniqueGroups(t.bridge)
    ensures var c := Deactivated(t, script, id).1.bridge;
            && UniqueGroups(c)
            && (HasSelected(c) <==> HasSelected(t.bridge) && !Deletes(t.bridge.IsSupportingClipV2(), script(|t.sent|)))
  {
    PutGroups(t, script, Request(id, false));
    hide Put;
    WithGroupGroups(Put(t, script, Request(id, false)).1.bridge, id, false, "");
  }

  /** Some of the replies number `from` up to `to` deletes the selected group. */
  ghost predicate AnyDeletes(v2: bool, script: Script, from: nat, to: nat) {
    exists k: nat :: from <= k < to && Deletes(v2, script(k))
  }

  /** From `t` to `u` the selected group is lost exactly when a reply deletes it. */
  ghost predicate Tracks(t: Talk, script: Script, u: Talk) {
    var v2 := t.bridge.IsSupportingClipV2();
    && UniqueGroups(u.bridge) && v2 == u.bridge.IsSupportingClipV2() && |t.sent| <= |u.sent|
    && (HasSelected(u.bridge) <==> HasSelected(t.bridge) && !AnyDeletes(v2, script, |t.sent|, |u.sent|))
  }

  lemma {:induction false} TracksOn(t: Talk, script: Script, u: Talk, w: Talk)
    requires Tracks(t, script, u) && Tracks(u, script, w)
    ensures Tracks(t, script, w)
  {
    hide HasSelected;
    hide UniqueGroups;
    hide Deletes;
  }

  lemma {:induction false} PutTracks(t: Talk, script: Script, r: Request)
    requires UniqueGroups(t.bridge)
    ensures Tracks(t, script, Put(t, script, r).1)
  {
    hide UniqueGroups;
    hide HasSelected;
    hide Deletes;
    PutIs(t, script, r);
    PutGroups(t, script, r);
    SameVersion(t.bridge, Put(t, script, r).1.bridge);
    hide Put;
  }

  lemma {:induction false} DeactivatedTracks(t: Talk, script: Script, id: string)
    requires UniqueGroups(t.bridge)
    ensures Tracks(t, script, Deactivated(t, script, id).1)
  {
    hide UniqueGroups;
    hide HasSelected;
    hide Deletes;
    DeactivatedIs(t, script, id);
    DeactivatedGroups(t, script, id);
    SameVersion(t.bridge, Deactivated(t, script, id).1.bridge);
    hide Deactivated;
  }

  lemma {:induction false} OtherStoppedTracks(t: Talk, script: Script, level: Override)
    requires UniqueGroups(t.bridge)
    ensures Tracks(t, script, OtherStopped(t, script, level))
  {
    OtherStoppedIs(t, script, level);
    hide Deletes;
    if level.Always? && HasOtherOwner(t.bridge) {
      var k := OwnedByOther(t.bridge, 0);
      DeactivatedTracks(t, script, t.bridge.groups[k].id);
      var (ok, u) := Deactivated(t, script, t.bridge.groups[k].id);
      hide Deactivated;
      if ok && k < |u.bridge.groups| {
        SameIdsSameSelection(u.bridge, OtherStopped(t, script, level).bridge);
      }
    }
  }

  lemma {:induction false} TriedTracks(t: Talk, script: Script, level: Override)
    requires UniqueGroups(t.bridge)
    ensures Tracks(t, script, Tried(t, script, level).1)
  {
    hide Put;
    hide Tracks;
    hide OtherStopped;
    var u := Execute(t, script, true).1;
    PutTracks(t, script, Request(t.bridge.selectedGroup, true));
    StaysUnique(t, script, u);
    var o := OtherStopped(u, script, level);
    OtherStoppedTracks(u, script, level);
    StaysUnique(u, script, o);
    var p := Execute(o, script, false).1;
    PutTracks(o, script, Request(o.bridge.selectedGroup, false));
    StaysUnique(o, script, p);
    PutTracks(p, script, Request(p.bridge.selectedGroup, true));
    TracksOn(t, script, u, o);
    TracksOn(t, script, o, p);
    TracksOn(t, script, p, Execute(p, script, true).1);
  }

  lemma {:induction false} StaysUnique(t: Talk, script: Script, u: Talk)
    requires Tracks(t, script, u)
    ensures UniqueGroups(u.bridge)
  {
  }

  lemma {:induction false} PreparedTracks(t: Talk, script: Script, level: Override)
    requires UniqueGroups(t.bridge) && !MissesGroupAtOnce(t.bridge, level)
    ensures Tracks(t, script, Prepared(t, script, level))
  {
    hide Deactivated;
    hide UniqueGroups;
    hide HasSelected;
    hide Deletes;
    if t.bridge.IsSupportingClipV2() && HasOtherOwner(t.bridge) && MayStop(t.bridge, level) {
      DeactivatedTracks(t, script, FirstOther(t.bridge).id);
    }
  }

  lemma {:induction false} TracksMeans(t: Talk, script: Script, u: Talk)
    requires Tracks(t, script, u)
    ensures HasSelected(u.bridge) <==> HasSelected(t.bridge) && !AnyDeletes(t.bridge.IsSupportingClipV2(), script, |t.sent|, |u.sent|)
    ensures t.bridge.IsSupportingClipV2() ==> !AnyDeletes(t.bridge.IsSupportingClipV2(), script, |t.sent|, |u.sent|)
  {
    hide HasSelected;
  }

  lemma {:induction false} FinishedIs(ok: bool, t: Talk, level: Override)
    ensures Finished(ok, t, level).0.NoGroup? <==> ok && !t.bridge.IsValidGroupSelected()
    ensures Finished(ok, t, level).1.sent == t.sent
  {
    hide Bridge.GetGroup;
    hide WithGroup;
  }

  lemma {:induction false} AcceptedDeletesNothing(v2: bool, script: Script, from: nat, to: nat)
    requires from < to && Accepts(v2, script(to - 1))
    ensures AnyDeletes(v2, script, from, to) <==> AnyDeletes(v2, script, from, to - 1)
  {
    FirstErrorIsSound(script(to - 1).entries, 0);
  }

  /** It does happen: refused because the bridge is busy, the stop is answered by "not available", and the
      second start is accepted. */
  lemma {:induction false} MissingGroupHappens() returns (t: Talk, script: Script)
    ensures UniqueGroups(t.bridge) && t.bridge.IsValidGroupSelected()
    ensures StartStream(t, script, SameGroup).0.NoGroup?
  {
    var g := Group("1", "", false, "", [], false, 0.0);
    t := Talk(NewBridge().(groups := [g], selectedGroup := "1"), []);
    var busy, gone, fine := Error(Some(CANT_ACTIVATE)), Error(Some(RESOURCE_NOT_AVAILABLE)), Clean;
    script := (n: nat) => Answer(true, [if n == 0 then busy else if n == 1 then gone else fine], []);
    Refused(t, script, busy);
    var u := Execute(t, script, true).1;
    Refused(u, script, gone);
    var v := Execute(u, script, false).1;
    assert v.bridge.groups == [] && |v.sent| == 2;
    Agreed(v, script);
    assert !Execute(v, script, true).1.bridge.IsValidGroupSelected();
    hide Execute;
    hide OnV1Error;
    assert OtherStopped(u, script, SameGroup) == u;
    assert Tried(t, script, SameGroup) == Execute(v, script, true);
  }

  lemma {:induction false} Agreed(t: Talk, script: Script)
    requires script(|t.sent|) == Answer(true, [Clean], []) && !t.bridge.IsSupportingClipV2()
    ensures Execute(t, script, true) == (true, Talk(t.bridge.(busy := false), t.sent + [Request(t.bridge.selectedGroup, true)]))
  {
    assert FirstError([Clean], 0) == FirstError([Clean], 1);
  }

  lemma {:induction false} Refused(t: Talk, script: Script, e: Entry)
    requires script(|t.sent|) == Answer(true, [e], []) && !t.bridge.IsSupportingClipV2() && e.Error? && e.code.Some?
    ensures forall a :: Execute(t, script, a) == (false, Talk(OnV1Error(t.bridge, e.code.value), t.sent + [Request(t.bridge.selectedGroup, a)]))
  {
    hide OnV1Error;
  }
}
