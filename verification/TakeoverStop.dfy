/**
 Stopping a stream: what is asked of the bridge, and when the group is given up.
 */
module TakeoverStop {
  import opened Prelude
  import opened BridgeData
  import opened TakeoverPolicy
  import opened TakeoverProofs
  import opened TakeoverGroups

  /** Setting a group changes what is found under its id, and nothing else. */
  lemma {:induction false} FoundAfterSet(groups: seq<Group>, id: string, active: bool, owner: string, other: string)
    ensures FirstGroup(SetFirst(groups, id, active, owner), other) ==
            if other == id && FirstGroup(groups, id).Some? then Some(FirstGroup(groups, id).value.(active := active, owner := owner))
            else FirstGroup(groups, other)
  {
    if groups != [] {
      FoundAfterSet(groups[1..], id, active, owner, other);
      assert SetFirst(groups, id, active, owner)[1..]
          == if groups[0].id == id then groups[1..] else SetFirst(groups[1..], id, active, owner);
    }
  }

  /** A stop is one request, for the selected group. Granted, it frees the bridge and gives the group up: the group is
      inactive and nobody's, and no other group changes. Refused, a group changes only if the refusal deletes it. */
  lemma {:induction false} StopMeans(t: Talk, script: Script)
    ensures var u := StopStream(t, script);
            var b, c := t.bridge, u.bridge;
            var v2 := b.IsSupportingClipV2();
            && u.sent == t.sent + [Request(b.selectedGroup, false)] && SameSession(b, c)
            && (Accepts(v2, script(|t.sent|)) ==>
                !c.busy && forall id :: c.GetGroupById(id) ==
                                        if id == b.selectedGroup && b.GetGroup().Some?
                                        then Some(b.GetGroup().value.(active := false, owner := "")) else b.GetGroupById(id))
            && (!Accepts(v2, script(|t.sent|)) ==>
                c.groups == if Deletes(v2, script(|t.sent|)) then DeleteFirst(b.groups, b.selectedGroup) else b.groups)
  {
    PutIs(t, script, Request(t.bridge.selectedGroup, false));
    CheckedIsExact(t.bridge, script(|t.sent|));
    CheckedGroups(t.bridge, script(|t.sent|));
    forall id {
      FoundAfterSet(t.bridge.groups, t.bridge.selectedGroup, false, "", id);
    }
    hide Checked;
    hide Accepts;
    hide Deletes;
    hide SetFirst;
    hide FirstGroup;
    hide DeleteFirst;
  }

  /** For unique group ids: an active selected group is found inactive afterwards exactly when the stop is granted. */
  lemma {:induction false} GivenUpExactly(t: Talk, script: Script)
    requires UniqueGroups(t.bridge) && t.bridge.IsValidGroupSelected() && t.bridge.GetGroup().value.active
    ensures var c := StopStream(t, script).bridge;
            c.IsValidGroupSelected() && !c.GetGroup().value.active <==> Accepts(t.bridge.IsSupportingClipV2(), script(|t.sent|))
  {
    StopMeans(t, script);
    var c := StopStream(t, script).bridge;
    assert c.GetGroup() == c.GetGroupById(t.bridge.selectedGroup);
    DeletedLosesSelection(t.bridge);
    SelectedIsValid(SelectedDeleted(t.bridge));
    hide StopStream;
    hide Accepts;
    hide Deletes;
    hide FirstGroup;
    hide DeleteFirst;
  }
}
