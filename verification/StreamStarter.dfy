/**
 The object that starts and stops streaming on a bridge, as it is written: it changes the flags and
 groups of its bridge while the replies come in.
 */
module StreamStarter {
  import opened Prelude
  import opened BridgeData
  import opened TakeoverPolicy

  class Starter {
    const script: Script
    var bridge: Bridge
    var sent: seq<Request>

    ghost function View(): Talk
      reads this
    {
      Talk(bridge, sent)
    }

    constructor (bridge: Bridge, script: Script)
      ensures View() == Talk(bridge, []) && this.script == script
    {
      this.bridge, this.script, sent := bridge, script, [];
    }

    method CheckV2Errors(errors: seq<Option<int>>) returns (ok: bool)
      modifies this`bridge
      ensures (ok, bridge) == CheckedV2(old(bridge), errors)
    {
      hide OnV2Error;
      var i := 0;
      while i < |errors|
        invariant 0 <= i <= |errors|
        invariant FirstCode(errors, i) == FirstCode(errors, 0) && bridge == old(bridge)
      {
        if errors[i].Some? {
          RefusedV2(errors[i].value);
          return false;
        }
        i := i + 1;
      }
      bridge := bridge.(busy := false);
      return true;
    }

    method RefusedV2(code: int)
      modifies this`bridge
      ensures bridge == OnV2Error(old(bridge), code)
    {
      if code == V2_UNAUTHORIZED_USER {
        bridge := bridge.(authorized := false);
      } else if code == V2_IS_BUSY || code == V2_BODY_ERROR {
        bridge := bridge.(busy := true);
      }
    }

    method CheckV1Entries(entries: seq<Entry>) returns (ok: bool)
      modifies this`bridge
      ensures (ok, bridge) == CheckedV1(old(bridge), entries)
    {
      hide OnV1Error;
      var i := 0;
      while i < |entries|
        invariant 0 <= i <= |entries|
        invariant FirstError(entries, i) == FirstError(entries, 0) && bridge == old(bridge)
      {
        if entries[i].Error? {
          if entries[i].code.Some? {
            RefusedV1(entries[i].code.value);
          }
          return false;
        }
        i := i + 1;
      }
      bridge := bridge.(busy := false);
      return true;
    }

    method RefusedV1(code: int)
      modifies this`bridge
      ensures bridge == OnV1Error(old(bridge), code)
    {
      if code == UNAUTHORIZED_USER {
        bridge := bridge.(authorized := false);
      }
      if IsNotExistingOrInvalidGroup(code) {
        DeleteGroup();
      }
      if code == CANT_ACTIVATE {
        bridge := bridge.(busy := true);
      }
    }

    /** The position of the first group with the id, or the number of groups. */
    method FindGroup(id: string) returns (i: nat)
      ensures IsFirst(bridge.groups, id, i)
    {
      i := 0;
      while i < |bridge.groups|
        invariant i <= |bridge.groups|
        invariant forall k :: 0 <= k < i ==> bridge.groups[k].id != id
      {
        if bridge.groups[i].id == id {
          break;
        }
        i := i + 1;
      }
    }

    /** The first group with the selected id is erased. */
    method DeleteGroup()
      modifies this`bridge
      ensures bridge == SelectedDeleted(old(bridge))
    {
      hide DeleteFirst;
      var groups := bridge.groups;
      var i := FindGroup(bridge.selectedGroup);
      DeleteFirstAt(groups, bridge.selectedGroup, i);
      if i < |groups| {
        bridge := bridge.(groups := groups[..i] + groups[i + 1..]);
      }
    }

    method CheckForErrors(reply: Reply) returns (ok: bool)
      modifies this`bridge
      ensures (ok, bridge) == Checked(old(bridge), reply)
    {
      hide CheckedV1;
      hide CheckedV2;
      if reply.NoAnswer? {
        bridge := bridge.(validIp := false);
        return false;
      }
      if bridge.IsSupportingClipV2() {
        ok := CheckV2Errors(reply.errors);
      } else {
        if !reply.isArray {
          return false;
        }
        ok := CheckV1Entries(reply.entries);
      }
    }

    method ExecuteOn(group: string, activate: bool) returns (ok: bool)
      modifies this
      ensures (ok, View()) == Put(old(View()), script, Request(group, activate))
    {
      hide Checked;
      var reply := script(|sent|);
      sent := sent + [Request(group, activate)];
      ok := CheckForErrors(reply);
    }

    method Execute(activate: bool) returns (ok: bool)
      modifies this
      ensures (ok, View()) == TakeoverPolicy.Execute(old(View()), script, activate)
    {
      ok := ExecuteOn(bridge.selectedGroup, activate);
    }

    method SetGroup(id: string, active: bool, owner: string)
      modifies this`bridge
      ensures bridge == WithGroup(old(bridge), id, active, owner)
    {
      hide SetFirst;
      var groups := bridge.groups;
      var i := FindGroup(id);
      SetFirstAt(groups, id, active, owner, i);
      if i < |groups| {
        bridge := bridge.(groups := groups[i := groups[i].(active := active, owner := owner)]);
      }
    }

    method DeactivateGroup(id: string) returns (ok: bool)
      modifies this
      ensures (ok, View()) == Deactivated(old(View()), script, id)
    {
      hide Put;
      hide WithGroup;
      ok := ExecuteOn(id, false);
      if !ok {
        return false;
      }
      SetGroup(id, false, "");
    }

    method GroupOwnedByOther() returns (k: nat)
      ensures k == OwnedByOther(bridge, 0)
    {
      k := 0;
      while k < |bridge.groups|
        invariant k <= |bridge.groups|
        invariant OwnedByOther(bridge, k) == OwnedByOther(bridge, 0)
      {
        if bridge.groups[k].active && bridge.groups[k].owner != bridge.appId {
          break;
        }
        k := k + 1;
      }
    }

    /** False when the selected group is needed and missing. */
    method StopBeforehand(level: Override) returns (fine: bool)
      modifies this
      ensures fine <==> !old(MissesGroupAtOnce(bridge, level))
      ensures View() == if fine then Prepared(old(View()), script, level) else old(View())
    {
      hide Deactivated;
      hide Bridge.GetGroup;
      if bridge.IsSupportingClipV2() {
        var k := GroupOwnedByOther();
        if k < |bridge.groups| {
          if level.SameGroup? && !bridge.IsValidGroupSelected() {
            return false;
          }
          if level.Always? || (level.SameGroup? && bridge.GetGroup().value.id == bridge.groups[k].id) {
            var _ := DeactivateGroup(bridge.groups[k].id);
          }
        }
      }
      return true;
    }

    method StopOther(level: Override)
      modifies this
      ensures View() == OtherStopped(old(View()), script, level)
    {
      hide Deactivated;
      var k := GroupOwnedByOther();
      if level.Always? && k < |bridge.groups| {
        var ok := DeactivateGroup(bridge.groups[k].id);
        if ok && k < |bridge.groups| {
          bridge := bridge.(groups := bridge.groups[k := bridge.groups[k].(active := false, owner := "")]);
        }
      }
    }

    method TryStart(level: Override) returns (ok: bool)
      modifies this
      ensures (ok, View()) == Tried(old(View()), script, level)
    {
      hide OtherStopped;
      hide TakeoverPolicy.Execute;
      ok := Execute(true);
      if !ok && bridge.busy && !level.Never? {
        StopOther(level);
        var _ := Execute(false);
        ok := Execute(true);
      }
    }

    method StartStream(level: Override) returns (outcome: Outcome)
      modifies this
      ensures (outcome, View()) == TakeoverPolicy.StartStream(old(View()), script, level)
    {
      hide Tried;
      hide Prepared;
      hide WithGroup;
      hide Bridge.GetGroup;
      var fine := StopBeforehand(level);
      if !fine {
        return NoGroup;
      }
      var ok := TryStart(level);
      if ok {
        if !bridge.IsValidGroupSelected() {
          return NoGroup;
        }
        SetGroup(bridge.selectedGroup, true, bridge.appId);
        return Started;
      }
      if bridge.busy && bridge.IsValidGroupSelected() && !level.Never? {
        SetGroup(bridge.selectedGroup, false, bridge.GetGroup().value.owner);
      }
      return NotStarted;
    }

    method Start(force: bool) returns (outcome: Outcome)
      modifies this
      ensures (outcome, View()) == TakeoverPolicy.StartStream(old(View()), script, if force then SameGroup else Never)
    {
      outcome := StartStream(if force then SameGroup else Never);
    }

    method Stop()
      modifies this
      ensures View() == StopStream(old(View()), script)
    {
      hide TakeoverPolicy.Execute;
      hide WithGroup;
      hide Bridge.GetGroup;
      var ok := Execute(false);
      if ok && bridge.IsValidGroupSelected() {
        SetGroup(bridge.selectedGroup, false, "");
      }
    }
  }

  predicate IsFirst(groups: seq<Group>, id: string, i: nat) {
    && i <= |groups|
    && (forall k :: 0 <= k < i ==> groups[k].id != id)
    && (i < |groups| ==> groups[i].id == id)
  }

  /** Where the first group with the id is decides what is deleted or set. */
  lemma {:induction false} DeleteFirstAt(groups: seq<Group>, id: string, i: nat)
    requires IsFirst(groups, id, i)
    ensures DeleteFirst(groups, id) == if i < |groups| then groups[..i] + groups[i + 1..] else groups
  {
    if i > 0 {
      var rest := groups[1..];
      DeleteFirstAt(rest, id, i - 1);
      WithoutOne(groups, i);
    }
  }

  lemma {:induction false} WithoutOne(groups: seq<Group>, i: nat)
    requires 0 < i <= |groups|
    ensures i < |groups| ==> groups[..i] + groups[i + 1..] == [groups[0]] + (groups[1..][..i - 1] + groups[1..][i..])
    ensures [groups[0]] + groups[1..] == groups
  {
  }

  lemma {:induction false} SetFirstAt(groups: seq<Group>, id: string, active: bool, owner: string, i: nat)
    requires IsFirst(groups, id, i)
    ensures SetFirst(groups, id, active, owner)
         == if i < |groups| then groups[i := groups[i].(active := active, owner := owner)] else groups
  {
    if i > 0 {
      SetFirstAt(groups[1..], id, active, owner, i - 1);
    }
  }
}
