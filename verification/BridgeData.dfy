/**
 The bridge as the library sees it: its groups, the status derived from its fields, and
 the list of known bridges whose last element is the active one.
 */
module BridgeData {
  import opened Prelude

  const NO_SELECTED_GROUP := "___NO_SELECTED_GROUP___"
  const CLIENT_KEY_LENGTH: nat := 32

  datatype Light = Light(id: string, x: real, y: real, red: real, green: real, blue: real, reachable: bool)

  datatype Group = Group(id: string, name: string, active: bool, owner: string,
                         lights: seq<Light>, onState: bool, brightness: real)

  datatype BridgeStatus =
    | Empty | NotFound | InvalidModel | NotConnectable | NotConnected | InvalidVersion
    | InvalidClientKey | NoGroupAvailable | InvalidGroupSelected | Busy | Ready | Streaming

  /** `modelSupported`, `apiSupported` and `swSupportsClipV2` stand for the outcome of comparing
      the corresponding string with the configured minimum. */
  datatype Bridge = Bridge(id: string, name: string, ip: string, modelId: string, modelSupported: bool,
                           apiversion: string, apiSupported: bool, swSupportsClipV2: bool,
                           user: string, clientKey: string, appId: string,
                           validIp: bool, authorized: bool, busy: bool,
                           groups: seq<Group>, selectedGroup: string)
  {
    predicate IsEmpty() { ip == "" }

    predicate IsFound() { !IsEmpty() && id != "" }

    predicate IsConnectable() { IsFound() && user != "" && authorized && modelSupported }

    predicate IsConnected() { IsConnectable() && validIp }

    predicate IsValidClientKey() { |clientKey| == CLIENT_KEY_LENGTH }

    predicate IsSupportingClipV2() { swSupportsClipV2 && (modelId == "" || modelSupported) }

    predicate HasEverBeenAuthorizedForStreaming() {
      IsFound() && modelSupported && user != "" && IsValidClientKey()
    }

    predicate IsAuthorizedForStreaming() { HasEverBeenAuthorizedForStreaming() && authorized }

    function GetGroupById(groupId: string): Option<Group> { FirstGroup(groups, groupId) }

    function GetGroup(): Option<Group> { GetGroupById(selectedGroup) }

    predicate IsValidGroupSelected() { GetGroup().Some? }

    function GetGroupLights(): seq<Light> {
      match GetGroup()
      case None => []
      case Some(g) => g.lights
    }

    function GetStatus(): BridgeStatus {
      if IsEmpty() then Empty
      else if !IsFound() then NotFound
      else if !modelSupported then InvalidModel
      else if !IsConnectable() then NotConnectable
      else if !IsConnected() then NotConnected
      else if !apiSupported then InvalidVersion
      else if !IsValidClientKey() then InvalidClientKey
      else if groups == [] then NoGroupAvailable
      else if !IsValidGroupSelected() then InvalidGroupSelected
      else if busy then BridgeStatus.Busy
      else if GetGroup().value.active && GetGroup().value.owner == appId then Streaming
      else Ready
    }

    predicate IsReadyToStream() { GetStatus() == Ready }

    predicate IsStreaming() { GetStatus() == Streaming }

    /** Selecting a group succeeds exactly when the bridge has it, and changes nothing otherwise. */
    function SelectGroup(groupId: string): (r: (bool, Bridge))
      ensures r.0 ==> r.1.IsValidGroupSelected() && r.1.GetGroup().value.id == groupId
      ensures !r.0 ==> r.1 == this && forall g :: g in groups ==> g.id != groupId
    {
      FirstGroupIsSound(groups, groupId);
      if GetGroupById(groupId).Some? then (true, this.(selectedGroup := groupId)) else (false, this)
    }

    function SelectGroupIfOnlyOneOption(): (r: (bool, Bridge))
      ensures r.0 <==> |groups| == 1
      ensures r.0 ==> r.1.IsValidGroupSelected()
    {
      if |groups| == 1 then (true, this.(selectedGroup := groups[0].id)) else (false, this)
    }

    function Cleared(): Bridge {
      this.(id := "", name := "", ip := "", modelId := "", modelSupported := false, apiversion := "",
            apiSupported := false, user := "", clientKey := "", appId := "", validIp := false,
            authorized := false, busy := false, groups := [], selectedGroup := "")
    }
  }

  function NewBridge(): Bridge {
    Bridge("", "", "", "", false, "", false, false, "", "", "", false, false, false, [], NO_SELECTED_GROUP)
  }

  function FirstGroup(groups: seq<Group>, id: string): Option<Group> {
    if groups == [] then None
    else if groups[0].id == id then Some(groups[0])
    else FirstGroup(groups[1..], id)
  }

  lemma {:induction false} FirstGroupIsSound(groups: seq<Group>, id: string)
    ensures FirstGroup(groups, id).Some? <==> exists g :: g in groups && g.id == id
    ensures FirstGroup(groups, id).Some? ==>
              FirstGroup(groups, id).value in groups && FirstGroup(groups, id).value.id == id
  {
    if groups != [] {
      FirstGroupIsSound(groups[1..], id);
      assert groups == [groups[0]] + groups[1..];
    }
  }

  /** A bridge streams exactly when it is fully usable, free, and the selected group is active for this app. */
  lemma {:induction false} StreamingMeans(b: Bridge)
    ensures b.IsStreaming() <==>
            b.IsConnected() && b.apiSupported && b.IsValidClientKey() && !b.busy &&
            b.IsValidGroupSelected() && b.GetGroup().value.active && b.GetGroup().value.owner == b.appId
    ensures !(b.IsStreaming() && b.IsReadyToStream())
  {
    if b.groups == [] {
      assert b.GetGroup() == None;
    }
  }

  // ---------------------------------------------------------------- known bridges

  type KnownBridges = seq<Bridge>

  function GetActiveBridge(data: KnownBridges): Bridge {
    if data == [] then NewBridge() else data[|data| - 1]
  }

  /** The active bridge object is written in place. */
  function WithActive(data: KnownBridges, b: Bridge): (r: KnownBridges)
    ensures GetActiveBridge(r) == b
  {
    if data == [] then [b] else data[|data| - 1 := b]
  }

  function RemoveBridge(data: KnownBridges, id: string): KnownBridges {
    if data == [] then []
    else if data[0].id == id then data[1..]
    else [data[0]] + RemoveBridge(data[1..], id)
  }

  /** The active bridge is forgotten when another takes over, unless it was once authorized for streaming. */
  function Kept(data: KnownBridges): KnownBridges {
    if data == [] then []
    else if data[|data| - 1].HasEverBeenAuthorizedForStreaming() then data
    else data[..|data| - 1]
  }

  function SetActiveBridge(data: KnownBridges, b: Bridge): (r: KnownBridges)
    ensures GetActiveBridge(r) == b
  {
    RemoveBridge(Kept(data), b.id) + [b]
  }

  function ClearActiveBridge(data: KnownBridges): KnownBridges {
    (if data == [] then [] else data[..|data| - 1]) + [NewBridge()]
  }

  ghost predicate UniqueIds(data: KnownBridges) {
    forall i, j :: 0 <= i < j < |data| ==> data[i].id != data[j].id
  }

  lemma {:induction false} RemoveBridgeMembers(data: KnownBridges, id: string, b: Bridge)
    requires UniqueIds(data)
    ensures b in RemoveBridge(data, id) <==> b in data && b.id != id
  {
    if data != [] {
      assert data == [data[0]] + data[1..];
      RemoveBridgeMembers(data[1..], id, b);
    }
  }

  lemma {:induction false} RemoveBridgeRemoves(data: KnownBridges, id: string)
    requires UniqueIds(data)
    ensures UniqueIds(RemoveBridge(data, id))
    ensures forall b :: b in RemoveBridge(data, id) <==> b in data && b.id != id
  {
    forall b ensures b in RemoveBridge(data, id) <==> b in data && b.id != id {
      RemoveBridgeMembers(data, id, b);
    }
    if data != [] && data[0].id != id {
      RemoveBridgeRemoves(data[1..], id);
      var rest := RemoveBridge(data[1..], id);
      forall j | 0 <= j < |rest| ensures rest[j].id != data[0].id {
        assert rest[j] in data[1..];
      }
    }
  }

  lemma {:induction false} KeptMembers(data: KnownBridges)
    requires UniqueIds(data)
    ensures UniqueIds(Kept(data))
    ensures forall k :: k in Kept(data) <==> k in data && (k != GetActiveBridge(data) || k.HasEverBeenAuthorizedForStreaming())
  {
    if data != [] {
      assert data == data[..|data| - 1] + [data[|data| - 1]];
    }
  }

  /** Making a bridge active keeps ids unique and forgets only the same bridge and an active one that
      was never authorized for streaming. */
  lemma {:induction false} SetActiveKeepsKnownBridges(data: KnownBridges, b: Bridge)
    requires UniqueIds(data)
    ensures UniqueIds(SetActiveBridge(data, b))
    ensures forall k :: k in SetActiveBridge(data, b) <==>
              k == b || (k in data && k.id != b.id && (k != GetActiveBridge(data) || k.HasEverBeenAuthorizedForStreaming()))
  {
    KeptMembers(data);
    RemoveBridgeRemoves(Kept(data), b.id);
    var rest := RemoveBridge(Kept(data), b.id);
    assert forall i :: 0 <= i < |rest| ==> rest[i] in rest;
  }

  /** Known bridges that were found again get their new address; the most recent one becomes active. */
  function Refreshed(known: Bridge, found: seq<Bridge>): Option<Bridge> {
    if !known.IsAuthorizedForStreaming() then None
    else match FirstWithId(found, known.id)
         case None => None
         case Some(f) => Some(known.(ip := f.ip, validIp := true))
  }

  function FirstWithId(found: seq<Bridge>, id: string): Option<Bridge> {
    if found == [] then None
    else if found[0].id == id then Some(found[0])
    else FirstWithId(found[1..], id)
  }

  function RefreshAll(data: KnownBridges, found: seq<Bridge>): (r: KnownBridges)
    ensures |r| == |data|
  {
    if data == [] then []
    else [match Refreshed(data[0], found) case None => data[0] case Some(b) => b] + RefreshAll(data[1..], found)
  }

  function LastRefreshed(data: KnownBridges, found: seq<Bridge>): Option<Bridge>
    decreases |data|
  {
    if data == [] then None
    else match Refreshed(data[|data| - 1], found)
         case Some(b) => Some(b)
         case None => LastRefreshed(data[..|data| - 1], found)
  }

  /** On success the active bridge is a known, authorized bridge that is reachable again. */
  function RediscoverKnownBridge(data: KnownBridges, found: seq<Bridge>): (r: (bool, KnownBridges))
    ensures r.0 ==> GetActiveBridge(r.1).validIp && GetActiveBridge(r.1).authorized
  {
    LastRefreshedIsUsable(data, found);
    match LastRefreshed(data, found)
    case None => (false, data)
    case Some(b) => (true, SetActiveBridge(RefreshAll(data, found), b))
  }

  lemma {:induction false} LastRefreshedIsUsable(data: KnownBridges, found: seq<Bridge>)
    ensures var b := LastRefreshed(data, found); b.Some? ==> b.value.validIp && b.value.authorized
    ensures LastRefreshed(data, found).None? ==> RefreshAll(data, found) == data
    decreases |data|
  {
    if data != [] && Refreshed(data[|data| - 1], found).None? {
      LastRefreshedIsUsable(data[..|data| - 1], found);
      if LastRefreshed(data, found).None? {
        RefreshAllSnoc(data[..|data| - 1], data[|data| - 1], found);
        assert data[..|data| - 1] + [data[|data| - 1]] == data;
      }
    }
  }

  lemma {:induction false} RefreshAllSnoc(data: KnownBridges, b: Bridge, found: seq<Bridge>)
    ensures RefreshAll(data + [b], found)
         == RefreshAll(data, found) + [match Refreshed(b, found) case None => b case Some(x) => x]
  {
    if data == [] {
      assert data + [b] == [b];
      assert RefreshAll([b][1..], found) == [];
    } else {
      assert (data + [b])[0] == data[0] && (data + [b])[1..] == data[1..] + [b];
      RefreshAllSnoc(data[1..], b, found);
    }
  }
}
