/**
 The client's copy of a bridge as it is written: maps and group lists that the handlers change, and
 an event parser that sorts a batch by kind before handling it.
 */
module BridgeReplica {
  import opened Prelude
  import opened ResourceData
  import opened ReplicaSpec

  function IsOfKind(kind: Kind): Change -> bool { (c: Change) => KindOf(c) == kind }

  /** Handling the sorted list is handling the changes of the kind in the batch. */
  lemma {:induction false} SortedIsApplied(r: Replica, batch: seq<Change>, kind: Kind)
    ensures Applied(r, Keep(batch, IsOfKind(kind)), kind) == Applied(r, batch, kind)
  {
    hide Changed;
    if batch != [] {
      var front, last := batch[..|batch| - 1], batch[|batch| - 1];
      SortedIsApplied(r, front, kind);
      if KindOf(last) == kind {
        assert Keep(batch, IsOfKind(kind))[..|Keep(batch, IsOfKind(kind))| - 1] == Keep(front, IsOfKind(kind));
      } else {
        assert Keep(batch, IsOfKind(kind)) == Keep(front, IsOfKind(kind));
      }
    }
  }

  lemma {:induction false} AppliedOneMore(r: Replica, changes: seq<Change>, kind: Kind, i: nat)
    requires i < |changes| && KindOf(changes[i]) == kind
    ensures Applied(r, changes[..i + 1], kind) == Changed(Applied(r, changes[..i], kind), changes[i])
  {
    hide Changed;
    assert changes[..i + 1][..i] == changes[..i];
  }

  class Retriever {
    var devices: seq<Device>
    var zigbees: set<Id>
    var entertainments: set<Id>
    var lights: set<Id>
    var groups: seq<GroupView>

    ghost function View(): Replica
      reads this
    {
      Replica(devices, zigbees, entertainments, lights, groups)
    }

    constructor (r: Replica)
      ensures View() == r
    {
      devices, zigbees, entertainments, lights, groups := r.devices, r.zigbees, r.entertainments, r.lights, r.groups;
    }

    // -------------------------------------------------------------- looking things up

    method GetDeviceOf(rid: Id) returns (i: nat)
      ensures i == FindOwner(devices, rid, 0)
    {
      i := 0;
      while i < |devices|
        invariant i <= |devices|
        invariant FindOwner(devices, rid, i) == FindOwner(devices, rid, 0)
      {
        var services := devices[i].services;
        var k := 0;
        while k < |services| && services[k].rid != rid
          invariant k <= |services|
          invariant forall j :: 0 <= j < k ==> services[j].rid != rid
        {
          k := k + 1;
        }
        if k < |services| {
          break;
        }
        i := i + 1;
      }
    }

    method GetLightOf(rid: Id) returns (light: Option<Id>)
      ensures light == LightOf(devices, rid)
    {
      var i := GetDeviceOf(rid);
      if i == |devices| {
        return None;
      }
      var services := devices[i].services;
      for k := 0 to |services|
        invariant FirstLight(services, k) == FirstLight(services, 0)
      {
        if services[k].rtype.LightService? {
          return Some(services[k].rid);
        }
      }
      return None;
    }

    method GetGroupById(id: Id) returns (i: nat)
      ensures i == FindGroup(groups, id, 0)
    {
      i := 0;
      while i < |groups|
        invariant i <= |groups|
        invariant FindGroup(groups, id, i) == FindGroup(groups, id, 0)
      {
        if groups[i].id == id {
          break;
        }
        i := i + 1;
      }
    }

    method FindDeviceIndex(id: Id) returns (i: nat)
      ensures i == FindDevice(devices, id, 0)
    {
      i := 0;
      while i < |devices|
        invariant i <= |devices|
        invariant FindDevice(devices, id, i) == FindDevice(devices, id, 0)
      {
        if devices[i].id == id {
          break;
        }
        i := i + 1;
      }
    }

    // -------------------------------------------------------------- devices, zigbee entries, entertainments, lights

    method AddDevice(d: Device)
      modifies this`devices
      ensures devices == DeviceAdded(old(devices), d)
    {
      var found := false;
      var k := 0;
      while k < |d.services| && !found
        invariant k <= |d.services|
        invariant found <==> exists j :: 0 <= j < k && (d.services[j].rtype.LightService? || d.services[j].rtype.BridgeService?)
      {
        found := d.services[k].rtype.LightService? || d.services[k].rtype.BridgeService?;
        k := k + 1;
      }
      if found {
        var i := FindDeviceIndex(d.id);
        if i < |devices| {
          devices := devices[i := d];
        } else {
          devices := devices + [d];
        }
      }
    }

    method DeleteDevice(id: Id)
      modifies this`devices
      ensures devices == DeviceDeleted(old(devices), id)
    {
      var i := FindDeviceIndex(id);
      if i < |devices| {
        devices := devices[..i] + devices[i + 1..];
      }
    }

    method AddZigbeeConnectivity(id: Id)
      modifies this`zigbees
      ensures zigbees == if FindOwner(devices, id, 0) < |devices| then old(zigbees) + {id} else old(zigbees)
    {
      var i := GetDeviceOf(id);
      if i < |devices| {
        zigbees := zigbees + {id};
      }
    }

    // -------------------------------------------------------------- entertainment configurations

    method ParseMembers(members: seq<Id>) returns (lightIds: seq<Id>)
      ensures lightIds == LightsOf(devices, members)
    {
      lightIds := [];
      for j := 0 to |members|
        invariant lightIds == LightsOf(devices, members[..j])
      {
        assert members[..j + 1][..j] == members[..j];
        var light := GetLightOf(members[j]);
        if light.Some? {
          lightIds := lightIds + [light.value];
        }
      }
      assert members[..|members|] == members;
    }

    method ParseChannels(channels: seq<Channel>) returns (ids: seq<nat>, lightsOf: map<nat, seq<Id>>)
      ensures ids == ChannelIds(channels) && lightsOf == LightMap(devices, channels)
    {
      ids, lightsOf := [], map[];
      for i := 0 to |channels|
        invariant ids == ChannelIds(channels[..i]) && lightsOf == LightMap(devices, channels[..i])
      {
        assert channels[..i + 1][..i] == channels[..i];
        ids := ids + [channels[i].id];
        var lightIds := ParseMembers(channels[i].members);
        if channels[i].id !in lightsOf {
          lightsOf := lightsOf[channels[i].id := lightIds];
        }
      }
      assert channels[..|channels|] == channels;
    }

    method AddEntertainmentConfiguration(ec: Config)
      modifies this`groups
      ensures groups == old(groups) + [ViewOf(devices, ec)]
    {
      var ids, lightsOf := ParseChannels(ec.channels);
      groups := groups + [GroupView(ec.id, ids, lightsOf)];
    }

    method UpdateEntertainmentConfiguration(ec: Config)
      modifies this`groups
      ensures View() == ConfigUpdated(old(View()), ec)
    {
      var i := GetGroupById(ec.id);
      if i == |groups| {
        return;
      }
      var ids, lightsOf := ParseChannels(ec.channels);
      groups := groups[i := GroupView(ec.id, ids, lightsOf)];
    }

    method DeleteEntertainmentConfiguration(id: Id)
      modifies this`groups
      ensures View() == ConfigDeleted(old(View()), id)
    {
      var i := GetGroupById(id);
      if i < |groups| {
        groups := groups[..i] + groups[i + 1..];
      }
    }

    // -------------------------------------------------------------- events

    method Handle(c: Change)
      modifies this
      ensures View() == Changed(old(View()), c)
    {
      match c {
        case Add(DeviceResource(d)) => AddDevice(d);
        case Delete(DeviceResource(d)) => DeleteDevice(d.id);
        case Add(ZigbeeResource(x)) => AddZigbeeConnectivity(x);
        case Delete(ZigbeeResource(x)) => zigbees := zigbees - {x};
        case Add(EntertainmentResource(x)) => entertainments := entertainments + {x};
        case Delete(EntertainmentResource(x)) => entertainments := entertainments - {x};
        case Add(LightResource(x)) => lights := lights + {x};
        case Delete(LightResource(x)) => lights := lights - {x};
        case Add(ConfigResource(ec)) => AddEntertainmentConfiguration(ec);
        case Update(ConfigResource(ec)) => UpdateEntertainmentConfiguration(ec);
        case Delete(ConfigResource(ec)) => DeleteEntertainmentConfiguration(ec.id);
        case _ =>
      }
    }

    method HandleAll(changes: seq<Change>, kind: Kind)
      requires forall i :: 0 <= i < |changes| ==> KindOf(changes[i]) == kind
      modifies this
      ensures View() == Applied(old(View()), changes, kind)
    {
      hide Changed;
      ghost var r := View();
      for i := 0 to |changes|
        invariant View() == Applied(r, changes[..i], kind)
      {
        AppliedOneMore(r, changes, kind, i);
        Handle(changes[i]);
      }
      assert changes[..|changes|] == changes;
    }

    /** The changes of one kind in a batch, in their order. */
    static method Sorted(batch: seq<Change>, kind: Kind) returns (list: seq<Change>)
      ensures list == Keep(batch, IsOfKind(kind))
      ensures forall i :: 0 <= i < |list| ==> KindOf(list[i]) == kind
    {
      list := [];
      for i := 0 to |batch|
        invariant list == Keep(batch[..i], IsOfKind(kind))
        invariant forall j :: 0 <= j < |list| ==> KindOf(list[j]) == kind
      {
        KeepOneMore(batch, IsOfKind(kind), i);
        if KindOf(batch[i]) == kind {
          list := list + [batch[i]];
        }
      }
      assert batch[..|batch|] == batch;
    }

    method HandleKind(batch: seq<Change>, kind: Kind)
      modifies this
      ensures View() == Applied(old(View()), batch, kind)
    {
      SortedIsApplied(View(), batch, kind);
      var list := Sorted(batch, kind);
      HandleAll(list, kind);
    }

    method ParseJsonEvent(batch: seq<Change>)
      modifies this
      ensures View() == BatchApplied(old(View()), batch)
    {
      hide Applied;
      HandleKind(batch, OfDevice);
      HandleKind(batch, OfZigbee);
      HandleKind(batch, OfEntertainment);
      HandleKind(batch, OfLight);
      HandleKind(batch, OfConfig);
    }
  }
}
