/**
 The simulator's resource manager as it is written: loops that splice the shared lists while they
 go over them.
 */
module ResourcesManager {
  import opened Prelude
  import opened ResourceData
  import opened ServerSpec

  // ---------------------------------------------------------------- loops over lists

  /** One step of a loop that splices: the entry after those already kept goes or stays. */
  lemma {:induction false} SpliceStep<T>(kept: seq<T>, all: seq<T>, seen: nat)
    requires seen < |all|
    ensures var s, i := kept + all[seen..], |kept|;
            i < |s| && s[i] == all[seen]
            && s[..i] + s[i + 1..] == kept + all[seen + 1..]
            && s == kept + [all[seen]] + all[seen + 1..]
  {
  }

  lemma {:induction false} SpliceEnd<T>(kept: seq<T>, all: seq<T>)
    ensures kept + all[|all|..] == kept && all[..|all|] == all && all[0..] == all
  {
  }

  method Contains(ids: seq<Id>, x: Id) returns (found: bool)
    ensures found <==> x in ids
  {
    for i := 0 to |ids|
      invariant forall k :: 0 <= k < i ==> ids[k] != x
    {
      if ids[i] == x {
        return true;
      }
    }
    return false;
  }

  /** Splices out the ids that are among those gone. */
  method RemoveIds(ids: seq<Id>, gone: seq<Id>) returns (rest: seq<Id>)
    ensures rest == Keep(ids, NotIn(gone))
  {
    rest := ids;
    ghost var seen, p := 0, NotIn(gone);
    SpliceEnd(rest, ids);
    var i: int := 0;
    while i < |rest|
      invariant seen <= |ids| && i == |Keep(ids[..seen], p)|
      invariant rest == Keep(ids[..seen], p) + ids[seen..]
      decreases |ids| - seen
    {
      SpliceStep(Keep(ids[..seen], p), ids, seen);
      KeepOneMore(ids, p, seen);
      var found := Contains(gone, rest[i]);
      if found {
        rest := rest[..i] + rest[i + 1..];
        i := i - 1;
      }
      i := i + 1;
      seen := seen + 1;
    }
    SpliceEnd(Keep(ids[..seen], p), ids);
  }

  /** deleteResources for the tables of ids. */
  method DeleteResources(resources: seq<Id>, toDelete: seq<Id>, toKeep: seq<Id>) returns (rest: seq<Id>)
    ensures rest == Keep(resources, Stays(toDelete, toKeep))
  {
    rest := resources;
    ghost var seen, p := 0, Stays(toDelete, toKeep);
    SpliceEnd(rest, resources);
    var i: int := 0;
    while i < |rest|
      invariant seen <= |resources| && i == |Keep(resources[..seen], p)|
      invariant rest == Keep(resources[..seen], p) + resources[seen..]
      decreases |resources| - seen
    {
      SpliceStep(Keep(resources[..seen], p), resources, seen);
      KeepOneMore(resources, p, seen);
      seen := seen + 1;
      var keep := Contains(toKeep, rest[i]);
      if keep {
        i := i + 1;
        continue;
      }
      var delete := Contains(toDelete, rest[i]);
      if delete {
        rest := rest[..i] + rest[i + 1..];
        i := i - 1;
      }
      i := i + 1;
    }
    SpliceEnd(Keep(resources[..seen], p), resources);
  }

  /** deleteResources for the devices. */
  method DeleteDevices(devices: seq<Device>, toDelete: seq<Id>, toKeep: seq<Id>) returns (rest: seq<Device>)
    ensures rest == Keep(devices, DeviceStays(toDelete, toKeep))
  {
    rest := devices;
    ghost var seen, p := 0, DeviceStays(toDelete, toKeep);
    SpliceEnd(rest, devices);
    var i: int := 0;
    while i < |rest|
      invariant seen <= |devices| && i == |Keep(devices[..seen], p)|
      invariant rest == Keep(devices[..seen], p) + devices[seen..]
      decreases |devices| - seen
    {
      SpliceStep(Keep(devices[..seen], p), devices, seen);
      KeepOneMore(devices, p, seen);
      seen := seen + 1;
      var keep := Contains(toKeep, rest[i].id);
      if keep {
        i := i + 1;
        continue;
      }
      var delete := Contains(toDelete, rest[i].id);
      if delete {
        rest := rest[..i] + rest[i + 1..];
        i := i - 1;
      }
      i := i + 1;
    }
    SpliceEnd(Keep(devices[..seen], p), devices);
  }

  lemma {:induction false} PrunedOneMore(channels: seq<Channel>, gone: seq<Id>, i: nat)
    requires i < |channels|
    ensures AllPruned(channels[..i + 1], gone) == AllPruned(channels[..i], gone) + Pruned(channels[i], gone)
    ensures AllPruned(channels[..0], gone) == []
  {
    assert channels[..i + 1][..i] == channels[..i];
  }

  lemma {:induction false} PrunedAway(kept: seq<Channel>)
    ensures kept + [] == kept
  {
  }

  lemma {:induction false} PrunedTo(kept: seq<Channel>, all: seq<Channel>, seen: nat, c: Channel)
    requires seen < |all|
    ensures (kept + all[seen..])[|kept| := c] == (kept + [c]) + all[seen + 1..] && |kept + [c]| == |kept| + 1
  {
  }

  /** In case of multi light channels the whole light goes. */
  method PruneChannels(channels: seq<Channel>, gone: seq<Id>) returns (rest: seq<Channel>)
    ensures rest == AllPruned(channels, gone)
  {
    rest := channels;
    ghost var seen := 0;
    SpliceEnd(rest, channels);
    assert AllPruned(channels[..0], gone) == [];
    hide AllPruned;
    hide Keep;
    var i: int := 0;
    while i < |rest|
      invariant seen <= |channels| && i == |AllPruned(channels[..seen], gone)|
      invariant rest == AllPruned(channels[..seen], gone) + channels[seen..]
      decreases |channels| - seen
    {
      ghost var kept := AllPruned(channels[..seen], gone);
      SpliceStep(kept, channels, seen);
      PrunedOneMore(channels, gone, seen);
      var members := rest[i].members;
      var left := RemoveIds(members, gone);
      if left == [] && members != [] {
        PrunedAway(kept);
        rest := rest[..i] + rest[i + 1..];
        i := i - 1;
      } else {
        PrunedTo(kept, channels, seen, Channel(rest[i].id, left));
        rest := rest[i := Channel(rest[i].id, left)];
      }
      i := i + 1;
      seen := seen + 1;
    }
    SpliceEnd(AllPruned(channels[..seen], gone), channels);
  }

  /** The entertainment services that leave but are still members somewhere. */
  method StillUsed(configs: seq<Config>, gone: seq<Id>) returns (used: seq<Id>)
    ensures forall x :: x in used <==> x in gone && IsUsed(configs, x)
  {
    used := [];
    for i := 0 to |configs|
      invariant forall x :: x in used <==> x in gone && exists k :: 0 <= k < i && InChannel(configs[k], x)
    {
      var more := StillUsedIn(configs[i], gone);
      used := used + more;
    }
  }

  method StillUsedIn(ec: Config, gone: seq<Id>) returns (used: seq<Id>)
    ensures forall x :: x in used <==> x in gone && InChannel(ec, x)
  {
    used := [];
    for i := 0 to |ec.channels|
      invariant forall x :: x in used <==> x in gone && exists k :: 0 <= k < i && x in ec.channels[k].members
    {
      ghost var before := used;
      var members := ec.channels[i].members;
      for j := 0 to |members|
        invariant forall x :: x in used <==> x in before || (x in gone && x in members[..j])
      {
        var found := Contains(gone, members[j]);
        if found {
          used := used + [members[j]];
        }
        assert members[..j + 1] == members[..j] + [members[j]];
      }
      assert members[..|members|] == members;
    }
  }

  // ---------------------------------------------------------------- devices

  /** The first entertainment service of a device that leaves. */
  method FindHit(services: seq<Service>, gone: seq<Id>) returns (j: nat)
    ensures j == FirstHit(services, gone, 0)
  {
    j := 0;
    while j < |services|
      invariant j <= |services|
      invariant FirstHit(services, gone, j) == FirstHit(services, gone, 0)
    {
      var found := Contains(gone, services[j].rid);
      if found && services[j].rtype.EntertainmentService? {
        break;
      }
      j := j + 1;
    }
  }

  /** The lists that the loop over the devices fills. */
  datatype Found = Found(lights: seq<Id>, usedLights: seq<Id>, zigbees: seq<Id>, usedZigbees: seq<Id>,
                         devices: seq<Id>, usedDevices: seq<Id>)

  ghost function FoundIn(devices: seq<Device>, hit: Device -> bool, used: Device -> bool): Found {
    Found(Collected(devices, hit, LightService), Collected(devices, used, LightService),
          Collected(devices, hit, ZigbeeService), Collected(devices, used, ZigbeeService),
          DeviceIds(devices, hit), DeviceIds(devices, used))
  }

  ghost function If(c: bool, s: seq<Id>): seq<Id> { if c then s else [] }

  lemma {:induction false} FoundOneMore(devices: seq<Device>, hit: Device -> bool, used: Device -> bool, i: nat)
    requires i < |devices|
    ensures var d, f := devices[i], FoundIn(devices[..i], hit, used);
            FoundIn(devices[..i + 1], hit, used)
            == Found(f.lights + If(hit(d), RidsOf(d.services, LightService)), f.usedLights + If(used(d), RidsOf(d.services, LightService)),
                     f.zigbees + If(hit(d), RidsOf(d.services, ZigbeeService)), f.usedZigbees + If(used(d), RidsOf(d.services, ZigbeeService)),
                     f.devices + If(hit(d), [d.id]), f.usedDevices + If(used(d), [d.id]))
  {
    assert devices[..i + 1][..i] == devices[..i];
  }

  lemma {:induction false} RidsOneMore(services: seq<Service>, rtype: ServiceType, l: nat)
    requires l < |services|
    ensures RidsOf(services[..l + 1], rtype)
         == RidsOf(services[..l], rtype) + if services[l].rtype == rtype then [services[l].rid] else []
    ensures services[..|services|] == services && RidsOf(services[..0], rtype) == []
  {
    assert services[..l + 1][..l] == services[..l];
  }

  lemma {:induction false} Appended(a: seq<Id>, b: seq<Id>, c: seq<Id>)
    ensures a + b + c == a + (b + c) && a + [] == a
  {
  }

  /** The services of a device that is hit are listed, and once more if they are still used. */
  method ListServices(services: seq<Service>, keep: bool, rtype: ServiceType, all: seq<Id>, used: seq<Id>)
    returns (all': seq<Id>, used': seq<Id>)
    ensures all' == all + RidsOf(services, rtype)
    ensures used' == used + If(keep, RidsOf(services, rtype))
  {
    all', used' := all, used;
    Appended(all, [], []);
    Appended(used, [], []);
    for l := 0 to |services|
      invariant all' == all + RidsOf(services[..l], rtype)
      invariant used' == used + If(keep, RidsOf(services[..l], rtype))
    {
      RidsOneMore(services, rtype, l);
      if services[l].rtype == rtype {
        Appended(all, RidsOf(services[..l], rtype), [services[l].rid]);
        all' := all' + [services[l].rid];
        if keep {
          Appended(used, RidsOf(services[..l], rtype), [services[l].rid]);
          used' := used' + [services[l].rid];
        }
      }
    }
    assert services[..|services|] == services;
  }

  method FindDevices(devices: seq<Device>, gone: seq<Id>, toKeep: seq<Id>, ghost configs: seq<Config>) returns (f: Found)
    requires forall x :: x in toKeep <==> x in gone && IsUsed(configs, x)
    ensures f == FoundIn(devices, IsHit(gone), IsHitButUsed(gone, configs))
  {
    ghost var hit, used := IsHit(gone), IsHitButUsed(gone, configs);
    f := Found([], [], [], [], [], []);
    assert FoundIn(devices[..0], hit, used) == f;
    for i := 0 to |devices|
      invariant f == FoundIn(devices[..i], hit, used)
    {
      FoundOneMore(devices, hit, used, i);
      f := ListDevice(devices[i], gone, toKeep, f, configs);
    }
    assert devices[..|devices|] == devices;
  }

  method ListDevice(d: Device, gone: seq<Id>, toKeep: seq<Id>, f: Found, ghost configs: seq<Config>) returns (g: Found)
    requires forall x :: x in toKeep <==> x in gone && IsUsed(configs, x)
    ensures var hit, used := Hit(d, gone), HitButUsed(d, gone, configs);
            g == Found(f.lights + If(hit, RidsOf(d.services, LightService)), f.usedLights + If(used, RidsOf(d.services, LightService)),
                       f.zigbees + If(hit, RidsOf(d.services, ZigbeeService)), f.usedZigbees + If(used, RidsOf(d.services, ZigbeeService)),
                       f.devices + If(hit, [d.id]), f.usedDevices + If(used, [d.id]))
  {
    hide RidsOf;
    hide IsUsed;
    var j := FindHit(d.services, gone);
    if j == |d.services| {
      g := f;
      return;
    }
    var keep := Contains(toKeep, d.services[j].rid);
    var lights, usedLights := ListServices(d.services, keep, LightService, f.lights, f.usedLights);
    var zigbees, usedZigbees := ListServices(d.services, keep, ZigbeeService, f.zigbees, f.usedZigbees);
    g := Found(lights, usedLights, zigbees, usedZigbees, f.devices + [d.id],
               if keep then f.usedDevices + [d.id] else f.usedDevices);
  }

  // ---------------------------------------------------------------- messages

  lemma {:induction false} DeletesOneMore(rtype: ServiceType, ids: seq<Id>, x: Id)
    ensures Deletes(rtype, ids + [x])
         == Deletes(rtype, ids)
            + [Delete(if rtype.LightService? then LightResource(x) else if rtype.ZigbeeService? then ZigbeeResource(x)
                      else EntertainmentResource(x))]
  {
    assert (ids + [x])[..|ids|] == ids;
  }

  method DeleteMessages(rtype: ServiceType, ids: seq<Id>, toKeep: seq<Id>) returns (batch: seq<Change>)
    ensures batch == Deletes(rtype, Keep(ids, NotIn(toKeep)))
  {
    batch := [];
    ghost var p := NotIn(toKeep);
    assert Keep(ids[..0], p) == [];
    for i := 0 to |ids|
      invariant batch == Deletes(rtype, Keep(ids[..i], p))
    {
      KeepOneMore(ids, p, i);
      var keep := Contains(toKeep, ids[i]);
      if keep {
        assert Keep(ids[..i + 1], p) == Keep(ids[..i], p);
        continue;
      }
      DeletesOneMore(rtype, Keep(ids[..i], p), ids[i]);
      batch := batch + [Delete(if rtype.LightService? then LightResource(ids[i]) else if rtype.ZigbeeService? then ZigbeeResource(ids[i])
                               else EntertainmentResource(ids[i]))];
    }
    assert ids[..|ids|] == ids;
  }

  // ---------------------------------------------------------------- the manager

  class Manager {
    var lights: seq<Id>
    var zigbees: seq<Id>
    var entertainments: seq<Id>
    var devices: seq<Device>
    var configs: seq<Config>

    ghost function View(): Tables
      reads this
    {
      Tables(lights, zigbees, entertainments, devices, configs)
    }

    constructor (t: Tables)
      ensures View() == t
    {
      lights, zigbees, entertainments, devices, configs := t.lights, t.zigbees, t.entertainments, t.devices, t.configs;
    }

    method GetEntertainmentConfiguration(ecId: Id) returns (k: nat)
      ensures k == ServerSpec.FindConfig(configs, ecId, 0)
    {
      k := 0;
      while k < |configs|
        invariant k <= |configs|
        invariant ServerSpec.FindConfig(configs, ecId, k) == ServerSpec.FindConfig(configs, ecId, 0)
      {
        if configs[k].id == ecId {
          break;
        }
        k := k + 1;
      }
    }

    /** The ids in use are marked in a list that grows as needed; the first unmarked one is free. */
    static method FindFreeChannel(channels: seq<Channel>) returns (free: Option<nat>)
      ensures free == FreeChannel(channels)
    {
      var taken: set<nat> := {};
      var length := CHANNEL_IDS;
      for i := 0 to |channels|
        invariant length == IdListLength(channels[..i])
        invariant forall x :: x in taken <==> exists k :: 0 <= k < i && channels[k].id == x
      {
        assert channels[..i + 1][..i] == channels[..i];
        taken := taken + {channels[i].id};
        if channels[i].id >= length {
          length := channels[i].id + 1;
        }
      }
      assert channels[..|channels|] == channels;
      var i := 0;
      while i < length
        invariant i <= length
        invariant FreeFrom(channels, i, length) == FreeChannel(channels)
      {
        if i !in taken {
          return Some(i);
        }
        i := i + 1;
      }
      return None;
    }

    method AddLight(ecId: Id, n: NewIds) returns (reply: Reply)
      modifies this
      ensures (reply, View()) == ServerSpec.AddLight(old(View()), ecId, n)
    {
      var k := GetEntertainmentConfiguration(ecId);
      if k == |configs| {
        return Failed;
      }
      var free := FindFreeChannel(configs[k].channels);
      if free.None? {
        return Failed;
      }
      lights := lights + [n.light];
      entertainments := entertainments + [n.entertainment];
      zigbees := zigbees + [n.zigbee];
      devices := devices + [NewDevice(n)];
      configs := configs[k := configs[k].(channels := configs[k].channels + [Channel(free.value, [n.entertainment])])];
      configs := configs[k := configs[k].(lights := configs[k].lights + [n.light])];
      configs := configs[k := configs[k].(locations := configs[k].locations + [n.entertainment])];
      assert configs == old(configs)[k := WithLight(old(configs)[k], free.value, n)];
      var batch := [Add(LightResource(n.light))];
      batch := batch + [Add(ZigbeeResource(n.zigbee))];
      batch := batch + [Add(DeviceResource(NewDevice(n)))];
      batch := batch + [Update(ConfigResource(configs[k]))];
      assert batch == LightBatch(configs[k], n);
      return Succeeded(batch);
    }

    /** The first channel with the id goes; its members leave. */
    method TakeChannel(k: nat, channelId: nat) returns (gone: seq<Id>)
      requires k < |configs|
      modifies this`configs
      ensures gone == Leaving(old(configs)[k], channelId)
      ensures configs == old(configs)[k := old(configs)[k].(channels := ChannelRemoved(old(configs)[k].channels, channelId))]
    {
      var channels := configs[k].channels;
      var i := 0;
      while i < |channels|
        invariant i <= |channels|
        invariant FindChannel(channels, channelId, i) == FindChannel(channels, channelId, 0)
      {
        if channels[i].id == channelId {
          gone := channels[i].members;
          configs := configs[k := configs[k].(channels := channels[..i] + channels[i + 1..])];
          return;
        }
        i := i + 1;
      }
      gone := [];
    }

    method RemoveMembers(k: nat, channelId: nat) returns (gone: seq<Id>)
      requires k < |configs|
      modifies this`configs
      ensures gone == Leaving(old(configs)[k], channelId)
      ensures configs == old(configs)[k := WithoutMembers(old(configs)[k], channelId)]
    {
      gone := TakeChannel(k, channelId);
      var channels := PruneChannels(configs[k].channels, gone);
      configs := configs[k := configs[k].(channels := channels)];
      var locations := RemoveIds(configs[k].locations, gone);
      configs := configs[k := configs[k].(locations := locations)];
    }

    method DeleteChannel(ecId: Id, channelId: nat) returns (reply: Reply)
      modifies this
      ensures (reply, View()) == ServerSpec.DeleteChannel(old(View()), ecId, channelId)
    {
      hide Leaving;
      hide WithoutMembers;
      hide Keep;
      hide IsUsed;
      var k := GetEntertainmentConfiguration(ecId);
      if k == |configs| {
        return Failed;
      }
      ghost var t := View();
      ghost var p := PlanFor(t, k, channelId);
      var gone := RemoveMembers(k, channelId);
      var toKeep := StillUsed(configs, gone);
      var f := FindDevices(devices, gone, toKeep, configs);
      UsedIsKept(gone, toKeep, p.configs, entertainments);
      var own := RemoveIds(configs[k].lights, f.lights);
      configs := configs[k := configs[k].(lights := own)];
      lights := DeleteResources(lights, f.lights, f.usedLights);
      zigbees := DeleteResources(zigbees, f.zigbees, f.usedZigbees);
      entertainments := DeleteResources(entertainments, gone, toKeep);
      devices := DeleteDevices(devices, f.devices, f.usedDevices);
      var batch := DeleteMessages(LightService, f.lights, f.usedLights);
      var more := DeleteMessages(EntertainmentService, gone, toKeep);
      batch := batch + more;
      more := DeleteMessages(ZigbeeService, f.zigbees, f.usedZigbees);
      batch := batch + more;
      batch := batch + [Update(ConfigResource(configs[k]))];
      return Succeeded(batch);
    }
  }

  /** The list of services to keep stands for being used. */
  lemma {:induction false} UsedIsKept(gone: seq<Id>, toKeep: seq<Id>, configs: seq<Config>, entertainments: seq<Id>)
    requires forall x :: x in toKeep <==> x in gone && IsUsed(configs, x)
    ensures Keep(entertainments, Stays(gone, toKeep)) == Keep(entertainments, StaysUsed(gone, configs))
    ensures Keep(gone, NotIn(toKeep)) == Keep(gone, IsUnused(configs))
  {
    KeepSame(entertainments, Stays(gone, toKeep), StaysUsed(gone, configs));
    KeepSame(gone, NotIn(toKeep), IsUnused(configs));
  }
}
