/**
 The references between the resources of the simulated bridge stay resolvable.  Light services are
 kept apart: the simulator's own configurations list one that no device has.
 */
module ServerIntegrity {
  import opened Prelude
  import opened ResourceData
  import opened ServerSpec

  // ---------------------------------------------------------------- what the lists contain

  ghost predicate Owns(d: Device, x: Id, rtype: ServiceType) { Service(x, rtype) in d.services }

  lemma {:induction false} RidsOfMembers(services: seq<Service>, rtype: ServiceType)
    ensures forall x :: x in RidsOf(services, rtype) <==> Service(x, rtype) in services
  {
    if services != [] {
      var front, last := services[..|services| - 1], services[|services| - 1];
      RidsOfMembers(front, rtype);
      assert services == front + [last];
      assert last == Service(last.rid, last.rtype);
    }
  }

  ghost predicate OwnedBySome(devices: seq<Device>, p: Device -> bool, x: Id, rtype: ServiceType) {
    exists d :: d in devices && p(d) && Owns(d, x, rtype)
  }

  lemma {:induction false} CollectedMembers(devices: seq<Device>, p: Device -> bool, rtype: ServiceType, x: Id)
    ensures x in Collected(devices, p, rtype) <==> OwnedBySome(devices, p, x, rtype)
  {
    if devices != [] {
      var front, last := devices[..|devices| - 1], devices[|devices| - 1];
      CollectedMembers(front, p, rtype, x);
      RidsOfMembers(last.services, rtype);
      assert devices == front + [last];
      if OwnedBySome(devices, p, x, rtype) {
        var d :| d in devices && p(d) && Owns(d, x, rtype);
        assert d in front || d == last;
      }
    }
  }

  lemma {:induction false} DeviceIdsMembers(devices: seq<Device>, p: Device -> bool, id: Id)
    ensures id in DeviceIds(devices, p) <==> exists d :: d in devices && p(d) && d.id == id
  {
    if devices != [] {
      var front, last := devices[..|devices| - 1], devices[|devices| - 1];
      DeviceIdsMembers(front, p, id);
      assert devices == front + [last];
      if p(last) && last.id == id {
        assert last in devices;
      }
    }
  }

  // ---------------------------------------------------------------- integrity

  ghost predicate UniqueIds(t: Tables) {
    && Pairwise(t.lights, DifferentIds()) && Pairwise(t.zigbees, DifferentIds()) && Pairwise(t.entertainments, DifferentIds())
    && Pairwise(t.devices, DifferentDevices()) && Pairwise(t.configs, DifferentConfigs())
  }

  /** A service is listed in the table of its type, and in no other. */
  ghost predicate Resolves(t: Tables, s: Service) {
    && (s.rid in t.lights <==> s.rtype.LightService?)
    && (s.rid in t.zigbees <==> s.rtype.ZigbeeService?)
    && (s.rid in t.entertainments <==> s.rtype.EntertainmentService?)
  }

  ghost predicate ServicesResolve(t: Tables) { forall d, s :: d in t.devices && s in d.services ==> Resolves(t, s) }

  ghost predicate OneOwner(devices: seq<Device>) {
    forall d, e, s, u :: d in devices && e in devices && s in d.services && u in e.services && s.rid == u.rid ==> d == e
  }

  ghost predicate OneEntertainment(devices: seq<Device>) {
    forall d, x, y :: d in devices && Owns(d, x, EntertainmentService) && Owns(d, y, EntertainmentService) ==> x == y
  }

  ghost predicate ConfigResolves(t: Tables, ec: Config) {
    && (forall x :: InChannel(ec, x) ==> x in t.entertainments)
    && (forall x :: x in ec.locations ==> InChannel(ec, x))
    && Pairwise(ec.channels, DifferentChannels())
  }

  ghost predicate ConfigsResolve(t: Tables) { forall i :: 0 <= i < |t.configs| ==> ConfigResolves(t, t.configs[i]) }

  /** Everything but the light services that configurations list. */
  ghost predicate Integrity(t: Tables) {
    UniqueIds(t) && ServicesResolve(t) && OneOwner(t.devices) && OneEntertainment(t.devices) && ConfigsResolve(t)
  }

  /** The light belongs to a device whose entertainment service is a member of the configuration. */
  ghost predicate LightBelongs(devices: seq<Device>, ec: Config, x: Id) {
    exists d, y :: d in devices && Owns(d, x, LightService) && Owns(d, y, EntertainmentService) && InChannel(ec, y)
  }

  /** All light services of all configurations belong. */
  ghost predicate LightsBelong(t: Tables) {
    forall i, x :: 0 <= i < |t.configs| && x in t.configs[i].lights ==> LightBelongs(t.devices, t.configs[i], x)
  }

  /** From t to u, a light service of a configuration belongs, unless the configuration listed it before and it did
      not belong then either. */
  ghost predicate NoNewDangling(t: Tables, u: Tables) {
    |u.configs| == |t.configs| &&
    forall i, x :: 0 <= i < |u.configs| && x in u.configs[i].lights ==>
      LightBelongs(u.devices, u.configs[i], x) ||
      (x in t.configs[i].lights && !LightBelongs(t.devices, t.configs[i], x))
  }

  lemma {:induction false} NoNewDanglingOn(t: Tables, u: Tables, w: Tables)
    requires NoNewDangling(t, u) && NoNewDangling(u, w)
    ensures NoNewDangling(t, w)
  {
    hide LightBelongs;
  }

  /** So what belongs at the start belongs for good. */
  lemma {:induction false} LightsBelongOn(t: Tables, u: Tables)
    requires NoNewDangling(t, u) && LightsBelong(t)
    ensures LightsBelong(u)
  {
    hide LightBelongs;
  }

  /** Locations, and light services that belong, are then resolvable too. */
  lemma {:induction false} ReferencesResolve(t: Tables, ec: Config, x: Id)
    requires Integrity(t) && ec in t.configs
    ensures x in ec.locations ==> x in t.entertainments
    ensures x in ec.lights && LightBelongs(t.devices, ec, x) ==> x in t.lights
  {
    var i :| 0 <= i < |t.configs| && t.configs[i] == ec;
    assert ConfigResolves(t, t.configs[i]);
    if x in ec.lights && LightBelongs(t.devices, ec, x) {
      var d, y :| d in t.devices && Owns(d, x, LightService) && Owns(d, y, EntertainmentService) && InChannel(ec, y);
      assert Resolves(t, Service(x, LightService));
    }
  }

  // ---------------------------------------------------------------- which members are left

  lemma {:induction false} PrunedMembers(channels: seq<Channel>, gone: seq<Id>)
    ensures forall c :: c in AllPruned(channels, gone) ==> exists b :: b in channels && b.id == c.id && c.members == Keep(b.members, NotIn(gone))
    ensures forall b :: b in channels && b.members != [] && Keep(b.members, NotIn(gone)) != []
              ==> Channel(b.id, Keep(b.members, NotIn(gone))) in AllPruned(channels, gone)
  {
    if channels != [] {
      var front, last := channels[..|channels| - 1], channels[|channels| - 1];
      PrunedMembers(front, gone);
      assert channels == front + [last];
      forall c | c in AllPruned(channels, gone)
        ensures exists b :: b in channels && b.id == c.id && c.members == Keep(b.members, NotIn(gone))
      {
        if c in AllPruned(front, gone) {
          var b :| b in front && b.id == c.id && c.members == Keep(b.members, NotIn(gone));
          assert b in channels;
        } else {
          assert last in channels;
        }
      }
    }
  }

  lemma {:induction false} PrunedUnique(channels: seq<Channel>, gone: seq<Id>)
    requires Pairwise(channels, DifferentChannels())
    ensures Pairwise(AllPruned(channels, gone), DifferentChannels())
  {
    if channels != [] {
      var front, last := channels[..|channels| - 1], channels[|channels| - 1];
      PrunedUnique(front, gone);
      PrunedMembers(front, gone);
      var a := AllPruned(front, gone);
      LastIsDifferent(channels);
      forall i | 0 <= i < |a| ensures a[i].id != last.id {
        assert a[i] in a;
      }
    }
  }

  lemma {:induction false} LastIsDifferent(channels: seq<Channel>)
    requires channels != [] && Pairwise(channels, DifferentChannels())
    ensures forall b :: b in channels[..|channels| - 1] ==> b.id != channels[|channels| - 1].id
  {
    forall b | b in channels[..|channels| - 1] ensures b.id != channels[|channels| - 1].id {
      var j :| 0 <= j < |channels| - 1 && channels[j] == b;
      assert DifferentChannels()(channels[j], channels[|channels| - 1]);
    }
  }

  lemma {:induction false} InSomeChannel(ec: Config, x: Id)
    ensures InChannel(ec, x) <==> exists c :: c in ec.channels && x in c.members
  {
    if c :| c in ec.channels && x in c.members {
      var i :| 0 <= i < |ec.channels| && ec.channels[i] == c;
    }
  }

  /** A member is left exactly when it was there and does not leave. */
  lemma {:induction false} MembersLeft(ec: Config, channelId: nat, x: Id)
    ensures InChannel(WithoutMembers(ec, channelId), x) <==> InChannel(ec, x) && x !in Leaving(ec, channelId)
  {
    var gone := Leaving(ec, channelId);
    var rest := ChannelRemoved(ec.channels, channelId);
    var out := WithoutMembers(ec, channelId);
    InSomeChannel(ec, x);
    InSomeChannel(out, x);
    PrunedMembers(rest, gone);
    RemovedMembers(ec.channels, channelId);
    if InChannel(out, x) {
      var c :| c in out.channels && x in c.members;
      var b :| b in rest && b.id == c.id && c.members == Keep(b.members, NotIn(gone));
      KeepMembers(b.members, NotIn(gone));
      assert b in ec.channels && x in b.members;
    }
    if InChannel(ec, x) && x !in gone {
      var b :| b in ec.channels && x in b.members;
      KeepMembers(b.members, NotIn(gone));
      assert b in rest;
      assert Channel(b.id, Keep(b.members, NotIn(gone))) in out.channels;
    }
  }

  lemma {:induction false} RemovedMembers(channels: seq<Channel>, channelId: nat)
    ensures var i := FindChannel(channels, channelId, 0);
            && (forall c :: c in ChannelRemoved(channels, channelId) ==> c in channels)
            && (forall c :: c in channels ==> c in ChannelRemoved(channels, channelId) || (i < |channels| && c == channels[i]))
  {
  }

  lemma {:induction false} RemovedUnique(channels: seq<Channel>, channelId: nat)
    requires Pairwise(channels, DifferentChannels())
    ensures Pairwise(ChannelRemoved(channels, channelId), DifferentChannels())
  {
  }

  // ---------------------------------------------------------------- deleting a channel

  /** What the proofs need to know of the tables after a deletion. */
  lemma {:induction false} HitMeans(d: Device, gone: seq<Id>, configs: seq<Config>, devices: seq<Device>, y: Id)
    requires d in devices && OneEntertainment(devices) && Owns(d, y, EntertainmentService)
    ensures Hit(d, gone) <==> y in gone
    ensures HitButUsed(d, gone, configs) <==> y in gone && IsUsed(configs, y)
  {
    var i := FirstHit(d.services, gone, 0);
    if i < |d.services| {
      assert d.services[i] == Service(d.services[i].rid, EntertainmentService);
      assert Owns(d, d.services[i].rid, EntertainmentService);
    } else {
      var k :| 0 <= k < |d.services| && d.services[k] == Service(y, EntertainmentService);
    }
  }

  lemma {:induction false} SameIdSameDevice(devices: seq<Device>, d: Device, e: Device)
    requires Pairwise(devices, DifferentDevices()) && d in devices && e in devices && d.id == e.id
    ensures d == e
  {
    forall i, j | 0 <= i < j < |devices| ensures devices[i].id != devices[j].id {
      assert DifferentDevices()(devices[i], devices[j]);
    }
  }

  /** A device stays exactly when its light does not leave or is used elsewhere. */
  lemma {:induction false} DeviceStaysWhen(t: Tables, p: Plan, d: Device)
    requires UniqueIds(t) && d in t.devices
    ensures DeviceStays(DeviceIds(t.devices, IsHit(p.gone)), DeviceIds(t.devices, IsHitButUsed(p.gone, p.configs)))(d)
            <==> !Hit(d, p.gone) || HitButUsed(d, p.gone, p.configs)
  {
    var hit, used := IsHit(p.gone), IsHitButUsed(p.gone, p.configs);
    DeviceIdsMembers(t.devices, hit, d.id);
    DeviceIdsMembers(t.devices, used, d.id);
    forall e | e in t.devices && e.id == d.id ensures e == d {
      SameIdSameDevice(t.devices, d, e);
    }
  }

  /** A service listed for devices with a property belongs to a device exactly when that device has the property. */
  lemma {:induction false} CollectedOfOwner(devices: seq<Device>, p: Device -> bool, d: Device, x: Id, rtype: ServiceType)
    requires OneOwner(devices) && d in devices && Owns(d, x, rtype)
    ensures x in Collected(devices, p, rtype) <==> p(d)
  {
    CollectedMembers(devices, p, rtype, x);
    if OwnedBySome(devices, p, x, rtype) {
      var e :| e in devices && p(e) && Owns(e, x, rtype);
      assert Service(x, rtype) in d.services && Service(x, rtype) in e.services;
    }
  }

  ghost predicate IsPlan(t: Tables, k: nat, channelId: nat, p: Plan) {
    && k < |t.configs| && p == PlanFor(t, k, channelId) && Integrity(t)
  }

  lemma {:induction false} DevicesLeft(t: Tables, k: nat, channelId: nat, p: Plan)
    requires IsPlan(t, k, channelId, p)
    ensures forall d :: d in Executed(t, k, p).devices <==> d in t.devices && (!Hit(d, p.gone) || HitButUsed(d, p.gone, p.configs))
  {
    var stays := DeviceStays(DeviceIds(t.devices, IsHit(p.gone)), DeviceIds(t.devices, IsHitButUsed(p.gone, p.configs)));
    KeepMembers(t.devices, stays);
    forall d | d in t.devices ensures stays(d) <==> !Hit(d, p.gone) || HitButUsed(d, p.gone, p.configs) {
      DeviceStaysWhen(t, p, d);
    }
  }

  /** The services of a device that stays, stay. */
  lemma {:induction false} ServicesLeft(t: Tables, k: nat, channelId: nat, p: Plan)
    requires IsPlan(t, k, channelId, p)
    ensures ServicesResolve(Executed(t, k, p))
  {
    var u := Executed(t, k, p);
    DevicesLeft(t, k, channelId, p);
    KeepMembers(t.lights, Stays(p.lights, p.usedLights));
    KeepMembers(t.zigbees, Stays(p.zigbees, p.usedZigbees));
    KeepMembers(t.entertainments, StaysUsed(p.gone, p.configs));
    forall d, s | d in u.devices && s in d.services ensures Resolves(u, s) {
      ServiceLeft(t, k, channelId, p, d, s);
    }
  }

  lemma {:induction false} ServiceLeft(t: Tables, k: nat, channelId: nat, p: Plan, d: Device, s: Service)
    requires IsPlan(t, k, channelId, p)
    requires d in t.devices && s in d.services && (!Hit(d, p.gone) || HitButUsed(d, p.gone, p.configs))
    ensures s.rtype.LightService? ==> s.rid in t.lights && Stays(p.lights, p.usedLights)(s.rid)
    ensures s.rtype.ZigbeeService? ==> s.rid in t.zigbees && Stays(p.zigbees, p.usedZigbees)(s.rid)
    ensures s.rtype.EntertainmentService? ==> s.rid in t.entertainments && StaysUsed(p.gone, p.configs)(s.rid)
    ensures Resolves(t, s)
  {
    var hit, used := IsHit(p.gone), IsHitButUsed(p.gone, p.configs);
    assert s == Service(s.rid, s.rtype) && Resolves(t, s) && Owns(d, s.rid, s.rtype);
    CollectedOfOwner(t.devices, hit, d, s.rid, s.rtype);
    CollectedOfOwner(t.devices, used, d, s.rid, s.rtype);
    if s.rtype.EntertainmentService? {
      HitMeans(d, p.gone, p.configs, t.devices, s.rid);
    }
  }

  lemma {:induction false} FinalMembers(p: Plan, k: nat, x: Id)
    requires k < |p.configs|
    ensures InChannel(FinalConfig(p, k), x) <==> InChannel(p.configs[k], x)
  {
  }

  lemma {:induction false} UsedAt(configs: seq<Config>, i: nat, x: Id)
    requires i < |configs| && InChannel(configs[i], x)
    ensures IsUsed(configs, x)
  {
  }

  /** The configuration whose channel was deleted. */
  lemma {:induction false} OwnConfigResolves(t: Tables, k: nat, channelId: nat, p: Plan)
    requires IsPlan(t, k, channelId, p)
    ensures ConfigResolves(Executed(t, k, p), FinalConfig(p, k))
  {
    var u, ec, out := Executed(t, k, p), t.configs[k], FinalConfig(p, k);
    assert ConfigResolves(t, ec);
    KeepMembers(t.entertainments, StaysUsed(p.gone, p.configs));
    KeepMembers(ec.locations, NotIn(p.gone));
    RemovedUnique(ec.channels, channelId);
    PrunedUnique(ChannelRemoved(ec.channels, channelId), p.gone);
    forall x ensures InChannel(out, x) <==> InChannel(ec, x) && x !in p.gone {
      MembersLeft(ec, channelId, x);
      FinalMembers(p, k, x);
    }
  }

  lemma {:induction false} OwnLightBelongs(t: Tables, k: nat, channelId: nat, p: Plan, x: Id)
    requires IsPlan(t, k, channelId, p)
    requires x !in p.lights && LightBelongs(t.devices, t.configs[k], x)
    ensures LightBelongs(Executed(t, k, p).devices, FinalConfig(p, k), x)
  {
    var ec := t.configs[k];
    assert ConfigResolves(t, ec);
    var d, y :| d in t.devices && Owns(d, x, LightService) && Owns(d, y, EntertainmentService) && InChannel(ec, y);
    CollectedOfOwner(t.devices, IsHit(p.gone), d, x, LightService);
    HitMeans(d, p.gone, p.configs, t.devices, y);
    DevicesLeft(t, k, channelId, p);
    MembersLeft(ec, channelId, y);
    FinalMembers(p, k, y);
  }

  /** The other configurations. */
  lemma {:induction false} OtherConfigResolves(t: Tables, k: nat, channelId: nat, p: Plan, i: nat)
    requires IsPlan(t, k, channelId, p) && i < |t.configs| && i != k
    ensures ConfigResolves(Executed(t, k, p), t.configs[i])
  {
    var u, ec := Executed(t, k, p), t.configs[i];
    assert ConfigResolves(t, ec) && p.configs[i] == ec;
    KeepMembers(t.entertainments, StaysUsed(p.gone, p.configs));
    forall x | InChannel(ec, x) ensures x in u.entertainments {
      UsedAt(p.configs, i, x);
    }
  }

  lemma {:induction false} OtherLightBelongs(t: Tables, k: nat, channelId: nat, p: Plan, i: nat, x: Id)
    requires IsPlan(t, k, channelId, p) && i < |t.configs| && i != k
    requires LightBelongs(t.devices, t.configs[i], x)
    ensures LightBelongs(Executed(t, k, p).devices, t.configs[i], x)
  {
    var ec := t.configs[i];
    var d, y :| d in t.devices && Owns(d, x, LightService) && Owns(d, y, EntertainmentService) && InChannel(ec, y);
    assert p.configs[i] == ec;
    HitMeans(d, p.gone, p.configs, t.devices, y);
    UsedAt(p.configs, i, y);
    DevicesLeft(t, k, channelId, p);
  }

  /** A deletion leaves no light service dangling that did not dangle before. */
  lemma {:induction false} DeletionKeepsLights(t: Tables, k: nat, channelId: nat)
    requires Integrity(t) && k < |t.configs|
    ensures NoNewDangling(t, Executed(t, k, PlanFor(t, k, channelId)))
  {
    var p := PlanFor(t, k, channelId);
    var u := Executed(t, k, p);
    KeepMembers(t.configs[k].lights, NotIn(p.lights));
    hide LightBelongs;
    hide Integrity;
    forall i, x | 0 <= i < |u.configs| && x in u.configs[i].lights && LightBelongs(t.devices, t.configs[i], x)
      ensures LightBelongs(u.devices, u.configs[i], x)
    {
      if i == k {
        OwnLightBelongs(t, k, channelId, p, x);
      } else {
        OtherLightBelongs(t, k, channelId, p, i, x);
      }
    }
  }

  lemma {:induction false} UniqueLeft(t: Tables, k: nat, channelId: nat, p: Plan)
    requires IsPlan(t, k, channelId, p)
    ensures UniqueIds(Executed(t, k, p))
  {
    KeepPairwise(t.lights, Stays(p.lights, p.usedLights), DifferentIds());
    KeepPairwise(t.zigbees, Stays(p.zigbees, p.usedZigbees), DifferentIds());
    KeepPairwise(t.entertainments, StaysUsed(p.gone, p.configs), DifferentIds());
    KeepPairwise(t.devices, DeviceStays(DeviceIds(t.devices, IsHit(p.gone)), DeviceIds(t.devices, IsHitButUsed(p.gone, p.configs))),
                 DifferentDevices());
    ConfigsUnique(t.configs, k, FinalConfig(p, k));
  }

  lemma {:induction false} ConfigsUnique(configs: seq<Config>, k: nat, ec: Config)
    requires Pairwise(configs, DifferentConfigs()) && k < |configs| && ec.id == configs[k].id
    ensures Pairwise(configs[k := ec], DifferentConfigs())
  {
    var c := configs[k := ec];
    forall i, j | 0 <= i < j < |c| ensures DifferentConfigs()(c[i], c[j]) {
      assert DifferentConfigs()(configs[i], configs[j]);
    }
  }

  lemma {:induction false} DeletionKeepsIntegrity(t: Tables, k: nat, channelId: nat)
    requires Integrity(t) && k < |t.configs|
    ensures Integrity(Executed(t, k, PlanFor(t, k, channelId)))
  {
    var p := PlanFor(t, k, channelId);
    var u := Executed(t, k, p);
    UniqueLeft(t, k, channelId, p);
    ServicesLeft(t, k, channelId, p);
    DevicesLeft(t, k, channelId, p);
    OwnConfigResolves(t, k, channelId, p);
    forall i | 0 <= i < |u.configs| ensures ConfigResolves(u, u.configs[i]) {
      if i != k {
        OtherConfigResolves(t, k, channelId, p, i);
      }
    }
    FewerDevices(t.devices, u.devices);
  }

  lemma {:induction false} FewerDevices(a: seq<Device>, b: seq<Device>)
    requires forall d :: d in b ==> d in a
    ensures OneOwner(a) ==> OneOwner(b)
    ensures OneEntertainment(a) ==> OneEntertainment(b)
  {
  }

  // ---------------------------------------------------------------- adding a light

  /** The drawn ids are new: four different ones that nothing has or refers to. */
  ghost predicate Fresh(t: Tables, n: NewIds) {
    && n.light != n.zigbee && n.light != n.entertainment && n.zigbee != n.entertainment
    && (forall x :: IsNew(n, x) ==> x !in t.lights && x !in t.zigbees && x !in t.entertainments)
    && FreshDevice(t.devices, n)
  }

  predicate IsNew(n: NewIds, x: Id) { x == n.light || x == n.zigbee || x == n.entertainment }

  ghost predicate FreshDevice(devices: seq<Device>, n: NewIds) {
    forall d :: d in devices ==> d.id != n.device && forall s :: s in d.services ==> !IsNew(n, s.rid)
  }

  lemma {:induction false} NewDeviceOwns(n: NewIds, s: Service)
    ensures s in NewDevice(n).services
            <==> s == Service(n.light, LightService) || s == Service(n.zigbee, ZigbeeService) || s == Service(n.entertainment, EntertainmentService)
  {
  }

  lemma {:induction false} AdditionUnique(t: Tables, k: nat, channelId: nat, n: NewIds)
    requires Integrity(t) && k < |t.configs| && Fresh(t, n)
    ensures UniqueIds(LightAdded(t, k, channelId, n))
  {
    AppendPairwise(t.lights, n.light, DifferentIds());
    AppendPairwise(t.zigbees, n.zigbee, DifferentIds());
    AppendPairwise(t.entertainments, n.entertainment, DifferentIds());
    AppendPairwise(t.devices, NewDevice(n), DifferentDevices());
    ConfigsUnique(t.configs, k, WithLight(t.configs[k], channelId, n));
  }

  lemma {:induction false} AdditionServices(t: Tables, k: nat, channelId: nat, n: NewIds)
    requires Integrity(t) && k < |t.configs| && Fresh(t, n)
    ensures ServicesResolve(LightAdded(t, k, channelId, n))
  {
    var u := LightAdded(t, k, channelId, n);
    forall d, s | d in u.devices && s in d.services ensures Resolves(u, s) {
      if d in t.devices {
        assert Resolves(t, s);
      } else {
        NewDeviceOwns(n, s);
      }
    }
  }

  /** Two devices that share a service id are the same, also with the new device among them. */
  lemma {:induction false} SameOwner(t: Tables, n: NewIds, d: Device, e: Device, s: Service, r: Service)
    requires OneOwner(t.devices) && Fresh(t, n)
    requires d in t.devices || d == NewDevice(n)
    requires e in t.devices || e == NewDevice(n)
    requires s in d.services && r in e.services && s.rid == r.rid
    ensures d == e
  {
    NewDeviceOwns(n, s);
    NewDeviceOwns(n, r);
    hide NewDevice;
  }

  lemma {:induction false} AdditionOneOwner(t: Tables, n: NewIds)
    requires OneOwner(t.devices) && Fresh(t, n)
    ensures OneOwner(t.devices + [NewDevice(n)])
  {
    hide Fresh;
    hide NewDevice;
    var u := t.devices + [NewDevice(n)];
    forall d, e, s, r | d in u && e in u && s in d.services && r in e.services && s.rid == r.rid ensures d == e {
      SameOwner(t, n, d, e, s, r);
    }
  }

  lemma {:induction false} AdditionOneEntertainment(t: Tables, n: NewIds)
    requires OneEntertainment(t.devices)
    ensures OneEntertainment(t.devices + [NewDevice(n)])
  {
    var u := t.devices + [NewDevice(n)];
    forall d, x, y | d in u && Owns(d, x, EntertainmentService) && Owns(d, y, EntertainmentService) ensures x == y {
      NewDeviceOwns(n, Service(x, EntertainmentService));
      NewDeviceOwns(n, Service(y, EntertainmentService));
    }
  }

  lemma {:induction false} MembersWithLight(ec: Config, channelId: nat, n: NewIds, x: Id)
    ensures InChannel(WithLight(ec, channelId, n), x) <==> InChannel(ec, x) || x == n.entertainment
  {
    var out := WithLight(ec, channelId, n);
    if InChannel(ec, x) {
      var i :| 0 <= i < |ec.channels| && x in ec.channels[i].members;
      assert out.channels[i] == ec.channels[i];
    }
    assert out.channels[|ec.channels|].members == [n.entertainment];
  }

  lemma {:induction false} BelongsStill(devices: seq<Device>, d: Device, ec: Config, out: Config, x: Id)
    requires LightBelongs(devices, ec, x) && forall y :: InChannel(ec, y) ==> InChannel(out, y)
    ensures LightBelongs(devices + [d], out, x)
  {
    var e, y :| e in devices && Owns(e, x, LightService) && Owns(e, y, EntertainmentService) && InChannel(ec, y);
    assert e in devices + [d];
  }

  lemma {:induction false} AdditionConfig(t: Tables, k: nat, channelId: nat, n: NewIds)
    requires Integrity(t) && k < |t.configs| && Fresh(t, n) && !IsTaken(t.configs[k].channels, channelId)
    ensures ConfigResolves(LightAdded(t, k, channelId, n), WithLight(t.configs[k], channelId, n))
  {
    var u, ec, out := LightAdded(t, k, channelId, n), t.configs[k], WithLight(t.configs[k], channelId, n);
    assert ConfigResolves(t, ec);
    forall x ensures InChannel(out, x) <==> InChannel(ec, x) || x == n.entertainment {
      MembersWithLight(ec, channelId, n, x);
    }
    AppendPairwise(ec.channels, Channel(channelId, [n.entertainment]), DifferentChannels());
  }

  lemma {:induction false} AdditionKeepsIntegrity(t: Tables, k: nat, channelId: nat, n: NewIds)
    requires Integrity(t) && k < |t.configs| && Fresh(t, n) && !IsTaken(t.configs[k].channels, channelId)
    ensures Integrity(LightAdded(t, k, channelId, n))
  {
    var u := LightAdded(t, k, channelId, n);
    AdditionUnique(t, k, channelId, n);
    AdditionServices(t, k, channelId, n);
    AdditionOneOwner(t, n);
    AdditionOneEntertainment(t, n);
    AdditionConfig(t, k, channelId, n);
    forall i | 0 <= i < |u.configs| ensures ConfigResolves(u, u.configs[i]) {
      if i != k {
        AdditionOther(t, k, channelId, n, i);
      }
    }
  }

  lemma {:induction false} AdditionOther(t: Tables, k: nat, channelId: nat, n: NewIds, i: nat)
    requires Integrity(t) && k < |t.configs| && i < |t.configs|
    ensures ConfigResolves(LightAdded(t, k, channelId, n), t.configs[i])
  {
    assert ConfigResolves(t, t.configs[i]);
  }

  lemma {:induction false} NewLightBelongs(t: Tables, k: nat, channelId: nat, n: NewIds)
    requires k < |t.configs|
    ensures LightBelongs(t.devices + [NewDevice(n)], WithLight(t.configs[k], channelId, n), n.light)
  {
    var d := NewDevice(n);
    NewDeviceOwns(n, Service(n.light, LightService));
    NewDeviceOwns(n, Service(n.entertainment, EntertainmentService));
    MembersWithLight(t.configs[k], channelId, n, n.entertainment);
    assert d in t.devices + [d] && Owns(d, n.light, LightService) && Owns(d, n.entertainment, EntertainmentService);
  }

  /** Neither does an addition, whatever the tables are like. */
  lemma {:induction false} AdditionKeepsLights(t: Tables, k: nat, channelId: nat, n: NewIds)
    requires k < |t.configs|
    ensures NoNewDangling(t, LightAdded(t, k, channelId, n))
  {
    var u := LightAdded(t, k, channelId, n);
    NewLightBelongs(t, k, channelId, n);
    forall i, x | 0 <= i < |u.configs| && x in u.configs[i].lights && x in t.configs[i].lights && LightBelongs(t.devices, t.configs[i], x)
      ensures LightBelongs(u.devices, u.configs[i], x)
    {
      forall y | InChannel(t.configs[i], y) ensures InChannel(u.configs[i], y) {
        MembersWithLight(t.configs[k], channelId, n, y);
      }
      BelongsStill(t.devices, NewDevice(n), t.configs[i], u.configs[i], x);
    }
    hide LightBelongs;
  }

  /** All ids below 255 and below the highest used one are taken. */
  ghost predicate IsFull(channels: seq<Channel>) {
    && (forall i :: 0 <= i < CHANNEL_IDS ==> IsTaken(channels, i))
    && (forall c, i :: c in channels && 0 <= i < c.id ==> IsTaken(channels, i))
  }

  lemma {:induction false} IdListIsShort(channels: seq<Channel>)
    ensures IdListLength(channels) == CHANNEL_IDS || exists c :: c in channels && c.id == IdListLength(channels) - 1
  {
    if channels != [] {
      var front, last := channels[..|channels| - 1], channels[|channels| - 1];
      IdListIsShort(front);
      assert channels == front + [last] && last in channels;
    }
  }

  lemma {:induction false} NoFreeChannelWhen(channels: seq<Channel>)
    ensures FreeChannel(channels).None? <==> IsFull(channels)
  {
    IdListIsShort(channels);
    var n := IdListLength(channels);
    if IsFull(channels) {
      forall i | 0 <= i < n ensures IsTaken(channels, i) {
        if c :| c in channels && c.id == n - 1 {
          var k :| 0 <= k < |channels| && channels[k] == c;
        }
      }
    }
  }

  /** Adding a light fails exactly for an unknown configuration or one without a free channel id. */
  lemma {:induction false} AddingFailsWhen(t: Tables, ecId: Id, n: NewIds)
    ensures AddLight(t, ecId, n).0.Failed? <==>
            (forall ec :: ec in t.configs ==> ec.id != ecId) || IsFull(t.configs[FindConfig(t.configs, ecId, 0)].channels)
    ensures AddLight(t, ecId, n).0.Failed? ==> AddLight(t, ecId, n).1 == t
  {
    var k := FindConfig(t.configs, ecId, 0);
    if k < |t.configs| {
      assert t.configs[k] in t.configs;
      NoFreeChannelWhen(t.configs[k].channels);
    }
  }
}
