/**
 Commands on the bridge and the batches they send, over whole runs.
 */
module ReplicaRuns {
  import opened Prelude
  import opened ResourceData
  import opened ServerSpec
  import opened ServerIntegrity
  import opened ServerRuns
  import opened ReplicaSpec
  import opened ReplicaAgreement

  // ---------------------------------------------------------------- what is announced

  /** A deletion announces exactly the lights, zigbee entries and entertainments that it removes. */
  lemma {:induction false} DeletionAnnouncesExactly(t: Tables, k: nat, channelId: nat)
    requires Integrity(t) && k < |t.configs|
    ensures var p := PlanFor(t, k, channelId);
            var u := Executed(t, k, p);
            && (forall x :: x in Keep(p.lights, NotIn(p.usedLights)) <==> x in t.lights && x !in u.lights)
            && (forall x :: x in Keep(p.zigbees, NotIn(p.usedZigbees)) <==> x in t.zigbees && x !in u.zigbees)
            && (forall x :: x in Keep(p.gone, IsUnused(p.configs)) <==> x in t.entertainments && x !in u.entertainments)
  {
    var p := PlanFor(t, k, channelId);
    var u := Executed(t, k, p);
    KeepMembers(p.lights, NotIn(p.usedLights));
    KeepMembers(p.zigbees, NotIn(p.usedZigbees));
    KeepMembers(p.gone, IsUnused(p.configs));
    KeepMembers(t.lights, Stays(p.lights, p.usedLights));
    KeepMembers(t.zigbees, Stays(p.zigbees, p.usedZigbees));
    KeepMembers(t.entertainments, StaysUsed(p.gone, p.configs));
    forall x ensures (x in p.lights ==> x in t.lights) && (x in p.zigbees ==> x in t.zigbees) && (x in p.gone ==> x in t.entertainments) {
      LeavingExists(t, k, channelId, x);
    }
  }

  lemma {:induction false} LeavingExists(t: Tables, k: nat, channelId: nat, x: Id)
    requires Integrity(t) && k < |t.configs|
    ensures var p := PlanFor(t, k, channelId);
            (x in p.lights ==> x in t.lights) && (x in p.zigbees ==> x in t.zigbees) && (x in p.gone ==> x in t.entertainments)
  {
    hide Integrity;
    var p := PlanFor(t, k, channelId);
    if x in p.lights {
      CollectedExists(t, IsHit(p.gone), LightService, x);
    }
    if x in p.zigbees {
      CollectedExists(t, IsHit(p.gone), ZigbeeService, x);
    }
    if x in p.gone {
      LeavingMemberExists(t, k, channelId, x);
    }
  }

  lemma {:induction false} CollectedExists(t: Tables, p: Device -> bool, rtype: ServiceType, x: Id)
    requires Integrity(t) && x in Collected(t.devices, p, rtype)
    ensures Resolves(t, Service(x, rtype))
  {
    CollectedMembers(t.devices, p, rtype, x);
    var d :| d in t.devices && p(d) && Owns(d, x, rtype);
  }

  lemma {:induction false} LeavingMemberExists(t: Tables, k: nat, channelId: nat, x: Id)
    requires Integrity(t) && k < |t.configs| && x in Leaving(t.configs[k], channelId)
    ensures x in t.entertainments
  {
    assert ConfigResolves(t, t.configs[k]);
    var i := FindChannel(t.configs[k].channels, channelId, 0);
    assert x in t.configs[k].channels[i].members;
  }

  // ---------------------------------------------------------------- a batch after a deletion

  lemma {:induction false} DeletionBatchApplied(r: Replica, p: Plan, ec: Config)
    ensures BatchApplied(r, DeletionBatch(p, ec))
         == ConfigUpdated(r.(lights := r.lights - ToSet(Keep(p.lights, NotIn(p.usedLights))),
                             zigbees := r.zigbees - ToSet(Keep(p.zigbees, NotIn(p.usedZigbees))),
                             entertainments := r.entertainments - ToSet(Keep(p.gone, IsUnused(p.configs)))), ec)
  {
    hide ConfigUpdated;
    var lights, zigbees, gone := Keep(p.lights, NotIn(p.usedLights)), Keep(p.zigbees, NotIn(p.usedZigbees)), Keep(p.gone, IsUnused(p.configs));
    hide Keep;
    hide Applied;
    DeletionKind(r, lights, gone, zigbees, ec, OfDevice);
    DeletionKind(r, lights, gone, zigbees, ec, OfZigbee);
    var r2 := WithoutIds(r, ZigbeeService, ToSet(zigbees));
    DeletionKind(r2, lights, gone, zigbees, ec, OfEntertainment);
    var r3 := WithoutIds(r2, EntertainmentService, ToSet(gone));
    DeletionKind(r3, lights, gone, zigbees, ec, OfLight);
    var r4 := WithoutIds(r3, LightService, ToSet(lights));
    DeletionKind(r4, lights, gone, zigbees, ec, OfConfig);
  }

  lemma {:induction false} DeletionKind(r: Replica, lights: seq<Id>, gone: seq<Id>, zigbees: seq<Id>, ec: Config, kind: Kind)
    ensures Applied(r, Deletes(LightService, lights) + Deletes(EntertainmentService, gone) + Deletes(ZigbeeService, zigbees)
                       + [Update(ConfigResource(ec))], kind)
         == match kind
            case OfDevice => r
            case OfZigbee => WithoutIds(r, ZigbeeService, ToSet(zigbees))
            case OfEntertainment => WithoutIds(r, EntertainmentService, ToSet(gone))
            case OfLight => WithoutIds(r, LightService, ToSet(lights))
            case OfConfig => ConfigUpdated(r, ec)
  {
    hide Applied;
    hide ConfigUpdated;
    hide WithoutIds;
    hide Deletes;
    var a, b, c := Deletes(LightService, lights), Deletes(EntertainmentService, gone), Deletes(ZigbeeService, zigbees);
    var d := [Update(ConfigResource(ec))];
    AppliedInParts(r, a + b + c, d, kind);
    AppliedInParts(r, a + b, c, kind);
    AppliedInParts(r, a, b, kind);
    DeletesApplied(r, LightService, lights, kind);
    var r1 := Applied(r, a, kind);
    DeletesApplied(r1, EntertainmentService, gone, kind);
    var r2 := Applied(r1, b, kind);
    DeletesApplied(r2, ZigbeeService, zigbees, kind);
    AppliedOne(Applied(r2, c, kind), Update(ConfigResource(ec)), kind);
  }

  // ---------------------------------------------------------------- a batch after an addition

  lemma {:induction false} AppliedFour(r: Replica, a: Change, b: Change, c: Change, d: Change, kind: Kind)
    requires KindOf(a) == OfLight && KindOf(b) == OfZigbee && KindOf(c) == OfDevice && KindOf(d) == OfConfig
    ensures Applied(r, [a, b, c, d], kind)
         == match kind
            case OfLight => Changed(r, a)
            case OfZigbee => Changed(r, b)
            case OfDevice => Changed(r, c)
            case OfEntertainment => r
            case OfConfig => Changed(r, d)
  {
    hide Changed;
    hide Applied;
    assert [a, b, c, d] == [a] + [b] + [c] + [d];
    AppliedInParts(r, [a] + [b] + [c], [d], kind);
    AppliedInParts(r, [a] + [b], [c], kind);
    AppliedInParts(r, [a], [b], kind);
    AppliedOne(r, a, kind);
    var r1 := Applied(r, [a], kind);
    AppliedOne(r1, b, kind);
    var r2 := Applied(r1, [b], kind);
    AppliedOne(r2, c, kind);
    AppliedOne(Applied(r2, [c], kind), d, kind);
  }

  /** The client keeps the new device, so it knows the owner of the new zigbee entry. */
  lemma {:induction false} ZigbeeIsKnown(r: Replica, n: NewIds)
    ensures FindOwner(DeviceAdded(r.devices, NewDevice(n)), n.zigbee, 0) < |DeviceAdded(r.devices, NewDevice(n))|
  {
    var d := NewDevice(n);
    assert d.services[0].rtype.LightService? && d.services[1].rid == n.zigbee;
    assert IsKept(d) && HasRid(d, n.zigbee);
    var all, i := DeviceAdded(r.devices, d), FindDevice(r.devices, d.id, 0);
    assert all[i] == d;
  }

  lemma {:induction false} NewDeviceIsKept(r: Replica, n: NewIds)
    requires FreshDevice(r.devices, n)
    ensures DeviceAdded(r.devices, NewDevice(n)) == r.devices + [NewDevice(n)]
  {
    var d := NewDevice(n);
    assert d.services[0].rtype.LightService?;
    forall k | 0 <= k < |r.devices| ensures r.devices[k].id != n.device {
      assert r.devices[k] in r.devices;
    }
  }

  function WithNewLight(r: Replica, n: NewIds): Replica {
    r.(devices := DeviceAdded(r.devices, NewDevice(n)), zigbees := r.zigbees + {n.zigbee}, lights := r.lights + {n.light})
  }

  lemma {:induction false} LightBatchApplied(r: Replica, ec: Config, n: NewIds)
    ensures BatchApplied(r, LightBatch(ec, n)) == ConfigUpdated(WithNewLight(r, n), ec)
  {
    hide Applied;
    hide ConfigUpdated;
    ZigbeeIsKnown(r, n);
    hide DeviceAdded;
    hide NewDevice;
    var a, b := Add(LightResource(n.light)), Add(ZigbeeResource(n.zigbee));
    var c, d := Add(DeviceResource(NewDevice(n))), Update(ConfigResource(ec));
    AppliedFour(r, a, b, c, d, OfDevice);
    var r1 := Changed(r, c);
    AppliedFour(r1, a, b, c, d, OfZigbee);
    var r2 := Changed(r1, b);
    AppliedFour(r2, a, b, c, d, OfEntertainment);
    AppliedFour(r2, a, b, c, d, OfLight);
    var r3 := Changed(r2, a);
    AppliedFour(r3, a, b, c, d, OfConfig);
  }

  // ---------------------------------------------------------------- agreement is kept

  lemma {:induction false} GroupsFound(t: Tables, r: Replica, k: nat)
    requires Agrees(t, r) && Integrity(t) && k < |t.configs|
    ensures FindGroup(r.groups, t.configs[k].id, 0) == k
  {
    ConfigIdsDiffer(t.configs);
    forall i | 0 <= i < |r.groups| ensures r.groups[i].id == t.configs[i].id {
      assert GroupAgrees(t, t.configs[i], r.groups[i]);
    }
    GroupIsAt(t.configs, r.groups, k);
  }

  lemma {:induction false} NewDevicesAgree(t: Tables, r: Replica, k: nat, channelId: nat, n: NewIds)
    requires DevicesAgree(t, r.devices) && k < |t.configs| && FreshDevice(r.devices, n)
    ensures DevicesAgree(LightAdded(t, k, channelId, n), r.devices + [NewDevice(n)])
  {
    hide NewDevice;
    var u, d := LightAdded(t, k, channelId, n), NewDevice(n);
    forall e | e in r.devices ensures e in u.devices || IsStale(u, e) {
    }
  }

  lemma {:induction false} OldLightsStay(devices: seq<Device>, n: NewIds, x: Id)
    requires !IsNew(n, x)
    ensures LightOf(devices, x) == LightOf(devices + [NewDevice(n)], x)
  {
    var d := NewDevice(n);
    assert !HasRid(d, x);
    FindOwnerAppended(devices, d, x, 0);
  }

  lemma {:induction false} FindOwnerAppended(devices: seq<Device>, d: Device, x: Id, i: nat)
    requires i <= |devices| && !HasRid(d, x)
    ensures var j := FindOwner(devices, x, i);
            FindOwner(devices + [d], x, i) == if j < |devices| then j else |devices| + 1
    decreases |devices| - i
  {
    var all := devices + [d];
    if i < |devices| {
      assert all[i] == devices[i];
      if !HasRid(devices[i], x) {
        FindOwnerAppended(devices, d, x, i + 1);
      }
    } else {
      assert all[i] == d;
      assert FindOwner(all, x, i + 1) == i + 1;
    }
  }

  lemma {:induction false} AdditionAgrees(t: Tables, r: Replica, k: nat, channelId: nat, n: NewIds)
    requires Integrity(t) && Agrees(t, r) && k < |t.configs| && !IsTaken(t.configs[k].channels, channelId)
    requires Fresh(t, n) && FreshDevice(r.devices, n)
    ensures Agrees(LightAdded(t, k, channelId, n), BatchApplied(r, LightBatch(WithLight(t.configs[k], channelId, n), n)))
  {
    var u, ec := LightAdded(t, k, channelId, n), WithLight(t.configs[k], channelId, n);
    LightBatchApplied(r, ec, n);
    NewDeviceIsKept(r, n);
    GroupsFound(t, r, k);
    NewDevicesAgree(t, r, k, channelId, n);
    AdditionKeepsIntegrity(t, k, channelId, n);
    assert ConfigResolves(u, u.configs[k]);
    var devices := r.devices + [NewDevice(n)];
    ViewAgrees(u, devices, ec);
    var s := ConfigUpdated(WithNewLight(r, n), ec);
    forall i | 0 <= i < |u.configs| ensures GroupAgrees(u, u.configs[i], s.groups[i]) {
      if i != k {
        OtherViewAfterAddition(t, r, k, channelId, n, i);
      }
    }
  }

  lemma {:induction false} OtherViewAfterAddition(t: Tables, r: Replica, k: nat, channelId: nat, n: NewIds, i: nat)
    requires Integrity(t) && Agrees(t, r) && k < |t.configs| && i < |t.configs| && Fresh(t, n)
    ensures GroupAgrees(LightAdded(t, k, channelId, n), t.configs[i], r.groups[i])
  {
    var u, ec := LightAdded(t, k, channelId, n), t.configs[i];
    assert ConfigResolves(t, ec) && GroupAgrees(t, ec, r.groups[i]);
    forall x | InChannel(ec, x) ensures LightOf(t.devices, x) == LightOf(u.devices, x) {
      OldLightsStay(t.devices, n, x);
    }
    ViewStays(t, u, ec, r.groups[i]);
  }

  /** A device that a deletion removes is stale afterwards. */
  lemma {:induction false} RemovedIsStale(t: Tables, k: nat, channelId: nat, p: Plan, d: Device)
    requires IsPlan(t, k, channelId, p) && d in t.devices && d !in Executed(t, k, p).devices
    ensures IsStale(Executed(t, k, p), d)
  {
    var u := Executed(t, k, p);
    DevicesLeft(t, k, channelId, p);
    KeepMembers(t.lights, Stays(p.lights, p.usedLights));
    KeepMembers(t.zigbees, Stays(p.zigbees, p.usedZigbees));
    KeepMembers(t.entertainments, StaysUsed(p.gone, p.configs));
    forall s | s in d.services ensures s.rid !in u.lights && s.rid !in u.zigbees && s.rid !in u.entertainments {
      assert Resolves(t, s) && s == Service(s.rid, s.rtype) && Owns(d, s.rid, s.rtype);
      CollectedOfOwner(t.devices, IsHit(p.gone), d, s.rid, s.rtype);
      CollectedOfOwner(t.devices, IsHitButUsed(p.gone, p.configs), d, s.rid, s.rtype);
      if s.rtype.EntertainmentService? {
        HitMeans(d, p.gone, p.configs, t.devices, s.rid);
      }
    }
  }

  lemma {:induction false} DevicesAgreeAfterDeletion(t: Tables, k: nat, channelId: nat, p: Plan, devices: seq<Device>)
    requires IsPlan(t, k, channelId, p) && DevicesAgree(t, devices)
    ensures DevicesAgree(Executed(t, k, p), devices)
  {
    var u := Executed(t, k, p);
    DevicesLeft(t, k, channelId, p);
    KeepMembers(t.lights, Stays(p.lights, p.usedLights));
    KeepMembers(t.zigbees, Stays(p.zigbees, p.usedZigbees));
    KeepMembers(t.entertainments, StaysUsed(p.gone, p.configs));
    forall d | d in devices ensures d in u.devices || IsStale(u, d) {
      if d in t.devices && d !in u.devices {
        RemovedIsStale(t, k, channelId, p, d);
      }
    }
  }

  lemma {:induction false} OtherViewAfterDeletion(t: Tables, r: Replica, k: nat, channelId: nat, p: Plan, i: nat)
    requires IsPlan(t, k, channelId, p) && Agrees(t, r) && i < |t.configs| && i != k
    requires Integrity(Executed(t, k, p))
    ensures GroupAgrees(Executed(t, k, p), t.configs[i], r.groups[i])
  {
    var u, ec := Executed(t, k, p), t.configs[i];
    assert ConfigResolves(t, ec) && GroupAgrees(t, ec, r.groups[i]);
    assert u.configs[i] == ec && ConfigResolves(u, u.configs[i]);
    DevicesAgreeAfterDeletion(t, k, channelId, p, t.devices);
    forall x | InChannel(ec, x) ensures LightOf(t.devices, x) == LightOf(u.devices, x) {
      LightOfAgrees(u, t.devices, x);
    }
    ViewStays(t, u, ec, r.groups[i]);
  }

  lemma {:induction false} DeletionAgrees(t: Tables, r: Replica, k: nat, channelId: nat)
    requires Integrity(t) && Agrees(t, r) && k < |t.configs|
    ensures var p := PlanFor(t, k, channelId);
            Agrees(Executed(t, k, p), BatchApplied(r, DeletionBatch(p, FinalConfig(p, k))))
  {
    var p := PlanFor(t, k, channelId);
    var u, ec := Executed(t, k, p), FinalConfig(p, k);
    DeletionBatchApplied(r, p, ec);
    DeletionAnnouncesExactly(t, k, channelId);
    DeletionKeepsIntegrity(t, k, channelId);
    GroupsFound(t, r, k);
    DevicesAgreeAfterDeletion(t, k, channelId, p, r.devices);
    assert ConfigResolves(u, u.configs[k]);
    ViewAgrees(u, r.devices, ec);
    KeepMembers(t.lights, Stays(p.lights, p.usedLights));
    KeepMembers(t.zigbees, Stays(p.zigbees, p.usedZigbees));
    KeepMembers(t.entertainments, StaysUsed(p.gone, p.configs));
    var s := BatchApplied(r, DeletionBatch(p, ec));
    forall i | 0 <= i < |u.configs| ensures GroupAgrees(u, u.configs[i], s.groups[i]) {
      if i != k {
        OtherViewAfterDeletion(t, r, k, channelId, p, i);
      }
    }
  }

  // ---------------------------------------------------------------- runs

  /** The bridge carries out the command, and the client receives the batch if there is one. */
  function Both(t: Tables, r: Replica, c: Command): (Tables, Replica) {
    var (reply, u) := Commanded(t, c);
    (u, if reply.Succeeded? then BatchApplied(r, reply.batch) else r)
  }

  function Run(t: Tables, r: Replica, commands: seq<Command>): (Tables, Replica) {
    if commands == [] then (t, r)
    else
      var (u, s) := Run(t, r, commands[..|commands| - 1]);
      Both(u, s, commands[|commands| - 1])
  }

  /** Drawn ids are new each time. */
  ghost predicate AllFresh(t: Tables, r: Replica, commands: seq<Command>) {
    forall i :: 0 <= i < |commands| ==> IsFreshAfter(t, r, commands, i)
  }

  ghost predicate IsFreshAfter(t: Tables, r: Replica, commands: seq<Command>, i: nat)
    requires i < |commands|
  {
    var (u, s) := Run(t, r, commands[..i]);
    commands[i].LightTo? ==> Fresh(u, commands[i].ids) && FreshDevice(s.devices, commands[i].ids)
  }

  lemma {:induction false} CommandKeeps(t: Tables, r: Replica, c: Command)
    requires Integrity(t) && Agrees(t, r)
    requires c.LightTo? ==> Fresh(t, c.ids) && FreshDevice(r.devices, c.ids)
    ensures Agrees(Both(t, r, c).0, Both(t, r, c).1)
  {
    hide BatchApplied;
    hide Executed;
    hide Integrity;
    hide Agrees;
    hide Fresh;
    var k := FindConfig(t.configs, c.ecId, 0);
    if k < |t.configs| {
      match c
      case LightTo(_, n) =>
        var free := FreeChannel(t.configs[k].channels);
        if free.Some? {
          AdditionAgrees(t, r, k, free.value, n);
        }
      case ChannelFrom(_, channelId) =>
        DeletionAgrees(t, r, k, channelId);
    }
  }

  /** The bridge does not depend on the client. */
  lemma {:induction false} BridgeOfRun(t: Tables, r: Replica, commands: seq<Command>)
    ensures Run(t, r, commands).0 == BridgeAfter(t, commands)
  {
    hide Commanded;
    hide BatchApplied;
    if commands != [] {
      BridgeOfRun(t, r, commands[..|commands| - 1]);
    }
  }

  lemma {:induction false} FreshPrefix(t: Tables, r: Replica, commands: seq<Command>)
    requires commands != [] && AllFresh(t, r, commands)
    ensures AllFresh(t, r, commands[..|commands| - 1])
  {
    hide Run;
    hide Fresh;
    hide FreshDevice;
    var front := commands[..|commands| - 1];
    forall i | 0 <= i < |front| ensures IsFreshAfter(t, r, front, i) {
      assert IsFreshAfter(t, r, commands, i);
      assert front[..i] == commands[..i];
    }
  }

  lemma {:induction false} FreshForBridge(t: Tables, r: Replica, commands: seq<Command>)
    requires AllFresh(t, r, commands)
    ensures DrawsFresh(t, commands)
  {
    hide Run;
    hide Fresh;
    forall i | 0 <= i < |commands| ensures FreshAt(t, commands, i) {
      assert IsFreshAfter(t, r, commands, i);
      BridgeOfRun(t, r, commands[..i]);
    }
  }

  /** In every run of additions and deletions, a client that agreed at the start and receives every batch in order
      agrees at the end.  Of the bridge this asks no more than it starts with: configurations may list light
      services that do not exist. */
  lemma {:induction false} ReplicaAgreesAlways(t: Tables, r: Replica, commands: seq<Command>)
    requires Integrity(t) && Agrees(t, r) && AllFresh(t, r, commands)
    ensures var (u, s) := Run(t, r, commands); Agrees(u, s)
  {
    hide Both;
    hide Integrity;
    hide Agrees;
    hide Fresh;
    hide FreshDevice;
    if commands != [] {
      var front := commands[..|commands| - 1];
      FreshPrefix(t, r, commands);
      ReplicaAgreesAlways(t, r, front);
      FreshForBridge(t, r, front);
      IntegrityAlways(t, front);
      BridgeOfRun(t, r, front);
      assert IsFreshAfter(t, r, commands, |commands| - 1);
      var (u, s) := Run(t, r, front);
      CommandKeeps(u, s, commands[|commands| - 1]);
    }
  }
}
