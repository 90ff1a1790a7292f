/**
 The client's copy agrees with the bridge after every command whose batch it has received.
 */
module ReplicaAgreement {
  import opened Prelude
  import opened ResourceData
  import opened ServerSpec
  import opened ServerIntegrity
  import opened ReplicaSpec

  // ---------------------------------------------------------------- agreement

  /** A device that the bridge no longer has: none of its services exists any more. */
  ghost predicate IsStale(t: Tables, d: Device) {
    forall s :: s in d.services ==> s.rid !in t.lights && s.rid !in t.zigbees && s.rid !in t.entertainments
  }

  ghost predicate DevicesAgree(t: Tables, devices: seq<Device>) {
    && (forall d :: d in devices ==> d in t.devices || IsStale(t, d))
    && (forall d :: d in t.devices && IsKept(d) ==> d in devices)
  }

  ghost predicate GroupAgrees(t: Tables, ec: Config, g: GroupView) {
    && g.id == ec.id && g.channels == ChannelIds(ec.channels)
    && (forall c :: c in ec.channels ==> c.id in g.lightsOf && g.lightsOf[c.id] == LightsOf(t.devices, c.members))
    && (forall id :: id in g.lightsOf ==> exists c :: c in ec.channels && c.id == id)
  }

  /** The keys of the light and zigbee maps are the bridge's, entertainments are some of the bridge's, and the
      groups show the bridge's configurations: the same channels in the same order, with the same lights. */
  ghost predicate Agrees(t: Tables, r: Replica) {
    && DevicesAgree(t, r.devices)
    && (forall x :: x in r.lights <==> x in t.lights)
    && (forall x :: x in r.zigbees <==> x in t.zigbees)
    && (forall x :: x in r.entertainments ==> x in t.entertainments)
    && |r.groups| == |t.configs| && forall i :: 0 <= i < |t.configs| ==> GroupAgrees(t, t.configs[i], r.groups[i])
  }

  // ---------------------------------------------------------------- lookup does not depend on stale devices

  lemma {:induction false} OnlyOwner(devices: seq<Device>, d: Device, x: Id)
    requires d in devices && HasRid(d, x) && forall e :: e in devices && HasRid(e, x) ==> e == d
    ensures LightOf(devices, x) == FirstLight(d.services, 0)
  {
    var i :| 0 <= i < |devices| && devices[i] == d;
    var j := FindOwner(devices, x, 0);
    assert devices[j] in devices;
  }

  lemma {:induction false} NoOwner(devices: seq<Device>, x: Id)
    requires forall e :: e in devices ==> !HasRid(e, x)
    ensures LightOf(devices, x) == None
  {
    forall k | 0 <= k < |devices| ensures !HasRid(devices[k], x) {
      assert devices[k] in devices;
    }
  }

  lemma {:induction false} NoLightService(services: seq<Service>, i: nat)
    requires i <= |services| && forall k :: i <= k < |services| ==> !services[k].rtype.LightService?
    ensures FirstLight(services, i) == None
    decreases |services| - i
  {
    if i < |services| {
      NoLightService(services, i + 1);
    }
  }

  lemma {:induction false} OwnersMeet(devices: seq<Device>, d: Device, e: Device, x: Id)
    requires OneOwner(devices) && d in devices && e in devices && HasRid(d, x) && HasRid(e, x)
    ensures d == e
  {
    var i :| 0 <= i < |d.services| && d.services[i].rid == x;
    var j :| 0 <= j < |e.services| && e.services[j].rid == x;
    assert d.services[i] in d.services && e.services[j] in e.services;
  }

  /** A device of the client that has an existing entertainment service is the bridge's own. */
  lemma {:induction false} NotStale(t: Tables, devices: seq<Device>, e: Device, x: Id)
    requires DevicesAgree(t, devices) && e in devices && HasRid(e, x) && x in t.entertainments
    ensures e in t.devices
  {
    var j :| 0 <= j < |e.services| && e.services[j].rid == x;
    assert e.services[j] in e.services;
  }

  lemma {:induction false} LightOfAgrees(t: Tables, devices: seq<Device>, x: Id)
    requires OneOwner(t.devices) && DevicesAgree(t, devices) && x in t.entertainments
    ensures LightOf(devices, x) == LightOf(t.devices, x)
  {
    forall e | e in devices && HasRid(e, x) ensures e in t.devices {
      NotStale(t, devices, e, x);
    }
    if d :| d in t.devices && HasRid(d, x) {
      forall e | e in t.devices && HasRid(e, x) ensures e == d {
        OwnersMeet(t.devices, d, e, x);
      }
      OnlyOwner(t.devices, d, x);
      if d in devices {
        OnlyOwner(devices, d, x);
      } else {
        NoOwner(devices, x);
        NoLightService(d.services, 0);
      }
    } else {
      NoOwner(t.devices, x);
      NoOwner(devices, x);
    }
  }

  lemma {:induction false} LightsOfSame(a: seq<Device>, b: seq<Device>, members: seq<Id>)
    requires forall x :: x in members ==> LightOf(a, x) == LightOf(b, x)
    ensures LightsOf(a, members) == LightsOf(b, members)
  {
    if members != [] {
      var front, last := members[..|members| - 1], members[|members| - 1];
      LightsOfSame(a, b, front);
      assert last in members;
    }
  }

  // ---------------------------------------------------------------- views

  lemma {:induction false} LightMapKeys(devices: seq<Device>, channels: seq<Channel>)
    ensures forall id :: id in LightMap(devices, channels) <==> exists c :: c in channels && c.id == id
  {
    if channels != [] {
      var front, last := channels[..|channels| - 1], channels[|channels| - 1];
      LightMapKeys(devices, front);
      assert channels == front + [last];
      forall id ensures id in LightMap(devices, channels) <==> exists c :: c in channels && c.id == id {
        if c :| c in channels && c.id == id {
          assert c in front || c == last;
        }
        if id in LightMap(devices, front) {
          var c :| c in front && c.id == id;
          assert c in channels;
        }
        assert last in channels;
      }
    }
  }

  lemma {:induction false} LightMapIs(devices: seq<Device>, channels: seq<Channel>, c: Channel)
    requires Pairwise(channels, DifferentChannels()) && c in channels
    ensures c.id in LightMap(devices, channels) && LightMap(devices, channels)[c.id] == LightsOf(devices, c.members)
  {
    var front, last := channels[..|channels| - 1], channels[|channels| - 1];
    assert channels == front + [last];
    LastIsDifferent(channels);
    hide LightsOf;
    if c in front {
      LightMapIs(devices, front, c);
    } else {
      LightMapKeys(devices, front);
      assert c == last;
    }
  }

  /** The view that the client makes of a configuration agrees with the bridge. */
  lemma {:induction false} ViewAgrees(t: Tables, devices: seq<Device>, ec: Config)
    requires OneOwner(t.devices) && DevicesAgree(t, devices) && ConfigResolves(t, ec)
    ensures GroupAgrees(t, ec, ViewOf(devices, ec))
  {
    LightMapKeys(devices, ec.channels);
    var m := LightMap(devices, ec.channels);
    forall c | c in ec.channels ensures c.id in m && m[c.id] == LightsOf(t.devices, c.members) {
      LightMapIs(devices, ec.channels, c);
      forall x | x in c.members ensures LightOf(devices, x) == LightOf(t.devices, x) {
        MemberExists(t, ec, c, x);
        LightOfAgrees(t, devices, x);
      }
      LightsOfSame(devices, t.devices, c.members);
    }
  }

  lemma {:induction false} MemberExists(t: Tables, ec: Config, c: Channel, x: Id)
    requires ConfigResolves(t, ec) && c in ec.channels && x in c.members
    ensures x in t.entertainments
  {
    InSomeChannel(ec, x);
  }

  /** A view stays right as long as the lights of its members do. */
  lemma {:induction false} ViewStays(t: Tables, u: Tables, ec: Config, g: GroupView)
    requires GroupAgrees(t, ec, g) && ConfigResolves(t, ec)
    requires forall x :: InChannel(ec, x) ==> LightOf(t.devices, x) == LightOf(u.devices, x)
    ensures GroupAgrees(u, ec, g)
  {
    forall c | c in ec.channels ensures LightsOf(t.devices, c.members) == LightsOf(u.devices, c.members) {
      forall x | x in c.members ensures LightOf(t.devices, x) == LightOf(u.devices, x) {
        InSomeChannel(ec, x);
      }
      LightsOfSame(t.devices, u.devices, c.members);
    }
  }

  /** The group of a configuration is found at its position. */
  lemma {:induction false} GroupIsAt(configs: seq<Config>, groups: seq<GroupView>, k: nat)
    requires |groups| == |configs| && k < |groups|
    requires forall i, j :: 0 <= i < j < |configs| ==> configs[i].id != configs[j].id
    requires forall i :: 0 <= i < |groups| ==> groups[i].id == configs[i].id
    ensures FindGroup(groups, configs[k].id, 0) == k
  {
  }

  lemma {:induction false} ConfigIdsDiffer(configs: seq<Config>)
    requires Pairwise(configs, DifferentConfigs())
    ensures forall i, j :: 0 <= i < j < |configs| ==> configs[i].id != configs[j].id
  {
    forall i, j | 0 <= i < j < |configs| ensures configs[i].id != configs[j].id {
      assert DifferentConfigs()(configs[i], configs[j]);
    }
  }

  // ---------------------------------------------------------------- batches

  lemma {:induction false} AppliedInParts(r: Replica, a: seq<Change>, b: seq<Change>, kind: Kind)
    ensures Applied(r, a + b, kind) == Applied(Applied(r, a, kind), b, kind)
  {
    if b == [] {
      assert a + b == a;
    } else {
      var n := |b| - 1;
      AppliedInParts(r, a, b[..n], kind);
      assert (a + b)[..|a + b| - 1] == a + b[..n];
    }
  }

  lemma {:induction false} AppliedOne(r: Replica, c: Change, kind: Kind)
    ensures Applied(r, [c], kind) == if KindOf(c) == kind then Changed(r, c) else r
  {
    assert [c][..0] == [];
    assert Applied(r, [], kind) == r;
  }

  function DeleteKind(rtype: ServiceType): Kind {
    if rtype.LightService? then OfLight else if rtype.ZigbeeService? then OfZigbee else OfEntertainment
  }

  function WithoutIds(r: Replica, rtype: ServiceType, ids: set<Id>): Replica {
    if rtype.LightService? then r.(lights := r.lights - ids)
    else if rtype.ZigbeeService? then r.(zigbees := r.zigbees - ids)
    else r.(entertainments := r.entertainments - ids)
  }

  function ToSet(s: seq<Id>): set<Id> { set x | x in s }

  lemma {:induction false} DeletesApplied(r: Replica, rtype: ServiceType, ids: seq<Id>, kind: Kind)
    ensures Applied(r, Deletes(rtype, ids), kind) == if kind == DeleteKind(rtype) then WithoutIds(r, rtype, ToSet(ids)) else r
  {
    if ids == [] {
      assert ToSet(ids) == {};
      NothingWithout(r, rtype);
    } else {
      var front, last := ids[..|ids| - 1], ids[|ids| - 1];
      DeletesApplied(r, rtype, front, kind);
      LastDelete(r, rtype, ids, kind);
      ToSetLast(ids);
      OneMoreWithout(r, rtype, ToSet(front), last);
      hide *;
    }
  }

  lemma {:induction false} LastDelete(r: Replica, rtype: ServiceType, ids: seq<Id>, kind: Kind)
    requires ids != []
    ensures var before := Applied(r, Deletes(rtype, ids[..|ids| - 1]), kind);
            Applied(r, Deletes(rtype, ids), kind)
            == if kind == DeleteKind(rtype) then WithoutIds(before, rtype, {ids[|ids| - 1]}) else before
  {
    var d := Deletes(rtype, ids);
    assert d[..|d| - 1] == Deletes(rtype, ids[..|ids| - 1]);
  }

  lemma {:induction false} ToSetLast(ids: seq<Id>)
    requires ids != []
    ensures ToSet(ids) == ToSet(ids[..|ids| - 1]) + {ids[|ids| - 1]}
  {
    assert ids == ids[..|ids| - 1] + [ids[|ids| - 1]];
  }

  lemma {:induction false} NothingWithout(r: Replica, rtype: ServiceType)
    ensures WithoutIds(r, rtype, {}) == r
  {
    assert r.lights - {} == r.lights && r.zigbees - {} == r.zigbees && r.entertainments - {} == r.entertainments;
  }

  lemma {:induction false} OneMoreWithout(r: Replica, rtype: ServiceType, ids: set<Id>, x: Id)
    ensures WithoutIds(WithoutIds(r, rtype, ids), rtype, {x}) == WithoutIds(r, rtype, ids + {x})
  {
    assert r.lights - ids - {x} == r.lights - (ids + {x});
    assert r.zigbees - ids - {x} == r.zigbees - (ids + {x});
    assert r.entertainments - ids - {x} == r.entertainments - (ids + {x});
  }
}
