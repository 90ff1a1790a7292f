/**
 The light services that dangle: those that a configuration lists although no member's device has them.
 */
module DanglingLights {
  import opened Prelude
  import opened ResourceData
  import opened ServerSpec
  import opened ServerIntegrity
  import opened ServerRuns

  ghost predicate Dangles(t: Tables, i: nat, x: Id) {
    i < |t.configs| && x in t.configs[i].lights && !LightBelongs(t.devices, t.configs[i], x)
  }

  /** What dangles in t still dangles in u. */
  ghost predicate StillDangle(t: Tables, u: Tables) { forall i: nat, x :: Dangles(t, i, x) ==> Dangles(u, i, x) }

  /** Fewer devices and fewer members make nothing belong. */
  lemma {:induction false} FewerMakeNothingBelong(a: seq<Device>, ec: Config, b: seq<Device>, out: Config, x: Id)
    requires !LightBelongs(a, ec, x)
    requires (forall d :: d in b ==> d in a) && (forall y :: InChannel(out, y) ==> InChannel(ec, y))
    ensures !LightBelongs(b, out, x)
  {
  }

  /** The lights of a deletion are those of devices with a member in the channel. */
  lemma {:induction false} HitLightBelongs(t: Tables, k: nat, channelId: nat, x: Id)
    requires k < |t.configs| && x in PlanFor(t, k, channelId).lights
    ensures LightBelongs(t.devices, t.configs[k], x)
  {
    var gone := Leaving(t.configs[k], channelId);
    CollectedMembers(t.devices, IsHit(gone), LightService, x);
    var d :| d in t.devices && IsHit(gone)(d) && Owns(d, x, LightService);
    var j := FirstHit(d.services, gone, 0);
    assert d.services[j] == Service(d.services[j].rid, EntertainmentService);
    assert Owns(d, d.services[j].rid, EntertainmentService) && InChannel(t.configs[k], d.services[j].rid);
  }

  lemma {:induction false} DeletionLeavesDangling(t: Tables, k: nat, channelId: nat)
    requires k < |t.configs|
    ensures StillDangle(t, Executed(t, k, PlanFor(t, k, channelId)))
  {
    var p := PlanFor(t, k, channelId);
    var u := Executed(t, k, p);
    KeepMembers(t.devices, DeviceStays(DeviceIds(t.devices, IsHit(p.gone)), DeviceIds(t.devices, IsHitButUsed(p.gone, p.configs))));
    KeepMembers(t.configs[k].lights, NotIn(p.lights));
    forall i: nat, x | Dangles(t, i, x) ensures Dangles(u, i, x) {
      if i == k {
        if x in p.lights {
          HitLightBelongs(t, k, channelId, x);
        }
        forall y | InChannel(u.configs[k], y) ensures InChannel(t.configs[k], y) {
          FinalMembers(p, k, y);
          MembersLeft(t.configs[k], channelId, y);
        }
      }
      FewerMakeNothingBelong(t.devices, t.configs[i], u.devices, u.configs[i], x);
    }
  }

  ghost predicate IsListed(t: Tables, x: Id) { exists i :: 0 <= i < |t.configs| && x in t.configs[i].lights }

  /** Another light than the new one belongs after an addition only if it did before. */
  lemma {:induction false} BelongedBefore(t: Tables, k: nat, channelId: nat, n: NewIds, i: nat, x: Id)
    requires k < |t.configs| && i < |t.configs| && FreshDevice(t.devices, n) && x != n.light
    requires var u := LightAdded(t, k, channelId, n); LightBelongs(u.devices, u.configs[i], x)
    ensures LightBelongs(t.devices, t.configs[i], x)
  {
    var u := LightAdded(t, k, channelId, n);
    var d, y :| d in u.devices && Owns(d, x, LightService) && Owns(d, y, EntertainmentService) && InChannel(u.configs[i], y);
    NewDeviceOwns(n, Service(x, LightService));
    MembersWithLight(t.configs[k], channelId, n, y);
    assert d in t.devices && y != n.entertainment;
  }

  lemma {:induction false} AdditionLeavesDangling(t: Tables, k: nat, channelId: nat, n: NewIds)
    requires k < |t.configs| && FreshDevice(t.devices, n) && !IsListed(t, n.light)
    ensures StillDangle(t, LightAdded(t, k, channelId, n))
  {
    var u := LightAdded(t, k, channelId, n);
    hide LightBelongs;
    hide FreshDevice;
    forall i: nat, x | Dangles(t, i, x) ensures Dangles(u, i, x) {
      if LightBelongs(u.devices, u.configs[i], x) {
        BelongedBefore(t, k, channelId, n, i, x);
      }
    }
  }

  /** The light drawn by a command is not listed by any configuration then. */
  ghost predicate DrawsUnlisted(t: Tables, commands: seq<Command>) {
    forall i :: 0 <= i < |commands| ==> UnlistedAt(t, commands, i)
  }

  ghost predicate UnlistedAt(t: Tables, commands: seq<Command>, i: nat)
    requires i < |commands|
  {
    commands[i].LightTo? ==> !IsListed(BridgeAfter(t, commands[..i]), commands[i].ids.light)
  }

  lemma {:induction false} CommandLeavesDangling(t: Tables, c: Command)
    requires c.LightTo? ==> Fresh(t, c.ids) && !IsListed(t, c.ids.light)
    ensures StillDangle(t, Commanded(t, c).1)
  {
    hide Executed;
    hide LightAdded;
    hide LightBelongs;
    var k := FindConfig(t.configs, c.ecId, 0);
    if k < |t.configs| {
      match c
      case LightTo(_, n) =>
        var free := FreeChannel(t.configs[k].channels);
        if free.Some? {
          AdditionLeavesDangling(t, k, free.value, n);
        }
      case ChannelFrom(_, channelId) =>
        DeletionLeavesDangling(t, k, channelId);
    }
  }

  lemma {:induction false} DanglingStays(t: Tables, commands: seq<Command>)
    requires DrawsFresh(t, commands) && DrawsUnlisted(t, commands)
    ensures StillDangle(t, BridgeAfter(t, commands))
  {
    hide Dangles;
    hide Fresh;
    hide IsListed;
    hide Commanded;
    if commands != [] {
      var front, last := commands[..|commands| - 1], commands[|commands| - 1];
      forall i | 0 <= i < |front| ensures FreshAt(t, front, i) && UnlistedAt(t, front, i) {
        assert FreshAt(t, commands, i) && UnlistedAt(t, commands, i);
        assert front[..i] == commands[..i];
      }
      DanglingStays(t, front);
      assert FreshAt(t, commands, |commands| - 1) && UnlistedAt(t, commands, |commands| - 1);
      CommandLeavesDangling(BridgeAfter(t, front), last);
    }
  }

  /** After any run, what dangles is exactly what dangled at the start; so all light services belong after it exactly
      when they all did. */
  lemma {:induction false} SameDangling(t: Tables, commands: seq<Command>)
    requires Integrity(t) && DrawsFresh(t, commands) && DrawsUnlisted(t, commands)
    ensures forall i: nat, x :: Dangles(BridgeAfter(t, commands), i, x) <==> Dangles(t, i, x)
    ensures LightsBelong(BridgeAfter(t, commands)) <==> LightsBelong(t)
  {
    var u := BridgeAfter(t, commands);
    DanglingStays(t, commands);
    IntegrityAlways(t, commands);
    hide Integrity;
    hide LightBelongs;
    hide BridgeAfter;
    forall i: nat, x | Dangles(u, i, x) ensures Dangles(t, i, x) {
    }
    BelongMeans(t);
    BelongMeans(u);
  }

  lemma {:induction false} BelongMeans(t: Tables)
    ensures LightsBelong(t) <==> forall i: nat, x :: !Dangles(t, i, x)
  {
    hide LightBelongs;
    if !LightsBelong(t) {
      var i, x :| 0 <= i < |t.configs| && x in t.configs[i].lights && !LightBelongs(t.devices, t.configs[i], x);
      assert Dangles(t, i, x);
    }
  }
}
