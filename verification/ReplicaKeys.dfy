/**
 What the client has right without any assumption on the bridge or on the drawn ids: which lights and
 zigbee entries there are, and the channels of every configuration.  And what it has not: the
 entertainments and devices that are not announced.
 */
module ReplicaKeys {
  import opened Prelude
  import opened ResourceData
  import opened ServerSpec
  import opened ServerIntegrity
  import opened ServerRuns
  import opened ReplicaSpec
  import opened ReplicaAgreement
  import opened ReplicaRuns

  // ---------------------------------------------------------------- keys and channels

  /** The groups show the configurations, each with its channel ids in order. */
  ghost predicate ChannelsAgree(configs: seq<Config>, groups: seq<GroupView>) {
    |groups| == |configs| &&
    forall i :: 0 <= i < |configs| ==> groups[i].id == configs[i].id && groups[i].channels == ChannelIds(configs[i].channels)
  }

  ghost predicate KeysAgree(t: Tables, r: Replica) {
    && (forall x :: x in r.lights <==> x in t.lights)
    && (forall x :: x in r.zigbees <==> x in t.zigbees)
    && ChannelsAgree(t.configs, r.groups)
  }

  /** Both sides take the first configuration with the id. */
  lemma {:induction false} SamePosition(configs: seq<Config>, groups: seq<GroupView>, id: Id, i: nat)
    requires |groups| == |configs| && i <= |groups|
    requires forall j :: 0 <= j < |groups| ==> groups[j].id == configs[j].id
    ensures FindGroup(groups, id, i) == FindConfig(configs, id, i)
    decreases |groups| - i
  {
    if i < |groups| && groups[i].id != id {
      SamePosition(configs, groups, id, i + 1);
    }
  }

  lemma {:induction false} UpdateKeepsChannels(configs: seq<Config>, r: Replica, k: nat, ec: Config)
    requires ChannelsAgree(configs, r.groups) && k < |configs| && k == FindConfig(configs, ec.id, 0) && ec.id == configs[k].id
    ensures ChannelsAgree(configs[k := ec], ConfigUpdated(r, ec).groups)
    ensures ConfigUpdated(r, ec) == r.(groups := ConfigUpdated(r, ec).groups)
  {
    SamePosition(configs, r.groups, ec.id, 0);
  }

  lemma {:induction false} AdditionKeys(t: Tables, r: Replica, k: nat, channelId: nat, n: NewIds)
    requires KeysAgree(t, r) && k < |t.configs| && k == FindConfig(t.configs, t.configs[k].id, 0)
    ensures KeysAgree(LightAdded(t, k, channelId, n), BatchApplied(r, LightBatch(WithLight(t.configs[k], channelId, n), n)))
  {
    var ec := WithLight(t.configs[k], channelId, n);
    LightBatchApplied(r, ec, n);
    UpdateKeepsChannels(t.configs, WithNewLight(r, n), k, ec);
    hide ConfigUpdated;
    hide BatchApplied;
  }

  lemma {:induction false} StaysIsNotAnnounced(ids: seq<Id>, toDelete: seq<Id>, toKeep: seq<Id>, x: Id)
    ensures x in Keep(ids, Stays(toDelete, toKeep)) <==> x in ids && x !in Keep(toDelete, NotIn(toKeep))
  {
    KeepMembers(ids, Stays(toDelete, toKeep));
    KeepMembers(toDelete, NotIn(toKeep));
  }

  lemma {:induction false} DeletionKeys(t: Tables, r: Replica, k: nat, channelId: nat)
    requires KeysAgree(t, r) && k < |t.configs| && k == FindConfig(t.configs, t.configs[k].id, 0)
    ensures var p := PlanFor(t, k, channelId);
            KeysAgree(Executed(t, k, p), BatchApplied(r, DeletionBatch(p, FinalConfig(p, k))))
  {
    var p := PlanFor(t, k, channelId);
    var u, ec := Executed(t, k, p), FinalConfig(p, k);
    DeletionBatchApplied(r, p, ec);
    ExecutedConfigs(t, k, channelId);
    hide Keep;
    hide PlanFor;
    hide FinalConfig;
    hide ToSet;
    var s := r.(lights := r.lights - ToSet(Keep(p.lights, NotIn(p.usedLights))),
                zigbees := r.zigbees - ToSet(Keep(p.zigbees, NotIn(p.usedZigbees))),
                entertainments := r.entertainments - ToSet(Keep(p.gone, IsUnused(p.configs))));
    UpdateKeepsChannels(t.configs, s, k, ec);
    hide BatchApplied;
    hide ConfigUpdated;
    hide ChannelsAgree;
    InToSet(Keep(p.lights, NotIn(p.usedLights)));
    InToSet(Keep(p.zigbees, NotIn(p.usedZigbees)));
    forall x ensures (x in u.lights <==> x in s.lights) && (x in u.zigbees <==> x in s.zigbees) {
      StaysIsNotAnnounced(t.lights, p.lights, p.usedLights, x);
      StaysIsNotAnnounced(t.zigbees, p.zigbees, p.usedZigbees, x);
    }
  }

  lemma {:induction false} InToSet(ids: seq<Id>)
    ensures forall x :: x in ToSet(ids) <==> x in ids
  {
  }

  lemma {:induction false} ExecutedConfigs(t: Tables, k: nat, channelId: nat)
    requires k < |t.configs|
    ensures var p := PlanFor(t, k, channelId);
            k < |p.configs| && FinalConfig(p, k).id == t.configs[k].id && Executed(t, k, p).configs == t.configs[k := FinalConfig(p, k)]
  {
    hide Keep;
    hide Collected;
    hide AllPruned;
  }

  lemma {:induction false} CommandKeys(t: Tables, r: Replica, c: Command)
    requires KeysAgree(t, r)
    ensures KeysAgree(Both(t, r, c).0, Both(t, r, c).1)
  {
    hide BatchApplied;
    hide Executed;
    hide KeysAgree;
    var k := FindConfig(t.configs, c.ecId, 0);
    if k < |t.configs| {
      match c
      case LightTo(_, n) =>
        var free := FreeChannel(t.configs[k].channels);
        if free.Some? {
          AdditionKeys(t, r, k, free.value, n);
        }
      case ChannelFrom(_, channelId) =>
        DeletionKeys(t, r, k, channelId);
    }
  }

  /** From any bridge and any client that agree on the keys, after any run: the client's light ids and zigbee ids are
      the bridge's, and each group's channel ids are its configuration's, in order. */
  lemma {:induction false} KeysAgreeAlways(t: Tables, r: Replica, commands: seq<Command>)
    requires KeysAgree(t, r)
    ensures var (u, s) := Run(t, r, commands); KeysAgree(u, s)
  {
    hide Both;
    hide KeysAgree;
    if commands != [] {
      KeysAgreeAlways(t, r, commands[..|commands| - 1]);
      var (u, s) := Run(t, r, commands[..|commands| - 1]);
      CommandKeys(u, s, commands[|commands| - 1]);
    }
  }

  // ---------------------------------------------------------------- entertainments

  /** Of the bridge's entertainments the client has those it knew at the start. */
  ghost predicate KnowsOf(known: set<Id>, t: Tables, r: Replica) {
    forall x :: x in r.entertainments <==> x in t.entertainments && x in known
  }

  lemma {:induction false} DeletionKnows(known: set<Id>, t: Tables, r: Replica, k: nat, channelId: nat)
    requires KnowsOf(known, t, r) && k < |t.configs|
    ensures var p := PlanFor(t, k, channelId);
            KnowsOf(known, Executed(t, k, p), BatchApplied(r, DeletionBatch(p, FinalConfig(p, k))))
  {
    var p := PlanFor(t, k, channelId);
    DeletionBatchApplied(r, p, FinalConfig(p, k));
    KeepMembers(t.entertainments, StaysUsed(p.gone, p.configs));
    KeepMembers(p.gone, IsUnused(p.configs));
    hide BatchApplied;
    hide Keep;
  }

  lemma {:induction false} AdditionKnows(known: set<Id>, t: Tables, r: Replica, k: nat, channelId: nat, n: NewIds)
    requires KnowsOf(known, t, r) && k < |t.configs| && n.entertainment !in known
    ensures KnowsOf(known, LightAdded(t, k, channelId, n), BatchApplied(r, LightBatch(WithLight(t.configs[k], channelId, n), n)))
  {
    LightBatchApplied(r, WithLight(t.configs[k], channelId, n), n);
    hide BatchApplied;
  }

  /** No drawn entertainment id was known before. */
  ghost predicate DrawsUnknown(known: set<Id>, commands: seq<Command>) {
    forall i :: 0 <= i < |commands| && commands[i].LightTo? ==> commands[i].ids.entertainment !in known
  }

  lemma {:induction false} CommandKnows(known: set<Id>, t: Tables, r: Replica, c: Command)
    requires KnowsOf(known, t, r) && (c.LightTo? ==> c.ids.entertainment !in known)
    ensures KnowsOf(known, Both(t, r, c).0, Both(t, r, c).1)
  {
    hide BatchApplied;
    hide Executed;
    hide KnowsOf;
    var k := FindConfig(t.configs, c.ecId, 0);
    if k < |t.configs| {
      match c
      case LightTo(_, n) =>
        var free := FreeChannel(t.configs[k].channels);
        if free.Some? {
          AdditionKnows(known, t, r, k, free.value, n);
        }
      case ChannelFrom(_, channelId) =>
        DeletionKnows(known, t, r, k, channelId);
    }
  }

  /** After any run the client's entertainments are exactly those of the bridge that it knew at the start. */
  lemma {:induction false} EntertainmentsKnownAtTheStart(t: Tables, r: Replica, commands: seq<Command>)
    requires KnowsOf(r.entertainments, t, r) && DrawsUnknown(r.entertainments, commands)
    ensures var (u, s) := Run(t, r, commands); KnowsOf(r.entertainments, u, s)
  {
    hide Both;
    hide KnowsOf;
    if commands != [] {
      EntertainmentsKnownAtTheStart(t, r, commands[..|commands| - 1]);
      var (u, s) := Run(t, r, commands[..|commands| - 1]);
      CommandKnows(r.entertainments, u, s, commands[|commands| - 1]);
    }
  }

  ghost predicate EntertainmentsEqual(t: Tables, r: Replica) { forall x :: x in r.entertainments <==> x in t.entertainments }

  /** Nothing comes onto the bridge but what was there and what was drawn. */
  lemma {:induction false} EntertainmentsComeFrom(t: Tables, commands: seq<Command>, x: Id)
    requires x in BridgeAfter(t, commands).entertainments
    ensures x in t.entertainments || exists i :: 0 <= i < |commands| && commands[i].LightTo? && commands[i].ids.entertainment == x
  {
    if commands != [] {
      var front, c := commands[..|commands| - 1], commands[|commands| - 1];
      var u := BridgeAfter(t, front);
      LastComesFrom(u, c, x);
      if x in u.entertainments {
        EntertainmentsComeFrom(t, front, x);
        if i :| 0 <= i < |front| && front[i].LightTo? && front[i].ids.entertainment == x {
          assert commands[i] == front[i];
        }
      }
    }
  }

  lemma {:induction false} LastComesFrom(t: Tables, c: Command, x: Id)
    requires x in Commanded(t, c).1.entertainments
    ensures x in t.entertainments || (c.LightTo? && c.ids.entertainment == x)
  {
    var k := FindConfig(t.configs, c.ecId, 0);
    if c.ChannelFrom? && k < |t.configs| {
      var p := PlanFor(t, k, c.channelId);
      KeepMembers(t.entertainments, StaysUsed(p.gone, p.configs));
    }
  }

  /** So a client that knew all of them has them all after the run exactly when no entertainment that was added in
      the run is left on the bridge. */
  lemma {:induction false} EntertainmentsEqualWhen(t: Tables, r: Replica, commands: seq<Command>)
    requires EntertainmentsEqual(t, r) && DrawsUnknown(r.entertainments, commands)
    ensures var (u, s) := Run(t, r, commands);
            EntertainmentsEqual(u, s) <==>
            forall i :: 0 <= i < |commands| && commands[i].LightTo? ==> commands[i].ids.entertainment !in u.entertainments
  {
    EntertainmentsKnownAtTheStart(t, r, commands);
    BridgeOfRun(t, r, commands);
    var (u, s) := Run(t, r, commands);
    hide Run;
    hide BridgeAfter;
    forall x | x in u.entertainments
      ensures x in r.entertainments || exists i :: 0 <= i < |commands| && commands[i].LightTo? && commands[i].ids.entertainment == x
    {
      EntertainmentsComeFrom(t, commands, x);
    }
  }

  // ---------------------------------------------------------------- devices

  /** The devices of the lights that were added. */
  function AddedDevices(t: Tables, commands: seq<Command>): seq<Device> {
    if commands == [] then []
    else
      var front, c := commands[..|commands| - 1], commands[|commands| - 1];
      AddedDevices(t, front)
      + if c.LightTo? && Commanded(BridgeAfter(t, front), c).0.Succeeded? then [NewDevice(c.ids)] else []
  }

  lemma {:induction false} CommandAndDevices(t: Tables, r: Replica, c: Command)
    requires c.LightTo? ==> FreshDevice(r.devices, c.ids)
    ensures Both(t, r, c).1.devices
         == r.devices + if c.LightTo? && Commanded(t, c).0.Succeeded? then [NewDevice(c.ids)] else []
  {
    hide BatchApplied;
    hide Executed;
    hide NewDevice;
    var k := FindConfig(t.configs, c.ecId, 0);
    if k < |t.configs| {
      match c
      case LightTo(_, n) =>
        var free := FreeChannel(t.configs[k].channels);
        if free.Some? {
          LightBatchApplied(r, WithLight(t.configs[k], free.value, n), n);
          NewDeviceIsKept(r, n);
        }
      case ChannelFrom(_, channelId) =>
        var p := PlanFor(t, k, channelId);
        DeletionBatchApplied(r, p, FinalConfig(p, k));
    }
  }

  /** After any run the client has the devices it started with and those that were added, in this order: none is ever
      forgotten, because removals are not announced. */
  lemma {:induction false} DevicesAreNeverForgotten(t: Tables, r: Replica, commands: seq<Command>)
    requires AllFresh(t, r, commands)
    ensures Run(t, r, commands).1.devices == r.devices + AddedDevices(t, commands)
  {
    hide Both;
    hide Commanded;
    if commands != [] {
      var front, c := commands[..|commands| - 1], commands[|commands| - 1];
      FreshPrefix(t, r, commands);
      DevicesAreNeverForgotten(t, r, front);
      BridgeOfRun(t, r, front);
      assert IsFreshAfter(t, r, commands, |commands| - 1);
      var (u, s) := Run(t, r, front);
      CommandAndDevices(u, s, c);
      Associate(r.devices, AddedDevices(t, front),
                if c.LightTo? && Commanded(u, c).0.Succeeded? then [NewDevice(c.ids)] else []);
    }
  }
}
