/**
 What the simulated bridge does to its resources when a light is added to an entertainment
 configuration or a channel is deleted from it, and what it announces.
 */
module ServerSpec {
  import opened Prelude
  import opened ResourceData

  const CHANNEL_IDS: nat := 255

  // ---------------------------------------------------------------- adding a light

  predicate IsTaken(channels: seq<Channel>, id: nat) { exists k :: 0 <= k < |channels| && channels[k].id == id }

  /** One more than the highest channel id, and at least 255. */
  function IdListLength(channels: seq<Channel>): (n: nat)
    ensures n >= CHANNEL_IDS && forall k :: 0 <= k < |channels| ==> channels[k].id < n
  {
    if channels == [] then CHANNEL_IDS
    else
      var n := IdListLength(channels[..|channels| - 1]);
      var id := channels[|channels| - 1].id;
      if id >= n then id + 1 else n
  }

  /** The lowest id from i on that is not taken. */
  function FreeFrom(channels: seq<Channel>, i: nat, n: nat): (r: Option<nat>)
    requires i <= n
    ensures r.Some? ==> i <= r.value < n && !IsTaken(channels, r.value)
    ensures r.Some? ==> forall k :: i <= k < r.value ==> IsTaken(channels, k)
    ensures r.None? ==> forall k :: i <= k < n ==> IsTaken(channels, k)
    decreases n - i
  {
    if i == n then None else if !IsTaken(channels, i) then Some(i) else FreeFrom(channels, i + 1, n)
  }

  function FreeChannel(channels: seq<Channel>): Option<nat> { FreeFrom(channels, 0, IdListLength(channels)) }

  /** The ids drawn for a new light and what belongs to it. */
  datatype NewIds = NewIds(light: Id, entertainment: Id, zigbee: Id, device: Id)

  function NewDevice(n: NewIds): Device {
    Device(n.device, [Service(n.light, LightService), Service(n.zigbee, ZigbeeService), Service(n.entertainment, EntertainmentService)])
  }

  function WithLight(ec: Config, channelId: nat, n: NewIds): Config {
    ec.(channels := ec.channels + [Channel(channelId, [n.entertainment])], lights := ec.lights + [n.light],
        locations := ec.locations + [n.entertainment])
  }

  /** The configuration with the id, or the number of configurations. */
  function FindConfig(configs: seq<Config>, id: Id, i: nat): (r: nat)
    requires i <= |configs|
    ensures i <= r <= |configs|
    ensures r < |configs| ==> configs[r].id == id
    ensures forall k :: i <= k < r ==> configs[k].id != id
    decreases |configs| - i
  {
    if i == |configs| || configs[i].id == id then i else FindConfig(configs, id, i + 1)
  }

  datatype Reply = Failed | Succeeded(batch: seq<Change>)

  function LightAdded(t: Tables, k: nat, channelId: nat, n: NewIds): Tables
    requires k < |t.configs|
  {
    Tables(t.lights + [n.light], t.zigbees + [n.zigbee], t.entertainments + [n.entertainment],
           t.devices + [NewDevice(n)], t.configs[k := WithLight(t.configs[k], channelId, n)])
  }

  function LightBatch(ec: Config, n: NewIds): seq<Change> {
    [Add(LightResource(n.light)), Add(ZigbeeResource(n.zigbee)), Add(DeviceResource(NewDevice(n))), Update(ConfigResource(ec))]
  }

  function AddLight(t: Tables, ecId: Id, n: NewIds): (Reply, Tables) {
    var k := FindConfig(t.configs, ecId, 0);
    if k == |t.configs| then (Failed, t)
    else
      match FreeChannel(t.configs[k].channels)
      case None => (Failed, t)
      case Some(channelId) =>
        (Succeeded(LightBatch(WithLight(t.configs[k], channelId, n), n)), LightAdded(t, k, channelId, n))
  }

  // ---------------------------------------------------------------- deleting a channel

  function FindChannel(channels: seq<Channel>, id: nat, i: nat): (r: nat)
    requires i <= |channels|
    ensures i <= r <= |channels|
    ensures r < |channels| ==> channels[r].id == id
    ensures forall k :: i <= k < r ==> channels[k].id != id
    decreases |channels| - i
  {
    if i == |channels| || channels[i].id == id then i else FindChannel(channels, id, i + 1)
  }

  /** The members of the channel that goes. */
  function Leaving(ec: Config, channelId: nat): seq<Id> {
    var i := FindChannel(ec.channels, channelId, 0);
    if i < |ec.channels| then ec.channels[i].members else []
  }

  function ChannelRemoved(channels: seq<Channel>, channelId: nat): seq<Channel> {
    var i := FindChannel(channels, channelId, 0);
    if i < |channels| then channels[..i] + channels[i + 1..] else channels
  }

  function NotIn(gone: seq<Id>): Id -> bool { (x: Id) => x !in gone }

  /** A light leaves with all its channels: its members go, and a channel that loses its last member goes too. */
  function Pruned(c: Channel, gone: seq<Id>): seq<Channel> {
    var left := Keep(c.members, NotIn(gone));
    if left == [] && c.members != [] then [] else [Channel(c.id, left)]
  }

  function AllPruned(channels: seq<Channel>, gone: seq<Id>): seq<Channel> {
    if channels == [] then []
    else AllPruned(channels[..|channels| - 1], gone) + Pruned(channels[|channels| - 1], gone)
  }

  function WithoutMembers(ec: Config, channelId: nat): Config {
    var gone := Leaving(ec, channelId);
    ec.(channels := AllPruned(ChannelRemoved(ec.channels, channelId), gone), locations := Keep(ec.locations, NotIn(gone)))
  }

  predicate InChannel(ec: Config, x: Id) {
    exists i :: 0 <= i < |ec.channels| && x in ec.channels[i].members
  }

  /** Some configuration still uses the entertainment service. */
  predicate IsUsed(configs: seq<Config>, x: Id) { exists i :: 0 <= i < |configs| && InChannel(configs[i], x) }

  function FirstHit(services: seq<Service>, gone: seq<Id>, i: nat): (r: nat)
    requires i <= |services|
    ensures i <= r <= |services|
    ensures r < |services| ==> services[r].rtype.EntertainmentService? && services[r].rid in gone
    ensures forall k :: i <= k < r ==> !(services[k].rtype.EntertainmentService? && services[k].rid in gone)
    decreases |services| - i
  {
    if i == |services| || (services[i].rtype.EntertainmentService? && services[i].rid in gone) then i
    else FirstHit(services, gone, i + 1)
  }

  /** The device belongs to a light that leaves; and that light is still used elsewhere. */
  predicate Hit(d: Device, gone: seq<Id>) { FirstHit(d.services, gone, 0) < |d.services| }

  predicate HitButUsed(d: Device, gone: seq<Id>, configs: seq<Config>) {
    Hit(d, gone) && IsUsed(configs, d.services[FirstHit(d.services, gone, 0)].rid)
  }

  function IsHit(gone: seq<Id>): Device -> bool { (d: Device) => Hit(d, gone) }

  function IsHitButUsed(gone: seq<Id>, configs: seq<Config>): Device -> bool { (d: Device) => HitButUsed(d, gone, configs) }

  function RidsOf(services: seq<Service>, rtype: ServiceType): seq<Id> {
    if services == [] then []
    else
      var s := services[|services| - 1];
      RidsOf(services[..|services| - 1], rtype) + if s.rtype == rtype then [s.rid] else []
  }

  /** The services of one type of all devices with the property. */
  function Collected(devices: seq<Device>, p: Device -> bool, rtype: ServiceType): seq<Id> {
    if devices == [] then []
    else
      var d := devices[|devices| - 1];
      Collected(devices[..|devices| - 1], p, rtype) + if p(d) then RidsOf(d.services, rtype) else []
  }

  function DeviceIds(devices: seq<Device>, p: Device -> bool): seq<Id> {
    if devices == [] then []
    else
      var d := devices[|devices| - 1];
      DeviceIds(devices[..|devices| - 1], p) + if p(d) then [d.id] else []
  }

  function Stays(toDelete: seq<Id>, toKeep: seq<Id>): Id -> bool { (x: Id) => x in toKeep || x !in toDelete }

  function DeviceStays(toDelete: seq<Id>, toKeep: seq<Id>): Device -> bool {
    (d: Device) => d.id in toKeep || d.id !in toDelete
  }

  function StaysUsed(gone: seq<Id>, configs: seq<Config>): Id -> bool { (x: Id) => x !in gone || IsUsed(configs, x) }

  function Deletes(rtype: ServiceType, ids: seq<Id>): seq<Change> {
    if ids == [] then []
    else
      var x := ids[|ids| - 1];
      Deletes(rtype, ids[..|ids| - 1])
      + [Delete(if rtype.LightService? then LightResource(x) else if rtype.ZigbeeService? then ZigbeeResource(x)
                else EntertainmentResource(x))]
  }

  /** What a deletion works out: the members that leave, the configurations without them, and which lights and
      zigbee entries are concerned and which of those are still used. */
  datatype Plan = Plan(gone: seq<Id>, configs: seq<Config>, lights: seq<Id>, usedLights: seq<Id>,
                       zigbees: seq<Id>, usedZigbees: seq<Id>)

  function PlanFor(t: Tables, k: nat, channelId: nat): Plan
    requires k < |t.configs|
  {
    var gone := Leaving(t.configs[k], channelId);
    var configs := t.configs[k := WithoutMembers(t.configs[k], channelId)];
    var hit, used := IsHit(gone), IsHitButUsed(gone, configs);
    Plan(gone, configs, Collected(t.devices, hit, LightService), Collected(t.devices, used, LightService),
         Collected(t.devices, hit, ZigbeeService), Collected(t.devices, used, ZigbeeService))
  }

  function FinalConfig(p: Plan, k: nat): Config
    requires k < |p.configs|
  {
    p.configs[k].(lights := Keep(p.configs[k].lights, NotIn(p.lights)))
  }

  function Executed(t: Tables, k: nat, p: Plan): Tables
    requires k < |p.configs|
  {
    Tables(Keep(t.lights, Stays(p.lights, p.usedLights)),
           Keep(t.zigbees, Stays(p.zigbees, p.usedZigbees)),
           Keep(t.entertainments, StaysUsed(p.gone, p.configs)),
           Keep(t.devices, DeviceStays(DeviceIds(t.devices, IsHit(p.gone)), DeviceIds(t.devices, IsHitButUsed(p.gone, p.configs)))),
           p.configs[k := FinalConfig(p, k)])
  }

  function IsUnused(configs: seq<Config>): Id -> bool { (x: Id) => !IsUsed(configs, x) }

  function DeletionBatch(p: Plan, ec: Config): seq<Change> {
    Deletes(LightService, Keep(p.lights, NotIn(p.usedLights)))
    + Deletes(EntertainmentService, Keep(p.gone, IsUnused(p.configs)))
    + Deletes(ZigbeeService, Keep(p.zigbees, NotIn(p.usedZigbees)))
    + [Update(ConfigResource(ec))]
  }

  function DeleteChannel(t: Tables, ecId: Id, channelId: nat): (Reply, Tables) {
    var k := FindConfig(t.configs, ecId, 0);
    if k == |t.configs| then (Failed, t)
    else
      var p := PlanFor(t, k, channelId);
      (Succeeded(DeletionBatch(p, FinalConfig(p, k))), Executed(t, k, p))
  }
}
