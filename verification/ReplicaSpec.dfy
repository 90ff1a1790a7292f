/**
 What the client keeps of a bridge and how a batch of changes moves it: the changes are taken by
 kind of resource, devices first and configurations last.
 */
module ReplicaSpec {
  import opened Prelude
  import opened ResourceData

  /** An entertainment group as the client shows it: its channel ids, and the lights behind each channel. */
  datatype GroupView = GroupView(id: Id, channels: seq<nat>, lightsOf: map<nat, seq<Id>>)

  /** `devices` are kept in the order in which they are looked through. */
  datatype Replica = Replica(devices: seq<Device>, zigbees: set<Id>, entertainments: set<Id>, lights: set<Id>, groups: seq<GroupView>)

  datatype Kind = OfDevice | OfZigbee | OfEntertainment | OfLight | OfConfig

  function KindOf(c: Change): Kind {
    match c.resource
    case DeviceResource(_) => OfDevice
    case ZigbeeResource(_) => OfZigbee
    case EntertainmentResource(_) => OfEntertainment
    case LightResource(_) => OfLight
    case ConfigResource(_) => OfConfig
  }

  // ---------------------------------------------------------------- looking things up

  predicate HasRid(d: Device, rid: Id) { exists k :: 0 <= k < |d.services| && d.services[k].rid == rid }

  /** Only devices with a light, and the bridge, are kept. */
  predicate IsKept(d: Device) {
    exists k :: 0 <= k < |d.services| && (d.services[k].rtype.LightService? || d.services[k].rtype.BridgeService?)
  }

  function FindOwner(devices: seq<Device>, rid: Id, i: nat): (r: nat)
    requires i <= |devices|
    ensures i <= r <= |devices|
    ensures r < |devices| ==> HasRid(devices[r], rid)
    ensures forall k :: i <= k < r ==> !HasRid(devices[k], rid)
    decreases |devices| - i
  {
    if i == |devices| || HasRid(devices[i], rid) then i else FindOwner(devices, rid, i + 1)
  }

  function FirstLight(services: seq<Service>, i: nat): Option<Id>
    requires i <= |services|
    decreases |services| - i
  {
    if i == |services| then None
    else if services[i].rtype.LightService? then Some(services[i].rid)
    else FirstLight(services, i + 1)
  }

  /** The light of the device that has the service. */
  function LightOf(devices: seq<Device>, rid: Id): Option<Id> {
    var i := FindOwner(devices, rid, 0);
    if i == |devices| then None else FirstLight(devices[i].services, 0)
  }

  function LightsOf(devices: seq<Device>, members: seq<Id>): seq<Id> {
    if members == [] then []
    else
      LightsOf(devices, members[..|members| - 1])
      + match LightOf(devices, members[|members| - 1])
        case Some(x) => [x]
        case None => []
  }

  function ChannelIds(channels: seq<Channel>): seq<nat> {
    if channels == [] then [] else ChannelIds(channels[..|channels| - 1]) + [channels[|channels| - 1].id]
  }

  /** insert: the first entry for a key stays. */
  function LightMap(devices: seq<Device>, channels: seq<Channel>): map<nat, seq<Id>> {
    if channels == [] then map[]
    else
      var m := LightMap(devices, channels[..|channels| - 1]);
      var c := channels[|channels| - 1];
      if c.id in m then m else m[c.id := LightsOf(devices, c.members)]
  }

  function FindGroup(groups: seq<GroupView>, id: Id, i: nat): (r: nat)
    requires i <= |groups|
    ensures i <= r <= |groups|
    ensures r < |groups| ==> groups[r].id == id
    ensures forall k :: i <= k < r ==> groups[k].id != id
    decreases |groups| - i
  {
    if i == |groups| || groups[i].id == id then i else FindGroup(groups, id, i + 1)
  }

  // ---------------------------------------------------------------- changes

  function FindDevice(devices: seq<Device>, id: Id, i: nat): (r: nat)
    requires i <= |devices|
    ensures i <= r <= |devices|
    ensures r < |devices| ==> devices[r].id == id
    ensures forall k :: i <= k < r ==> devices[k].id != id
    decreases |devices| - i
  {
    if i == |devices| || devices[i].id == id then i else FindDevice(devices, id, i + 1)
  }

  function DeviceAdded(devices: seq<Device>, d: Device): seq<Device> {
    if !IsKept(d) then devices
    else
      var i := FindDevice(devices, d.id, 0);
      if i < |devices| then devices[i := d] else devices + [d]
  }

  function DeviceDeleted(devices: seq<Device>, id: Id): seq<Device> {
    var i := FindDevice(devices, id, 0);
    if i < |devices| then devices[..i] + devices[i + 1..] else devices
  }

  function ViewOf(devices: seq<Device>, ec: Config): GroupView {
    GroupView(ec.id, ChannelIds(ec.channels), LightMap(devices, ec.channels))
  }

  function ConfigUpdated(r: Replica, ec: Config): Replica {
    var i := FindGroup(r.groups, ec.id, 0);
    if i < |r.groups| then r.(groups := r.groups[i := ViewOf(r.devices, ec)]) else r
  }

  function ConfigDeleted(r: Replica, id: Id): Replica {
    var i := FindGroup(r.groups, id, 0);
    if i < |r.groups| then r.(groups := r.groups[..i] + r.groups[i + 1..]) else r
  }

  /** Updates of devices, zigbee entries, entertainments and lights change no keys. */
  function Changed(r: Replica, c: Change): Replica {
    match c
    case Add(DeviceResource(d)) => r.(devices := DeviceAdded(r.devices, d))
    case Delete(DeviceResource(d)) => r.(devices := DeviceDeleted(r.devices, d.id))
    case Add(ZigbeeResource(x)) => if FindOwner(r.devices, x, 0) < |r.devices| then r.(zigbees := r.zigbees + {x}) else r
    case Delete(ZigbeeResource(x)) => r.(zigbees := r.zigbees - {x})
    case Add(EntertainmentResource(x)) => r.(entertainments := r.entertainments + {x})
    case Delete(EntertainmentResource(x)) => r.(entertainments := r.entertainments - {x})
    case Add(LightResource(x)) => r.(lights := r.lights + {x})
    case Delete(LightResource(x)) => r.(lights := r.lights - {x})
    case Add(ConfigResource(ec)) => r.(groups := r.groups + [ViewOf(r.devices, ec)])
    case Update(ConfigResource(ec)) => ConfigUpdated(r, ec)
    case Delete(ConfigResource(ec)) => ConfigDeleted(r, ec.id)
    case _ => r
  }

  /** The changes of one kind, in their order. */
  function Applied(r: Replica, batch: seq<Change>, kind: Kind): Replica {
    if batch == [] then r
    else
      var before, c := Applied(r, batch[..|batch| - 1], kind), batch[|batch| - 1];
      if KindOf(c) == kind then Changed(before, c) else before
  }

  function BatchApplied(r: Replica, batch: seq<Change>): Replica {
    Applied(Applied(Applied(Applied(Applied(r, batch, OfDevice), batch, OfZigbee), batch, OfEntertainment), batch, OfLight), batch, OfConfig)
  }
}
