/**
 The resources of a bridge that refer to each other, and the changes it announces.  Ids are
 numbers that stand for uuids.
 */
module ResourceData {
  type Id = nat

  datatype ServiceType = LightService | ZigbeeService | EntertainmentService | BridgeService | OtherService

  datatype Service = Service(rid: Id, rtype: ServiceType)

  datatype Device = Device(id: Id, services: seq<Service>)

  /** The members of a channel are entertainment services. */
  datatype Channel = Channel(id: nat, members: seq<Id>)

  /** `locations` are the entertainment services that have a place, `lights` the light services. */
  datatype Config = Config(id: Id, channels: seq<Channel>, locations: seq<Id>, lights: seq<Id>)

  datatype Tables = Tables(lights: seq<Id>, zigbees: seq<Id>, entertainments: seq<Id>, devices: seq<Device>, configs: seq<Config>)

  datatype Resource =
    | LightResource(id: Id)
    | ZigbeeResource(id: Id)
    | EntertainmentResource(id: Id)
    | DeviceResource(device: Device)
    | ConfigResource(config: Config)

  datatype Change = Add(resource: Resource) | Update(resource: Resource) | Delete(resource: Resource)

  // ---------------------------------------------------------------- filters

  function Keep<T>(s: seq<T>, p: T -> bool): seq<T> {
    if s == [] then []
    else Keep(s[..|s| - 1], p) + if p(s[|s| - 1]) then [s[|s| - 1]] else []
  }

  lemma {:induction false} KeepMembers<T(!new)>(s: seq<T>, p: T -> bool)
    ensures forall x :: x in Keep(s, p) <==> x in s && p(x)
  {
    if s != [] {
      KeepMembers(s[..|s| - 1], p);
      assert s == s[..|s| - 1] + [s[|s| - 1]];
    }
  }

  lemma {:induction false} KeepOneMore<T>(s: seq<T>, p: T -> bool, i: nat)
    requires i < |s|
    ensures Keep(s[..i + 1], p) == Keep(s[..i], p) + if p(s[i]) then [s[i]] else []
    ensures s[..|s|] == s && Keep(s[..0], p) == []
  {
    assert s[..i + 1][..i] == s[..i];
  }

  lemma {:induction false} KeepSame<T>(s: seq<T>, p: T -> bool, q: T -> bool)
    requires forall x :: x in s ==> p(x) == q(x)
    ensures Keep(s, p) == Keep(s, q)
  {
    if s != [] {
      KeepSame(s[..|s| - 1], p, q);
    }
  }

  /** Every two entries are related. */
  ghost predicate Pairwise<T>(s: seq<T>, r: (T, T) -> bool) {
    forall i, j :: 0 <= i < j < |s| ==> r(s[i], s[j])
  }

  lemma {:induction false} KeepPairwise<T(!new)>(s: seq<T>, p: T -> bool, r: (T, T) -> bool)
    requires Pairwise(s, r)
    ensures Pairwise(Keep(s, p), r)
  {
    if s != [] {
      var front, last := s[..|s| - 1], s[|s| - 1];
      KeepPairwise(front, p, r);
      KeepMembers(front, p);
      var k := Keep(front, p);
      forall i | 0 <= i < |k| ensures r(k[i], last) {
        assert k[i] in front;
      }
    }
  }

  lemma {:induction false} AppendPairwise<T>(s: seq<T>, x: T, r: (T, T) -> bool)
    requires Pairwise(s, r) && forall y :: y in s ==> r(y, x)
    ensures Pairwise(s + [x], r)
  {
  }

  function DifferentIds(): (Id, Id) -> bool { (a: Id, b: Id) => a != b }

  function DifferentDevices(): (Device, Device) -> bool { (a: Device, b: Device) => a.id != b.id }

  function DifferentChannels(): (Channel, Channel) -> bool { (a: Channel, b: Channel) => a.id != b.id }

  function DifferentConfigs(): (Config, Config) -> bool { (a: Config, b: Config) => a.id != b.id }
}
