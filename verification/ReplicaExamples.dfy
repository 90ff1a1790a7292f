/**
 Two small bridges whose clients agree, and the one command after which they miss something.
 */
module ReplicaExamples {
  import opened Prelude
  import opened ResourceData
  import opened ServerSpec
  import opened ServerIntegrity
  import opened ServerRuns
  import opened ReplicaSpec
  import opened ReplicaAgreement
  import opened ReplicaRuns
  import opened ReplicaKeys

  // ---------------------------------------------------------------- an addition

  function EmptyBridge(): Tables { Tables([], [], [], [], [Config(1, [], [], [])]) }

  function EmptyClient(): Replica { Replica([], {}, {}, {}, [GroupView(1, [], map[])]) }

  lemma {:induction false} EmptyBridgeIsFine()
    ensures Integrity(EmptyBridge()) && LightsBelong(EmptyBridge()) && Agrees(EmptyBridge(), EmptyClient())
  {
  }

  lemma {:induction false} AddedToEmpty(n: NewIds)
    ensures Commanded(EmptyBridge(), LightTo(1, n)).1.entertainments == [n.entertainment]
  {
    hide NewDevice;
    hide WithLight;
    var t := EmptyBridge();
    assert FindConfig(t.configs, 1, 0) == 0;
    NoFreeChannelWhen([]);
    assert !IsTaken([], 0);
  }

  /** One light added to an empty configuration: the client does not get its entertainment. */
  lemma {:induction false} AdditionMakesThemDiffer() returns (t: Tables, r: Replica, c: Command)
    ensures Integrity(t) && LightsBelong(t) && Agrees(t, r) && EntertainmentsEqual(t, r)
    ensures c.LightTo? && Fresh(t, c.ids) && FreshDevice(r.devices, c.ids)
    ensures !EntertainmentsEqual(Both(t, r, c).0, Both(t, r, c).1)
  {
    hide *;
    t, r := EmptyBridge(), EmptyClient();
    var n := NewIds(2, 3, 4, 5);
    c := LightTo(1, n);
    EmptyBridgeIsFine();
    EmptyHasNothing(n);
    CommandKnows({}, t, r, c);
    AddedIsMissed(n, Both(t, r, c).1);
  }

  lemma {:induction false} EmptyHasNothing(n: NewIds)
    requires n == NewIds(2, 3, 4, 5)
    ensures Fresh(EmptyBridge(), n) && FreshDevice(EmptyClient().devices, n)
    ensures EntertainmentsEqual(EmptyBridge(), EmptyClient()) && KnowsOf({}, EmptyBridge(), EmptyClient())
  {
  }

  lemma {:induction false} AddedIsMissed(n: NewIds, s: Replica)
    requires KnowsOf({}, Both(EmptyBridge(), EmptyClient(), LightTo(1, n)).0, s)
    ensures !EntertainmentsEqual(Both(EmptyBridge(), EmptyClient(), LightTo(1, n)).0, s)
  {
    AddedToEmpty(n);
    hide Commanded;
    hide BatchApplied;
    assert n.entertainment in Both(EmptyBridge(), EmptyClient(), LightTo(1, n)).0.entertainments;
  }

  // ---------------------------------------------------------------- a deletion

  function Lamp(): Device { Device(5, [Service(2, LightService), Service(3, EntertainmentService)]) }

  function Room(): Config { Config(1, [Channel(0, [3])], [3], [2]) }

  function LampBridge(): Tables { Tables([2], [], [3], [Lamp()], [Room()]) }

  function LampClient(): Replica { Replica([Lamp()], {}, {3}, {2}, [GroupView(1, [0], map[0 := [2]])]) }

  lemma {:induction false} LampServices()
    ensures forall s :: s in Lamp().services <==> s == Service(2, LightService) || s == Service(3, EntertainmentService)
    ensures Owns(Lamp(), 2, LightService) && Owns(Lamp(), 3, EntertainmentService) && HasRid(Lamp(), 3)
  {
    assert Lamp().services[1].rid == 3;
  }

  lemma {:induction false} RoomMembers()
    ensures forall x :: InChannel(Room(), x) <==> x == 3
  {
    assert Room().channels[0].members == [3];
  }

  lemma {:induction false} LampBridgeIsFine()
    ensures Integrity(LampBridge()) && LightsBelong(LampBridge())
  {
    var t := LampBridge();
    RoomResolves(t);
    LampBelongs();
    LampResolves();
    LampIsAlone();
    hide ConfigResolves;
    hide LightBelongs;
    hide ServicesResolve;
    hide OneOwner;
    hide OneEntertainment;
    hide Lamp;
  }

  lemma {:induction false} LampResolves()
    ensures ServicesResolve(LampBridge())
  {
    LampServices();
    hide Lamp;
  }

  lemma {:induction false} LampIsAlone()
    ensures OneOwner([Lamp()]) && OneEntertainment([Lamp()])
  {
    LampServices();
    hide *;
    OnlyOneOwner(Lamp());
    forall x | Owns(Lamp(), x, EntertainmentService) ensures x == 3 {
      LampEntertainment(x);
    }
    OnlyOneEntertainment(Lamp(), 3);
  }

  lemma {:induction false} LampEntertainment(x: Id)
    requires Owns(Lamp(), x, EntertainmentService)
    ensures x == 3
  {
    LampServices();
  }

  lemma {:induction false} OnlyOneOwner(d: Device)
    ensures OneOwner([d])
  {
  }

  lemma {:induction false} OnlyOneEntertainment(d: Device, y: Id)
    requires forall x :: Owns(d, x, EntertainmentService) ==> x == y
    ensures OneEntertainment([d])
  {
    hide Owns;
  }

  lemma {:induction false} RoomResolves(t: Tables)
    requires t.entertainments == [3]
    ensures ConfigResolves(t, Room())
  {
    RoomMembers();
    hide InChannel;
  }

  lemma {:induction false} LampBelongs()
    ensures LightBelongs([Lamp()], Room(), 2)
  {
    LampServices();
    RoomMembers();
    hide InChannel;
    hide Owns;
    assert Lamp() in [Lamp()];
  }

  lemma {:induction false} LampClientAgrees()
    ensures Agrees(LampBridge(), LampClient())
  {
    LampServices();
    assert FindOwner([Lamp()], 3, 0) == 0;
    assert LightOf([Lamp()], 3) == Some(2);
    assert [3][..0] == [] && LightsOf([Lamp()], [3]) == [2];
    var channels := Room().channels;
    assert channels[..0] == [] && ChannelIds(channels) == [0];
    assert channels[0] in channels;
    hide LightsOf;
    hide ChannelIds;
  }

  lemma {:induction false} LampLeaves()
    ensures Lamp() !in DeleteChannel(LampBridge(), 1, 0).1.devices
  {
    var t := LampBridge();
    LampBridgeIsFine();
    LampServices();
    var p := PlanFor(t, 0, 0);
    RoomLeaving();
    LampUnused(p);
    hide Integrity;
    hide Executed;
    hide PlanFor;
    hide Lamp;
    assert FindConfig(t.configs, 1, 0) == 0;
    assert p == PlanFor(t, 0, 0) && OneEntertainment(t.devices) by { IntegrityHasOne(t); }
    DevicesLeft(t, 0, 0, p);
    HitMeans(Lamp(), p.gone, p.configs, t.devices, 3);
  }

  lemma {:induction false} IntegrityHasOne(t: Tables)
    requires Integrity(t)
    ensures OneEntertainment(t.devices)
  {
  }

  lemma {:induction false} RoomLeaving()
    ensures Leaving(Room(), 0) == [3]
  {
  }

  lemma {:induction false} LampUnused(p: Plan)
    requires p == PlanFor(LampBridge(), 0, 0)
    ensures p.gone == [3] && !IsUsed(p.configs, 3)
  {
    hide Collected;
    hide WithoutMembers;
    RoomLeaving();
    MembersLeft(Room(), 0, 3);
    hide InChannel;
    assert p.configs == [WithoutMembers(Room(), 0)];
  }

  /** One light and its channel deleted: the client keeps the device that the bridge no longer has. */
  lemma {:induction false} DeletionLeavesStaleDevice() returns (t: Tables, r: Replica, c: Command)
    ensures Integrity(t) && LightsBelong(t) && Agrees(t, r) && c.ChannelFrom?
    ensures exists d :: d in Both(t, r, c).1.devices && d in t.devices && d !in Both(t, r, c).0.devices
  {
    t, r, c := LampBridge(), LampClient(), ChannelFrom(1, 0);
    LampBridgeIsFine();
    LampClientAgrees();
    LampLeaves();
    CommandAndDevices(t, r, c);
    hide BatchApplied;
    hide DeleteChannel;
    hide Integrity;
    hide LightsBelong;
    hide Agrees;
    hide Lamp;
    assert Lamp() in Both(t, r, c).1.devices;
  }
}
