/**
 Runs of commands on the bridge: additions of lights and deletions of channels, in any order.
 */
module ServerRuns {
  import opened Prelude
  import opened ResourceData
  import opened ServerSpec
  import opened ServerIntegrity

  datatype Command = LightTo(ecId: Id, ids: NewIds) | ChannelFrom(ecId: Id, channelId: nat)

  function Commanded(t: Tables, c: Command): (Reply, Tables) {
    match c
    case LightTo(ecId, n) => AddLight(t, ecId, n)
    case ChannelFrom(ecId, channelId) => DeleteChannel(t, ecId, channelId)
  }

  function BridgeAfter(t: Tables, commands: seq<Command>): Tables {
    if commands == [] then t else Commanded(BridgeAfter(t, commands[..|commands| - 1]), commands[|commands| - 1]).1
  }

  /** Drawn ids are new each time. */
  ghost predicate DrawsFresh(t: Tables, commands: seq<Command>) {
    forall i :: 0 <= i < |commands| ==> FreshAt(t, commands, i)
  }

  ghost predicate FreshAt(t: Tables, commands: seq<Command>, i: nat)
    requires i < |commands|
  {
    commands[i].LightTo? ==> Fresh(BridgeAfter(t, commands[..i]), commands[i].ids)
  }

  lemma {:induction false} CommandKeepsIntegrity(t: Tables, c: Command)
    requires Integrity(t) && (c.LightTo? ==> Fresh(t, c.ids))
    ensures Integrity(Commanded(t, c).1) && NoNewDangling(t, Commanded(t, c).1)
  {
    hide Executed;
    hide Integrity;
    hide Fresh;
    hide LightBelongs;
    var k := FindConfig(t.configs, c.ecId, 0);
    if k < |t.configs| {
      match c
      case LightTo(_, n) =>
        var free := FreeChannel(t.configs[k].channels);
        if free.Some? {
          AdditionKeepsIntegrity(t, k, free.value, n);
          AdditionKeepsLights(t, k, free.value, n);
        }
      case ChannelFrom(_, channelId) =>
        DeletionKeepsIntegrity(t, k, channelId);
        DeletionKeepsLights(t, k, channelId);
    }
  }

  lemma {:induction false} NothingDanglesAnew(t: Tables)
    ensures NoNewDangling(t, t)
  {
    hide LightBelongs;
  }

  /** In every run the references of the bridge stay resolvable; a light service of a configuration dangles after the
      run only if it did before. */
  lemma {:induction false} IntegrityAlways(t: Tables, commands: seq<Command>)
    requires Integrity(t) && DrawsFresh(t, commands)
    ensures Integrity(BridgeAfter(t, commands)) && NoNewDangling(t, BridgeAfter(t, commands))
  {
    hide Integrity;
    hide NoNewDangling;
    hide Fresh;
    hide Commanded;
    if commands == [] {
      NothingDanglesAnew(t);
    } else {
      var front, last := commands[..|commands| - 1], commands[|commands| - 1];
      forall i | 0 <= i < |front| ensures FreshAt(t, front, i) {
        assert FreshAt(t, commands, i);
        assert front[..i] == commands[..i];
      }
      IntegrityAlways(t, front);
      assert FreshAt(t, commands, |commands| - 1);
      var u := BridgeAfter(t, front);
      CommandKeepsIntegrity(u, last);
      NoNewDanglingOn(t, u, Commanded(u, last).1);
    }
  }

  /** With all light services belonging at the start, all references stay resolvable for good. */
  lemma {:induction false} AllReferencesStay(t: Tables, commands: seq<Command>)
    requires Integrity(t) && DrawsFresh(t, commands) && LightsBelong(t)
    ensures Integrity(BridgeAfter(t, commands)) && LightsBelong(BridgeAfter(t, commands))
  {
    hide *;
    IntegrityAlways(t, commands);
    LightsBelongOn(t, BridgeAfter(t, commands));
  }
}
