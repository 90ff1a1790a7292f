/**
 From the commands on the bridge through the chunks of the event stream to the client's copy.
 */
module EndToEnd {
  import EventFraming
  import EventStream
  import EventDelivery
  import opened ResourceData
  import opened ServerSpec
  import opened ServerIntegrity
  import opened ServerRuns
  import opened ReplicaSpec
  import opened ReplicaAgreement
  import opened ReplicaRuns
  import opened ReplicaKeys

  /** The batches that a run of commands sends; a command that fails sends nothing. */
  function Batches(t: Tables, r: Replica, commands: seq<Command>): seq<seq<Change>> {
    if commands == [] then []
    else
      var front := commands[..|commands| - 1];
      var reply := Commanded(Run(t, r, front).0, commands[|commands| - 1]).0;
      Batches(t, r, front) + if reply.Succeeded? then [reply.batch] else []
  }

  function AllApplied(r: Replica, batches: seq<seq<Change>>): Replica {
    if batches == [] then r else BatchApplied(AllApplied(r, batches[..|batches| - 1]), batches[|batches| - 1])
  }

  lemma {:induction false} RunAppliesBatches(t: Tables, r: Replica, commands: seq<Command>)
    ensures Run(t, r, commands).1 == AllApplied(r, Batches(t, r, commands))
  {
    hide BatchApplied;
    hide Commanded;
    if commands != [] {
      var front := commands[..|commands| - 1];
      RunAppliesBatches(t, r, front);
      var reply := Commanded(Run(t, r, front).0, commands[|commands| - 1]).0;
      if reply.Succeeded? {
        var all := Batches(t, r, front) + [reply.batch];
        assert all[..|all| - 1] == Batches(t, r, front);
      } else {
        assert Batches(t, r, commands) == Batches(t, r, front);
      }
    }
  }

  /** What the parser makes of the delivered documents. */
  function Parsed(documents: seq<string>, parse: string -> seq<Change>): seq<seq<Change>> {
    seq(|documents|, i requires 0 <= i < |documents| => parse(documents[i]))
  }

  /** The events carry the batches: parsing a document of the i-th event gives the i-th batch. */
  ghost predicate Encodes(es: seq<EventFraming.Event>, batches: seq<seq<Change>>, parse: string -> seq<Change>) {
    |es| == |batches| && forall i, d :: 0 <= i < |es| && EventDelivery.IsDocumentOf(d, es[i]) ==> parse(d) == batches[i]
  }

  /** However the event stream of a run is cut into chunks, a client that agreed at the start agrees at the end. */
  lemma {:induction false} ChunksDoNotMatter(t: Tables, r: Replica, commands: seq<Command>, es: seq<EventFraming.Event>,
                                             chunks: seq<string>, valid: EventFraming.Validator, parse: string -> seq<Change>)
    requires Integrity(t) && Agrees(t, r) && AllFresh(t, r, commands)
    requires Encodes(es, Batches(t, r, commands), parse) && EventDelivery.AllGood(valid, es)
    requires EventDelivery.Joined(chunks) == EventFraming.GREETING + EventStream.Texts(es)
    ensures Agrees(Run(t, r, commands).0, AllApplied(r, Parsed(EventDelivery.Fed(chunks, valid).0, parse)))
  {
    hide *;
    ReplicaAgreesAlways(t, r, commands);
    RunAppliesBatches(t, r, commands);
    EventDelivery.EveryEventOnceInOrder(valid, es, chunks);
    ParsedBatches(es, Batches(t, r, commands), EventDelivery.Fed(chunks, valid).0, parse);
  }

  /** The light ids, zigbee ids and channels need no assumption on the bridge and the drawn ids. */
  lemma {:induction false} ChunksKeepKeys(t: Tables, r: Replica, commands: seq<Command>, es: seq<EventFraming.Event>,
                                          chunks: seq<string>, valid: EventFraming.Validator, parse: string -> seq<Change>)
    requires KeysAgree(t, r)
    requires Encodes(es, Batches(t, r, commands), parse) && EventDelivery.AllGood(valid, es)
    requires EventDelivery.Joined(chunks) == EventFraming.GREETING + EventStream.Texts(es)
    ensures KeysAgree(Run(t, r, commands).0, AllApplied(r, Parsed(EventDelivery.Fed(chunks, valid).0, parse)))
  {
    hide *;
    KeysAgreeAlways(t, r, commands);
    RunAppliesBatches(t, r, commands);
    EventDelivery.EveryEventOnceInOrder(valid, es, chunks);
    ParsedBatches(es, Batches(t, r, commands), EventDelivery.Fed(chunks, valid).0, parse);
  }

  lemma {:induction false} ParsedBatches(es: seq<EventFraming.Event>, batches: seq<seq<Change>>, documents: seq<string>, parse: string -> seq<Change>)
    requires Encodes(es, batches, parse) && EventDelivery.Carries(documents, es)
    ensures Parsed(documents, parse) == batches
  {
    forall i | 0 <= i < |documents| ensures parse(documents[i]) == batches[i] {
      assert EventDelivery.IsDocumentOf(documents[i], es[i]);
    }
  }
}
