/**
 The objects at both ends over whole runs: the bridge's resource manager carries out commands, and the client's retriever
 receives the batches, directly or as documents cut from the event stream.
 */
module ReplicaObjects {
  import opened Prelude
  import opened ResourceData
  import opened ServerSpec
  import opened ServerIntegrity
  import opened ServerRuns
  import opened ReplicaSpec
  import opened ReplicaAgreement
  import opened ReplicaRuns
  import opened ReplicaKeys
  import opened ResourcesManager
  import opened BridgeReplica
  import opened EventFraming
  import EventStream
  import EventDelivery
  import EndToEnd

  // ---------------------------------------------------------------- the bridge alone

  method Carry(m: Manager, c: Command) returns (reply: Reply)
    modifies m
    ensures (reply, m.View()) == Commanded(old(m.View()), c)
  {
    hide AddLight;
    hide DeleteChannel;
    match c {
      case LightTo(ecId, n) => reply := m.AddLight(ecId, n);
      case ChannelFrom(ecId, channelId) => reply := m.DeleteChannel(ecId, channelId);
    }
  }

  /** Any commands on the manager: its references stay resolvable, and no light service begins to dangle. */
  method Serve(m: Manager, commands: seq<Command>)
    modifies m
    ensures m.View() == BridgeAfter(old(m.View()), commands)
    ensures old(Integrity(m.View())) && DrawsFresh(old(m.View()), commands) ==>
              Integrity(m.View()) && NoNewDangling(old(m.View()), m.View())
  {
    hide Commanded;
    hide Integrity;
    hide NoNewDangling;
    hide DrawsFresh;
    ghost var t := m.View();
    for i := 0 to |commands|
      invariant m.View() == BridgeAfter(t, commands[..i])
    {
      assert commands[..i + 1][..i] == commands[..i];
      var _ := Carry(m, commands[i]);
    }
    assert commands[..|commands|] == commands;
    if Integrity(t) && DrawsFresh(t, commands) {
      IntegrityAlways(t, commands);
    }
  }

  // ---------------------------------------------------------------- bridge and client

  method CarryToBoth(m: Manager, r: Retriever, c: Command)
    modifies m, r
    ensures (m.View(), r.View()) == Both(old(m.View()), old(r.View()), c)
  {
    hide Commanded;
    hide BatchApplied;
    var reply := Carry(m, c);
    if reply.Succeeded? {
      r.ParseJsonEvent(reply.batch);
    }
  }

  /** Any commands on the manager, with each batch given to the retriever: the two objects go through the run of the
      specification.  The keys agree whatever the tables are, and everything agrees when the bridge was in order. */
  method ServeBoth(m: Manager, r: Retriever, commands: seq<Command>)
    modifies m, r
    ensures (m.View(), r.View()) == Run(old(m.View()), old(r.View()), commands)
    ensures old(KeysAgree(m.View(), r.View())) ==> KeysAgree(m.View(), r.View())
    ensures old(Integrity(m.View())) && old(Agrees(m.View(), r.View())) && AllFresh(old(m.View()), old(r.View()), commands) ==>
              Agrees(m.View(), r.View())
  {
    hide Both;
    hide Integrity;
    hide KeysAgree;
    hide Agrees;
    hide AllFresh;
    ghost var t, s := m.View(), r.View();
    for i := 0 to |commands|
      invariant (m.View(), r.View()) == Run(t, s, commands[..i])
    {
      assert commands[..i + 1][..i] == commands[..i];
      CarryToBoth(m, r, commands[i]);
    }
    assert commands[..|commands|] == commands;
    if KeysAgree(t, s) {
      KeysAgreeAlways(t, s, commands);
    }
    if Integrity(t) && Agrees(t, s) && AllFresh(t, s, commands) {
      ReplicaAgreesAlways(t, s, commands);
    }
  }

  // ---------------------------------------------------------------- through the event stream

  /** Chunks come in one by one, and every document that is complete by then is handled at once. */
  method Follow(r: Retriever, valid: Validator, parse: string -> seq<Change>, chunks: seq<string>) returns (reader: EventReader)
    modifies r
    ensures fresh(reader) && reader.documents == EventDelivery.Fed(chunks, valid).0
    ensures r.View() == EndToEnd.AllApplied(old(r.View()), EndToEnd.Parsed(EventDelivery.Fed(chunks, valid).0, parse))
  {
    hide BatchApplied;
    hide EndToEnd.Parsed;
    hide EndToEnd.AllApplied;
    ghost var s := r.View();
    NothingApplied(s, parse);
    reader := new EventReader(valid);
    var handled := 0;
    for i := 0 to |chunks|
      invariant fresh(reader) && reader.valid == valid
      invariant (reader.documents, reader.response) == EventDelivery.Fed(chunks[..i], valid)
      invariant handled == |reader.documents|
      invariant r.View() == EndToEnd.AllApplied(s, EndToEnd.Parsed(reader.documents, parse))
    {
      assert chunks[..i + 1][..i] == chunks[..i];
      ghost var before := reader.documents;
      reader.Receive(chunks[i]);
      assert before == reader.documents[..handled];
      handled := HandleFrom(r, parse, reader.documents, handled, s);
    }
    assert chunks[..|chunks|] == chunks;
  }

  method HandleFrom(r: Retriever, parse: string -> seq<Change>, documents: seq<string>, from: nat, ghost s: Replica) returns (to: nat)
    requires from <= |documents|
    requires r.View() == EndToEnd.AllApplied(s, EndToEnd.Parsed(documents[..from], parse))
    modifies r
    ensures r.View() == EndToEnd.AllApplied(s, EndToEnd.Parsed(documents, parse)) && to == |documents|
  {
    hide BatchApplied;
    hide EndToEnd.Parsed;
    hide EndToEnd.AllApplied;
    to := from;
    while to < |documents|
      invariant from <= to <= |documents|
      invariant r.View() == EndToEnd.AllApplied(s, EndToEnd.Parsed(documents[..to], parse))
    {
      OneMoreApplied(s, documents, to, parse);
      r.ParseJsonEvent(parse(documents[to]));
      to := to + 1;
    }
    assert documents[..to] == documents;
  }

  lemma {:induction false} NothingApplied(s: Replica, parse: string -> seq<Change>)
    ensures EndToEnd.AllApplied(s, EndToEnd.Parsed([], parse)) == s
  {
  }

  lemma {:induction false} OneMoreApplied(s: Replica, documents: seq<string>, k: nat, parse: string -> seq<Change>)
    requires k < |documents|
    ensures EndToEnd.AllApplied(s, EndToEnd.Parsed(documents[..k + 1], parse))
         == BatchApplied(EndToEnd.AllApplied(s, EndToEnd.Parsed(documents[..k], parse)), parse(documents[k]))
  {
    hide BatchApplied;
    var all := EndToEnd.Parsed(documents[..k + 1], parse);
    assert all[..k] == EndToEnd.Parsed(documents[..k], parse);
  }

  /** The whole way, on the objects: the manager carries out the commands, its batches are written as events, the stream is
      cut into chunks in any way, and the retriever ends up agreeing with the manager. */
  method EndToEndObjects(m: Manager, r: Retriever, commands: seq<Command>, es: seq<Event>, chunks: seq<string>, valid: Validator,
                         parse: string -> seq<Change>)
    requires Integrity(m.View()) && Agrees(m.View(), r.View()) && AllFresh(m.View(), r.View(), commands)
    requires EndToEnd.Encodes(es, EndToEnd.Batches(m.View(), r.View(), commands), parse) && EventDelivery.AllGood(valid, es)
    requires EventDelivery.Joined(chunks) == GREETING + EventStream.Texts(es)
    modifies m, r
    ensures Agrees(m.View(), r.View())
  {
    hide *;
    ghost var t, s := m.View(), r.View();
    EndToEnd.ChunksDoNotMatter(t, s, commands, es, chunks, valid, parse);
    BridgeOfRun(t, s, commands);
    Serve(m, commands);
    var _ := Follow(r, valid, parse, chunks);
  }
}
