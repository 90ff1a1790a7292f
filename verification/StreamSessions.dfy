/**
 The stream object over whole runs.
 */
module StreamSessions {
  import opened Prelude
  import opened BridgeData
  import opened StreamProtocol
  import opened StreamSpec
  import opened StreamRuns
  import opened Stream

  /** Any run of operations on a new object: in a session the k-th frame carries k - 1 modulo 256, the counter is the
      number of frames sent, and a running session has its bridge and options. */
  method Lifetime(run: seq<Event>) returns (o: StreamObject)
    ensures fresh(o) && o.View() == After(run)
    ensures Numbered(o.log)
    ensures o.running ==> o.activeBridgeCopy.Some? && o.options.Some?
    ensures o.running ==> o.streamCounter == FramesSince(o.log) && o.seqNr == o.streamCounter % 256
  {
    hide Step;
    hide Numbered;
    hide FramesSince;
    o := new StreamObject();
    for i := 0 to |run|
      invariant fresh(o) && o.View() == After(run[..i])
    {
      assert run[..i + 1][..i] == run[..i];
      o.Do(run[i]);
    }
    assert run[..|run|] == run;
  }
}
