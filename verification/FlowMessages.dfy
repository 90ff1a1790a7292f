/**
 The feedback messages of the connection flow, and what the procedure protocol sees of them.
 */
module FlowMessages {
  import opened Prelude
  import opened BridgeData
  import opened FlowProtocol
  import DifferenceReport

  datatype MessageId =
    | UserProcedureStarted | UserProcedureFinished
    | StartLoading | FinishLoadingNoBridgeConfigured | FinishLoadingBridgeConfigured
    | StartSearching | FinishSearchingNoBridgesFound | FinishSearchingInvalidBridgesFound | FinishSearchBridgesFound
    | StartAuthorizing | PressPushLink | FinishAuthorizingAuthorized | FinishAuthorizingFailed
    | StartRetrievingSmall | FinishRetrievingSmall | StartRetrieving | FinishRetrievingFailed
    | FinishRetrievingReadyToStart | FinishRetrievingActionRequired
    | StartSaving | FinishSavingSaved | FinishSavingFailed
    | StartActivating | FinishActivatingActive | FinishActivatingFailed
    | NoBridgeFound | BridgeNotFound | IdInvalidModel | IdInvalidVersion | IdNoGroupAvailable | BusyStreaming
    | IdSelectGroup | InternalError
    | DoneNoBridgeFound | DoneBridgeFound | DoneActionRequired | DoneCompleted | DoneAborted | DoneReset
    | BridgeConnected | BridgeDisconnected | StreamingConnected | StreamingDisconnected
    | BridgeChanged | LightsUpdated | GroupListUpdated | GroupLightStateUpdated
    | ZoneListUpdated | ZoneSceneListUpdated | InvalidEventingConnection | BridgeRefreshed

  datatype Message = Message(request: Request, id: MessageId, bridge: Bridge)

  function KindOf(id: MessageId): Kind {
    match id
    case UserProcedureStarted => Started
    case UserProcedureFinished => Finished
    case StreamingConnected => StreamUp
    case StreamingDisconnected => StreamDown
    case BridgeConnected => BridgeUp
    case _ => Other
  }

  /** What the streaming checker and the config retriever report by themselves: anything, but always as INTERNAL, and
      never the beginning or the end of a procedure. */
  predicate IsMonitorMessage(m: Message) {
    m.request.Internal? && !m.id.UserProcedureStarted? && !m.id.UserProcedureFinished?
  }

  function Observe(m: Message): Note { Note(m.request, KindOf(m.id), m.bridge.IsStreaming()) }

  function Observed(ms: seq<Message>): (t: Trace)
    ensures |t| == |ms| && forall i :: 0 <= i < |ms| ==> t[i] == Observe(ms[i])
  {
    seq(|ms|, i requires 0 <= i < |ms| => Observe(ms[i]))
  }

  /** The phase the protocol is in after the messages ms. */
  function PhaseAfter(ms: seq<Message>): Phase { Scan(Observed(ms)) }

  lemma {:induction false} PhaseStep(ms: seq<Message>, m: Message)
    ensures PhaseAfter(ms + [m]) == Advance(PhaseAfter(ms), Observe(m))
  {
    assert Observed(ms + [m]) == Observed(ms) + [Observe(m)];
    ScanSnoc(Observed(ms), Observe(m));
  }

  /** The bridge reported by the latest STARTED. */
  function LastStarted(ms: seq<Message>): Option<Bridge> {
    if ms == [] then None
    else if ms[|ms| - 1].id.UserProcedureStarted? then Some(ms[|ms| - 1].bridge)
    else LastStarted(ms[..|ms| - 1])
  }

  lemma {:induction false} LastStartedStep(ms: seq<Message>, m: Message)
    ensures LastStarted(ms + [m]) == if m.id.UserProcedureStarted? then Some(m.bridge) else LastStarted(ms)
  {
    assert (ms + [m])[..|ms|] == ms;
  }

  function DifferenceId(d: DifferenceReport.Difference): MessageId {
    match d
    case BridgeConnected => BridgeConnected
    case BridgeDisconnected => BridgeDisconnected
    case StreamingConnected => StreamingConnected
    case StreamingDisconnected => StreamingDisconnected
    case BridgeChanged => BridgeChanged
    case GroupListUpdated => GroupListUpdated
    case LightsUpdated => LightsUpdated
    case GroupLightStateUpdated => GroupLightStateUpdated
  }

  /** One message per difference, all for the same request and bridge. */
  function DifferenceMessages(request: Request, ds: seq<DifferenceReport.Difference>, b: Bridge): (ms: seq<Message>)
    ensures |ms| == |ds| && forall i :: 0 <= i < |ds| ==> ms[i] == Message(request, DifferenceId(ds[i]), b)
  {
    seq(|ds|, i requires 0 <= i < |ds| => Message(request, DifferenceId(ds[i]), b))
  }

  /** One reported difference moves the phase by the streaming edge it is, if any. */
  lemma {:induction false} DifferenceAdvances(request: Request, was: bool, up: nat, down: nat, k: nat, n: Note)
    requires k < DifferenceReport.COMPARISONS
    requires n.request == request && n.kind == KindOf(DifferenceId(DifferenceReport.Nth(k)))
    ensures Advance(Open(request, was, up, down), n) == Open(request, was, up + One(k == 2), down + One(k == 3))
  {
  }

  /** Reporting differences inside a procedure moves only the edge counts, each by the edge reported. */
  lemma {:induction false} PhaseAfterDifferences(ms: seq<Message>, request: Request, c: seq<bool>, k: nat, b: Bridge, was: bool)
    requires |c| == DifferenceReport.COMPARISONS && k <= |c|
    requires PhaseAfter(ms) == Open(request, was, 0, 0)
    ensures PhaseAfter(ms + DifferenceMessages(request, DifferenceReport.Reported(c, k), b))
         == Open(request, was, EdgeSeen(c, k, 2), EdgeSeen(c, k, 3))
  {
    if k == 0 {
      assert ms + DifferenceMessages(request, DifferenceReport.Reported(c, k), b) == ms;
    } else {
      PhaseAfterDifferences(ms, request, c, k - 1, b, was);
      if c[k - 1] {
        LastDifference(ms, request, c, k, b, was);
      }
    }
  }

  function EdgeSeen(c: seq<bool>, k: nat, j: nat): nat
    requires k <= |c|
  {
    if j < k && c[j] then 1 else 0
  }

  lemma {:induction false} LastDifference(ms: seq<Message>, request: Request, c: seq<bool>, k: nat, b: Bridge, was: bool)
    requires |c| == DifferenceReport.COMPARISONS && 0 < k <= |c| && c[k - 1]
    requires PhaseAfter(ms + DifferenceMessages(request, DifferenceReport.Reported(c, k - 1), b))
          == Open(request, was, EdgeSeen(c, k - 1, 2), EdgeSeen(c, k - 1, 3))
    ensures PhaseAfter(ms + DifferenceMessages(request, DifferenceReport.Reported(c, k), b))
         == Open(request, was, EdgeSeen(c, k, 2), EdgeSeen(c, k, 3))
  {
    var before := ms + DifferenceMessages(request, DifferenceReport.Reported(c, k - 1), b);
    var m := Message(request, DifferenceId(DifferenceReport.Nth(k - 1)), b);
    assert ms + DifferenceMessages(request, DifferenceReport.Reported(c, k), b) == before + [m];
    PhaseStep(before, m);
    DifferenceAdvances(request, was, EdgeSeen(c, k - 1, 2), EdgeSeen(c, k - 1, 3), k - 1, Observe(m));
  }
}
