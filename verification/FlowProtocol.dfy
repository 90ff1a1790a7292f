/**
 The protocol that the feedback messages of the connection flow follow: procedures are
 opened and closed in turn, by the same request, and report each streaming edge once.
 */
module FlowProtocol {
  datatype Request =
    | Internal | LoadBridge | Connect | ConnectBackground | ConnectIp | SetManualBridge | ConnectNew
    | ConnectIdKey | ResetBridge | ResetAll | Select | Activate | Deactivate

  /** What the protocol looks at in a message. */
  datatype Kind = Started | Finished | StreamUp | StreamDown | BridgeUp | Other

  datatype Note = Note(request: Request, kind: Kind, streaming: bool)

  type Trace = seq<Note>

  /** Where a trace stands: between procedures, or inside one with the streaming edges seen so far. */
  datatype Phase =
    | Closed
    | Open(request: Request, wasStreaming: bool, connected: nat, disconnected: nat)
    | Broken

  function One(c: bool): nat { if c then 1 else 0 }

  function Advance(p: Phase, m: Note): Phase {
    match p
    case Broken => Broken
    case Closed =>
      if m.kind.Started? then
        if m.request.Internal? then Broken else Open(m.request, m.streaming, 0, 0)
      else if m.kind.Finished? || !m.request.Internal? then Broken
      else Closed
    case Open(request, was, connected, disconnected) =>
      if m.kind.Started? then Broken
      else if m.kind.Finished? then
        if m.request == request && connected == One(!was && m.streaming) && disconnected == One(was && !m.streaming)
        then Closed else Broken
      else if m.request != request && !(m.request.Internal? && m.kind.BridgeUp?) then Broken
      else Open(request, was, connected + One(m.kind.StreamUp?), disconnected + One(m.kind.StreamDown?))
  }

  /** The phase after the first k messages. */
  function ScanTo(t: Trace, k: nat): Phase
    requires k <= |t|
  {
    if k == 0 then Closed else Advance(ScanTo(t, k - 1), t[k - 1])
  }

  function Scan(t: Trace): Phase { ScanTo(t, |t|) }

  lemma {:induction false} ScanOfPrefix(t: Trace, m: Note, k: nat)
    requires k <= |t|
    ensures ScanTo(t + [m], k) == ScanTo(t, k)
  {
    if k > 0 {
      ScanOfPrefix(t, m, k - 1);
    }
  }

  lemma {:induction false} ScanSnoc(t: Trace, m: Note)
    ensures Scan(t + [m]) == Advance(Scan(t), m)
  {
    ScanOfPrefix(t, m, |t|);
  }

  lemma {:induction false} PrefixesAreUnbroken(t: Trace, k: nat)
    requires k <= |t| && !Scan(t).Broken?
    ensures !ScanTo(t, k).Broken?
    decreases |t| - k
  {
    if k < |t| {
      PrefixesAreUnbroken(t, k + 1);
      assert Advance(Broken, t[k]) == Broken;
    }
  }

  /** How often streaming comes up, and goes down, among the messages i..j-1. */
  function Ups(t: Trace, i: nat, j: nat): nat
    requires i <= j <= |t|
    decreases j
  {
    if i == j then 0 else Ups(t, i, j - 1) + One(t[j - 1].kind.StreamUp?)
  }

  function Downs(t: Trace, i: nat, j: nat): nat
    requires i <= j <= |t|
    decreases j
  {
    if i == j then 0 else Downs(t, i, j - 1) + One(t[j - 1].kind.StreamDown?)
  }

  predicate IsBoundary(m: Note) { m.kind.Started? || m.kind.Finished? }

  /** No procedure starts or ends among the messages i..j-1. */
  ghost predicate NoBoundary(t: Trace, i: nat, j: nat)
    requires i <= j <= |t|
  {
    forall n :: i <= n < j ==> !IsBoundary(t[n])
  }

  /** Inside a procedure the phase is what its messages add up to. */
  lemma {:induction false} OpenSegment(t: Trace, i: nat, k: nat)
    requires i < k <= |t| && !Scan(t).Broken?
    requires t[i].kind.Started? && NoBoundary(t, i + 1, k)
    ensures !t[i].request.Internal?
    ensures ScanTo(t, k) == Open(t[i].request, t[i].streaming,
                                 Ups(t, i + 1, k), Downs(t, i + 1, k))
    decreases k
  {
    PrefixesAreUnbroken(t, k);
    if k > i + 1 {
      OpenSegment(t, i, k - 1);
    }
  }

  /** What an unbroken trace means, message by message: the boundary after a STARTED is a FINISHED of the
      same request, and between the two each streaming edge appears exactly as often as it happened. */
  lemma {:induction false} ProcedureInTrace(t: Trace, i: nat, j: nat)
    requires !Scan(t).Broken? && i < j < |t|
    requires t[i].kind.Started? && IsBoundary(t[j]) && NoBoundary(t, i + 1, j)
    ensures t[j].kind.Finished? && t[j].request == t[i].request && !t[i].request.Internal?
    ensures Ups(t, i + 1, j) == One(!t[i].streaming && t[j].streaming)
    ensures Downs(t, i + 1, j) == One(t[i].streaming && !t[j].streaming)
  {
    OpenSegment(t, i, j);
    PrefixesAreUnbroken(t, j + 1);
    OnlyTheRightBoundary(ScanTo(t, j), t[j]);
  }

  lemma {:induction false} OnlyTheRightBoundary(p: Phase, m: Note)
    requires p.Open? && IsBoundary(m) && !Advance(p, m).Broken?
    ensures m.kind.Finished? && m.request == p.request
    ensures p.connected == One(!p.wasStreaming && m.streaming)
    ensures p.disconnected == One(p.wasStreaming && !m.streaming)
  {
  }

  /** While the phase is open there is a STARTED with no boundary after it. */
  lemma {:induction false} OpenHasStarted(t: Trace, j: nat) returns (i: nat)
    requires j <= |t| && ScanTo(t, j).Open?
    ensures i < j && t[i].kind.Started? && t[i].request == ScanTo(t, j).request
    ensures NoBoundary(t, i + 1, j)
  {
    if t[j - 1].kind.Started? {
      i := j - 1;
    } else {
      i := OpenHasStarted(t, j - 1);
    }
  }

  /** In an unbroken trace the phase is open exactly when some STARTED has no boundary after it, and then it is
      open for the request of that STARTED. */
  lemma {:induction false} OpenExactly(t: Trace)
    requires !Scan(t).Broken?
    ensures Scan(t).Open? <==> exists i :: 0 <= i < |t| && t[i].kind.Started? && NoBoundary(t, i + 1, |t|)
    ensures forall i :: 0 <= i < |t| && t[i].kind.Started? && NoBoundary(t, i + 1, |t|) ==>
              Scan(t).Open? && Scan(t).request == t[i].request
  {
    if Scan(t).Open? {
      var i := OpenHasStarted(t, |t|);
    }
    forall i | 0 <= i < |t| && t[i].kind.Started? && NoBoundary(t, i + 1, |t|)
      ensures Scan(t).Open? && Scan(t).request == t[i].request
    {
      OpenSegment(t, i, |t|);
    }
  }
}
