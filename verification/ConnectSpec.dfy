/**
 What the application sees of the connection flow: an idle flag and the latest result, kept from
 the feedback messages.
 */
module ConnectSpec {
  import opened BridgeData
  import opened FlowProtocol
  import opened FlowMessages
  import opened FlowSpec

  datatype ConnectResult =
    | Uninitialized | IsBusy | NoBridge | FoundBridge | NeedsUser | ReadyToStart | IsStreaming

  datatype Front = Front(isIdle: bool, result: ConnectResult)

  function InitialFront(): Front { Front(true, Uninitialized) }

  /** The calls of the application; the other events come from completions and monitors. */
  predicate IsCall(e: Event) {
    e.Load? || e.ConnectToBridge? || e.ConnectToBridgeBackground? || e.ConnectToBridgeWithIp? ||
    e.ConnectToNewBridge? || e.SetManual? || e.ConnectWithIdKey? || e.Reset? || e.SelectGroup? || IsSilentCall(e)
  }

  /** The calls that leave the idle flag alone. */
  predicate IsSilentCall(e: Event) { e.StartStreaming? || e.StopStreaming? || e.Abort? }

  function Called(c: Front, e: Event): Front { if IsSilentCall(e) then c else c.(isIdle := false) }

  function Translated(s: BridgeStatus): ConnectResult {
    match s
    case Empty => NoBridge
    case NotFound => NoBridge
    case InvalidModel => NoBridge
    case Ready => ReadyToStart
    case Streaming => IsStreaming
    case _ => NeedsUser
  }

  function Received(c: Front, m: Message): Front {
    match m.id
    case DoneReset => c.(result := Uninitialized)
    case DoneNoBridgeFound => c.(result := NoBridge)
    case DoneBridgeFound => c.(result := FoundBridge)
    case DoneActionRequired => c.(result := Translated(m.bridge.GetStatus()))
    case DoneCompleted => c.(result := Translated(m.bridge.GetStatus()))
    case BridgeDisconnected => c.(result := Translated(m.bridge.GetStatus()))
    case StreamingDisconnected => c.(result := Translated(m.bridge.GetStatus()))
    case UserProcedureStarted => c.(isIdle := false)
    case UserProcedureFinished => c.(isIdle := true)
    case _ => c
  }

  function Result(c: Front): ConnectResult { if c.isIdle then c.result else IsBusy }

  /** The wait of WaitUntilReady can end. */
  predicate MayReturn(c: Front) { c.isIdle }

  lemma {:induction false} ReceivedIdle(c: Front, m: Message)
    ensures Received(c, m).isIdle == (if KindOf(m.id).Started? then false else if KindOf(m.id).Finished? then true else c.isIdle)
  {
    hide Bridge.GetStatus;
  }

  /** An idle front never answers busy, provided it never stored that answer; no message stores it. */
  lemma {:induction false} ReceivedIsNeverBusy(c: Front, m: Message)
    requires !c.result.IsBusy?
    ensures !Received(c, m).result.IsBusy?
    ensures Result(Received(c, m)).IsBusy? <==> !Received(c, m).isIdle
  {
    hide Bridge.GetStatus;
  }

  /** `ReadyToStart` and `IsStreaming` tell the truth about the bridge of the last deciding message. */
  lemma {:induction false} TranslatedIsFaithful(b: Bridge)
    ensures Translated(b.GetStatus()).ReadyToStart? <==> b.IsReadyToStream()
    ensures Translated(b.GetStatus()).IsStreaming? <==> b.IsStreaming()
    ensures Translated(b.GetStatus()).NoBridge? <==> !b.IsFound() || !b.modelSupported
  {
  }
}
