/**
 The front object of the library: calls mark it busy and queue the request; messages update the
 flag and the result.  Each method is one critical section of its lock.
 */
module Connect {
  import opened BridgeData
  import opened FlowMessages
  import opened FlowSpec
  import opened FlowRuns
  import opened ConnectSpec
  import DispatcherSpec
  import opened MessageDispatcher

  class ConnectObject {
    const dispatcher: Dispatcher<Input>
    var isIdle: bool
    var result: ConnectResult
    var reported: seq<Message>

    ghost function View(): Front
      reads this
    {
      Front(isIdle, result)
    }

    constructor (dispatcher: Dispatcher<Input>)
      ensures View() == InitialFront() && reported == [] && this.dispatcher == dispatcher
    {
      this.dispatcher := dispatcher;
      isIdle, result, reported := true, Uninitialized, [];
    }

    /** Any call of the application: all but starting and stopping a stream and aborting mark the front busy. */
    method Call(input: Input)
      requires IsCall(input.event)
      modifies this`isIdle, dispatcher
      ensures View() == Called(old(View()), input.event)
      ensures dispatcher.View() == DispatcherSpec.Queued(old(dispatcher.View()), input)
    {
      if !IsSilentCall(input.event) {
        isIdle := false;
      }
      dispatcher.Queue(input);
    }

    method IsReady() returns (ready: bool)
      ensures ready == MayReturn(View())
    {
      ready := isIdle;
    }

    method GetResult() returns (r: ConnectResult)
      ensures r == Result(View())
    {
      r := result;
      if !isIdle {
        r := IsBusy;
      }
    }

    method NewMessage(m: Message)
      modifies this
      ensures View() == Received(old(View()), m) && reported == old(reported) + [m]
    {
      hide Bridge.GetStatus;
      UpdateConnectionStatus(m);
      reported := reported + [m];
    }

    method UpdateConnectionStatus(m: Message)
      modifies this`isIdle, this`result
      ensures View() == Received(old(View()), m)
    {
      hide Bridge.GetStatus;
      match m.id {
        case DoneReset => result := Uninitialized;
        case DoneNoBridgeFound => result := NoBridge;
        case DoneBridgeFound => result := FoundBridge;
        case DoneActionRequired => TranslateBridgeStatus(m.bridge.GetStatus());
        case DoneCompleted => TranslateBridgeStatus(m.bridge.GetStatus());
        case BridgeDisconnected => TranslateBridgeStatus(m.bridge.GetStatus());
        case StreamingDisconnected => TranslateBridgeStatus(m.bridge.GetStatus());
        case UserProcedureStarted => isIdle := false;
        case UserProcedureFinished => isIdle := true;
        case _ =>
      }
    }

    method TranslateBridgeStatus(s: BridgeStatus)
      modifies this`result
      ensures result == Translated(s)
    {
      match s {
        case Empty => result := NoBridge;
        case NotFound => result := NoBridge;
        case InvalidModel => result := NoBridge;
        case NotConnectable => result := NeedsUser;
        case NotConnected => result := NeedsUser;
        case InvalidVersion => result := NeedsUser;
        case InvalidClientKey => result := NeedsUser;
        case NoGroupAvailable => result := NeedsUser;
        case InvalidGroupSelected => result := NeedsUser;
        case Busy => result := NeedsUser;
        case Ready => result := ReadyToStart;
        case Streaming => result := ConnectResult.IsStreaming;
      }
    }
  }
}
