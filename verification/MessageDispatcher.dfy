/**
 The dispatcher object: its vector takes new actions at the front and gives out the last.
 */
module MessageDispatcher {
  import opened DispatcherSpec

  class Dispatcher<T> {
    var waiting: seq<T>
    var isRunning: bool
    var loop: LoopState<T>
    ghost var queued: seq<T>
    ghost var started: seq<T>
    ghost var finished: seq<T>

    ghost function View(): Dispatch<T>
      reads this
    {
      Dispatch(waiting, isRunning, loop, queued, started, finished)
    }

    constructor ()
      ensures View() == Initial()
    {
      waiting, isRunning, loop := [], false, Outside;
      queued, started, finished := [], [], [];
    }

    method Queue(action: T)
      modifies this
      ensures View() == Next(old(View()), Step.Queue(action))
    {
      waiting := [action] + waiting;
      queued := queued + [action];
    }

    method EnterLoop()
      requires Enabled(View(), Enter)
      modifies this
      ensures View() == Next(old(View()), Enter)
    {
      loop := Waiting;
      isRunning := true;
    }

    /** One pass after the wait: leave the loop, or take an action to run. */
    method Pass() returns (left: bool)
      requires loop.Waiting? && (waiting != [] || !isRunning)
      modifies this
      ensures left == !old(isRunning)
      ensures View() == Next(old(View()), if left then Leave else Take)
    {
      if !isRunning {
        loop := Outside;
        return true;
      }
      var n := |waiting| - 1;
      var action := waiting[n];
      waiting := waiting[..n];
      loop := Executing(action);
      started := started + [action];
      return false;
    }

    method ActionDone()
      requires Enabled(View(), Done)
      modifies this
      ensures View() == Next(old(View()), Done)
    {
      finished := finished + [loop.action];
      loop := Waiting;
    }

    method Stop()
      modifies this
      ensures View() == Next(old(View()), Step.Stop)
    {
      isRunning := false;
    }
  }
}
