/**
 The dispatch queue as a state machine: callers queue actions, one loop takes and runs them, and
 someone may stop the loop.  Every step is one critical section of the lock, or the end of an action.
 */
module DispatcherSpec {
  import opened Prelude

  datatype LoopState<T> = Outside | Waiting | Executing(action: T)

  /** `waiting` is the queue vector; `queued` and `started` record what was queued and what the loop has taken. */
  datatype Dispatch<T> = Dispatch(waiting: seq<T>, isRunning: bool, loop: LoopState<T>, queued: seq<T>, started: seq<T>, finished: seq<T>)

  datatype Step<T> = Queue(action: T) | Enter | Take | Done | Leave | Stop

  function Initial<T>(): Dispatch<T> { Dispatch([], false, Outside, [], [], []) }

  function Queued<T>(d: Dispatch<T>, a: T): Dispatch<T> { d.(waiting := [a] + d.waiting, queued := d.queued + [a]) }

  /** What the loop waits for. */
  predicate CanTake<T>(d: Dispatch<T>) { d.loop.Waiting? && d.isRunning && d.waiting != [] }

  function Taken<T>(d: Dispatch<T>): Dispatch<T>
    requires CanTake(d)
  {
    var n := |d.waiting| - 1;
    d.(waiting := d.waiting[..n], loop := Executing(d.waiting[n]), started := d.started + [d.waiting[n]])
  }

  predicate Enabled<T>(d: Dispatch<T>, s: Step<T>) {
    match s
    case Enter => d.loop.Outside?
    case Take => CanTake(d)
    case Done => d.loop.Executing?
    case Leave => d.loop.Waiting? && !d.isRunning
    case _ => true
  }

  function Next<T>(d: Dispatch<T>, s: Step<T>): Dispatch<T>
    requires Enabled(d, s)
  {
    match s
    case Queue(a) => Queued(d, a)
    case Enter => d.(loop := Waiting, isRunning := true)
    case Take => Taken(d)
    case Done => d.(loop := Waiting, finished := d.finished + [d.loop.action])
    case Leave => d.(loop := Outside)
    case Stop => d.(isRunning := false)
  }

  function Reversed<T>(s: seq<T>): (r: seq<T>)
    ensures |r| == |s| && forall i :: 0 <= i < |s| ==> r[i] == s[|s| - 1 - i]
  {
    seq(|s|, i requires 0 <= i < |s| => s[|s| - 1 - i])
  }

  function Current<T>(l: LoopState<T>): seq<T> { if l.Executing? then [l.action] else [] }

  /** Nothing is lost, doubled or reordered, and at most one action runs: what was queued, in lock order, is what
      has finished, then the action that runs, then what waits. */
  ghost predicate Fifo<T>(d: Dispatch<T>) {
    && d.started == d.finished + Current(d.loop)
    && d.queued == d.started + Reversed(d.waiting)
  }

  lemma {:induction false} TakeKeepsFifo<T>(d: Dispatch<T>)
    requires Fifo(d) && CanTake(d)
    ensures Fifo(Taken(d))
  {
    var n := |d.waiting| - 1;
    assert Reversed(d.waiting) == [d.waiting[n]] + Reversed(d.waiting[..n]);
    Associate(d.started, [d.waiting[n]], Reversed(d.waiting[..n]));
    assert Current(d.loop) == [];
    assert d.finished + [] == d.finished;
  }

  lemma {:induction false} StepKeepsFifo<T>(d: Dispatch<T>, s: Step<T>)
    requires Fifo(d) && Enabled(d, s)
    ensures Fifo(Next(d, s))
  {
    match s
    case Queue(a) =>
      assert Reversed([a] + d.waiting) == Reversed(d.waiting) + [a];
      Associate(d.started, Reversed(d.waiting), [a]);
    case Take =>
      TakeKeepsFifo(d);
    case Done =>
      assert d.finished + [d.loop.action] + [] == d.finished + [d.loop.action];
    case _ =>
  }

  function Run<T>(steps: seq<Step<T>>): Option<Dispatch<T>> {
    if steps == [] then Some(Initial())
    else
      match Run(steps[..|steps| - 1])
      case None => None
      case Some(d) => if Enabled(d, steps[|steps| - 1]) then Some(Next(d, steps[|steps| - 1])) else None
  }

  /** The actions of the Queue steps, in their order. */
  function QueuedBy<T>(steps: seq<Step<T>>): seq<T> {
    if steps == [] then []
    else
      QueuedBy(steps[..|steps| - 1]) + if steps[|steps| - 1].Queue? then [steps[|steps| - 1].action] else []
  }

  /** For any interleaving of callers, the loop and Stop that can happen. */
  lemma {:induction false} EveryRunIsFifo<T>(steps: seq<Step<T>>)
    requires Run(steps).Some?
    ensures var d := Run(steps).value;
            Fifo(d) && QueuedBy(steps) == d.finished + Current(d.loop) + Reversed(d.waiting)
  {
    if steps == [] {
      assert Reversed<T>([]) == [];
    } else {
      var front := steps[..|steps| - 1];
      EveryRunIsFifo(front);
      StepKeepsFifo(Run(front).value, steps[|steps| - 1]);
      QueuedIs(Run(front).value, steps[|steps| - 1]);
    }
  }

  lemma {:induction false} QueuedIs<T>(d: Dispatch<T>, s: Step<T>)
    requires Enabled(d, s)
    ensures Next(d, s).queued == d.queued + if s.Queue? then [s.action] else []
  {
  }
}
