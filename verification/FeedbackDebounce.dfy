/**
 The debounce of monitoring feedback: ids are collected while they keep coming and sent together
 once there has been silence for a while.  Times are milliseconds of a steady clock.
 */
module FeedbackDebounce {

  const QUIET: int := 250

  /** `timers` holds the due times of the calls that the executor still has to make. */
  datatype State = State(pending: set<nat>, scheduled: bool, last: int, timers: multiset<int>)

  /** The clock is read twice in a step: `now` when it starts and `again` when a timer is set. */
  datatype Event =
    | Schedule(id: nat, now: int, again: int)
    | Fire(due: int, now: int, again: int)

  function Initial(): State { State({}, false, 0, multiset{}) }

  function Dispatch(s: State, again: int): State {
    s.(scheduled := true, timers := s.timers + multiset{again + QUIET})
  }

  function Scheduled(s: State, id: nat, now: int, again: int): State {
    var t := s.(pending := s.pending + {id}, last := now);
    if s.scheduled then t else Dispatch(t, again)
  }

  /** A timer call flushes exactly when the last feedback is older than the quiet time. */
  predicate Flushes(s: State, e: Event) { e.Fire? && e.now - s.last > QUIET }

  function Emitted(s: State, e: Event): set<nat> { if Flushes(s, e) then s.pending else {} }

  function Fired(s: State, due: int, now: int, again: int): State {
    var t := s.(timers := s.timers - multiset{due});
    if now - s.last > QUIET then t.(pending := {}, scheduled := false) else Dispatch(t, again)
  }

  function Step(s: State, e: Event): State {
    match e
    case Schedule(id, now, again) => Scheduled(s, id, now, again)
    case Fire(due, now, again) => Fired(s, due, now, again)
  }

  class FeedbackQueue {
    var pending: map<nat, bool>
    var isScheduled: bool
    var last: int
    var timers: multiset<int>
    var sent: seq<nat>

    ghost function View(): State
      reads this
    {
      State(pending.Keys, isScheduled, last, timers)
    }

    constructor ()
      ensures View() == Initial() && sent == []
    {
      pending, isScheduled, last, timers, sent := map[], false, 0, multiset{}, [];
    }

    method ScheduleFeedback(id: nat, now: int, again: int)
      modifies this
      ensures View() == Step(old(View()), Schedule(id, now, again)) && sent == old(sent)
    {
      pending := pending[id := true];
      last := now;
      if isScheduled {
        return;
      }
      DispatchFeedback(again);
    }

    method DispatchFeedback(again: int)
      modifies this`isScheduled, this`timers
      ensures View() == Dispatch(old(View()), again)
    {
      isScheduled := true;
      timers := timers + multiset{again + QUIET};
    }

    /** The timer call: each pending id is sent once, in whatever order the map gives them. */
    method TimerFired(due: int, now: int, again: int) returns (ghost out: seq<nat>)
      modifies this
      ensures View() == Step(old(View()), Fire(due, now, again))
      ensures sent == old(sent) + out && Lists(out, Emitted(old(View()), Fire(due, now, again)))
    {
      hide Lists;
      hide Dispatch;
      NoneListed();
      timers := timers - multiset{due};
      if now - last > QUIET {
        out := Flush();
      } else {
        out := [];
        DispatchFeedback(again);
      }
    }

    method Flush() returns (ghost out: seq<nat>)
      modifies this`sent, this`pending, this`isScheduled
      ensures View() == old(View()).(pending := {}, scheduled := false)
      ensures sent == old(sent) + out && Lists(out, old(View()).pending)
    {
      out := SendAll(pending.Keys);
      pending := map[];
      isScheduled := false;
      assert pending.Keys == {};
    }

    method SendAll(ids: set<nat>) returns (ghost out: seq<nat>)
      modifies this`sent
      ensures sent == old(sent) + out && Lists(out, ids)
    {
      var rest := ids;
      out := [];
      while rest != {}
        invariant rest <= ids
        invariant sent == old(sent) + out && Lists(out, ids - rest)
      {
        var id :| id in rest;
        sent := sent + [id];
        out := out + [id];
        rest := rest - {id};
      }
    }
  }

  /** Every id of the set once, and nothing else. */
  ghost predicate Lists(out: seq<nat>, ids: set<nat>) {
    && (forall id :: id in out <==> id in ids)
    && (forall i, j :: 0 <= i < j < |out| ==> out[i] != out[j])
  }

  lemma {:induction false} NoneListed()
    ensures Lists([], {})
  {
  }

  // ---------------------------------------------------------------- runs

  function After(run: seq<Event>): State {
    if run == [] then Initial() else Step(After(run[..|run| - 1]), run[|run| - 1])
  }

  /** A timer never fires early, and time does not go back. */
  ghost predicate Possible(run: seq<Event>) {
    run == [] ||
    var front, e := run[..|run| - 1], run[|run| - 1];
    && Possible(front)
    && e.now <= e.again
    && (front != [] ==> front[|front| - 1].again <= e.now)
    && (e.Fire? ==> e.due in After(front).timers && e.due <= e.now)
  }

  ghost predicate Consistent(s: State) {
    (s.pending != {} <==> s.scheduled) && |s.timers| == if s.scheduled then 1 else 0
  }

  /** Something is pending exactly when the flag is set, and exactly then one timer is outstanding. */
  lemma {:induction false} OneTimerWhilePending(run: seq<Event>)
    requires Possible(run)
    ensures Consistent(After(run))
  {
    if run != [] {
      OneTimerWhilePending(run[..|run| - 1]);
    }
  }

  ghost predicate FlushAt(run: seq<Event>, j: nat)
    requires j < |run|
  {
    Flushes(After(run[..j]), run[j])
  }

  ghost predicate NoFlushBetween(run: seq<Event>, i: nat, j: nat)
    requires j <= |run|
  {
    forall k :: i < k < j ==> !FlushAt(run, k)
  }

  lemma {:induction false} PrefixIsPossible(run: seq<Event>, j: nat)
    requires Possible(run) && j <= |run|
    ensures Possible(run[..j])
  {
    if j < |run| {
      PrefixIsPossible(run[..|run| - 1], j);
      assert run[..|run| - 1][..j] == run[..j];
    } else {
      assert run[..j] == run;
    }
  }

  lemma {:induction false} AfterNext(run: seq<Event>, j: nat)
    requires j < |run|
    ensures After(run[..j + 1]) == Step(After(run[..j]), run[j])
  {
    assert run[..j + 1][..j] == run[..j];
  }

  /** What is scheduled stays pending until a flush. */
  lemma {:induction false} StaysPending(run: seq<Event>, i: nat, j: nat)
    requires i < j <= |run| && run[i].Schedule?
    requires NoFlushBetween(run, i, j)
    ensures run[i].id in After(run[..j]).pending
    decreases j
  {
    AfterNext(run, j - 1);
    if i < j - 1 {
      StaysPending(run, i, j - 1);
      assert !FlushAt(run, j - 1);
    }
  }

  /** Nothing is lost: the first flush after an id was scheduled sends it. */
  lemma {:induction false} FirstFlushEmits(run: seq<Event>, i: nat, j: nat)
    requires i < j < |run| && run[i].Schedule?
    requires FlushAt(run, j) && NoFlushBetween(run, i, j)
    ensures run[i].id in Emitted(After(run[..j]), run[j])
  {
    StaysPending(run, i, j);
  }

  lemma {:induction false} PendingBefore(run: seq<Event>, j: nat, id: nat)
    requires j < |run| && id in After(run[..j + 1]).pending
    ensures (run[j].Schedule? && run[j].id == id) || id in After(run[..j]).pending
    ensures !FlushAt(run, j)
  {
    AfterNext(run, j);
  }

  lemma {:induction false} NothingPendingAtFirst(run: seq<Event>)
    ensures After(run[..0]).pending == {}
  {
  }

  lemma {:induction false} NoFlushOnceMore(run: seq<Event>, i: nat, j: nat)
    requires i < j < |run| && NoFlushBetween(run, i, j) && !FlushAt(run, j)
    ensures NoFlushBetween(run, i, j + 1)
  {
    hide FlushAt;
  }

  /** Nothing is made up or sent twice: what is pending was scheduled after the last flush. */
  lemma {:induction false} PendingWasScheduled(run: seq<Event>, j: nat, id: nat) returns (i: nat)
    requires j <= |run| && id in After(run[..j]).pending
    ensures i < j && run[i].Schedule? && run[i].id == id && NoFlushBetween(run, i, j)
    decreases j
  {
    hide After;
    hide FlushAt;
    NothingPendingAtFirst(run);
    PendingBefore(run, j - 1, id);
    if run[j - 1].Schedule? && run[j - 1].id == id {
      i := j - 1;
    } else {
      i := PendingWasScheduled(run, j - 1, id);
      hide NoFlushBetween;
      NoFlushOnceMore(run, i, j - 1);
    }
  }

  lemma {:induction false} EmittedWasScheduled(run: seq<Event>, j: nat, id: nat) returns (i: nat)
    requires j < |run| && id in Emitted(After(run[..j]), run[j])
    ensures i < j && run[i].Schedule? && run[i].id == id && NoFlushBetween(run, i, j)
  {
    i := PendingWasScheduled(run, j, id);
  }

  // ---------------------------------------------------------------- timing

  /** `last` is never before any feedback that was scheduled. */
  lemma {:induction false} LastIsLatest(run: seq<Event>, i: nat)
    requires Possible(run) && i < |run| && run[i].Schedule?
    ensures run[i].now <= After(run).last
    ensures After(run).last <= run[|run| - 1].again
  {
    var front, e := run[..|run| - 1], run[|run| - 1];
    if i < |run| - 1 {
      LastIsLatest(front, i);
    }
  }

  /** A flush never comes within the quiet time of any feedback scheduled before it. */
  lemma {:induction false} FlushIsQuiet(run: seq<Event>, i: nat, j: nat)
    requires Possible(run) && i < j < |run|
    requires run[i].Schedule? && FlushAt(run, j)
    ensures run[j].now - run[i].now > QUIET
  {
    PrefixIsPossible(run, j);
    LastIsLatest(run[..j], i);
  }

  /** Timers that are at most `late` late and clock readings at most `late` apart. */
  ghost predicate Punctual(run: seq<Event>, late: nat) {
    run == [] ||
    var front, e := run[..|run| - 1], run[|run| - 1];
    && Punctual(front, late)
    && e.again <= e.now + late
    && forall due :: due in After(front).timers ==> e.now <= due + late
  }

  lemma {:induction false} TimersAreSoon(run: seq<Event>, late: nat)
    requires Possible(run) && Punctual(run, late)
    ensures forall due :: due in After(run).timers ==> due <= After(run).last + 2 * QUIET + late
  {
    if run != [] {
      var front, e := run[..|run| - 1], run[|run| - 1];
      TimersAreSoon(front, late);
      if e.Schedule? && front != [] && After(front).scheduled {
        LastDoesNotPass(front, e.now);
      }
      hide After;
      hide Possible;
      hide Punctual;
    }
  }

  lemma {:induction false} LastDoesNotPass(run: seq<Event>, now: int)
    requires Possible(run) && run != [] && run[|run| - 1].again <= now
    requires After(run).scheduled
    ensures After(run).last <= now
  {
    var front, e := run[..|run| - 1], run[|run| - 1];
    if e.Fire? || After(front).scheduled {
      OneTimerWhilePending(front);
      LastDoesNotPass(front, now);
    }
  }

  /** While anything is pending, the clock is at most twice the quiet time after the latest feedback: with
      exact timers a burst is sent within 500 ms of its last feedback. */
  lemma {:induction false} FlushIsPrompt(run: seq<Event>, j: nat, late: nat) returns (i: nat)
    requires Possible(run) && Punctual(run, late) && j < |run|
    requires After(run[..j]).pending != {}
    ensures i < j && run[i].Schedule?
    ensures forall k :: 0 <= k < j && run[k].Schedule? ==> run[k].now <= run[i].now
    ensures run[j].now <= run[i].now + 2 * QUIET + 2 * late
  {
    hide After;
    hide Possible;
    hide Punctual;
    PrefixIsPossible(run, j);
    PrefixIsPunctual(run, j, late);
    TimersAreSoon(run[..j], late);
    OneTimerWhilePending(run[..j]);
    TimersAreAwaited(run, j, late);
    var due := TheTimer(After(run[..j]).timers);
    i := LastWasScheduled(run[..j]);
    forall k | 0 <= k < j && run[k].Schedule? ensures run[k].now <= run[i].now {
      LastIsLatest(run[..j], k);
    }
  }

  lemma {:induction false} LastWasScheduled(run: seq<Event>) returns (i: nat)
    requires After(run).pending != {}
    ensures i < |run| && run[i].Schedule? && run[i].now == After(run).last
  {
    if run[|run| - 1].Schedule? {
      i := |run| - 1;
    } else {
      i := LastWasScheduled(run[..|run| - 1]);
    }
  }

  lemma {:induction false} TheTimer(timers: multiset<int>) returns (due: int)
    requires |timers| == 1
    ensures due in timers
  {
    if forall d: int :: timers[d] == 0 {
      assert false;
    }
    due :| timers[due] != 0;
  }

  lemma {:induction false} TimersAreAwaited(run: seq<Event>, j: nat, late: nat)
    requires Punctual(run, late) && j < |run|
    ensures forall due :: due in After(run[..j]).timers ==> run[j].now <= due + late
  {
    if j < |run| - 1 {
      TimersAreAwaited(run[..|run| - 1], j, late);
      assert run[..|run| - 1][..j] == run[..j];
    }
  }

  lemma {:induction false} PrefixIsPunctual(run: seq<Event>, j: nat, late: nat)
    requires Punctual(run, late) && j <= |run|
    ensures Punctual(run[..j], late)
  {
    if j < |run| {
      PrefixIsPunctual(run[..|run| - 1], j, late);
      assert run[..|run| - 1][..j] == run[..j];
    } else {
      assert run[..j] == run;
    }
  }
}
