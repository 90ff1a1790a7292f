/**
 The feedback queue object over whole runs.
 */
module FeedbackRuns {
  import opened FeedbackDebounce

  /** How many flushes of the run send the id. */
  function Sends(run: seq<Event>, id: nat): nat {
    if run == [] then 0
    else
      var front := run[..|run| - 1];
      Sends(front, id) + if id in Emitted(After(front), run[|run| - 1]) then 1 else 0
  }

  /** How often the id was scheduled. */
  function Schedules(run: seq<Event>, id: nat): nat {
    if run == [] then 0
    else
      var last := run[|run| - 1];
      Schedules(run[..|run| - 1], id) + if last.Schedule? && last.id == id then 1 else 0
  }

  /** How many bursts of the id there were: one begins when it is scheduled and not pending. */
  function Bursts(run: seq<Event>, id: nat): nat {
    if run == [] then 0
    else
      var front, last := run[..|run| - 1], run[|run| - 1];
      Bursts(front, id) + if last.Schedule? && last.id == id && id !in After(front).pending then 1 else 0
  }

  /** An id is sent once for each burst that is over: the burst that goes on, if any, is still pending. */
  lemma {:induction false} OncePerBurst(run: seq<Event>, id: nat)
    ensures Sends(run, id) + (if id in After(run).pending then 1 else 0) == Bursts(run, id) <= Schedules(run, id)
  {
    if run != [] {
      OncePerBurst(run[..|run| - 1], id);
    }
  }

  /** Listing a set once adds one to the count of each of its elements. */
  lemma {:induction false} ListedOnce(out: seq<nat>, ids: set<nat>, id: nat)
    requires Lists(out, ids)
    ensures multiset(out)[id] == if id in ids then 1 else 0
  {
    if id in ids {
      var i :| 0 <= i < |out| && out[i] == id;
      assert out == out[..i] + [id] + out[i + 1..];
      assert id !in out[..i] && id !in out[i + 1..];
    } else {
      assert id !in out;
    }
  }

  lemma {:induction false} Together(a: seq<nat>, b: seq<nat>, id: nat)
    ensures multiset(a + b)[id] == multiset(a)[id] + multiset(b)[id]
  {
  }

  method Handle(q: FeedbackQueue, e: Event) returns (ghost out: seq<nat>)
    modifies q
    ensures q.View() == Step(old(q.View()), e)
    ensures q.sent == old(q.sent) + out && Lists(out, Emitted(old(q.View()), e))
  {
    hide Step;
    hide Lists;
    match e {
      case Schedule(id, now, again) =>
        NoneListed();
        out := [];
        q.ScheduleFeedback(id, now, again);
      case Fire(due, now, again) =>
        out := q.TimerFired(due, now, again);
    }
  }

  /** Any calls on a new queue: each id is sent as often as flushes emit it, which is once for each burst of it that is
      over; and in a possible run one timer is outstanding exactly while something is pending. */
  method Lifetime(run: seq<Event>) returns (q: FeedbackQueue)
    ensures fresh(q) && q.View() == After(run)
    ensures forall id :: multiset(q.sent)[id] == Sends(run, id)
    ensures forall id :: multiset(q.sent)[id] + (if id in q.pending then 1 else 0) == Bursts(run, id)
    ensures Possible(run) ==> Consistent(q.View())
  {
    hide Step;
    hide Possible;
    hide Emitted;
    hide Bursts;
    q := new FeedbackQueue();
    for i := 0 to |run|
      invariant fresh(q) && q.View() == After(run[..i])
      invariant forall id :: multiset(q.sent)[id] == Sends(run[..i], id)
    {
      assert run[..i + 1][..i] == run[..i];
      ghost var before := q.sent;
      ghost var out := Handle(q, run[i]);
      hide Lists;
      forall id: nat ensures multiset(q.sent)[id] == Sends(run[..i + 1], id) {
        ListedOnce(out, Emitted(After(run[..i]), run[i]), id);
        Together(before, out, id);
      }
    }
    assert run[..|run|] == run;
    forall id: nat ensures multiset(q.sent)[id] + (if id in q.pending then 1 else 0) == Bursts(run, id) {
      OncePerBurst(run, id);
    }
    if Possible(run) {
      OneTimerWhilePending(run);
    }
  }
}
