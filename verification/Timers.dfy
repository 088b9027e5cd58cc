/** asyncio tasks held in a variable, and the rejoin timer built on one. */
module Timers {
  import opened PyDict

  datatype TaskStatus = Pending | Cancelled | Finished

  /** A variable holding an asyncio task, with every task ever stored in it, oldest first. */
  datatype Slot = Slot(current: Option<nat>, tasks: seq<TaskStatus>) {
    /** The variable holds an existing task, and no other task can still run. */
    ghost predicate Ok() {
      && (current.Some? ==> current.value < |tasks|)
      && forall i :: 0 <= i < |tasks| && tasks[i].Pending? ==> current == Some(i)
    }

    predicate IsPending() {
      current.Some? && current.value < |tasks| && tasks[current.value].Pending?
    }

    /** `task.cancel()` on the held task: only a task that has not ended is affected. */
    function Cancel(): Slot {
      if IsPending() then this.(tasks := tasks[current.value := Cancelled]) else this
    }

    /** `self.task = asyncio.create_task(...)` */
    function Create(): Slot {
      Slot(Some(|tasks|), tasks + [Pending])
    }

    function Clear(): Slot {
      this.(current := None)
    }

    /** The i-th task ever stored runs to its end. */
    function Finish(i: nat): Slot
      requires i < |tasks|
    {
      this.(tasks := tasks[i := Finished])
    }
  }

  const EMPTY := Slot(None, [])

  /** The fields of an AsyncTimer. */
  datatype Timer = Timer(tries: nat, slot: Slot)

  function Reset(t: Timer): Timer {
    Timer(0, if t.slot.IsPending() then t.slot.Cancel().Clear() else t.slot)
  }

  function Schedule(t: Timer): Timer {
    Timer(t.tries + 1, t.slot.Cancel().Create())
  }

  function Fire(t: Timer, i: nat): Timer
    requires i < |t.slot.tasks|
  {
    t.(slot := t.slot.Finish(i))
  }

  function Pow2(n: nat): nat {
    if n == 0 then 1 else 2 * Pow2(n - 1)
  }

  /** The delay that `schedule_timeout` computes with the channel's rule `2**tries`. */
  function Delay(t: Timer): nat {
    Pow2(t.tries + 2)
  }

  lemma ResetOk(t: Timer)
    requires t.slot.Ok()
    ensures Reset(t).slot.Ok() && !Reset(t).slot.IsPending() && Reset(t).tries == 0
  {
  }

  lemma ScheduleOk(t: Timer)
    requires t.slot.Ok()
    ensures Schedule(t).slot.Ok() && Schedule(t).slot.IsPending()
  {
  }

  lemma FireOk(t: Timer, i: nat)
    requires t.slot.Ok() && i < |t.slot.tasks| && t.slot.tasks[i].Pending?
    ensures Fire(t, i).slot.Ok() && !Fire(t, i).slot.IsPending() && t.slot.current == Some(i)
  {
  }

  // ---------- Every run of a timer ----------

  datatype TimerEvent = Schedules | Resets | Fires(task: nat)

  /** One event; a task can only fire while it is pending. */
  function TimerStep(t: Timer, e: TimerEvent): Timer {
    match e
    case Schedules => Schedule(t)
    case Resets => Reset(t)
    case Fires(i) => if i < |t.slot.tasks| && t.slot.tasks[i].Pending? then Fire(t, i) else t
  }

  function TimerRun(t: Timer, events: seq<TimerEvent>): Timer {
    if events == [] then t else TimerStep(TimerRun(t, events[..|events| - 1]), events[|events| - 1])
  }

  /** The number of schedules since the last reset. */
  function SchedulesSinceReset(events: seq<TimerEvent>): nat {
    if events == [] then 0
    else match events[|events| - 1]
      case Schedules => SchedulesSinceReset(events[..|events| - 1]) + 1
      case Resets => 0
      case Fires(_) => SchedulesSinceReset(events[..|events| - 1])
  }

  const NEW_TIMER := Timer(0, EMPTY)

  /** In every run: only the held task can be pending, and `tries` counts the schedules since the last reset. */
  lemma {:induction false} TimerDiscipline(events: seq<TimerEvent>)
    ensures var t := TimerRun(NEW_TIMER, events);
      t.slot.Ok() && t.tries == SchedulesSinceReset(events)
  {
    if events != [] {
      TimerDiscipline(events[..|events| - 1]);
    }
  }

  /** A task that has ended, or that a later schedule or a reset has superseded, never fires again. */
  lemma {:induction false} SupersededNeverFires(t: Timer, events: seq<TimerEvent>, i: nat)
    requires t.slot.Ok() && i < |t.slot.tasks| && !t.slot.tasks[i].Pending?
    ensures var r := TimerRun(t, events); r.slot.Ok() && i < |r.slot.tasks| && r.slot.tasks[i] == t.slot.tasks[i]
  {
    if events != [] {
      SupersededNeverFires(t, events[..|events| - 1], i);
    }
  }

  /** Scheduling supersedes the held task, and so does a reset. */
  lemma SchedulingSupersedes(t: Timer, i: nat)
    requires t.slot.Ok() && i < |t.slot.tasks|
    ensures !Schedule(t).slot.tasks[i].Pending? && !Reset(t).slot.tasks[i].Pending?
  {
  }

  /** The delays scheduled over a run, oldest first. */
  function Delays(t: Timer, events: seq<TimerEvent>): seq<nat> {
    if events == [] then []
    else
      var prefix := events[..|events| - 1];
      Delays(t, prefix) + if events[|events| - 1].Schedules? then [Delay(TimerRun(t, prefix))] else []
  }

  function Sum(s: seq<nat>): nat {
    if s == [] then 0 else Sum(s[..|s| - 1]) + s[|s| - 1]
  }

  /** From a reset on, whatever fires in between, n schedules wait 2^(n+2) - 4 seconds in all. */
  lemma {:induction false} BackoffTotal(t: Timer, events: seq<TimerEvent>)
    requires t.tries == 0 && forall i :: 0 <= i < |events| ==> !events[i].Resets?
    ensures var n := |Delays(t, events)|;
      n == TimerRun(t, events).tries && Sum(Delays(t, events)) == Pow2(n + 2) - 4
  {
    if events == [] {
      assert Pow2(1) == 2;
    } else {
      var prefix := events[..|events| - 1];
      BackoffTotal(t, prefix);
      var d := Delay(TimerRun(t, prefix));
      var ds := Delays(t, prefix);
      assert (ds + [d])[..|ds|] == ds && ds + [] == ds;
    }
  }

  // ---------- The timer object ----------

  class AsyncTimer {
    var tries: nat
    var timer: Slot

    ghost function View(): Timer
      reads this
    {
      Timer(tries, timer)
    }

    constructor ()
      ensures View() == NEW_TIMER
    {
      tries, timer := 0, EMPTY;
    }

    method ResetTimer()
      modifies this
      ensures View() == Reset(old(View()))
    {
      tries := 0;
      if timer.IsPending() {
        timer := timer.Cancel();
        timer := timer.Clear();
      }
    }

    method ScheduleTimeout() returns (delay: nat)
      modifies this
      ensures View() == Schedule(old(View())) && delay == Delay(old(View()))
    {
      timer := timer.Cancel();
      tries := tries + 1;
      delay := Pow2(tries + 1);
      timer := timer.Create();
    }

    /** The sleep of task i ends; the callback runs next. */
    method TaskWakes(i: nat)
      requires i < |timer.tasks| && timer.tasks[i].Pending?
      modifies this
      ensures View() == Fire(old(View()), i)
    {
      timer := timer.Finish(i);
    }
  }
}
