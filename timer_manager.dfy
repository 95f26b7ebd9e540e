/**
 * The stopwatch / countdown driver: starting records the mode, the start
 * time and the target and posts a tick every 100 ms; each tick publishes the
 * elapsed time, and a countdown that has reached its target publishes a
 * finished state and stops posting. The clock is a parameter.
 */
module TimerManager {
  import opened IslandModels
  import IslandOverlayView

  /** What one tick publishes and whether it posts itself again. */
  datatype TickOutcome = TickOutcome(published: TimerState, reschedule: bool)

  /** A countdown has finished once the elapsed time reaches its target. */
  predicate CountdownDone(isStopwatch: bool, elapsed: int, targetMs: int) {
    !isStopwatch && elapsed >= targetMs
  }

  /** The tick of the `go` runnable, for the given mode, start time, target and clock. */
  function Tick(isStopwatch: bool, startTime: int, targetMs: int, now: int): (o: TickOutcome)
    ensures o.reschedule <==> !CountdownDone(isStopwatch, now - startTime, targetMs)
    ensures !o.reschedule ==> o.published == TimerState(false, false, targetMs, targetMs)
    ensures o.reschedule ==> o.published == TimerState(true, isStopwatch, now - startTime, targetMs)
  {
    var e := now - startTime;
    if !isStopwatch && e >= targetMs then TickOutcome(TimerState(false, false, targetMs, targetMs), false)
    else TickOutcome(TimerState(true, isStopwatch, e, targetMs), true)
  }

  /** A stopwatch never ends by itself: every tick publishes a running stopwatch and posts again. */
  lemma StopwatchNeverEnds(startTime: int, now: int)
    ensures Tick(true, startTime, 0, now).reschedule
    ensures Tick(true, startTime, 0, now).published.isRunning
    ensures Tick(true, startTime, 0, now).published.isStopwatch
  {
  }

  /**
   * A finished countdown shows 00:00 (its remaining time is 0); a running one
   * shows the positive time left.
   */
  lemma CountdownDisplay(startTime: int, targetMs: int, now: int)
    ensures var o := Tick(false, startTime, targetMs, now);
      && (!o.reschedule ==> !o.published.isRunning && IslandOverlayView.TimerDisplayMs(o.published) == 0)
      && (o.reschedule ==>
            (o.published.isRunning && IslandOverlayView.TimerDisplayMs(o.published) == targetMs - (now - startTime) > 0))
  {
  }

  /** Later ticks of one countdown never show more time left than earlier ones. */
  lemma CountdownShrinks(startTime: int, targetMs: int, t1: int, t2: int)
    requires t1 <= t2
    ensures IslandOverlayView.TimerDisplayMs(Tick(false, startTime, targetMs, t2).published)
         <= IslandOverlayView.TimerDisplayMs(Tick(false, startTime, targetMs, t1).published)
  {
  }

  /** What `stop` publishes: a stopped timer with every other field at its default. */
  const Stopped: TimerState := TimerState(isRunning := false)

  lemma StoppedIsDefault()
    ensures Stopped == TimerState()
    ensures IslandOverlayView.TimerDisplayMs(Stopped) == 0
  {
  }

  /**
   * The singleton's fields: stopwatch or countdown, start time, target, the
   * `runnable` set or not, and the number of its posts queued in the handler.
   */
  class Timer {
    var isStopwatch: bool
    var startTime: int
    var targetMs: int
    var hasRunnable: bool
    var queuedTicks: nat

    /** At most one tick is queued, and only for the current runnable. */
    predicate Valid()
      reads this
    {
      queuedTicks <= 1 && (queuedTicks == 1 ==> hasRunnable)
    }

    constructor ()
      ensures isStopwatch && startTime == 0 && targetMs == 0
      ensures !hasRunnable && queuedTicks == 0
      ensures Valid()
    {
      isStopwatch := true;
      startTime := 0;
      targetMs := 0;
      hasRunnable := false;
      queuedTicks := 0;
    }

    /** `go`: removes the old runnable's queued posts and posts a new runnable 100 ms ahead. */
    method Go()
      requires Valid()
      modifies this
      ensures Valid() && hasRunnable && queuedTicks == 1
      ensures isStopwatch == old(isStopwatch) && startTime == old(startTime) && targetMs == old(targetMs)
    {
      if hasRunnable {
        queuedTicks := 0;
      }
      hasRunnable := true;
      queuedTicks := queuedTicks + 1;
    }

    /** `startStopwatch`: counts up from `now`. */
    method StartStopwatch(now: int)
      requires Valid()
      modifies this
      ensures Valid()
      ensures isStopwatch && startTime == now && targetMs == 0
      ensures hasRunnable && queuedTicks == 1
    {
      isStopwatch := true;
      startTime := now;
      targetMs := 0;
      Go();
    }

    /** `startTimer(ms)`: counts down `ms` from `now`. */
    method StartTimer(ms: int, now: int)
      requires Valid()
      modifies this
      ensures Valid()
      ensures !isStopwatch && startTime == now && targetMs == ms
      ensures hasRunnable && queuedTicks == 1
    {
      isStopwatch := false;
      startTime := now;
      targetMs := ms;
      Go();
    }

    /** `stop`: removes the queued posts, forgets the runnable and publishes a stopped timer. */
    method Stop() returns (published: TimerState)
      requires Valid()
      modifies this
      ensures Valid() && !hasRunnable && queuedTicks == 0
      ensures published == Stopped
      ensures isStopwatch == old(isStopwatch) && startTime == old(startTime) && targetMs == old(targetMs)
    {
      if hasRunnable {
        queuedTicks := 0;
      }
      hasRunnable := false;
      published := TimerState(isRunning := false);
    }

    /**
     * One run of the queued tick at time `now`: the post is taken off the
     * queue, the outcome published, and the runnable posted again unless the
     * countdown has finished.
     */
    method RunTick(now: int) returns (published: TimerState)
      requires Valid() && queuedTicks == 1
      modifies this
      ensures Valid()
      ensures published == Tick(isStopwatch, startTime, targetMs, now).published
      ensures queuedTicks == (if Tick(isStopwatch, startTime, targetMs, now).reschedule then 1 else 0)
      ensures isStopwatch == old(isStopwatch) && startTime == old(startTime) && targetMs == old(targetMs)
      ensures hasRunnable == old(hasRunnable)
    {
      queuedTicks := 0;
      var e := now - startTime;
      if !isStopwatch && e >= targetMs {
        published := TimerState(false, false, targetMs, targetMs);
        return;
      }
      published := TimerState(true, isStopwatch, e, targetMs);
      queuedTicks := queuedTicks + 1;
    }
  }
}
