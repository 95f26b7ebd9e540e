/**
 * The telephony call-state machine: RINGING publishes an incoming call,
 * OFFHOOK marks the call active and starts a one-second duration ticker,
 * IDLE stops the ticker and clears the call. The clock, the contact lookup
 * and the manager's current call snapshot are parameters; what a step
 * publishes to the manager is its result.
 */
module CallStateTracker {
  import opened Wrappers
  import opened KotlinLang
  import opened IslandModels
  import IslandStateManager
  import IslandOverlayView

  /** `TelephonyManager.CALL_STATE_*`. */
  const CallStateIdle: int := 0
  const CallStateRinging: int := 1
  const CallStateOffhook: int := 2

  /** The name shown for a caller the lookup cannot name and who has no number. */
  const Unknown: string := "Bilinmeyen"

  /**
   * The ringing call exactly as the source builds it: the constructor is
   * called positionally, so the number lands in `callerName` and the looked-up
   * name (else the number, else "Bilinmeyen") lands in `callerNumber`.
   */
  function RingingCallAsWritten(number: Option<string>, lookup: string -> string): (c: CallState)
    ensures !c.isActive && c.isIncoming && c.durationSeconds == 0
    ensures c.callerName == number.GetOr("")
    ensures number.None? ==> c.callerNumber == Unknown
    ensures number.Some? && lookup(number.value) != "" ==> c.callerNumber == lookup(number.value)
    ensures number.Some? && lookup(number.value) == "" ==> c.callerNumber == number.value
  {
    var name := if number.Some? then lookup(number.value) else "";
    CallState(false, true, number.GetOr(""), if name != "" then name else number.GetOr(Unknown), 0)
  }

  /**
   * As written, a caller with a non-empty number is always shown by that
   * number, even when the lookup found a contact name: the name is stored in
   * the field the call view reads last.
   */
  lemma RingingAsWrittenHidesContactName(n: string, lookup: string -> string)
    requires n != ""
    ensures IslandOverlayView.CallerLabel(RingingCallAsWritten(Some(n), lookup)) == n
    ensures RingingCallAsWritten(Some(n), lookup).callerNumber == (if lookup(n) != "" then lookup(n) else n)
  {
  }

  /** A contact "Ali" calling from "5551234" is shown as "5551234". */
  lemma RingingAsWrittenExample()
    ensures IslandOverlayView.CallerLabel(RingingCallAsWritten(Some("5551234"), _ => "Ali")) == "5551234"
  {
    RingingAsWrittenHidesContactName("5551234", _ => "Ali");
  }

  /**
   * The ringing call as evidently intended: not yet active, incoming, no
   * duration, the number as the number and the looked-up name (else the
   * number, else "Bilinmeyen") as the name.
   */
  function RingingCall(number: Option<string>, lookup: string -> string): (c: CallState)
    ensures !c.isActive && c.isIncoming && c.durationSeconds == 0
    ensures c.callerNumber == number.GetOr("")
    ensures number.None? ==> c.callerName == Unknown
  {
    var name := if number.Some? then lookup(number.value) else "";
    CallState(false, true, if name != "" then name else number.GetOr(Unknown), number.GetOr(""), 0)
  }

  /**
   * The call view then shows the contact name when the lookup found one,
   * else the number, else "Bilinmeyen"; and the ringing call takes the island.
   */
  lemma RingingShowsContactName(number: Option<string>, lookup: string -> string)
    ensures var c := RingingCall(number, lookup);
      && (number.Some? && lookup(number.value) != "" ==> IslandOverlayView.CallerLabel(c) == lookup(number.value))
      && (number.Some? && lookup(number.value) == "" && number.value != "" ==> IslandOverlayView.CallerLabel(c) == number.value)
      && (number.None? ==> IslandOverlayView.CallerLabel(c) == Unknown)
      && CallDemands(c)
  {
  }

  /** Seconds since `start`, as `((now - start) / 1000).toInt()`. */
  function ElapsedSeconds(start: int, now: int): (s: int)
    ensures IsInt32(s)
    ensures 0 <= now - start < 1000 * 0x8000_0000 ==> 0 <= s && s * 1000 <= now - start < s * 1000 + 1000
  {
    ToInt32(Quot(now - start, 1000))
  }

  /**
   * The tracker's own state: the call's start time and the duration ticker,
   * `durRunnable` set or not and the number of its posts queued in the handler.
   */
  class CallTracker {
    var startTime: int
    var hasDurRunnable: bool
    var queuedTicks: nat

    /** At most one tick is queued, and one is queued exactly while the ticker is set. */
    predicate Valid()
      reads this
    {
      queuedTicks <= 1 && (queuedTicks == 1 <==> hasDurRunnable)
    }

    constructor ()
      ensures startTime == 0 && !hasDurRunnable && queuedTicks == 0
      ensures Valid()
    {
      startTime := 0;
      hasDurRunnable := false;
      queuedTicks := 0;
    }

    /** `stopDur`: removes the ticker's queued posts and forgets it. */
    method StopDur()
      requires Valid()
      modifies this
      ensures Valid() && !hasDurRunnable && queuedTicks == 0
      ensures startTime == old(startTime)
    {
      if hasDurRunnable {
        queuedTicks := 0;
      }
      hasDurRunnable := false;
    }

    /** `startDur`: stops any ticker first, then posts a new one a second ahead. */
    method StartDur()
      requires Valid()
      modifies this
      ensures Valid() && hasDurRunnable && queuedTicks == 1
      ensures startTime == old(startTime)
    {
      StopDur();
      hasDurRunnable := true;
      queuedTicks := queuedTicks + 1;
    }

    /**
     * `handle`: one call-state change, with the ringing call built as the
   * source builds it (`RingingCallAsWritten`). `number` is the incoming number when
     * the platform gives one, `lookup` the contact lookup, `now` the clock and
     * `current` the manager's call snapshot; the result is what is published.
     */
    method Handle(state: int, number: Option<string>, lookup: string -> string, now: int, current: CallState)
      returns (published: Option<CallState>)
      requires Valid()
      modifies this
      ensures Valid()
      ensures state == CallStateRinging ==>
        && published == Some(RingingCallAsWritten(number, lookup))
        && startTime == old(startTime) && hasDurRunnable == old(hasDurRunnable) && queuedTicks == old(queuedTicks)
      ensures state == CallStateOffhook ==>
        && published == Some(current.(isActive := true, isIncoming := false))
        && startTime == now && hasDurRunnable && queuedTicks == 1
      ensures state == CallStateIdle ==>
        && published == Some(CallState())
        && startTime == 0 && !hasDurRunnable && queuedTicks == 0
      ensures state !in {CallStateIdle, CallStateRinging, CallStateOffhook} ==>
        && published == None
        && startTime == old(startTime) && hasDurRunnable == old(hasDurRunnable) && queuedTicks == old(queuedTicks)
    {
      if state == CallStateRinging {
        published := Some(RingingCallAsWritten(number, lookup));
      } else if state == CallStateOffhook {
        startTime := now;
        published := Some(current.(isActive := true, isIncoming := false));
        StartDur();
      } else if state == CallStateIdle {
        StopDur();
        published := Some(CallState());
        startTime := 0;
      } else {
        published := None;
      }
    }

    /**
     * One run of the queued ticker at time `now`: it publishes the current
     * call with only its duration replaced, when a start time is set, and
     * posts itself again (the queue is as before).
     */
    method Tick(now: int, current: CallState) returns (published: Option<CallState>)
      requires Valid() && queuedTicks == 1
      ensures startTime > 0 ==> published == Some(current.(durationSeconds := ElapsedSeconds(startTime, now)))
      ensures startTime <= 0 ==> published == None
    {
      if startTime > 0 {
        var s := ToInt32(Quot(now - startTime, 1000));
        published := Some(current.(durationSeconds := s));
      } else {
        published := None;
      }
    }

    /** `stop`: unregistering the listener is left out; the ticker is stopped. */
    method Stop()
      requires Valid()
      modifies this
      ensures Valid() && !hasDurRunnable && queuedTicks == 0
      ensures startTime == old(startTime)
    {
      StopDur();
    }
  }

  /** A call picked up takes the island, whatever the snapshot it starts from. */
  lemma OffhookTakesIsland(s: IslandState, current: CallState)
    ensures IslandStateManager.ApplyCall(s, current.(isActive := true, isIncoming := false)).mode == Call
  {
  }

  /** A duration tick changes neither who is calling nor whether the call holds the island. */
  lemma TickKeepsCaller(s: IslandState, secs: int)
    requires IslandStateManager.Consistent(s) && s.mode == Call
    ensures var r := IslandStateManager.ApplyCall(s, s.call.(durationSeconds := secs));
      && r.mode == Call && r.call.callerName == s.call.callerName
      && r.call.callerNumber == s.call.callerNumber && r.call.durationSeconds == secs
  {
  }

  /** Hanging up hands the island back to playing music, or to IDLE. */
  lemma IdleReleasesIsland(s: IslandState)
    requires s.mode == Call
    ensures IslandStateManager.ApplyCall(s, CallState()).mode == (if s.music.isPlaying then Music else Idle)
  {
  }
}
