/**
 * The renderer's decision logic: the clock formatters, the countdown clamp,
 * the caller label, the indicator dots, the gesture dispatch, the size
 * targets of the expand / collapse animation, the glow and the re-arming of
 * the notification auto-dismiss. Sizes are in dp; drawing is not modelled.
 */
module IslandOverlayView {
  import opened Wrappers
  import opened KotlinLang
  import opened IslandModels
  import IslandStateManager

  // ------------------------------------------------------------ formatters

  /** `fmtD`: minutes and seconds, each `toString()`-ed and zero-padded to at least 2 characters. */
  function FmtD(s: int): (r: string)
    ensures |r| >= 5
  {
    PadStart(IntToString(Quot(s, 60)), 2, '0') + ":" + PadStart(IntToString(Rem(s, 60)), 2, '0')
  }

  /** Reads an `MM:SS` text back: at least one minute digit, a colon, exactly two second digits. */
  function ParseClock(t: string): Option<int> {
    if |t| >= 4 && t[|t| - 3] == ':' && AllDigits(t[..|t| - 3]) && AllDigits(t[|t| - 2..]) then
      Some(DecimalValue(t[..|t| - 3]) * 60 + DecimalValue(t[|t| - 2..]))
    else None
  }

  /**
   * For a non-negative count of seconds `fmtD` writes `MM:SS` with the seconds
   * field in 00..59, and reading it back gives the count.
   */
  lemma FmtDRoundTrip(s: int)
    requires 0 <= s
    ensures var r := FmtD(s);
      && AllDigits(r[|r| - 2..]) && DecimalValue(r[|r| - 2..]) < 60
      && ParseClock(r) == Some(s)
  {
    var mm := PadStart(NatToString(s / 60), 2, '0');
    var ss := PadStart(NatToString(s % 60), 2, '0');
    FmtDFields(s);
    TwoDigitField(s % 60);
    PaddedValue(s / 60, 2);
    FmtDValue(s);
    ParseJoined(mm, ss, s);
  }

  /** For a non-negative count the two fields are the padded quotient and remainder by 60. */
  lemma FmtDFields(s: int)
    requires 0 <= s
    ensures FmtD(s) == PadStart(NatToString(s / 60), 2, '0') + ":" + PadStart(NatToString(s % 60), 2, '0')
  {
    assert Quot(s, 60) == s / 60 && Rem(s, 60) == s % 60;
  }

  lemma FmtDValue(s: nat)
    ensures DecimalValue(PadStart(NatToString(s / 60), 2, '0')) * 60
          + DecimalValue(PadStart(NatToString(s % 60), 2, '0')) == s
  {
    PaddedValue(s / 60, 2);
    PaddedValue(s % 60, 2);
  }

  /** A number below 100 padded to 2 is exactly 2 digits denoting it. */
  lemma TwoDigitField(n: nat)
    requires n < 100
    ensures var f := PadStart(NatToString(n), 2, '0');
      |f| == 2 && AllDigits(f) && DecimalValue(f) == n
  {
    PaddedValue(n, 2);
    NatToStringLength(n);
  }

  /** Two digit fields joined by a colon read back as minutes and seconds. */
  lemma ParseJoined(mm: string, ss: string, n: int)
    requires AllDigits(mm) && |mm| >= 1 && AllDigits(ss) && |ss| == 2
    requires DecimalValue(mm) * 60 + DecimalValue(ss) == n
    ensures var t := mm + ":" + ss;
      && t[|t| - 2..] == ss
      && ParseClock(t) == Some(n)
  {
    var t := mm + ":" + ss;
    JoinedParts(mm, ss);
    ParseClockParts(t, mm, ss);
  }

  /** Where the minutes, the colon and the seconds sit in `mm + ":" + ss`. */
  lemma JoinedParts(mm: string, ss: string)
    requires |ss| == 2
    ensures var t := mm + ":" + ss;
      && |t| == |mm| + 3 && t[|t| - 3] == ':'
      && t[..|t| - 3] == mm && t[|t| - 2..] == ss
  {
    var t := mm + ":" + ss;
    assert t[..|t| - 3] == mm;
    assert t[|t| - 2..] == ss;
  }

  /** `ParseClock` of a text whose parts are known. */
  lemma ParseClockParts(t: string, mm: string, ss: string)
    requires AllDigits(mm) && |mm| >= 1 && AllDigits(ss) && |ss| == 2
    requires |t| == |mm| + 3 && t[|t| - 3] == ':' && t[..|t| - 3] == mm && t[|t| - 2..] == ss
    ensures ParseClock(t) == Some(DecimalValue(mm) * 60 + DecimalValue(ss))
  {
  }

  /** A negative count is written with the minus sign inside the fields: -5 seconds is "00:-5". */
  lemma FmtDNegative()
    ensures FmtD(-5) == "00:-5"
  {
    assert Quot(-5, 60) == 0 && Rem(-5, 60) == -5;
    assert IntToString(0) == "0";
    assert IntToString(-5) == "-5";
  }

  /** `fmtMs`: `fmtD` of the whole seconds, `(ms / 1000).toInt()`. */
  function FmtMs(ms: int): (r: string)
    ensures 0 <= ms < 1000 * 0x8000_0000 ==> ParseClock(r) == Some(ms / 1000)
  {
    var t := ToInt32(Quot(ms, 1000));
    if 0 <= ms < 1000 * 0x8000_0000 then
      FmtDRoundTrip(t);
      FmtD(t)
    else FmtD(t)
  }

  /** `fmtMsFull`: `MM:SS.CC`, the `fmtMs` text followed by the hundredths of the last second. */
  function FmtMsFull(ms: int): (r: string)
    ensures r == FmtMs(ms) + "." + PadStart(IntToString(Quot(Rem(ms, 1000), 10)), 2, '0')
  {
    var t := ToInt32(Quot(ms, 1000));
    var m := Quot(t, 60);
    var s := Rem(t, 60);
    var cs := ToInt32(Quot(Rem(ms, 1000), 10));
    PadStart(IntToString(m), 2, '0') + ":" + PadStart(IntToString(s), 2, '0') + "." + PadStart(IntToString(cs), 2, '0')
  }

  /** Reads an `MM:SS.CC` text back as a count of hundredths of a second. */
  function ParseClockCentis(t: string): Option<int> {
    if |t| >= 3 && t[|t| - 3] == '.' && AllDigits(t[|t| - 2..]) then
      match ParseClock(t[..|t| - 3])
      case Some(secs) => Some(secs * 100 + DecimalValue(t[|t| - 2..]))
      case None => None
    else None
  }

  /** For a non-negative time in range, `fmtMsFull` keeps it to the hundredth: reading it back gives `ms / 10`. */
  lemma FmtMsFullRoundTrip(ms: int)
    requires 0 <= ms < 1000 * 0x8000_0000
    ensures ParseClockCentis(FmtMsFull(ms)) == Some(ms / 10)
  {
    var cs := (ms % 1000) / 10;
    var cc := PadStart(NatToString(cs), 2, '0');
    FmtMsFullFields(ms);
    TwoDigitField(cs);
    CentisSplit(ms);
    ParseCentisJoined(FmtMs(ms), cc, ms / 1000, ms / 10);
  }

  lemma FmtMsFullFields(ms: int)
    requires 0 <= ms
    ensures FmtMsFull(ms) == FmtMs(ms) + "." + PadStart(NatToString((ms % 1000) / 10), 2, '0')
  {
    assert Quot(Rem(ms, 1000), 10) == (ms % 1000) / 10;
  }

  lemma ParseCentisJoined(head: string, cc: string, secs: int, n: int)
    requires ParseClock(head) == Some(secs) && AllDigits(cc) && |cc| == 2
    requires secs * 100 + DecimalValue(cc) == n
    ensures ParseClockCentis(head + "." + cc) == Some(n)
  {
    var t := head + "." + cc;
    DottedParts(head, cc);
    ParseCentisParts(t, head, cc);
  }

  /** Where the clock, the dot and the hundredths sit in `head + "." + cc`. */
  lemma DottedParts(head: string, cc: string)
    requires |cc| == 2
    ensures var t := head + "." + cc;
      && |t| == |head| + 3 && t[|t| - 3] == '.'
      && t[..|t| - 3] == head && t[|t| - 2..] == cc
  {
    var t := head + "." + cc;
    assert t[..|t| - 3] == head;
    assert t[|t| - 2..] == cc;
  }

  /** `ParseClockCentis` of a text whose parts are known. */
  lemma ParseCentisParts(t: string, head: string, cc: string)
    requires ParseClock(head).Some? && AllDigits(cc) && |cc| == 2
    requires |t| == |head| + 3 && t[|t| - 3] == '.' && t[..|t| - 3] == head && t[|t| - 2..] == cc
    ensures ParseClockCentis(t) == Some(ParseClock(head).value * 100 + DecimalValue(cc))
  {
  }

  lemma CentisSplit(ms: nat)
    ensures ms / 10 == (ms / 1000) * 100 + (ms % 1000) / 10
  {
    var q, r := ms / 1000, ms % 1000;
    assert ms == 1000 * q + r;
    assert ms == 10 * (100 * q + r / 10) + r % 10;
  }

  /** The time a timer shows: the elapsed time of a stopwatch, the remaining time of a countdown, never below 0. */
  function TimerDisplayMs(t: TimerState): (ms: int)
    ensures t.isStopwatch ==> ms == t.elapsedMs
    ensures !t.isStopwatch ==> 0 <= ms && t.targetMs - t.elapsedMs <= ms
    ensures !t.isStopwatch && ms > 0 ==> ms == t.targetMs - t.elapsedMs
  {
    if t.isStopwatch then t.elapsedMs
    else if t.targetMs - t.elapsedMs > 0 then t.targetMs - t.elapsedMs else 0
  }

  /** The name the call view shows: the caller name, else the number, else "Bilinmeyen" (unknown). */
  function CallerLabel(c: CallState): (r: string)
    ensures r != ""
    ensures c.callerName != "" ==> r == c.callerName
    ensures c.callerName == "" ==> r == (if c.callerNumber != "" then c.callerNumber else "Bilinmeyen")
  {
    if c.callerName != "" then c.callerName
    else if c.callerNumber != "" then c.callerNumber
    else "Bilinmeyen"
  }

  // -------------------------------------------------------- indicator dots

  const Green: int := Argb(0xFF4CD964)
  const Orange: int := Argb(0xFFFF9500)
  const Red: int := Argb(0xFFFF3B30)
  const Purple: int := Argb(0xFF5856D6)
  const Blue: int := Argb(0xFF007AFF)

  /** The dot for one indicator: one dot of its colour when it is on, none otherwise. */
  function DotIf(on: bool, color: int): (r: seq<int>)
    ensures |r| == (if on then 1 else 0)
  {
    if on then [color] else []
  }

  /** The indicator dots: one per indicator that is on, in the fixed order camera, mic, silent, DnD, screen record, Bluetooth. */
  function IndicatorDots(ind: SystemIndicators): seq<int> {
    DotIf(ind.cameraInUse, Green) + DotIf(ind.micInUse, Orange) + DotIf(ind.isSilent, Red)
    + DotIf(ind.isDnd, Purple) + DotIf(ind.isScreenRecording, Red) + DotIf(ind.bluetoothConnected, Blue)
  }

  /** Exactly as many dots as indicators that are on; none at all when every indicator is off. */
  lemma DotCount(ind: SystemIndicators)
    ensures |IndicatorDots(ind)| ==
      (if ind.cameraInUse then 1 else 0) + (if ind.micInUse then 1 else 0)
      + (if ind.isSilent then 1 else 0) + (if ind.isDnd then 1 else 0)
      + (if ind.isScreenRecording then 1 else 0) + (if ind.bluetoothConnected then 1 else 0)
    ensures IndicatorDots(ind) == [] <==>
      (!ind.cameraInUse && !ind.micInUse && !ind.isSilent && !ind.isDnd
       && !ind.isScreenRecording && !ind.bluetoothConnected)
  {
  }

  /** The camera dot, when on, comes first; the Bluetooth dot, when on, comes last. */
  lemma DotEnds(ind: SystemIndicators)
    ensures ind.cameraInUse ==> IndicatorDots(ind)[0] == Green
    ensures ind.bluetoothConnected ==> IndicatorDots(ind)[|IndicatorDots(ind)| - 1] == Blue
  {
  }

  /** Every dot has one of the five indicator colours; blue means Bluetooth, purple means do-not-disturb. */
  lemma DotColours(ind: SystemIndicators)
    ensures forall c :: c in IndicatorDots(ind) ==> c in {Green, Orange, Red, Purple, Blue}
    ensures Blue in IndicatorDots(ind) <==> ind.bluetoothConnected
    ensures Purple in IndicatorDots(ind) <==> ind.isDnd
  {
    assert Green != Blue && Orange != Blue && Red != Blue && Purple != Blue;
    assert Green != Purple && Orange != Purple && Red != Purple;
  }

  /** The dot row built the way `updateDots` adds the dots, one indicator after another. */
  method DotRow(ind: SystemIndicators) returns (row: seq<int>)
    ensures row == IndicatorDots(ind)
  {
    row := [];
    if ind.cameraInUse { row := row + [Green]; }
    ghost var want := DotIf(ind.cameraInUse, Green);  // the dots of the indicators handled so far
    assert row == want;
    if ind.micInUse { row := row + [Orange]; }
    want := want + DotIf(ind.micInUse, Orange);
    assert row == want;
    if ind.isSilent { row := row + [Red]; }
    want := want + DotIf(ind.isSilent, Red);
    assert row == want;
    if ind.isDnd { row := row + [Purple]; }
    want := want + DotIf(ind.isDnd, Purple);
    assert row == want;
    if ind.isScreenRecording { row := row + [Red]; }
    want := want + DotIf(ind.isScreenRecording, Red);
    assert row == want;
    if ind.bluetoothConnected { row := row + [Blue]; }
    want := want + DotIf(ind.bluetoothConnected, Blue);
    assert row == want;
  }

  // ---------------------------------------------------------------- gestures

  /** What a gesture makes happen; the first two are calls into the state manager. */
  datatype GestureAction =
    | ToggleExpanded
    | DismissNotification
    | TogglePlayPause
    | SkipNext
    | EndCall
    | StopTimer
    | NoAction

  /** A single tap toggles the expanded view in both states. */
  function OnSingleTap(cur: IslandState): GestureAction {
    ToggleExpanded
  }

  /** Long press: the quick action of the mode; in other modes it expands a collapsed island. */
  function OnLongPress(cur: IslandState): (a: GestureAction)
    ensures a == TogglePlayPause <==> cur.mode == Music
    ensures a == EndCall <==> cur.mode == Call
    ensures a == StopTimer <==> cur.mode == Timer
    ensures a == DismissNotification <==> cur.mode == Notification
    ensures a == ToggleExpanded <==>
      (!cur.mode.Music? && !cur.mode.Call? && !cur.mode.Timer? && !cur.mode.Notification? && !cur.expanded)
  {
    match cur.mode
    case Music => TogglePlayPause
    case Call => EndCall
    case Timer => StopTimer
    case Notification => DismissNotification
    case _ => if !cur.expanded then ToggleExpanded else NoAction
  }

  /** Double tap skips to the next track while music is shown. */
  function OnDoubleTap(cur: IslandState): (a: GestureAction)
    ensures a == SkipNext <==> cur.mode == Music
    ensures a == SkipNext || a == NoAction
  {
    if cur.mode == Music then SkipNext else NoAction
  }

  /** The effect of an action on the island state; the other actions act outside it. */
  function StateEffect(s: IslandState, a: GestureAction): IslandState {
    match a
    case ToggleExpanded => IslandStateManager.ApplyToggleExpanded(s)
    case DismissNotification => IslandStateManager.ApplyDismissNotification(s)
    case _ => s
  }

  /** Two single taps give back the state they started from. */
  lemma TapTwice(s: IslandState)
    ensures StateEffect(StateEffect(s, OnSingleTap(s)), OnSingleTap(StateEffect(s, OnSingleTap(s)))) == s
  {
  }

  /** A long press outside MUSIC, CALL, TIMER and NOTIFICATION leaves the island expanded and never collapses it. */
  lemma LongPressNeverCollapses(s: IslandState)
    requires !s.mode.Music? && !s.mode.Call? && !s.mode.Timer? && !s.mode.Notification?
    ensures StateEffect(s, OnLongPress(s)).expanded
    ensures StateEffect(s, OnLongPress(s)) == s.(expanded := true)
  {
  }

  // ------------------------------------------------------------- sizes

  /** The expanded height of each mode, in dp. */
  function ExpandedHeight(m: IslandMode): (h: int)
    ensures 60 <= h <= 175
    ensures h == 90 <==> m == Idle || m == Weather || m == SilentMode
  {
    match m
    case Music => 175
    case Call => 175
    case Charging => 115
    case Notification => 70
    case Timer => 120
    case NetSpeed => 110
    case Navigation => 120
    case CameraMic => 80
    case ScreenRecord => 60
    case Bluetooth => 100
    case _ => 90
  }

  /** Where the expand / collapse animation ends: width, height and corner radius, in dp. */
  datatype Size = Size(width: int, height: int, radius: int)

  /** `animTo`: screen width less the margins when expanded; collapsed, the idle size, 50 wider outside IDLE. */
  function TargetSize(expand: bool, mode: IslandMode, idleW: int, idleH: int, screenW: int): (z: Size)
    ensures expand ==> z == Size(screenW - 32, ExpandedHeight(mode), 28)
    ensures !expand ==> z.height == idleH && z.radius == 16
    ensures !expand ==> (z.width == idleW + 50 <==> mode != Idle) && (z.width == idleW <==> mode == Idle)
  {
    var w := if expand then screenW - 32 else if mode != Idle then idleW + 50 else idleW;
    var h := if expand then ExpandedHeight(mode) else idleH;
    Size(w, h, if expand then 28 else 16)
  }

  // ----------------------------------------------------------------- glow

  /** The glow after `updateGlow(color)`: hidden when off or colour 0, re-shown only on a new colour. */
  datatype Glow = Glow(current: int, shown: bool)

  function GlowAfter(enabled: bool, g: Glow, color: int): (r: Glow)
    ensures !enabled || color == 0 ==> !r.shown && r.current == g.current
    ensures enabled && color != 0 && color != g.current ==> r == Glow(color, true)
    ensures enabled && color != 0 && color == g.current ==> r == g
  {
    if !enabled || color == 0 then g.(shown := false)
    else if color != g.current then Glow(color, true)
    else g
  }

  // ------------------------------------------------------------ the view

  /**
   * The view's own state: the last island state it drew, the idle size, the
   * target size of the container, the indicator dots, the glow and the due
   * times of the queued auto-dismiss callbacks.
   */
  class OverlayView {
    var cur: IslandState
    var idleW: int
    var idleH: int
    var size: Size
    var dots: seq<int>
    var glowEnabled: bool
    var glow: Glow
    var pendingDismiss: seq<int>

    predicate Valid()
      reads this
    {
      |pendingDismiss| <= 1
    }

    constructor (idleW: int, idleH: int)
      ensures this.idleW == idleW && this.idleH == idleH
      ensures cur == IslandState() && size == Size(idleW, idleH, 16)
      ensures dots == [] && glowEnabled && glow == Glow(0, false) && pendingDismiss == []
      ensures Valid()
    {
      this.idleW, this.idleH := idleW, idleH;
      cur := IslandState();
      size := Size(idleW, idleH, 16);
      dots := [];
      glowEnabled := true;
      glow := Glow(0, false);
      pendingDismiss := [];
    }

    /** `updateDots`: clears the dot row and adds one dot per indicator that is on. */
    method UpdateDots(ind: SystemIndicators)
      modifies this
      ensures dots == IndicatorDots(ind)
      ensures cur == old(cur) && size == old(size) && glow == old(glow) && pendingDismiss == old(pendingDismiss)
      ensures idleW == old(idleW) && idleH == old(idleH) && glowEnabled == old(glowEnabled)
    {
      var row := DotRow(ind);
      dots := row;
    }

    /** `autoDismiss`: cancels the queued dismiss, if any, and queues one 4000 ms from now. */
    method AutoDismiss(now: int)
      modifies this
      ensures pendingDismiss == [now + 4000]
      ensures cur == old(cur) && size == old(size) && glow == old(glow) && dots == old(dots)
      ensures idleW == old(idleW) && idleH == old(idleH) && glowEnabled == old(glowEnabled)
    {
      pendingDismiss := [];
      pendingDismiss := pendingDismiss + [now + 4000];
    }

    /**
     * `update`: records the state; animates to the new size when `expanded`
     * changes; re-arms the auto-dismiss for an expanded notification; redraws
     * the glow and the dots. `screenW` is the screen width, `now` the clock.
     */
    method Update(s: IslandState, now: int, screenW: int)
      requires Valid()
      modifies this
      ensures Valid()
      ensures cur == s
      ensures s.expanded != old(cur).expanded ==> size == TargetSize(s.expanded, s.mode, idleW, idleH, screenW)
      ensures s.expanded == old(cur).expanded ==> size == old(size)
      ensures pendingDismiss == if s.mode == Notification && s.expanded then [now + 4000] else old(pendingDismiss)
      ensures glow == GlowAfter(glowEnabled, old(glow), s.glowColor)
      ensures dots == IndicatorDots(s.indicators)
      ensures idleW == old(idleW) && idleH == old(idleH) && glowEnabled == old(glowEnabled)
    {
      var prev := cur;
      cur := s;
      if s.expanded && !prev.expanded {
        size := TargetSize(true, s.mode, idleW, idleH, screenW);
      } else if !s.expanded && prev.expanded {
        size := TargetSize(false, s.mode, idleW, idleH, screenW);
      }
      if s.mode == Notification && s.expanded {
        AutoDismiss(now);
      }
      glow := GlowAfter(glowEnabled, glow, s.glowColor);
      UpdateDots(s.indicators);
    }

    /** The handler runs the queued dismiss once its time has come; it then asks the manager to dismiss. */
    method RunDueDismiss(now: int) returns (dismiss: bool)
      requires Valid()
      modifies this
      ensures Valid()
      ensures dismiss <==> old(pendingDismiss) != [] && old(pendingDismiss)[0] <= now
      ensures pendingDismiss == if dismiss then [] else old(pendingDismiss)
      ensures cur == old(cur) && size == old(size) && glow == old(glow) && dots == old(dots)
      ensures idleW == old(idleW) && idleH == old(idleH) && glowEnabled == old(glowEnabled)
    {
      dismiss := pendingDismiss != [] && pendingDismiss[0] <= now;
      if dismiss {
        pendingDismiss := [];
      }
    }

    /** `updateSizes`: a new idle size, applied at once while the island is collapsed and idle. */
    method UpdateSizes(w: int, h: int)
      modifies this
      ensures idleW == w && idleH == h
      ensures !cur.expanded && cur.mode == Idle ==> size == old(size).(width := w, height := h)
      ensures cur.expanded || cur.mode != Idle ==> size == old(size)
      ensures cur == old(cur) && glow == old(glow) && dots == old(dots) && pendingDismiss == old(pendingDismiss)
      ensures glowEnabled == old(glowEnabled)
    {
      idleW, idleH := w, h;
      if !cur.expanded && cur.mode == Idle {
        size := size.(width := w, height := h);
      }
    }

    /** `setGlowEnabled`: takes effect at the next update. */
    method SetGlowEnabled(e: bool)
      modifies this
      ensures glowEnabled == e
      ensures cur == old(cur) && size == old(size) && glow == old(glow) && dots == old(dots)
      ensures idleW == old(idleW) && idleH == old(idleH) && pendingDismiss == old(pendingDismiss)
    {
      glowEnabled := e;
    }
  }

  /** The reducer never sets a glow colour, so for every state it can reach the glow stays hidden. */
  lemma GlowStaysHidden(enabled: bool, g: Glow, s: IslandState)
    requires IslandStateManager.Consistent(s)
    ensures !GlowAfter(enabled, g, s.glowColor).shown
  {
  }
}
