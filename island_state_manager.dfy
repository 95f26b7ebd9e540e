/**
 * The island state reducer. Each of the six operations turns the current
 * `IslandState` into the next one by replacing one snapshot and picking the
 * mode with a small local rule; `Manager` owns the single current state and
 * replaces it on every call, one call at a time.
 */
module IslandStateManager {
  import opened Wrappers
  import opened IslandModels

  /** `updateMusic`: the snapshot is always stored; playing music takes the island from any mode, stopping it releases only MUSIC. */
  function ApplyMusic(c: IslandState, music: MusicState): (r: IslandState)
    ensures r.music == music
    ensures r.mode == Music <==> music.isPlaying
    ensures !music.isPlaying ==> r.mode == (if c.mode == Music then Idle else c.mode)
    ensures r.(music := c.music, mode := c.mode) == c
  {
    var m := if music.isPlaying then Music
             else if c.mode == Music then Idle else c.mode;
    c.(music := music, mode := m)
  }

  /** `updateCall`: an active or ringing call takes the island; when it ends, CALL falls back to MUSIC or IDLE. */
  function ApplyCall(c: IslandState, call: CallState): (r: IslandState)
    ensures r.call == call
    ensures r.mode == Call <==> CallDemands(call)
    ensures !CallDemands(call) && c.mode == Call ==> r.mode == (if c.music.isPlaying then Music else Idle)
    ensures !CallDemands(call) && c.mode != Call ==> r.mode == c.mode
    ensures r.(call := c.call, mode := c.mode) == c
  {
    var m := if call.isActive || call.isIncoming then Call
             else if c.mode == Call then (if c.music.isPlaying then Music else Idle)
             else c.mode;
    c.(call := call, mode := m)
  }

  /** `showNotification`: stored in every case; shown and expanded unless a call holds the island. */
  function ApplyShowNotification(c: IslandState, n: NotificationInfo): (r: IslandState)
    ensures r.notification == Some(n)
    ensures c.mode == Call ==> r.mode == Call && r.expanded == c.expanded
    ensures c.mode != Call ==> r.mode == Notification && r.expanded
    ensures r.(notification := c.notification, mode := c.mode, expanded := c.expanded) == c
  {
    if c.mode == Call then c.(notification := Some(n))
    else c.(notification := Some(n), mode := Notification, expanded := true)
  }

  /** `dismissNotification`: clears and collapses; the mode is the first of active call, playing music, charging, else IDLE. */
  function ApplyDismissNotification(c: IslandState): (r: IslandState)
    ensures r.notification == None && !r.expanded
    ensures r.mode == Call <==> c.call.isActive
    ensures r.mode == Music <==> !c.call.isActive && c.music.isPlaying
    ensures r.mode == Charging <==> !c.call.isActive && !c.music.isPlaying && c.charging.isCharging
    ensures r.mode == Idle <==> !c.call.isActive && !c.music.isPlaying && !c.charging.isCharging
    ensures r.(notification := c.notification, mode := c.mode, expanded := c.expanded) == c
  {
    var m := if c.call.isActive then Call
             else if c.music.isPlaying then Music
             else if c.charging.isCharging then Charging
             else Idle;
    c.(notification := None, mode := m, expanded := false)
  }

  /** `updateCharging`: CHARGING is entered only from IDLE and left only to IDLE. */
  function ApplyCharging(c: IslandState, ch: ChargingState): (r: IslandState)
    ensures r.charging == ch
    ensures r.mode == Charging <==> ch.isCharging && (c.mode == Idle || c.mode == Charging)
    ensures r.mode != c.mode ==>
      (c.mode == Idle && r.mode == Charging) || (c.mode == Charging && r.mode == Idle)
    ensures r.(charging := c.charging, mode := c.mode) == c
  {
    var m := if ch.isCharging && c.mode == Idle then Charging
             else if !ch.isCharging && c.mode == Charging then Idle
             else c.mode;
    c.(charging := ch, mode := m)
  }

  /** `toggleExpanded`: flips `expanded` and nothing else. */
  function ApplyToggleExpanded(c: IslandState): (r: IslandState)
    ensures r.expanded != c.expanded
    ensures r.(expanded := c.expanded) == c
  {
    c.(expanded := !c.expanded)
  }

  /** One call into the manager. */
  datatype Op =
    | UpdateMusic(music: MusicState)
    | UpdateCall(call: CallState)
    | ShowNotification(info: NotificationInfo)
    | DismissNotification
    | UpdateCharging(charging: ChargingState)
    | ToggleExpanded

  function Apply(s: IslandState, op: Op): IslandState {
    match op
    case UpdateMusic(m) => ApplyMusic(s, m)
    case UpdateCall(call) => ApplyCall(s, call)
    case ShowNotification(n) => ApplyShowNotification(s, n)
    case DismissNotification => ApplyDismissNotification(s)
    case UpdateCharging(ch) => ApplyCharging(s, ch)
    case ToggleExpanded => ApplyToggleExpanded(s)
  }

  /** The state after a sequence of calls, applied one after another. */
  function Run(s: IslandState, ops: seq<Op>): IslandState
    decreases |ops|
  {
    if ops == [] then s else Run(Apply(s, ops[0]), ops[1..])
  }

  /** The modes the six operations can ever select. */
  predicate ReducerMode(m: IslandMode) {
    m == Idle || m == Music || m == Call || m == Notification || m == Charging
  }

  /**
   * What holds of every state the manager can reach: one of the five reducer
   * modes, no secondary mode, no glow, and the mode's own snapshot (or the
   * notification) still asks for it, except that IDLE asks for nothing.
   */
  predicate Consistent(s: IslandState) {
    && ReducerMode(s.mode)
    && s.secondaryMode == Idle
    && s.glowColor == 0
    && (s.mode == Music ==> s.music.isPlaying)
    && (s.mode == Call ==> CallDemands(s.call))
    && (s.mode == Notification ==> s.notification.Some?)
    && (s.mode == Charging ==> s.charging.isCharging)
  }

  lemma ApplyKeepsConsistent(s: IslandState, op: Op)
    requires Consistent(s)
    ensures Consistent(Apply(s, op))
  {
  }

  lemma {:induction false} RunKeepsConsistent(s: IslandState, ops: seq<Op>)
    requires Consistent(s)
    ensures Consistent(Run(s, ops))
    decreases |ops|
  {
    if ops != [] {
      ApplyKeepsConsistent(s, ops[0]);
      RunKeepsConsistent(Apply(s, ops[0]), ops[1..]);
    }
  }

  /**
   * From the initial state, whatever the calls: the mode is one of the five
   * reducer modes, `secondaryMode` stays IDLE and `glowColor` stays 0.
   */
  lemma ReachableStates(ops: seq<Op>)
    ensures var s := Run(IslandState(), ops);
      && ReducerMode(s.mode) && s.secondaryMode == Idle && s.glowColor == 0
      && (s.mode == Music ==> s.music.isPlaying)
      && (s.mode == Call ==> CallDemands(s.call))
      && (s.mode == Notification ==> s.notification.Some?)
      && (s.mode == Charging ==> s.charging.isCharging)
  {
    RunKeepsConsistent(IslandState(), ops);
  }

  /**
   * No operation writes the timer, weather, net-speed, navigation or indicator
   * snapshots: they keep whatever value they had.
   */
  lemma {:induction false} RunLeavesOtherSnapshots(s: IslandState, ops: seq<Op>)
    ensures var r := Run(s, ops);
      && r.timer == s.timer && r.weather == s.weather && r.netSpeed == s.netSpeed
      && r.navigation == s.navigation && r.indicators == s.indicators
    decreases |ops|
  {
    if ops != [] {
      RunLeavesOtherSnapshots(Apply(s, ops[0]), ops[1..]);
    }
  }

  /** Applying any operation but `toggleExpanded` twice with the same argument is applying it once. */
  lemma ApplyIdempotent(s: IslandState, op: Op)
    requires !op.ToggleExpanded?
    ensures Apply(Apply(s, op), op) == Apply(s, op)
  {
  }

  /** `toggleExpanded` twice is the identity. */
  lemma ToggleTwice(s: IslandState)
    ensures ApplyToggleExpanded(ApplyToggleExpanded(s)) == s
  {
  }

  /** Playing music displaces a call that is still in progress (the call snapshot is kept). */
  lemma MusicDisplacesCall(c: IslandState, music: MusicState)
    requires c.mode == Call && CallDemands(c.call) && music.isPlaying
    ensures ApplyMusic(c, music).mode == Music
    ensures CallDemands(ApplyMusic(c, music).call)
  {
  }

  /** A notification stored during a call is not brought back when the call ends. */
  lemma EndedCallKeepsNotificationHidden(c: IslandState, call: CallState)
    requires c.mode == Call && c.notification.Some? && !CallDemands(call)
    ensures ApplyCall(c, call).mode != Notification
    ensures ApplyCall(c, call).notification == c.notification
  {
  }

  /** Dismissing a notification while a call only rings does not give the island back to the call. */
  lemma DismissIgnoresRingingCall(c: IslandState)
    requires c.call.isIncoming && !c.call.isActive
    ensures ApplyDismissNotification(c).mode != Call
  {
  }

  /**
   * Music starts, a call rings, the call ends: MUSIC, then CALL with no
   * secondary mode, then MUSIC again.
   */
  lemma MusicCallMusic(music: MusicState, ringing: CallState)
    requires music.isPlaying && ringing.isIncoming
    ensures var s1 := ApplyMusic(IslandState(), music);
      var s2 := ApplyCall(s1, ringing);
      var s3 := ApplyCall(s2, CallState());
      && s1.mode == Music
      && s2.mode == Call && s2.secondaryMode == Idle
      && s3.mode == Music
  {
  }

  /**
   * The singleton that holds the current state. Each method replaces `state`
   * with the transition function's result, so every call is one atomic step.
   */
  class Manager {
    var state: IslandState

    predicate Valid()
      reads this
    {
      Consistent(state)
    }

    constructor ()
      ensures state == IslandState()
      ensures Valid()
    {
      state := IslandState();
    }

    method UpdateMusic(music: MusicState)
      requires Valid()
      modifies this
      ensures state == ApplyMusic(old(state), music)
      ensures Valid()
    {
      state := ApplyMusic(state, music);
    }

    method UpdateCall(call: CallState)
      requires Valid()
      modifies this
      ensures state == ApplyCall(old(state), call)
      ensures Valid()
    {
      state := ApplyCall(state, call);
    }

    method ShowNotification(n: NotificationInfo)
      requires Valid()
      modifies this
      ensures state == ApplyShowNotification(old(state), n)
      ensures Valid()
    {
      state := ApplyShowNotification(state, n);
    }

    method DismissNotification()
      requires Valid()
      modifies this
      ensures state == ApplyDismissNotification(old(state))
      ensures Valid()
    {
      state := ApplyDismissNotification(state);
    }

    method UpdateCharging(ch: ChargingState)
      requires Valid()
      modifies this
      ensures state == ApplyCharging(old(state), ch)
      ensures Valid()
    {
      state := ApplyCharging(state, ch);
    }

    method ToggleExpanded()
      requires Valid()
      modifies this
      ensures state == ApplyToggleExpanded(old(state))
      ensures Valid()
    {
      state := ApplyToggleExpanded(state);
    }
  }
}
