/**
 * The island's data model: the closed set of display modes and the immutable
 * snapshot records, each with the default values the Kotlin data classes give
 * their parameters. `IslandState()` is the state the island starts in.
 */
module IslandModels {
  import opened Wrappers

  datatype IslandMode =
    | Idle | Music | Call | Notification | Charging
    | Timer | Weather | NetSpeed | Navigation
    | CameraMic | SilentMode | ScreenRecord | Bluetooth

  /** The enumeration's declaration order (Kotlin's `IslandMode.entries`). */
  const Modes: seq<IslandMode> :=
    [Idle, Music, Call, Notification, Charging,
     Timer, Weather, NetSpeed, Navigation,
     CameraMic, SilentMode, ScreenRecord, Bluetooth]

  /** Kotlin's `ordinal`: the position of a mode in the declaration order. */
  function Ordinal(m: IslandMode): (k: nat)
    ensures k < |Modes| && Modes[k] == m
  {
    match m
    case Idle => 0
    case Music => 1
    case Call => 2
    case Notification => 3
    case Charging => 4
    case Timer => 5
    case Weather => 6
    case NetSpeed => 7
    case Navigation => 8
    case CameraMic => 9
    case SilentMode => 10
    case ScreenRecord => 11
    case Bluetooth => 12
  }

  /** The enumeration is closed and has exactly 13 distinct values. */
  lemma ModesAreClosed(m: IslandMode)
    ensures |Modes| == 13
    ensures m in Modes
    ensures forall i, j :: 0 <= i < j < |Modes| ==> Modes[i] != Modes[j]
  {
    var k := Ordinal(m);
    forall i, j | 0 <= i < j < |Modes|
      ensures Modes[i] != Modes[j]
    {
      assert Ordinal(Modes[i]) == i && Ordinal(Modes[j]) == j;
    }
  }

  /** An `android.graphics.Bitmap`, kept opaque: only its identity matters here. */
  datatype Bitmap = Bitmap(handle: nat)

  datatype MusicState = MusicState(
    title: string := "", artist: string := "",
    albumArt: Option<Bitmap> := None, isPlaying: bool := false,
    position: int := 0, duration: int := 0,
    packageName: string := "")

  datatype CallState = CallState(
    isActive: bool := false, isIncoming: bool := false,
    callerName: string := "", callerNumber: string := "",
    durationSeconds: int := 0)

  datatype NotificationInfo = NotificationInfo(
    id: int := 0, packageName: string := "",
    appName: string := "", title: string := "",
    body: string := "", appIcon: Option<Bitmap> := None,
    color: int := 0, postTime: int := 0)

  datatype ChargingState = ChargingState(
    isCharging: bool := false, level: int := 0,
    isUSB: bool := false, isFast: bool := false)

  datatype TimerState = TimerState(
    isRunning: bool := false, isStopwatch: bool := false,
    elapsedMs: int := 0, targetMs: int := 0)

  datatype WeatherState = WeatherState(
    temp: int := 0, condition: string := "",
    city: string := "", icon: string := "")

  datatype NetSpeedState = NetSpeedState(
    downloadSpeed: string := "0 B/s", uploadSpeed: string := "0 B/s",
    isActive: bool := false)

  datatype NavigationState = NavigationState(
    isActive: bool := false, instruction: string := "",
    distance: string := "", eta: string := "")

  datatype SystemIndicators = SystemIndicators(
    cameraInUse: bool := false, micInUse: bool := false,
    isSilent: bool := false, isDnd: bool := false,
    isScreenRecording: bool := false,
    bluetoothDevice: string := "", bluetoothConnected: bool := false)

  datatype IslandState = IslandState(
    mode: IslandMode := Idle,
    secondaryMode: IslandMode := Idle,
    expanded: bool := false,
    music: MusicState := MusicState(),
    call: CallState := CallState(),
    notification: Option<NotificationInfo> := None,
    charging: ChargingState := ChargingState(),
    timer: TimerState := TimerState(),
    weather: WeatherState := WeatherState(),
    netSpeed: NetSpeedState := NetSpeedState(),
    navigation: NavigationState := NavigationState(),
    indicators: SystemIndicators := SystemIndicators(),
    glowColor: int := 0)

  /** The call snapshot asks for the island while a call is active or ringing. */
  predicate CallDemands(c: CallState) {
    c.isActive || c.isIncoming
  }

  /** The state the island starts in: idle, collapsed, no notification, no glow. */
  lemma InitialState()
    ensures var s := IslandState();
      && s.mode == Idle && s.secondaryMode == Idle && !s.expanded
      && s.notification == None && s.glowColor == 0
  {
  }

  /** Default snapshots ask for nothing; the default net text is "0 B/s" both ways. */
  lemma DefaultSnapshots()
    ensures !MusicState().isPlaying
    ensures !CallDemands(CallState())
    ensures !ChargingState().isCharging
    ensures !TimerState().isRunning
    ensures !NetSpeedState().isActive
    ensures NetSpeedState().downloadSpeed == "0 B/s" && NetSpeedState().uploadSpeed == "0 B/s"
    ensures !NavigationState().isActive
    ensures var ind := SystemIndicators();
      && !ind.cameraInUse && !ind.micInUse && !ind.isSilent && !ind.isDnd
      && !ind.isScreenRecording && !ind.bluetoothConnected && ind.bluetoothDevice == ""
  {
  }
}
