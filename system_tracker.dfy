/**
 * The system poller: a one-second net tick turns the byte counters into
 * per-second deltas and speed texts, a two-second indicator poll refreshes
 * the silent, do-not-disturb and Bluetooth flags, and a Bluetooth broadcast
 * refreshes the Bluetooth fields alone. Counters, the ringer mode, the
 * interruption filter, the SDK level and the device name are parameters.
 */
module SystemTracker {
  import opened KotlinLang
  import opened IslandModels

  /** Above this many bytes per second in either direction the network counts as active. */
  const ActiveThreshold: int := 10000

  /** `AudioManager.RINGER_MODE_SILENT`, `NotificationManager.INTERRUPTION_FILTER_ALL`, `VERSION_CODES.M`. */
  const RingerModeSilent: int := 0
  const InterruptionFilterAll: int := 1
  const SdkM: int := 23

  /**
   * `fmtSpd`: bytes per second below 1024 (negatives too) as "<b> B/s",
   * below 1 MiB as whole KiB "<b/1024> KB/s"; larger values take the
   * floating-point MB text, which `formatMb` stands for.
   */
  function FmtSpd(b: int, formatMb: int -> string): (r: string)
    ensures b >= 1024 * 1024 ==> r == formatMb(b)
  {
    if b < 1024 then IntToString(b) + " B/s"
    else if b < 1024 * 1024 then IntToString(b / 1024) + " KB/s"
    else formatMb(b)
  }

  /** Below 1024 the text is the exact byte count with the unit " B/s"; a negative count is its magnitude after a minus sign. */
  lemma FmtSpdBytes(b: int, formatMb: int -> string)
    requires b < 1024
    ensures var r := FmtSpd(b, formatMb);
      && |r| > 4 && r[|r| - 4..] == " B/s"
      && (b >= 0 ==> AllDigits(r[..|r| - 4]) && DecimalValue(r[..|r| - 4]) == b)
      && (b < 0 <==> r[0] == '-')
      && (b < 0 ==> |r| > 5 && AllDigits(r[1..|r| - 4]) && DecimalValue(r[1..|r| - 4]) == -b)
      && (b >= 0 ==> r == NatToString(b) + " B/s")
      && (b < 0 ==> r == "-" + NatToString(-b) + " B/s")
  {
    var r := FmtSpd(b, formatMb);
    var d := IntToString(b);
    assert r == d + " B/s";
    assert r[..|r| - 4] == d;
    assert r[|r| - 4..] == " B/s";
    if b < 0 {
      assert r[1..|r| - 4] == d[1..];
    }
  }

  /** From 1024 up to 1 MiB the text is a whole count of KiB between 1 and 1023, rounded down, with " KB/s". */
  lemma FmtSpdKilobytes(b: int, formatMb: int -> string)
    requires 1024 <= b < 1024 * 1024
    ensures var r := FmtSpd(b, formatMb);
      && |r| > 5 && r[|r| - 5..] == " KB/s" && AllDigits(r[..|r| - 5])
      && var k := DecimalValue(r[..|r| - 5]);
      && 1 <= k <= 1023 && k * 1024 <= b < k * 1024 + 1024
      && r == NatToString(k) + " KB/s"
  {
    var r := FmtSpd(b, formatMb);
    var d := NatToString(b / 1024);
    assert r == d + " KB/s";
    assert r[..|r| - 5] == d;
    assert r[|r| - 5..] == " KB/s";
    NatToStringRoundTrip(b / 1024);
  }

  /** What a net tick publishes for the two deltas. */
  function NetSnapshot(dl: int, ul: int, formatMb: int -> string): (n: NetSpeedState)
    ensures n.isActive <==> dl > ActiveThreshold || ul > ActiveThreshold
    ensures n.downloadSpeed == FmtSpd(dl, formatMb) && n.uploadSpeed == FmtSpd(ul, formatMb)
  {
    NetSpeedState(FmtSpd(dl, formatMb), FmtSpd(ul, formatMb), dl > ActiveThreshold || ul > ActiveThreshold)
  }

  /** A counter that went backwards gives a negative delta, which never counts as active. */
  lemma NegativeDeltasInactive(dl: int, ul: int, formatMb: int -> string)
    requires dl < 0 && ul < 0
    ensures !NetSnapshot(dl, ul, formatMb).isActive
  {
  }

  /**
   * `startInd`'s poll: only the silent, do-not-disturb and Bluetooth fields
   * are rewritten; camera, microphone and screen recording are copied.
   */
  function IndicatorPoll(cur: SystemIndicators, ringerMode: int, sdk: int, interruptionFilter: int, btDevice: string)
    : (r: SystemIndicators)
    ensures r.cameraInUse == cur.cameraInUse && r.micInUse == cur.micInUse
    ensures r.isScreenRecording == cur.isScreenRecording
    ensures r.isSilent <==> ringerMode == RingerModeSilent
    ensures r.isDnd <==> sdk >= SdkM && interruptionFilter != InterruptionFilterAll
    ensures BluetoothAgrees(r) && r.bluetoothDevice == btDevice
  {
    var silent := ringerMode == RingerModeSilent;
    var dnd := if sdk >= SdkM then interruptionFilter != InterruptionFilterAll else false;
    cur.(isSilent := silent, isDnd := dnd, bluetoothDevice := btDevice, bluetoothConnected := btDevice != "")
  }

  /** The Bluetooth broadcast: only the device name and the connected flag change. */
  function BluetoothChanged(cur: SystemIndicators, btDevice: string): (r: SystemIndicators)
    ensures BluetoothAgrees(r) && r.bluetoothDevice == btDevice
    ensures r.(bluetoothDevice := cur.bluetoothDevice, bluetoothConnected := cur.bluetoothConnected) == cur
  {
    cur.(bluetoothDevice := btDevice, bluetoothConnected := btDevice != "")
  }

  /** The connected flag says whether a device name is known. */
  predicate BluetoothAgrees(ind: SystemIndicators) {
    ind.bluetoothConnected <==> ind.bluetoothDevice != ""
  }

  /** Polling twice with the same readings is polling once, and a broadcast reporting the polled device changes nothing. */
  lemma PollIdempotent(cur: SystemIndicators, ringerMode: int, sdk: int, interruptionFilter: int, btDevice: string)
    ensures var p := IndicatorPoll(cur, ringerMode, sdk, interruptionFilter, btDevice);
      && IndicatorPoll(p, ringerMode, sdk, interruptionFilter, btDevice) == p
      && BluetoothChanged(p, btDevice) == p
  {
  }

  /** Before API level 23 do-not-disturb is never reported. */
  lemma NoDndBeforeM(cur: SystemIndicators, ringerMode: int, sdk: int, interruptionFilter: int, btDevice: string)
    requires sdk < SdkM
    ensures !IndicatorPoll(cur, ringerMode, sdk, interruptionFilter, btDevice).isDnd
  {
  }

  /**
   * The tracker's own state: the previous byte counters and the self-posting
   * runnables. `netRunners` / `indRunners` count the live net and indicator
   * runnables; `netCurrent` / `indCurrent` say whether the one the field
   * refers to is still live (`stop` removes only that one).
   */
  class Tracker {
    var prevRx: int
    var prevTx: int
    var netRunners: nat
    var netCurrent: bool
    var indRunners: nat
    var indCurrent: bool

    predicate Valid()
      reads this
    {
      (netCurrent ==> netRunners >= 1) && (indCurrent ==> indRunners >= 1)
    }

    constructor ()
      ensures prevRx == 0 && prevTx == 0
      ensures netRunners == 0 && !netCurrent && indRunners == 0 && !indCurrent
      ensures Valid()
    {
      prevRx, prevTx := 0, 0;
      netRunners, netCurrent := 0, false;
      indRunners, indCurrent := 0, false;
    }

    /** `start`: reads the counters and posts a new net runnable and a new indicator runnable. */
    method Start(rx: int, tx: int)
      requires Valid()
      modifies this
      ensures Valid()
      ensures prevRx == rx && prevTx == tx
      ensures netRunners == old(netRunners) + 1 && netCurrent
      ensures indRunners == old(indRunners) + 1 && indCurrent
    {
      prevRx := rx;
      prevTx := tx;
      netRunners, netCurrent := netRunners + 1, true;
      indRunners, indCurrent := indRunners + 1, true;
    }

    /** `stop`: removes the queued posts of the runnables the fields refer to. */
    method Stop()
      requires Valid()
      modifies this
      ensures Valid()
      ensures netRunners == (if old(netCurrent) then old(netRunners) - 1 else old(netRunners)) && !netCurrent
      ensures indRunners == (if old(indCurrent) then old(indRunners) - 1 else old(indRunners)) && !indCurrent
      ensures prevRx == old(prevRx) && prevTx == old(prevTx)
    {
      if netCurrent {
        netRunners := netRunners - 1;
      }
      if indCurrent {
        indRunners := indRunners - 1;
      }
      netCurrent, indCurrent := false, false;
    }

    /** One net tick with the counters `rx` and `tx`: publishes the speeds and remembers the counters. */
    method NetTick(rx: int, tx: int, formatMb: int -> string) returns (published: NetSpeedState)
      modifies this
      ensures published == NetSnapshot(rx - old(prevRx), tx - old(prevTx), formatMb)
      ensures prevRx == rx && prevTx == tx
      ensures netRunners == old(netRunners) && netCurrent == old(netCurrent)
      ensures indRunners == old(indRunners) && indCurrent == old(indCurrent)
    {
      var dl := rx - prevRx;
      var ul := tx - prevTx;
      prevRx := rx;
      prevTx := tx;
      published := NetSnapshot(dl, ul, formatMb);
    }
  }

  /**
   * `start` does not remove the runnables an earlier `start` posted, and
   * `stop` removes only the latest: starting a fresh tracker twice and then
   * stopping it leaves one net and one indicator runnable posting.
   */
  method StartTwiceThenStop() returns (netLeft: nat, indLeft: nat)
    ensures netLeft == 1 && indLeft == 1
  {
    var t := new Tracker();
    t.Start(0, 0);
    t.Start(0, 0);
    t.Stop();
    netLeft, indLeft := t.netRunners, t.indRunners;
  }
}
