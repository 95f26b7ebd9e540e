/**
 * The notification listener: routes each posted notification to navigation
 * handling, clock (timer / stopwatch / alarm) handling or the generic
 * notification path, drops the ones the island must not show, and computes the
 * snapshot it hands to the state manager (`Emit`).
 */
module IslandNotificationListener {
  import opened Wrappers
  import opened KotlinLang
  import opened IslandModels

  const Ignored: set<string> := {
    "com.dynamicisland", "android", "com.android.systemui",
    "com.android.server.telecom", "com.google.android.dialer", "com.samsung.android.incallui"}

  const NavPkgs: set<string> := {
    "com.google.android.apps.maps", "com.waze",
    "com.yandex.navi", "com.sygic.aura", "com.here.app.maps"}

  const TimerPkgs: set<string> := {
    "com.google.android.deskclock", "com.sec.android.app.clockpackage",
    "com.android.deskclock", "com.oneplus.deskclock",
    "com.huawei.deskclock", "com.oppo.alarmclock"}

  /** `Notification.FLAG_FOREGROUND_SERVICE` and `Notification.FLAG_GROUP_SUMMARY`. */
  const FlagForegroundService: bv32 := 0x40
  const FlagGroupSummary: bv32 := 0x200

  /** The title and text entries of `Notification.extras`, each possibly absent. */
  datatype Extras = Extras(title: Option<string>, text: Option<string>)

  /**
   * The parts of a `StatusBarNotification` the listener reads; `extras` is None
   * when the notification or its extras bundle is null.
   */
  datatype StatusBarNotification = StatusBarNotification(
    packageName: string, id: int, postTime: int,
    isOngoing: bool, flags: bv32, extras: Option<Extras>)

  /** What the listener hands to the state manager for one event. */
  datatype Emit =
    | Nothing
    | ShowNotification(info: NotificationInfo)
    | UpdateNavigation(nav: NavigationState)
    | UpdateTimer(timer: TimerState)

  /** The three package lists do not overlap, so each package has one route. */
  lemma PackageListsDisjoint()
    ensures NavPkgs !! TimerPkgs && NavPkgs !! Ignored && TimerPkgs !! Ignored
  {
  }

  // ---------------------------------------------------------------- appColor

  /** `appColor`: the brand colour of the first listed name the package contains. */
  function AppColor(pkg: string): (r: int)
    ensures r == Argb(0xFF5856D6) <==> forall k :: k in ColorKeywords() ==> !Contains(pkg, k)
  {
    if Contains(pkg, "whatsapp") then Argb(0xFF25D366)
    else if Contains(pkg, "instagram") then Argb(0xFFE1306C)
    else if Contains(pkg, "telegram") then Argb(0xFF0088CC)
    else if Contains(pkg, "twitter") || Contains(pkg, "x.android") then Argb(0xFF1DA1F2)
    else if Contains(pkg, "youtube") then Argb(0xFFFF0000)
    else if Contains(pkg, "spotify") then Argb(0xFF1DB954)
    else if Contains(pkg, "discord") then Argb(0xFF5865F2)
    else if Contains(pkg, "facebook") || Contains(pkg, "messenger") then Argb(0xFF1877F2)
    else Argb(0xFF5856D6)
  }

  /** The colour table as data: keywords of each rule, in order, with the rule's colour. */
  datatype ColorRule = ColorRule(keywords: seq<string>, color: int)

  const ColorTable: seq<ColorRule> := [
    ColorRule(["whatsapp"], Argb(0xFF25D366)),
    ColorRule(["instagram"], Argb(0xFFE1306C)),
    ColorRule(["telegram"], Argb(0xFF0088CC)),
    ColorRule(["twitter", "x.android"], Argb(0xFF1DA1F2)),
    ColorRule(["youtube"], Argb(0xFFFF0000)),
    ColorRule(["spotify"], Argb(0xFF1DB954)),
    ColorRule(["discord"], Argb(0xFF5865F2)),
    ColorRule(["facebook", "messenger"], Argb(0xFF1877F2))]

  function ColorKeywords(): set<string> {
    {"whatsapp", "instagram", "telegram", "twitter", "x.android",
     "youtube", "spotify", "discord", "facebook", "messenger"}
  }

  predicate RuleMatches(rule: ColorRule, pkg: string) {
    exists i :: 0 <= i < |rule.keywords| && Contains(pkg, rule.keywords[i])
  }

  /** Reference lookup: the colour of the first rule from index `i` on with a matching keyword, else the fallback. */
  function FirstRuleColor(rules: seq<ColorRule>, i: nat, pkg: string, fallback: int): (r: int)
    ensures r == fallback || exists j :: i <= j < |rules| && r == rules[j].color
    decreases |rules| - i
  {
    if i >= |rules| then fallback
    else if RuleMatches(rules[i], pkg) then rules[i].color
    else FirstRuleColor(rules, i + 1, pkg, fallback)
  }

  /** The `when` chain in `appColor` is the first-match lookup in the table. */
  lemma AppColorIsFirstMatch(pkg: string)
    ensures AppColor(pkg) == FirstRuleColor(ColorTable, 0, pkg, Argb(0xFF5856D6))
  {
    var t := ColorTable;
    var fb := Argb(0xFF5856D6);
    assert RuleMatches(t[0], pkg) <==> Contains(pkg, "whatsapp") by { assert t[0].keywords[0] == "whatsapp"; }
    assert RuleMatches(t[1], pkg) <==> Contains(pkg, "instagram") by { assert t[1].keywords[0] == "instagram"; }
    assert RuleMatches(t[2], pkg) <==> Contains(pkg, "telegram") by { assert t[2].keywords[0] == "telegram"; }
    assert RuleMatches(t[3], pkg) <==> Contains(pkg, "twitter") || Contains(pkg, "x.android") by {
      assert t[3].keywords[0] == "twitter" && t[3].keywords[1] == "x.android";
    }
    assert RuleMatches(t[4], pkg) <==> Contains(pkg, "youtube") by { assert t[4].keywords[0] == "youtube"; }
    assert RuleMatches(t[5], pkg) <==> Contains(pkg, "spotify") by { assert t[5].keywords[0] == "spotify"; }
    assert RuleMatches(t[6], pkg) <==> Contains(pkg, "discord") by { assert t[6].keywords[0] == "discord"; }
    assert RuleMatches(t[7], pkg) <==> Contains(pkg, "facebook") || Contains(pkg, "messenger") by {
      assert t[7].keywords[0] == "facebook" && t[7].keywords[1] == "messenger";
    }
    assert FirstRuleColor(t, 8, pkg, fb) == fb;
    assert FirstRuleColor(t, 7, pkg, fb) == if RuleMatches(t[7], pkg) then t[7].color else fb;
    assert FirstRuleColor(t, 6, pkg, fb) == if RuleMatches(t[6], pkg) then t[6].color else FirstRuleColor(t, 7, pkg, fb);
    assert FirstRuleColor(t, 5, pkg, fb) == if RuleMatches(t[5], pkg) then t[5].color else FirstRuleColor(t, 6, pkg, fb);
    assert FirstRuleColor(t, 4, pkg, fb) == if RuleMatches(t[4], pkg) then t[4].color else FirstRuleColor(t, 5, pkg, fb);
    assert FirstRuleColor(t, 3, pkg, fb) == if RuleMatches(t[3], pkg) then t[3].color else FirstRuleColor(t, 4, pkg, fb);
    assert FirstRuleColor(t, 2, pkg, fb) == if RuleMatches(t[2], pkg) then t[2].color else FirstRuleColor(t, 3, pkg, fb);
    assert FirstRuleColor(t, 1, pkg, fb) == if RuleMatches(t[1], pkg) then t[1].color else FirstRuleColor(t, 2, pkg, fb);
  }

  // ---------------------------------------------------------- generic route

  /** A notification the island drops: ignored package, ongoing, foreground-service or group-summary flag, or nothing to show. */
  predicate Dropped(sbn: StatusBarNotification, title: string, text: string) {
    || sbn.packageName in Ignored
    || sbn.isOngoing
    || sbn.flags & FlagForegroundService != 0
    || sbn.flags & FlagGroupSummary != 0
    || (IsBlank(title) && IsBlank(text))
  }

  /** The app name: the platform appLabel when the lookup succeeds, else the text after the last '.'. */
  function AppName(pkg: string, appLabel: Option<string>): (r: string)
    ensures appLabel.Some? ==> r == appLabel.value
    ensures appLabel.None? ==> |r| <= |pkg| && r == pkg[|pkg| - |r|..] && '.' !in r
    ensures appLabel.None? && |r| < |pkg| ==> pkg[|pkg| - |r| - 1] == '.'
  {
    match appLabel
    case Some(l) => l
    case None => SubstringAfterLast(pkg, '.')
  }

  function TitleOf(e: Extras): string { e.title.GetOr("") }
  function TextOf(e: Extras): string { e.text.GetOr("") }

  // ------------------------------------------------------------- navigation

  /**
   * The results of `Regex.find` on the title and text for the distance
   * (`\d+[.,]?\d*\s*km`, `\d+\s*m\b`) and time-to-go (`\d+\s*dk|\d+\s*min|\d+\s*sa`)
   * patterns; None where the pattern has no match.
   */
  datatype NavFinds = NavFinds(
    kmInTitle: Option<string>, mInTitle: Option<string>, etaInTitle: Option<string>,
    kmInText: Option<string>, etaInText: Option<string>)

  /** The first candidate that was found with a non-empty value, or "" when there is none. */
  function FirstNonEmpty(xs: seq<Option<string>>): (r: string)
    ensures r == "" <==> forall i :: 0 <= i < |xs| ==> xs[i].GetOr("") == ""
    ensures r != "" ==> exists i :: (0 <= i < |xs| && xs[i] == Some(r)
      && forall j :: 0 <= j < i ==> xs[j].GetOr("") == "")
  {
    if xs == [] then ""
    else if xs[0].GetOr("") != "" then xs[0].value
    else
      var r := FirstNonEmpty(xs[1..]);
      assert forall i :: 1 <= i < |xs| ==> xs[i] == xs[1..][i - 1];
      r
  }

  /**
   * The navigation snapshot for a navigation-app notification: always active;
   * the instruction is the text, or the title when the text is empty; the
   * distance is the first found of km-in-title, m-in-title, km-in-text; the
   * time to go is the first found of title, then text.
   */
  function NavigationFor(title: string, text: string, f: NavFinds): NavigationState {
    NavigationState(
      isActive := true,
      instruction := if text == "" then title else text,
      distance := FirstNonEmpty([f.kmInTitle, f.mInTitle, f.kmInText]),
      eta := FirstNonEmpty([f.etaInTitle, f.etaInText]))
  }

  /** `handleNavigation`: fills the distance and time to go step by step. */
  method HandleNavigation(title: string, text: string, f: NavFinds) returns (nav: NavigationState)
    ensures nav == NavigationFor(title, text, f)
  {
    var instruction := if text == "" then title else text;
    var distance := "";
    var eta := "";
    if f.kmInTitle.Some? { distance := f.kmInTitle.value; }
    if distance == "" && f.mInTitle.Some? { distance := f.mInTitle.value; }
    if f.etaInTitle.Some? { eta := f.etaInTitle.value; }
    if distance == "" && f.kmInText.Some? { distance := f.kmInText.value; }
    if eta == "" && f.etaInText.Some? { eta := f.etaInText.value; }
    nav := NavigationState(true, instruction, distance, eta);
    var d, t := [f.kmInTitle, f.mInTitle, f.kmInText], [f.etaInTitle, f.etaInText];
    assert d[1..] == [f.mInTitle, f.kmInText] && d[1..][1..] == [f.kmInText] && d[1..][1..][1..] == [];
    assert t[1..] == [f.etaInText] && t[1..][1..] == [];
    assert FirstNonEmpty(d[1..][1..]) == f.kmInText.GetOr("");
    assert FirstNonEmpty(d[1..]) == if f.mInTitle.GetOr("") != "" then f.mInTitle.value else f.kmInText.GetOr("");
    assert FirstNonEmpty(t[1..]) == f.etaInText.GetOr("");
  }

  /** A distance found in the title always wins over one found in the text. */
  lemma TitleDistanceFirst(title: string, text: string, f: NavFinds)
    requires f.kmInTitle.Some? && f.kmInTitle.value != ""
    ensures NavigationFor(title, text, f).distance == f.kmInTitle.value
  {
  }

  // ------------------------------------------------------------ clock apps

  /** `(\d{1,2}):(\d{2})` matches at `i` with two minute digits (the greedy alternative). */
  predicate TwoDigitClockAt(s: string, i: int) {
    0 <= i && i + 5 <= |s|
    && IsDigit(s[i]) && IsDigit(s[i + 1]) && s[i + 2] == ':' && IsDigit(s[i + 3]) && IsDigit(s[i + 4])
  }

  /** `(\d{1,2}):(\d{2})` matches at `i` with one minute digit. */
  predicate OneDigitClockAt(s: string, i: int) {
    0 <= i && i + 4 <= |s|
    && IsDigit(s[i]) && s[i + 1] == ':' && IsDigit(s[i + 2]) && IsDigit(s[i + 3])
  }

  /** The clock pattern (its optional `:ss` tail cannot make a match fail) matches at `i`. */
  predicate ClockAt(s: string, i: int) {
    TwoDigitClockAt(s, i) || OneDigitClockAt(s, i)
  }

  /** The leftmost index at or after `from` where the clock pattern matches. */
  function FindClock(s: string, from: nat): (r: Option<nat>)
    requires from <= |s|
    ensures r.None? ==> forall i :: from <= i ==> !ClockAt(s, i)
    ensures r.Some? ==> (from <= r.value && ClockAt(s, r.value)
      && forall i :: from <= i < r.value ==> !ClockAt(s, i))
    decreases |s| - from
  {
    if from == |s| then None
    else if ClockAt(s, from) then Some(from)
    else FindClock(s, from + 1)
  }

  /** Group 1 and group 2 of the match at `i`, as numbers: minutes and seconds. */
  function ClockGroups(s: string, i: nat): (ms: (nat, nat))
    requires ClockAt(s, i)
    ensures ms.0 < 100 && ms.1 < 100
    ensures TwoDigitClockAt(s, i) ==>
      && AllDigits(s[i..i + 2]) && AllDigits(s[i + 3..i + 5])
      && ms == (DecimalValue(s[i..i + 2]), DecimalValue(s[i + 3..i + 5]))
    ensures !TwoDigitClockAt(s, i) ==>
      && AllDigits(s[i..i + 1]) && AllDigits(s[i + 2..i + 4])
      && ms == (DecimalValue(s[i..i + 1]), DecimalValue(s[i + 2..i + 4]))
  {
    if TwoDigitClockAt(s, i) then
      TwoDigitsValue(s[i..i + 2]);
      TwoDigitsValue(s[i + 3..i + 5]);
      (DigitValue(s[i]) * 10 + DigitValue(s[i + 1]), DigitValue(s[i + 3]) * 10 + DigitValue(s[i + 4]))
    else
      OneDigitValue(s[i..i + 1]);
      TwoDigitsValue(s[i + 2..i + 4]);
      (DigitValue(s[i]), DigitValue(s[i + 2]) * 10 + DigitValue(s[i + 3]))
  }

  /** Two decimal digits denote ten times the first plus the second. */
  lemma TwoDigitsValue(d: string)
    requires |d| == 2 && IsDigit(d[0]) && IsDigit(d[1])
    ensures AllDigits(d) && DecimalValue(d) == DigitValue(d[0]) * 10 + DigitValue(d[1])
  {
    assert d[..1][..0] == [];
    assert DecimalValue(d[..1]) == DigitValue(d[0]);
  }

  lemma OneDigitValue(d: string)
    requires |d| == 1 && IsDigit(d[0])
    ensures AllDigits(d) && DecimalValue(d) == DigitValue(d[0])
  {
    assert d[..0] == [];
  }

  /** `elapsedMs`: `(mins * 60 + secs) * 1000` from the first clock match, or 0 without one. */
  function ClockMs(s: string): (ms: int)
    ensures 0 <= ms <= (99 * 60 + 99) * 1000 && ms % 1000 == 0
    ensures FindClock(s, 0).None? ==> ms == 0
    ensures FindClock(s, 0).Some? ==>
      var (mins, secs) := ClockGroups(s, FindClock(s, 0).value);
      ms == (mins * 60 + secs) * 1000
    ensures ms != 0 ==> exists i :: ClockAt(s, i)
    ensures (forall i :: !ClockAt(s, i)) ==> ms == 0
  {
    match FindClock(s, 0)
    case None => 0
    case Some(i) =>
      var (mins, secs) := ClockGroups(s, i);
      (mins * 60 + secs) * 1000
  }

  /** The clock pattern reads a time written at the very start of the text. */
  lemma ClockAtStart(s: string, mm: nat, ss: nat)
    requires 10 <= mm < 100 && 10 <= ss < 60
    requires |s| >= 5 && s[..5] == NatToString(mm) + ":" + NatToString(ss)
    ensures ClockMs(s) == (mm * 60 + ss) * 1000
  {
    NatToStringLength(mm);
    NatToStringLength(ss);
    NatToStringRoundTrip(mm);
    NatToStringRoundTrip(ss);
    var a := NatToString(mm);
    var b := NatToString(ss);
    assert |a| == 2 && |b| == 2;
    assert a[..1] == [a[0]];
    assert b[..1] == [b[0]];
    assert s[0] == a[0] && s[1] == a[1] && s[2] == ':' && s[3] == b[0] && s[4] == b[1];
    assert TwoDigitClockAt(s, 0);
  }

  /** The lowercased `"title text"` line the keywords and the clock are looked for in. */
  function Combined(title: string, text: string): string {
    Lowercase(title + " " + text)
  }

  predicate IsTimer(combined: string) {
    Contains(combined, "zamanlay") || Contains(combined, "timer")
    || Contains(combined, "geri say") || Contains(combined, "countdown")
  }

  predicate IsStopwatch(combined: string) {
    Contains(combined, "kronometre") || Contains(combined, "stopwatch")
  }

  /** Both keyword groups can be present in one notification. */
  lemma TimerAndStopwatchTogether()
    ensures IsTimer(Combined("Timer", "Stopwatch")) && IsStopwatch(Combined("Timer", "Stopwatch"))
  {
    var c := Combined("Timer", "Stopwatch");
    assert c == "timer stopwatch";
    assert OccursAt(c, "timer", 0);
    assert OccursAt(c, "stopwatch", 6);
  }

  /** `handleSystemTimer`: what a clock-app notification publishes (`now` is the wall clock). */
  function SystemTimer(title: string, text: string, ongoing: bool, now: int): (e: Emit)
    ensures var c := Combined(title, text);
      && ((IsTimer(c) || IsStopwatch(c)) && ongoing ==>
            e == UpdateTimer(TimerState(true, IsStopwatch(c), ClockMs(c),
                                        if IsTimer(c) then ClockMs(c) else 0)))
      && ((IsTimer(c) || IsStopwatch(c)) && !ongoing ==> e == UpdateTimer(TimerState(false)))
      && (!(IsTimer(c) || IsStopwatch(c)) && !ongoing ==>
            e == ShowNotification(NotificationInfo(0, "alarm", "Alarm", title, text, None,
                                                   Argb(0xFFFF9500), now)))
      && (!(IsTimer(c) || IsStopwatch(c)) && ongoing ==> e == Nothing)
  {
    var combined := Combined(title, text);
    var isTimer := IsTimer(combined);
    var isStopwatch := IsStopwatch(combined);
    if isTimer || isStopwatch then
      var elapsedMs := ClockMs(combined);
      if ongoing then UpdateTimer(TimerState(true, isStopwatch, elapsedMs, if isTimer then elapsedMs else 0))
      else UpdateTimer(TimerState(false))
    else if !ongoing then
      ShowNotification(NotificationInfo(0, "alarm", "Alarm", title, text, None, Argb(0xFFFF9500), now))
    else Nothing
  }

  /** A running timer published from a clock notification never has a negative time. */
  lemma SystemTimerNonNegative(title: string, text: string, ongoing: bool, now: int)
    ensures var e := SystemTimer(title, text, ongoing, now);
      e.UpdateTimer? ==> 0 <= e.timer.elapsedMs && 0 <= e.timer.targetMs
  {
  }

  // -------------------------------------------------------------- entry points

  /**
   * `onNotificationPosted`, as the chain of early returns the source has.
   * `appLabel` is the platform's application appLabel (None when the lookup throws),
   * `icon` the app icon, `finds` the navigation pattern matches, `now` the clock.
   */
  method OnNotificationPosted(sbn: StatusBarNotification, appLabel: Option<string>, icon: Option<Bitmap>,
                              finds: NavFinds, now: int) returns (e: Emit)
    ensures sbn.extras.None? ==> e == Nothing
    ensures sbn.extras.Some? ==>
      var title := TitleOf(sbn.extras.value);
      var text := TextOf(sbn.extras.value);
      var pkg := sbn.packageName;
      if pkg in NavPkgs && sbn.isOngoing then e == UpdateNavigation(NavigationFor(title, text, finds))
      else if pkg in TimerPkgs then e == SystemTimer(title, text, sbn.isOngoing, now)
      else if Dropped(sbn, title, text) then e == Nothing
      else e == ShowNotification(NotificationInfo(sbn.id, pkg, AppName(pkg, appLabel), title, text,
                                                  icon, AppColor(pkg), sbn.postTime))
  {
    if sbn.extras.None? {
      return Nothing;
    }
    var pkg := sbn.packageName;
    var title := TitleOf(sbn.extras.value);
    var text := TextOf(sbn.extras.value);

    if pkg in NavPkgs && sbn.isOngoing {
      var nav := HandleNavigation(title, text, finds);
      return UpdateNavigation(nav);
    }
    if pkg in TimerPkgs {
      return SystemTimer(title, text, sbn.isOngoing, now);
    }

    if pkg in Ignored || sbn.isOngoing { return Nothing; }
    if sbn.flags & FlagForegroundService != 0 { return Nothing; }
    if sbn.flags & FlagGroupSummary != 0 { return Nothing; }
    if IsBlank(title) && IsBlank(text) { return Nothing; }

    var appName := AppName(pkg, appLabel);
    var color := AppColor(pkg);
    e := ShowNotification(NotificationInfo(sbn.id, pkg, appName, title, text, icon, color, sbn.postTime));
  }

  /** `onNotificationRemoved`: the two independent checks, in order; `mode` is the manager's current mode. */
  function OnNotificationRemoved(sbn: StatusBarNotification, mode: IslandMode): (emits: seq<Emit>)
    ensures |emits| <= 1
    ensures |emits| == (if sbn.packageName in NavPkgs && sbn.isOngoing then 1 else 0)
                     + (if sbn.packageName in TimerPkgs && mode == Timer then 1 else 0)
    ensures UpdateNavigation(NavigationState(false)) in emits <==> sbn.packageName in NavPkgs && sbn.isOngoing
    ensures UpdateTimer(TimerState(false)) in emits <==> sbn.packageName in TimerPkgs && mode == Timer
  {
    PackageListsDisjoint();
    var nav := if sbn.packageName in NavPkgs && sbn.isOngoing then [UpdateNavigation(NavigationState(false))] else [];
    var timer := if sbn.packageName in TimerPkgs && mode == Timer then [UpdateTimer(TimerState(false))] else [];
    nav + timer
  }
}
