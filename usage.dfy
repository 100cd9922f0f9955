/**
 * The usage accumulator of the macOS screen-time handler, on values: the
 * tracker's state, one sampling step, runs of samples, and the usage report
 * built from the accumulated seconds.
 */
module Usage {
  import opened Wrappers
  import opened Sums
  import opened Categories

  /** Whole seconds of foreground time. */
  type Duration = nat

  /** What the workspace reports about the frontmost application. */
  datatype RunningApp = RunningApp(bundleIdentifier: Option<string>)

  /** The key under which a frontmost application's time is recorded. */
  function AppKey(app: RunningApp): (id: string)
    ensures app.bundleIdentifier.Some? ==> id == app.bundleIdentifier.value
    ensures app.bundleIdentifier.None? ==> id == UnknownApp
  {
    app.bundleIdentifier.GetOr(UnknownApp)
  }

  /**
   * The tracker's fields: its classification table, which never changes,
   * and the accumulated state. Timestamps are whole seconds on one clock.
   */
  datatype UsageState = UsageState(
    appCategories: Table,
    appUsage: map<string, Duration>,
    lastAppName: Option<string>,
    lastSwitchTime: int,
    categoryUsage: map<AppCategory, Duration>)

  /** The state of a freshly created tracker whose clock read `now`. */
  function Initial(table: Table, now: int): (s: UsageState)
    ensures s.appCategories == table
    ensures s.appUsage == map[] && s.categoryUsage == map[]
    ensures s.lastAppName.None? && s.lastSwitchTime == now
  {
    UsageState(table, map[], None, now, map[])
  }

  /** The category of a recorded key under the tracker's table. */
  function Classify(s: UsageState, id: string): AppCategory {
    GetAppCategory(s.appCategories, Some(id))
  }

  /**
   * A sample is only defined when the clock has not gone backwards: the
   * elapsed time is computed exactly when an application is frontmost and
   * an earlier one was recorded, and nothing guards it against being negative.
   */
  predicate CanSample(s: UsageState, frontmost: Option<RunningApp>, now: int) {
    frontmost.Some? && s.lastAppName.Some? ==> s.lastSwitchTime <= now
  }

  /**
   * Adds `duration` to the entry of `id`, starting from 0 when there is none,
   * and to the bucket of its category.
   */
  function Charge(s: UsageState, id: string, duration: Duration): (t: UsageState)
    ensures t.appCategories == s.appCategories
    ensures t.lastAppName == s.lastAppName && t.lastSwitchTime == s.lastSwitchTime
    ensures id in t.appUsage && t.appUsage[id] == Get(s.appUsage, id) + duration
    ensures Classify(s, id) in t.categoryUsage
    ensures t.categoryUsage[Classify(s, id)] == Get(s.categoryUsage, Classify(s, id)) + duration
  {
    var category := Classify(s, id);
    s.(appUsage := s.appUsage[id := Get(s.appUsage, id) + duration],
       categoryUsage := s.categoryUsage[category := Get(s.categoryUsage, category) + duration])
  }

  /**
   * A charge touches nothing else: the key sets grow by exactly the charged
   * application and its category, and every other entry and bucket keeps
   * its value.
   */
  lemma ChargeFrame(s: UsageState, id: string, duration: Duration)
    ensures var t := Charge(s, id, duration);
      && t.appUsage.Keys == s.appUsage.Keys + {id}
      && t.categoryUsage.Keys == s.categoryUsage.Keys + {Classify(s, id)}
      && (forall a :: a in s.appUsage && a != id ==> t.appUsage[a] == s.appUsage[a])
      && (forall c :: c in s.categoryUsage && c != Classify(s, id) ==> t.categoryUsage[c] == s.categoryUsage[c])
  {
  }

  /**
   * One sampling step. With no frontmost application nothing happens. The
   * first sample only records the application and the time. Every later one
   * charges the time since the last sample to the application that is
   * frontmost NOW, and to its category, and then records it and the time.
   */
  function Step(s: UsageState, frontmost: Option<RunningApp>, now: int): (t: UsageState)
    requires CanSample(s, frontmost, now)
    ensures t.appCategories == s.appCategories
    ensures frontmost.None? ==> t == s
    ensures frontmost.Some? ==> t.lastAppName == Some(AppKey(frontmost.value)) && t.lastSwitchTime == now
    ensures frontmost.Some? && s.lastAppName.None? ==>
              t.appUsage == s.appUsage && t.categoryUsage == s.categoryUsage
  {
    match frontmost
    case None => s
    case Some(app) =>
      var id := AppKey(app);
      var charged := if s.lastAppName.Some? then Charge(s, id, now - s.lastSwitchTime) else s;
      charged.(lastAppName := Some(id), lastSwitchTime := now)
  }

  // ---------------------------------------------------------------------
  // The invariant: each category's bucket is the total of its applications

  /** The part of `usage` that belongs to applications of category `c` under `table`. */
  ghost function AppsIn(table: Table, usage: map<string, Duration>, c: AppCategory): map<string, Duration> {
    map a | a in usage && GetAppCategory(table, Some(a)) == c :: usage[a]
  }

  /** The categories of the recorded applications under `table`. */
  ghost function CategoriesOf(table: Table, usage: map<string, Duration>): set<AppCategory> {
    set a | a in usage :: GetAppCategory(table, Some(a))
  }

  /**
   * The category buckets are exactly the categories of the recorded
   * applications, each holding the total of its applications, and the two
   * dictionaries hold the same total.
   */
  ghost predicate Consistent(s: UsageState) {
    && s.categoryUsage.Keys == CategoriesOf(s.appCategories, s.appUsage)
    && (forall c {:trigger Sum(AppsIn(s.appCategories, s.appUsage, c))} ::
          c in s.categoryUsage ==> s.categoryUsage[c] == Sum(AppsIn(s.appCategories, s.appUsage, c)))
    && Sum(s.appUsage) == Sum(s.categoryUsage)
  }

  /** What every reachable state satisfies: nothing is recorded before the first sample, and the dictionaries are consistent. */
  ghost predicate Inv(s: UsageState) {
    && (s.lastAppName.None? ==> s.appUsage == map[] && s.categoryUsage == map[])
    && Consistent(s)
  }

  lemma InitialInv(table: Table, now: int)
    ensures Inv(Initial(table, now))
  {
  }

  /** Raising one application's entry changes only its category's part. */
  lemma AppsInUpdate(table: Table, usage: map<string, Duration>, id: string, v: Duration, c: AppCategory)
    ensures AppsIn(table, usage[id := v], c) ==
            if GetAppCategory(table, Some(id)) == c then AppsIn(table, usage, c)[id := v]
            else AppsIn(table, usage, c)
  {
  }

  /** A category with no bucket has no recorded application. */
  lemma NoBucketNoApps(s: UsageState, c: AppCategory)
    requires Consistent(s) && c !in s.categoryUsage
    ensures AppsIn(s.appCategories, s.appUsage, c) == map[]
  {
    forall a | a in s.appUsage ensures Classify(s, a) != c {
      assert Classify(s, a) in CategoriesOf(s.appCategories, s.appUsage);
    }
  }

  /** The charged category's bucket is again the total of its applications. */
  lemma ChargeKeepsBucket(s: UsageState, id: string, d: Duration)
    requires Consistent(s)
    ensures var t := Charge(s, id, d);
      var cat := Classify(s, id);
      t.categoryUsage[cat] == Sum(AppsIn(s.appCategories, t.appUsage, cat))
  {
    var cat := Classify(s, id);
    var parts := AppsIn(s.appCategories, s.appUsage, cat);
    AppsInUpdate(s.appCategories, s.appUsage, id, Get(s.appUsage, id) + d, cat);
    if cat !in s.categoryUsage {
      NoBucketNoApps(s, cat);
    }
    assert Get(parts, id) == Get(s.appUsage, id);
    SumAdd(parts, id, d);
  }

  /** Charging an application gives its category a bucket and keeps the other buckets' totals. */
  lemma ChargeKeepsBuckets(s: UsageState, id: string, d: Duration)
    requires Consistent(s)
    ensures var t := Charge(s, id, d);
      && t.categoryUsage.Keys == CategoriesOf(t.appCategories, t.appUsage)
      && forall c :: c in t.categoryUsage ==> t.categoryUsage[c] == Sum(AppsIn(t.appCategories, t.appUsage, c))
  {
    var t := Charge(s, id, d);
    var cat := Classify(s, id);
    assert CategoriesOf(s.appCategories, t.appUsage) == CategoriesOf(s.appCategories, s.appUsage) + {cat};
    forall c | c in t.categoryUsage
      ensures t.categoryUsage[c] == Sum(AppsIn(s.appCategories, t.appUsage, c))
    {
      if c == cat {
        ChargeKeepsBucket(s, id, d);
      } else {
        AppsInUpdate(s.appCategories, s.appUsage, id, Get(s.appUsage, id) + d, c);
      }
    }
  }

  /** Charging an application raises both totals by the charged duration. */
  lemma ChargeRaisesTotals(s: UsageState, id: string, d: Duration)
    ensures var t := Charge(s, id, d);
      && Sum(t.appUsage) == Sum(s.appUsage) + d
      && Sum(t.categoryUsage) == Sum(s.categoryUsage) + d
  {
    SumAdd(s.appUsage, id, d);
    SumAdd(s.categoryUsage, Classify(s, id), d);
  }

  /** Charging an application keeps the dictionaries consistent. */
  lemma ChargeKeepsConsistent(s: UsageState, id: string, d: Duration)
    requires Consistent(s)
    ensures Consistent(Charge(s, id, d))
  {
    ChargeKeepsBuckets(s, id, d);
    ChargeRaisesTotals(s, id, d);
  }

  /** Every sampling step keeps the invariant, so in particular keeps both totals equal. */
  lemma StepPreservesInv(s: UsageState, frontmost: Option<RunningApp>, now: int)
    requires Inv(s) && CanSample(s, frontmost, now)
    ensures Inv(Step(s, frontmost, now))
  {
    if frontmost.Some? && s.lastAppName.Some? {
      ChargeKeepsConsistent(s, AppKey(frontmost.value), now - s.lastSwitchTime);
    }
  }

  // ---------------------------------------------------------------------
  // What a single step does

  /** The first sample records the application and the time and charges nothing. */
  lemma FirstSampleChargesNothing(s: UsageState, app: RunningApp, now: int)
    requires s.lastAppName.None?
    ensures var t := Step(s, Some(app), now);
      && t.appUsage == s.appUsage && t.categoryUsage == s.categoryUsage
      && t.lastAppName == Some(AppKey(app)) && t.lastSwitchTime == now
  {
  }

  /** Without a frontmost application a sample changes nothing, not even the time. */
  lemma NoFrontmostIsNoOp(s: UsageState, now: int)
    ensures Step(s, None, now) == s
  {
  }

  /**
   * A later sample adds the elapsed time to the frontmost application's
   * entry and to its category's bucket, leaves every other entry and bucket
   * as it was, and records the application and the time, whether or not the
   * application changed.
   */
  lemma SampleChargesFrontmost(s: UsageState, app: RunningApp, now: int)
    requires s.lastAppName.Some? && s.lastSwitchTime <= now
    ensures var t := Step(s, Some(app), now);
      var id := AppKey(app);
      var d := now - s.lastSwitchTime;
      && id in t.appUsage && t.appUsage[id] == Get(s.appUsage, id) + d
      && Classify(s, id) in t.categoryUsage
      && t.categoryUsage[Classify(s, id)] == Get(s.categoryUsage, Classify(s, id)) + d
      && t.appUsage.Keys == s.appUsage.Keys + {id}
      && t.categoryUsage.Keys == s.categoryUsage.Keys + {Classify(s, id)}
      && (forall a :: a in s.appUsage && a != id ==> t.appUsage[a] == s.appUsage[a])
      && (forall c :: c in s.categoryUsage && c != Classify(s, id) ==> t.categoryUsage[c] == s.categoryUsage[c])
      && t.lastAppName == Some(id) && t.lastSwitchTime == now
  {
  }

  /**
   * An application without a bundle identifier is recorded as the
   * placeholder, in `Other`, under any table that does not list the
   * placeholder (the fixed one does not: `UnknownAppIsOther`).
   */
  lemma NoBundleIdChargesOther(s: UsageState, now: int)
    requires UnknownApp !in s.appCategories
    requires s.lastAppName.Some? && s.lastSwitchTime <= now
    ensures var t := Step(s, Some(RunningApp(None)), now);
      && UnknownApp in t.appUsage && Other in t.categoryUsage
      && t.appUsage[UnknownApp] == Get(s.appUsage, UnknownApp) + (now - s.lastSwitchTime)
      && t.categoryUsage[Other] == Get(s.categoryUsage, Other) + (now - s.lastSwitchTime)
  {
  }

  /**
   * While tracking, the recorded total and the clock advance together: the
   * total minus the time of the last sample stays fixed, in both dictionaries.
   */
  lemma StepKeepsBalance(s: UsageState, frontmost: Option<RunningApp>, now: int)
    requires CanSample(s, frontmost, now) && s.lastAppName.Some?
    ensures var t := Step(s, frontmost, now);
      && Sum(t.appUsage) - t.lastSwitchTime == Sum(s.appUsage) - s.lastSwitchTime
      && Sum(t.categoryUsage) - t.lastSwitchTime == Sum(s.categoryUsage) - s.lastSwitchTime
  {
    if frontmost.Some? {
      ChargeRaisesTotals(s, AppKey(frontmost.value), now - s.lastSwitchTime);
    }
  }

  // ---------------------------------------------------------------------
  // Runs of samples

  /** One timer tick or query: the frontmost application then, and the clock. */
  datatype Tick = Tick(frontmost: Option<RunningApp>, now: int)

  /** Every tick of the run finds the clock where its sample is defined. */
  predicate Admissible(s: UsageState, ticks: seq<Tick>)
    decreases |ticks|
  {
    ticks == [] ||
    (CanSample(s, ticks[0].frontmost, ticks[0].now) &&
     Admissible(Step(s, ticks[0].frontmost, ticks[0].now), ticks[1..]))
  }

  /** The state after sampling at every tick in order. */
  function Run(s: UsageState, ticks: seq<Tick>): UsageState
    requires Admissible(s, ticks)
    decreases |ticks|
  {
    if ticks == [] then s
    else Run(Step(s, ticks[0].frontmost, ticks[0].now), ticks[1..])
  }

  /** The time of the first tick that found a frontmost application, if any. */
  function TrackingStart(ticks: seq<Tick>): Option<int>
    decreases |ticks|
  {
    if ticks == [] then None
    else if ticks[0].frontmost.Some? then Some(ticks[0].now)
    else TrackingStart(ticks[1..])
  }

  /** Once tracking, a run keeps the invariant and charges exactly the time the clock advanced. */
  lemma {:induction false} TrackedRunBalance(s: UsageState, ticks: seq<Tick>)
    requires Inv(s) && s.lastAppName.Some? && Admissible(s, ticks)
    ensures var t := Run(s, ticks);
      && Inv(t) && t.lastAppName.Some?
      && Sum(t.appUsage) - t.lastSwitchTime == Sum(s.appUsage) - s.lastSwitchTime
    decreases |ticks|
  {
    if ticks != [] {
      var s' := Step(s, ticks[0].frontmost, ticks[0].now);
      StepPreservesInv(s, ticks[0].frontmost, ticks[0].now);
      StepKeepsBalance(s, ticks[0].frontmost, ticks[0].now);
      TrackedRunBalance(s', ticks[1..]);
    }
  }

  /**
   * Time is attributed exactly once: from a state with nothing recorded, a
   * run either never finds a frontmost application and changes nothing, or
   * has charged, in total and in both dictionaries alike, exactly the time
   * from the first tick that found one to the last recorded sample.
   */
  lemma {:induction false} RunChargesElapsedTime(s: UsageState, ticks: seq<Tick>)
    requires Inv(s) && s.lastAppName.None? && Admissible(s, ticks)
    ensures var t := Run(s, ticks);
      && Inv(t)
      && (TrackingStart(ticks).None? ==> t == s)
      && (TrackingStart(ticks).Some? ==>
            && t.lastAppName.Some?
            && Sum(t.appUsage) == Sum(t.categoryUsage) == t.lastSwitchTime - TrackingStart(ticks).value)
    decreases |ticks|
  {
    if ticks != [] {
      var s' := Step(s, ticks[0].frontmost, ticks[0].now);
      StepPreservesInv(s, ticks[0].frontmost, ticks[0].now);
      if ticks[0].frontmost.Some? {
        assert Sum(s'.appUsage) == 0;
        TrackedRunBalance(s', ticks[1..]);
      } else {
        RunChargesElapsedTime(s', ticks[1..]);
      }
    }
  }

  /**
   * After any run of samples from a freshly created tracker, the
   * per-application and per-category dictionaries hold the same total.
   */
  lemma RunConservesTotals(table: Table, start: int, ticks: seq<Tick>)
    requires Admissible(Initial(table, start), ticks)
    ensures var t := Run(Initial(table, start), ticks);
      Sum(t.appUsage) == Sum(t.categoryUsage)
  {
    InitialInv(table, start);
    RunChargesElapsedTime(Initial(table, start), ticks);
  }

  // ---------------------------------------------------------------------
  // The retrospective rule, which the code does not follow

  /**
   * The rule under which the interval just ended would be charged to the
   * application recorded at its start: a deliberately different operation,
   * stated only to be compared with `Step`.
   */
  function RetrospectiveStep(s: UsageState, frontmost: Option<RunningApp>, now: int): (t: UsageState)
    requires CanSample(s, frontmost, now)
    ensures frontmost.None? ==> t == s
    ensures frontmost.Some? && s.lastAppName.Some? ==>
              var previous := s.lastAppName.value;
              previous in t.appUsage && t.appUsage[previous] == Get(s.appUsage, previous) + (now - s.lastSwitchTime)
    ensures frontmost.Some? ==> t.lastAppName == Some(AppKey(frontmost.value)) && t.lastSwitchTime == now
  {
    match frontmost
    case None => s
    case Some(app) =>
      var charged := match s.lastAppName
        case Some(previous) => Charge(s, previous, now - s.lastSwitchTime)
        case None => s;
      charged.(lastAppName := Some(AppKey(app)), lastSwitchTime := now)
  }

  /** The two rules agree on every sample that finds the same application as the last one. */
  lemma RulesAgreeWhileAppUnchanged(s: UsageState, app: RunningApp, now: int)
    requires CanSample(s, Some(app), now) && s.lastAppName == Some(AppKey(app))
    ensures Step(s, Some(app), now) == RetrospectiveStep(s, Some(app), now)
  {
  }

  /**
   * Sampling Xcode at 0 and Netflix at 10, under any table that files the
   * two as development and entertainment: the code charges the ten seconds
   * to Netflix and to entertainment.
   */
  lemma SwitchChargesNewAppUnder(table: Table)
    requires "com.apple.dt.Xcode" in table && table["com.apple.dt.Xcode"] == Development
    requires "com.netflix.Netflix" in table && table["com.netflix.Netflix"] == Entertainment
    ensures var s := Step(Initial(table, 0), Some(RunningApp(Some("com.apple.dt.Xcode"))), 0);
      var t := Step(s, Some(RunningApp(Some("com.netflix.Netflix"))), 10);
      t.appUsage == map["com.netflix.Netflix" := 10] && t.categoryUsage == map[Entertainment := 10]
  {
  }

  /** The same switch under the fixed table. */
  lemma SwitchChargesNewApp()
    ensures var s := Step(Initial(AppCategories, 0), Some(RunningApp(Some("com.apple.dt.Xcode"))), 0);
      var t := Step(s, Some(RunningApp(Some("com.netflix.Netflix"))), 10);
      t.appUsage == map["com.netflix.Netflix" := 10] && t.categoryUsage == map[Entertainment := 10]
  {
    DevelopmentEntries();
    NetflixEntry();
    SwitchChargesNewAppUnder(AppCategories);
  }

  /** Under the retrospective rule the same ten seconds would go to Xcode and to development. */
  lemma SwitchChargesOldAppRetrospectivelyUnder(table: Table)
    requires "com.apple.dt.Xcode" in table && table["com.apple.dt.Xcode"] == Development
    ensures var s := Step(Initial(table, 0), Some(RunningApp(Some("com.apple.dt.Xcode"))), 0);
      var t := RetrospectiveStep(s, Some(RunningApp(Some("com.netflix.Netflix"))), 10);
      t.appUsage == map["com.apple.dt.Xcode" := 10] && t.categoryUsage == map[Development := 10]
  {
  }

  /** The retrospective switch under the fixed table. */
  lemma SwitchChargesOldAppRetrospectively()
    ensures var s := Step(Initial(AppCategories, 0), Some(RunningApp(Some("com.apple.dt.Xcode"))), 0);
      var t := RetrospectiveStep(s, Some(RunningApp(Some("com.netflix.Netflix"))), 10);
      t.appUsage == map["com.apple.dt.Xcode" := 10] && t.categoryUsage == map[Development := 10]
  {
    DevelopmentEntries();
    SwitchChargesOldAppRetrospectivelyUnder(AppCategories);
  }

  // ---------------------------------------------------------------------
  // The usage report

  /** One application's entry in the report. */
  datatype AppEntry = AppEntry(
    bundleId: string,
    minutes: nat,
    category: string,
    isBeneficial: bool,
    creatureType: string)

  /** The report: its "apps" dictionary. */
  datatype UsageData = UsageData(apps: map<string, AppEntry>)

  /** Whole minutes in a duration, the seconds below a full minute dropped. */
  function Minutes(duration: Duration): (m: nat)
    ensures m * 60 <= duration < m * 60 + 60
  {
    duration / 60
  }

  /** 119 seconds report as one minute and 120 seconds as two. */
  lemma TruncationBoundary()
    ensures Minutes(119) == 1 && Minutes(120) == 2
  {
  }

  /** The report entry for an application with its accumulated seconds. */
  function EntryFor(table: Table, bundleId: string, duration: Duration): (e: AppEntry)
    ensures e.bundleId == bundleId
    ensures e.minutes * 60 <= duration < e.minutes * 60 + 60
    ensures var c := GetAppCategory(table, Some(bundleId));
      e.category == RawValue(c) && e.isBeneficial == IsBeneficial(c) && e.creatureType == CreatureType(c)
  {
    var category := if bundleId in table then table[bundleId] else Other;
    AppEntry(bundleId, Minutes(duration), RawValue(category), IsBeneficial(category), CreatureType(category))
  }

  /** The report's "apps" dictionary for the accumulated seconds. */
  function AppData(table: Table, usage: map<string, Duration>): (apps: map<string, AppEntry>)
    ensures apps.Keys == usage.Keys
  {
    map b | b in usage :: EntryFor(table, b, usage[b])
  }

  /**
   * The report has one entry per recorded application, giving its whole
   * minutes and the raw value, benefit and creature of its category.
   */
  lemma AppDataEntries(table: Table, usage: map<string, Duration>, b: string)
    ensures b in AppData(table, usage) <==> b in usage
    ensures b in usage ==>
      var e := AppData(table, usage)[b];
      var c := GetAppCategory(table, Some(b));
      && e.bundleId == b
      && e.minutes * 60 <= usage[b] < e.minutes * 60 + 60
      && e.category == RawValue(c)
      && e.isBeneficial == IsBeneficial(c)
      && e.creatureType == CreatureType(c)
  {
  }

  /** The minutes the report gives each application. */
  ghost function ReportedMinutes(apps: map<string, AppEntry>): map<string, nat> {
    map b | b in apps :: apps[b].minutes
  }

  /** Reporting the rest of the applications leaves out exactly one entry's minutes. */
  lemma ReportedMinutesRemove(table: Table, usage: map<string, Duration>, b: string)
    ensures ReportedMinutes(AppData(table, usage - {b})) == ReportedMinutes(AppData(table, usage)) - {b}
  {
  }

  /**
   * Truncation only ever under-reports, by less than a minute per
   * application: the minutes in the report account for all but at most 59
   * seconds of each application's time.
   */
  lemma {:induction false} ReportUndercount(table: Table, usage: map<string, Duration>)
    ensures var minutes := Sum(ReportedMinutes(AppData(table, usage)));
      60 * minutes <= Sum(usage) <= 60 * minutes + 59 * |usage|
    decreases |usage|
  {
    if usage != map[] {
      var b := Pick(usage);
      var rest := usage - {b};
      assert |rest.Keys| == |usage.Keys| - 1 by {
        assert rest.Keys == usage.Keys - {b};
      }
      var reported := ReportedMinutes(AppData(table, usage));
      assert b in reported && reported[b] == Minutes(usage[b]);
      ReportedMinutesRemove(table, usage, b);
      SumRemove(usage, b);
      SumRemove(reported, b);
      ReportUndercount(table, rest);
    }
  }

  /**
   * Sampling VSCode at t0 and at t0 + 125 and then querying at t0 + 125,
   * under any table that files VSCode as a development tool, reports two
   * minutes of a beneficial development tool.
   */
  lemma ScenarioTwoMinutesOfDevelopmentUnder(table: Table, t0: int)
    requires "com.microsoft.VSCode" in table && table["com.microsoft.VSCode"] == Development
    ensures var vscode := Some(RunningApp(Some("com.microsoft.VSCode")));
      var s := Step(Step(Initial(table, t0), vscode, t0), vscode, t0 + 125);
      var t := Step(s, vscode, t0 + 125);
      && t.categoryUsage == map[Development := 125]
      && AppData(table, t.appUsage) == map["com.microsoft.VSCode" :=
           AppEntry("com.microsoft.VSCode", 2, "开发工具", true, "智慧的猫头鹰")]
  {
  }

  /** The same scenario under the fixed table. */
  lemma ScenarioTwoMinutesOfDevelopment(t0: int)
    ensures var vscode := Some(RunningApp(Some("com.microsoft.VSCode")));
      var s := Step(Step(Initial(AppCategories, t0), vscode, t0), vscode, t0 + 125);
      var t := Step(s, vscode, t0 + 125);
      && t.categoryUsage == map[Development := 125]
      && AppData(AppCategories, t.appUsage) == map["com.microsoft.VSCode" :=
           AppEntry("com.microsoft.VSCode", 2, "开发工具", true, "智慧的猫头鹰")]
  {
    DevelopmentEntries();
    ScenarioTwoMinutesOfDevelopmentUnder(AppCategories, t0);
  }
}
