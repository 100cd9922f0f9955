/**
 * The macOS screen-time handler as an object: its classification table and
 * the four fields the sampling step updates in place, the sampling step
 * itself, and the query that samples once and then builds the report.
 */
module MacHandler {
  import opened Wrappers
  import opened Sums
  import opened Categories
  import opened Usage

  class MacScreenTimeHandler {
    const appCategories: Table
    var appUsage: map<string, Duration>
    var lastAppName: Option<string>
    var lastSwitchTime: int
    var categoryUsage: map<AppCategory, Duration>

    /** The handler's fields as a value. */
    ghost function State(): UsageState
      reads this
    {
      UsageState(appCategories, appUsage, lastAppName, lastSwitchTime, categoryUsage)
    }

    /** The handler's invariant: that of the state machine. */
    ghost predicate Valid()
      reads this
    {
      Inv(State())
    }

    /** A handler with the fixed table, created when the clock read `now`. */
    constructor (now: int)
      ensures Valid() && State() == Initial(AppCategories, now)
    {
      appCategories := AppCategories;
      appUsage := map[];
      lastAppName := None;
      lastSwitchTime := now;
      categoryUsage := map[];
      new;
      InitialInv(AppCategories, now);
    }

    /**
     * Adds `duration` to the entry of `currentAppId`, starting from 0 when
     * there is none, and to the bucket of its category: the inner update of
     * a sample, taken only once a first sample has been recorded.
     */
    method Attribute(currentAppId: string, duration: Duration)
      requires Valid() && lastAppName.Some?
      modifies this
      ensures Valid() && State() == Charge(old(State()), currentAppId, duration)
    {
      ghost var before := State();
      ChargeKeepsConsistent(before, currentAppId, duration);
      appUsage := appUsage[currentAppId := Get(appUsage, currentAppId) + duration];
      var lastCategory := GetAppCategory(appCategories, Some(currentAppId));
      categoryUsage := categoryUsage[lastCategory := Get(categoryUsage, lastCategory) + duration];
      assert State() == Charge(before, currentAppId, duration);
    }

    /**
     * One sample: `frontmost` is what the workspace reports as the frontmost
     * application and `now` the clock reading.
     */
    method UpdateAppUsage(frontmost: Option<RunningApp>, now: int)
      requires Valid() && CanSample(State(), frontmost, now)
      modifies this
      ensures Valid() && State() == Step(old(State()), frontmost, now)
    {
      StepPreservesInv(State(), frontmost, now);
      if frontmost.Some? {
        var currentAppId := AppKey(frontmost.value);
        if lastAppName.Some? {
          Attribute(currentAppId, now - lastSwitchTime);
        }
        lastAppName := Some(currentAppId);
        lastSwitchTime := now;
      }
    }

    /** The report's "apps" dictionary, one entry per recorded application. */
    method BuildAppData() returns (appData: map<string, AppEntry>)
      ensures appData == AppData(appCategories, appUsage)
    {
      appData := map[];
      var pending := appUsage.Keys;
      while pending != {}
        invariant pending <= appUsage.Keys
        invariant appData.Keys == appUsage.Keys - pending
        invariant forall b :: b in appData ==> appData[b] == EntryFor(appCategories, b, appUsage[b])
        decreases pending
      {
        var bundleId :| bundleId in pending;
        appData := appData[bundleId := EntryFor(appCategories, bundleId, appUsage[bundleId])];
        pending := pending - {bundleId};
      }
    }

    /** A query: one sample, then the report of everything recorded so far. */
    method HandleScreenTimeRequest(frontmost: Option<RunningApp>, now: int) returns (usageData: UsageData)
      requires Valid() && CanSample(State(), frontmost, now)
      modifies this
      ensures Valid() && State() == Step(old(State()), frontmost, now)
      ensures usageData == UsageData(AppData(appCategories, appUsage))
    {
      UpdateAppUsage(frontmost, now);
      var appData := BuildAppData();
      usageData := UsageData(appData);
    }
  }

  /**
   * A client: VSCode sampled when the handler starts and 125 seconds later,
   * then a query at the same moment, reports two minutes of a beneficial
   * development tool and nothing else.
   */
  method TwoMinutesOfDevelopment(t0: int) returns (usageData: UsageData)
    ensures usageData.apps == map["com.microsoft.VSCode" :=
              AppEntry("com.microsoft.VSCode", 2, "开发工具", true, "智慧的猫头鹰")]
  {
    var handler := new MacScreenTimeHandler(t0);
    var vscode := Some(RunningApp(Some("com.microsoft.VSCode")));
    handler.UpdateAppUsage(vscode, t0);
    handler.UpdateAppUsage(vscode, t0 + 125);
    usageData := handler.HandleScreenTimeRequest(vscode, t0 + 125);
    ScenarioTwoMinutesOfDevelopment(t0);
  }
}
