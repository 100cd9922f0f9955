# macOS screen-time tracker, modelled in Dafny

This project models the usage tracker of the macOS screen-time handler in
`macos/MacScreenTimeHandler.swift`. The handler samples the frontmost
application once a second and on every query. It charges the seconds since
the last sample to an application and to that application's category, and
it answers a query with a report of whole minutes per application. Each
report entry also carries the category's label, whether the category counts
as beneficial, and the creature shown for it.

The model has four modules:

- `Categories` (`categories.dfy`) covers the classifier:
  - the closed `AppCategory` enumeration with its raw values, `IsBeneficial` and `CreatureType`;
  - the fixed bundle-identifier table `AppCategories`;
  - the total lookup `GetAppCategory` over it.

  The table is built from one set per group of the source's listing. Every identifier and its category are taken verbatim from the source.
- `Usage` (`usage.dfy`) covers the tracker on values:
  - its state `UsageState`, with the same five fields as the handler;
  - one sampling step `Step`;
  - runs of samples;
  - the report `AppData`.

  This is where the invariants and conservation laws are proved. Two sums are involved: the total over applications is the sum of the `appUsage` values, and the total over categories is the sum of the `categoryUsage` values. The main laws are:
  - each category's bucket equals the total of that category's applications;
  - the two totals stay equal;
  - a tracked run charges exactly the time the clock advanced.
- `MacHandler` (`handler.dfy`) is the handler itself. It is a class whose fields are updated in place by `UpdateAppUsage`, and `HandleScreenTimeRequest` builds the report with a loop. Each method is proved against the `Usage` functions.
- `Sums` (`sums.dfy`) and `Wrappers` (`wrappers.dfy`) are helpers: the sum of a map's values and an `Option` type.

Time is a whole number of seconds. A clock reading is an `int`, and a duration is a `nat`.

Four behaviours of the code are easy to misread; the model follows the code:

- **Who is charged.** A later sample charges the elapsed interval to the application that is frontmost *now* (lines 178 and 180), even though the local variable is named `lastCategory`. It does not charge the application recorded at the previous sample. `Usage.RetrospectiveStep` states the other rule only so that the two can be compared (`Usage.SwitchChargesNewApp`, `Usage.SwitchChargesOldAppRetrospectively`).
- **Clock going backwards.** Nothing guards the elapsed time against a clock that went backwards (line 177). The model therefore makes a forward clock a precondition (`Usage.CanSample`), needed only when a duration is actually computed. It is not modelled as a handled error.
- **No frontmost application.** The sample then changes nothing, not even `lastSwitchTime`. So the gap is charged to the next application that is found.
- **Report contents.** The report holds only the `"apps"` dictionary. It has no per-category summary.

## Model

| member | source | states |
|---|---|---|
| Categories.RawValue | macos/MacScreenTimeHandler.swift:14-23 | each category's raw value, verbatim; the label `其他` belongs to `Other` alone. Distinctness of all nine is `Categories.RawValueInjective` |
| Categories.CreatureType | macos/MacScreenTimeHandler.swift:38-59 | each category's creature label, verbatim; the chameleon belongs to `Other` alone. Distinctness of all nine is `Categories.CreatureTypeInjective` |
| Categories.GroupOf | macos/MacScreenTimeHandler.swift:63-123 | the category of the listing group that holds an identifier, stated for each of the eight groups (development, browser, productivity, social, game, entertainment, social media, education), which also makes the groups pairwise disjoint; it is `Other` exactly when no group holds it. With the per-group sets this builds the table `AppCategories`. It is specified further by `Categories.TableNeverSaysOther`, `Categories.DevelopmentEntries` and `Categories.NetflixEntry` |
| Categories.GetAppCategory | macos/MacScreenTimeHandler.swift:130-133 | the lookup under any table: `Other` for a missing identifier or one the table lacks, otherwise the table's entry. Over the fixed table, see `Categories.OtherExactlyWhenUnknown` |
| Categories.IsBeneficial | macos/MacScreenTimeHandler.swift:26-35 | a category is not beneficial exactly when it is entertainment, game or social media; browser, social and other count as beneficial |
| Categories.RawValueInjective | macos/MacScreenTimeHandler.swift:14-23 | distinct categories have distinct raw values, so a reported label identifies its category |
| Categories.CreatureTypeInjective | macos/MacScreenTimeHandler.swift:38-59 | distinct categories show distinct creatures |
| Categories.TableNeverSaysOther | macos/MacScreenTimeHandler.swift:63-123 | no table entry names `Other`; that category only arises as the lookup's default |
| Categories.DevelopmentEntries | macos/MacScreenTimeHandler.swift:65-66 | Visual Studio Code and Xcode are in the table as development tools |
| Categories.NetflixListed | macos/MacScreenTimeHandler.swift:105-108 | helper for `Categories.NetflixEntry`: Netflix is in the entertainment group and in no other group |
| Categories.NetflixEntry | macos/MacScreenTimeHandler.swift:108 | Netflix is in the table as entertainment |
| Categories.OtherExactlyWhenUnknown | macos/MacScreenTimeHandler.swift:130-133 | the lookup is total; it answers `Other` if and only if the identifier is missing or not in the table, and otherwise answers the table's entry |
| Categories.UnknownNotListed | macos/MacScreenTimeHandler.swift:63-123 | the placeholder `"Unknown"` is in none of the table's groups |
| Categories.UnknownAppIsOther | macos/MacScreenTimeHandler.swift:173 | the placeholder `"Unknown"` is not in the table, so it classifies as `Other` |
| Usage.AppKey | macos/MacScreenTimeHandler.swift:173 | the recorded key is the bundle identifier when there is one, and `"Unknown"` when there is none |
| Usage.Initial | macos/MacScreenTimeHandler.swift:125-128 | a fresh tracker has empty dictionaries, no last application, and the creation time as its last switch time |
| Usage.InitialInv | macos/MacScreenTimeHandler.swift:125-128 | a fresh tracker satisfies the invariant |
| Usage.Charge | macos/MacScreenTimeHandler.swift:177-181 | adds the duration to the application's entry, starting from 0, and to the bucket of its category; the table, last application and last switch time are unchanged. That nothing else changes is `Usage.ChargeFrame`, and its invariant is `Usage.ChargeKeepsConsistent` |
| Usage.Step | macos/MacScreenTimeHandler.swift:170-191 | one sample: with no frontmost application the state is unchanged; otherwise the application and `now` are recorded, and on the first sample nothing is charged. What a later sample charges is `Usage.SampleChargesFrontmost`, and its invariant is `Usage.StepPreservesInv` |
| Usage.ChargeFrame | macos/MacScreenTimeHandler.swift:178-181 | a charge adds exactly the application to the entry keys and its category to the bucket keys, and every other entry and bucket keeps its value |
| Usage.ChargeKeepsBucket | macos/MacScreenTimeHandler.swift:178-181 | after a charge, the charged category's bucket is again the total of its applications |
| Usage.ChargeKeepsBuckets | macos/MacScreenTimeHandler.swift:178-181 | after a charge, the buckets are exactly the categories of the recorded applications, each holding its applications' total |
| Usage.ChargeRaisesTotals | macos/MacScreenTimeHandler.swift:178-181 | a charge raises the total over applications and the total over categories by the same duration |
| Usage.ChargeKeepsConsistent | macos/MacScreenTimeHandler.swift:177-181 | a charge keeps the two dictionaries consistent |
| Usage.StepPreservesInv | macos/MacScreenTimeHandler.swift:170-191 | every sample keeps the invariant: each bucket is its applications' total, both totals are equal, and nothing is recorded before the first sample |
| Usage.FirstSampleChargesNothing | macos/MacScreenTimeHandler.swift:176-189 | the first sample leaves both dictionaries unchanged and only records the application and the time |
| Usage.NoFrontmostIsNoOp | macos/MacScreenTimeHandler.swift:172-190 | with no frontmost application a sample changes nothing, including the last switch time |
| Usage.SampleChargesFrontmost | macos/MacScreenTimeHandler.swift:176-189 | a later sample adds the elapsed time to the current application's entry (starting from 0) and to its category's bucket. Every other entry and bucket keeps its value, and the application and the time are recorded whether or not the application changed |
| Usage.NoBundleIdChargesOther | macos/MacScreenTimeHandler.swift:173-181 | under any table that does not list `"Unknown"`, as the fixed one does not, an application without a bundle identifier is charged under `"Unknown"` and in `Other` |
| Usage.StepKeepsBalance | macos/MacScreenTimeHandler.swift:176-189 | while tracking, each total minus the last switch time is unchanged by a sample |
| Usage.TrackedRunBalance | macos/MacScreenTimeHandler.swift:170-191 | once tracking, any run of samples keeps the invariant, and the amount charged equals how far the clock advanced |
| Usage.RunChargesElapsedTime | macos/MacScreenTimeHandler.swift:170-191 | from an empty tracker, a run that never finds an application changes nothing. Otherwise both totals equal the time from the first sample that found one to the last recorded sample |
| Usage.RunConservesTotals | macos/MacScreenTimeHandler.swift:170-191 | after any run from a fresh tracker, the total over applications and the total over categories are equal |
| Usage.RetrospectiveStep | macos/MacScreenTimeHandler.swift:176-189 | the contrast rule, which the code does NOT follow: a later sample charges the elapsed time to the application recorded at the previous sample; like `Step` it records the current application and `now` |
| Usage.RulesAgreeWhileAppUnchanged | macos/MacScreenTimeHandler.swift:176-189 | the code's rule and the retrospective rule agree on a sample that finds the same application as the last one |
| Usage.SwitchChargesNewAppUnder | macos/MacScreenTimeHandler.swift:176-181 | under any table that files Xcode as development and Netflix as entertainment, a switch from Xcode to Netflix after ten seconds charges the ten seconds to Netflix and entertainment |
| Usage.SwitchChargesNewApp | macos/MacScreenTimeHandler.swift:176-181 | the same switch under the fixed table charges Netflix and entertainment |
| Usage.SwitchChargesOldAppRetrospectivelyUnder | macos/MacScreenTimeHandler.swift:176-181 | under the retrospective rule, the same switch would charge Xcode and development |
| Usage.SwitchChargesOldAppRetrospectively | macos/MacScreenTimeHandler.swift:176-181 | the retrospective contrast under the fixed table |
| Usage.Minutes | macos/MacScreenTimeHandler.swift:148 | the reported minutes are the whole minutes of the duration: m·60 ≤ duration < m·60 + 60 |
| Usage.EntryFor | macos/MacScreenTimeHandler.swift:148-163 | one report entry: the bundle identifier, the whole minutes of its seconds, and the raw value, benefit and creature of the category the table gives it (`Other` when it has none) |
| Usage.AppData | macos/MacScreenTimeHandler.swift:147-164 | the report's applications: exactly the recorded ones, each with its `EntryFor` entry (see `Usage.AppDataEntries`) |
| Usage.TruncationBoundary | macos/MacScreenTimeHandler.swift:148 | 119 seconds report as one minute and 120 seconds as two |
| Usage.AppDataEntries | macos/MacScreenTimeHandler.swift:147-163 | the report has an entry exactly for each recorded application. The entry gives its bundle identifier, its truncated minutes, and the raw value, benefit and creature of its looked-up category |
| Usage.ReportUndercount | macos/MacScreenTimeHandler.swift:147-148 | the minutes in the report's entries, totalled, never over-report the recorded seconds and under-report them by at most 59 seconds per application |
| Usage.ScenarioTwoMinutesOfDevelopmentUnder | macos/MacScreenTimeHandler.swift:141-191 | under any table filing VSCode as development: sampling VSCode at t0 and t0+125 and then querying gives 125 seconds of development and one entry of two beneficial development minutes |
| Usage.ScenarioTwoMinutesOfDevelopment | macos/MacScreenTimeHandler.swift:141-191 | the same scenario under the fixed table |
| MacHandler.MacScreenTimeHandler.constructor | macos/MacScreenTimeHandler.swift:125-128 | a new handler has the fixed table and the initial state, and satisfies the invariant |
| MacHandler.MacScreenTimeHandler.Attribute | macos/MacScreenTimeHandler.swift:178-181 | the inner update of a sample, taken once a first sample is recorded: it updates the fields in place exactly as `Usage.Charge` does and keeps the invariant |
| MacHandler.MacScreenTimeHandler.UpdateAppUsage | macos/MacScreenTimeHandler.swift:170-191 | updates the fields in place, exactly as one sampling step does, and keeps the invariant |
| MacHandler.MacScreenTimeHandler.BuildAppData | macos/MacScreenTimeHandler.swift:145-164 | the loop builds exactly the report dictionary of the accumulated seconds |
| MacHandler.MacScreenTimeHandler.HandleScreenTimeRequest | macos/MacScreenTimeHandler.swift:141-168 | a query takes one sample, keeps the invariant, and returns the report of the state after that sample |
| MacHandler.TwoMinutesOfDevelopment | macos/MacScreenTimeHandler.swift:141-201 | a client of the class: two samples of VSCode 125 seconds apart and a query report exactly one entry of two beneficial development minutes |

## Left out

- Flutter plugin registration, method-channel dispatch and delivery of the result (lines 5-11, 135-139, 167) are glue to the user interface. `HandleScreenTimeRequest` returns the report instead.
- `NSWorkspace` calls that find the frontmost application (lines 171-172) are operating-system calls. They are replaced by the parameter `frontmost`, whose bundle identifier is an `Option`.
- `HandleScreenTimeRequest`: the report is keyed by bundle identifier, not by the localized application name (lines 152-157). The localized name is an operating-system lookup. As a result, two applications that share a localized name do not overwrite each other's entry in the model, as they would in the code.
- The clock (`Date()`, line 174) becomes the parameter `now`. Floating-point `TimeInterval` durations are modelled as whole seconds, and `Int(duration / 60)` as division of a natural number.
- The one-second `Timer` (lines 196-199) is left out because it is scheduling. A run of samples (`Usage.Run`) stands for its ticks, in order.
- The `print` logging (lines 183-185, 195-200) is output only.
- Concurrency is not modelled: a timer tick and a query cannot interleave within one sample.
- `UpdateAppUsage`: a clock going backwards is excluded by a precondition. The code would record a negative duration.
- The iOS handler and both application delegates are not part of this model. They are an authorization call with placeholder data, and start-up registration.
