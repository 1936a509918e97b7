# GreenGrid dashboard core in Dafny

This project models the computational core of the GreenGrid AI dashboard, a
TypeScript/React application that monitors society transformers. The modelled
parts are:

- the mock telemetry generator and risk classifier (`src/lib/mock-data.ts`);
- the administrator's anomaly log and risk cards (`src/pages/AdminDashboard.tsx`);
- the grid owner's network-wide status record, counts and cards (`src/pages/OwnerDashboard.tsx`);
- the live chart's 21-point seed and its 30-point sliding window (`src/components/dashboard/LiveChart.tsx`);
- the zone and city roll-up of statuses (`src/components/dashboard/CityHeatmap.tsx`);
- the resident's daily usage summary (`src/pages/ResidentDashboard.tsx`);
- the sign-in state (`src/contexts/AuthContext.tsx`).

Every `Math.random()` the code calls becomes an explicit `real` draw. The draws
are bundled per call site: `ReadingDraws` holds load, temperature and EV
draws; `RiskDraws` holds the anomaly coin and two score draws. A draw "in
range" means one in [0, 1). `Date.now()` and `new Date().getHours()` become
the parameters `now` (milliseconds) and `hour`. Risk reasons are tags
(`AtCapacity(percent)`, `ApproachingThreshold(percent)`,
`IsolationForest`, `WithinNormal`, `ManualSimulation`), not formatted strings.
A JavaScript `Record<string, TransformerStatus[]>` is a list of entries in
insertion order (module `StatusRecord`). JavaScript keeps that order only for
keys that are not integer-like. The society ids "s1".."s5" are not
integer-like, so the order holds for every record the dashboards build.

Where React state changes, the model is a class:

- `AdminState` with `Tick` and `Inject`;
- `OwnerState` with `Update` and `Select`;
- `ChartState` with `Reset` and `Tick`;
- `AuthProvider` with `Login` and `Logout`.

Each timer tick or button press is one method call. Expressions over lists are
functions, and the loops of the source are methods with loop invariants.

The classifier is the `detectRisk` of `src/lib/mock-data.ts:47-76`. It sets
the level from utilization and an anomaly coin:

- above 0.9 utilization the level is CRITICAL;
- otherwise a coin showing an anomaly, or utilization above 0.75, gives HIGH;
- otherwise the level is NORMAL.

The overload probability gets a +15 bonus when the coin shows an anomaly. The
code divides by the capacity without checking it, so the model requires
`capacity > 0`. Every society in the table satisfies this.

## Model

| member | source | states |
|---|---|---|
| MockData.RawDataFacts | src/lib/mock-data.ts:4-13 | the hourly table has 24 rows, row i is hour i, and every load and temperature is positive |
| MockData.SocietiesFacts | src/lib/mock-data.ts:15-21 | five societies with distinct ids, each with a positive transformer capacity |
| MockData.Jitter | src/lib/mock-data.ts:29-31 | for a draw in range, the jittered value lies within ±percent of the value, strictly below the upper bound |
| MockData.GenerateLiveReading | src/lib/mock-data.ts:33-45 | the reading carries the clock, hour and ids; it charges EV iff the EV draw exceeds 0.6; load is within ±20% and temperature within ±10% of the table row `hour % 24` |
| MockData.DetectRisk | src/lib/mock-data.ts:47-76 | above 90% utilization the result is CRITICAL with the capacity reason; otherwise an anomaly or more than 75% gives HIGH, with the Isolation-Forest reason iff the coin shows an anomaly; otherwise NORMAL; scores lie in [0.85,1), [0.5,0.85) or [0,0.3) by level; overload probability is the smaller of 100 and utilization·100 plus the 15-point anomaly bonus |
| MockData.DetectRiskMonotone | src/lib/mock-data.ts:55-65 | with the draws fixed, a higher load never gives a lower risk level |
| MockData.TransformerId | src/lib/mock-data.ts:80-84 | the id `<society>-t<i+1>` of the i-th transformer (its properties are in `TransformerIdsDistinct`) |
| MockData.TransformerIdsDistinct | src/lib/mock-data.ts:80-84 | every transformer id of a society begins with `<society>-t`, and the three ids are pairwise distinct |
| MockData.GetTransformerStatuses | src/lib/mock-data.ts:78-94 | three statuses T1..T3 with ids `<society>-t1..3`; each carries its reading's load and temperature and its classification's level; utilization is clamped at 100; the level agrees with the clamped percentage (CRITICAL iff above 90) |
| MockData.Get24HourData | src/lib/mock-data.ts:96-106 | 24 readings in table order with hours 0..23, one hour apart, the last at the clock; table temperature and EV flag; load within ±10% of the table |
| MockData.FindSociety | src/pages/AdminDashboard.tsx:23 | the society with the given id when the table has one, else the first society; its capacity is positive |
| MockData.FindSocietyIn | src/pages/OwnerDashboard.tsx:42 | `find` on the society list: the first society in the list with that id (every earlier one has another id), or none iff no id matches |
| Aggregates.CountLevel | src/pages/OwnerDashboard.tsx:36-37 | the count of statuses at a level is at most the list length, positive iff one is at that level, the full length iff all are |
| Aggregates.CountLevelConcat | src/pages/OwnerDashboard.tsx:35-37 | counting over a concatenation adds the counts of the parts |
| Aggregates.CountCriticalHigh | src/pages/OwnerDashboard.tsx:66 | CRITICAL plus HIGH statuses never exceed the number of statuses |
| Aggregates.SumUtil | src/pages/OwnerDashboard.tsx:38 | the sum of the statuses' utilization percentages (its bounds are in `SumUtilBounds`, its additivity in `SumUtilConcat`) |
| Aggregates.MeanUtil | src/pages/AdminDashboard.tsx:51 | 0 for no statuses, otherwise the value whose product with the count is the utilization sum |
| Aggregates.SumUtilBounds | src/pages/OwnerDashboard.tsx:38 | a sum of percentages in [0,100] lies in [0, 100·count] |
| Aggregates.SumUtilConcat | src/pages/OwnerDashboard.tsx:35-38 | the utilization sum over a concatenation is the sum of the parts' sums |
| Aggregates.MeanUtilBounds | src/pages/OwnerDashboard.tsx:38 | a mean of percentages in [0,100] is in [0,100] |
| Aggregates.WorstRisk | src/pages/OwnerDashboard.tsx:79 | the highest level present, attained by some status; NORMAL for no statuses |
| StatusRecord.Lookup | src/pages/OwnerDashboard.tsx:41 | `rec[k]` is absent iff no entry has key k, else the value of the first entry with key k |
| StatusRecord.Put | src/pages/OwnerDashboard.tsx:25 | after `rec[k] = v`, k maps to v, every other key maps to what it did, and a new key is appended at the end |
| StatusRecord.PutDistinct | src/pages/OwnerDashboard.tsx:24-25 | writing a key keeps the keys distinct |
| StatusRecord.PutKeys | src/pages/OwnerDashboard.tsx:25 | writing an existing key keeps the length and every entry's key |
| StatusRecord.GetOrEmpty | src/pages/OwnerDashboard.tsx:41 | `rec[k]` or the empty list: no statuses when no entry has key k, else the value `Lookup` finds for k |
| StatusRecord.Flat | src/pages/OwnerDashboard.tsx:35 | `Object.values(rec).flat()`: the entries' statuses in entry order (its length and members are in `FlatLength` and `FlatMembers`) |
| StatusRecord.FlatLength | src/pages/OwnerDashboard.tsx:35 | the flattened record has as many statuses as the entries together |
| StatusRecord.TotalLengthUniform | src/pages/OwnerDashboard.tsx:34-35 | entries of k statuses each hold k·entries statuses together |
| StatusRecord.FlatAppend | src/pages/OwnerDashboard.tsx:35 | flattening after a new entry appends that entry's statuses |
| StatusRecord.FlatMembers | src/pages/OwnerDashboard.tsx:35 | a status is in the flattening iff it is in some entry |
| AdminDashboard.Prepend | src/pages/AdminDashboard.tsx:38 | the new entry comes first, followed by the newest old entries; the log never exceeds 20 entries |
| AdminDashboard.PrependMembers | src/pages/AdminDashboard.tsx:38 | every entry after a prepend is the new one or an old one |
| AdminDashboard.PrependValid | src/pages/AdminDashboard.tsx:38 | prepending a non-NORMAL result to a valid log (at most 20, none NORMAL) keeps it valid |
| AdminDashboard.Recheck | src/pages/AdminDashboard.tsx:34-35 | the second classification of a tick, of a fresh reading of that transformer: its result names the society and the transformer |
| AdminDashboard.Rechecks | src/pages/AdminDashboard.tsx:32-35 | one re-check per status, in status order, each for that status's transformer |
| AdminDashboard.Flagged | src/pages/AdminDashboard.tsx:33-36 | a re-check is logged iff both the status and the re-check are not NORMAL |
| AdminDashboard.Logged | src/pages/AdminDashboard.tsx:32-38 | the log after visiting the statuses in order and prepending every flagged re-check (its properties are the `Logged…` lemmas) |
| AdminDashboard.LoggedValid | src/pages/AdminDashboard.tsx:33-41 | a tick keeps the log at most 20 entries with no NORMAL entry |
| AdminDashboard.LoggedLength | src/pages/AdminDashboard.tsx:33-41 | a tick grows the log by exactly the number of flagged re-checks, capped at 20 |
| AdminDashboard.LoggedSources | src/pages/AdminDashboard.tsx:33-41 | every entry after a tick was in the log before or is a re-check that was flagged (status and re-check both non-NORMAL) |
| AdminDashboard.LoggedHead | src/pages/AdminDashboard.tsx:33-41 | the last flagged re-check of a tick heads the log |
| AdminDashboard.LoggedQuiet | src/pages/AdminDashboard.tsx:34-37 | a tick with nothing flagged leaves the log unchanged |
| AdminDashboard.InjectedReading | src/pages/AdminDashboard.tsx:55-56 | the injected reading belongs to `<society>-t1` and, with its draw in range, sits at 85% to 105% of capacity |
| AdminDashboard.Injected | src/pages/AdminDashboard.tsx:55-59 | the injected anomaly is CRITICAL with the manual reason whatever the classifier said; its overload probability is at least 85 and its score at least 0.5 |
| AdminDashboard.AdminState.constructor | src/pages/AdminDashboard.tsx:22-27 | the society is the user's one, or "s1" when it is absent or empty; the capacity is that society's (or the first society's); no statuses and an empty log |
| AdminDashboard.AdminState.Tick | src/pages/AdminDashboard.tsx:30-41 | the statuses become a fresh `getTransformerStatuses`; the log becomes the old log with every flagged re-check prepended in visiting order; the log stays valid |
| AdminDashboard.AdminState.Inject | src/pages/AdminDashboard.tsx:54-61 | the log gains the injected CRITICAL anomaly at its head; the statuses are unchanged; the log stays valid |
| AdminDashboard.OverloadCard | src/pages/AdminDashboard.tsx:92 | CRITICAL iff mean utilization is above 80, HIGH iff in (60, 80], else NORMAL; the value is 78.3 for CRITICAL, 15.4 otherwise |
| AdminDashboard.HybridCard | src/pages/AdminDashboard.tsx:93 | the level of the newest logged anomaly, NORMAL for an empty log; the value is 0 |
| AdminDashboard.BlackoutCard | src/pages/AdminDashboard.tsx:94 | CRITICAL iff some transformer is CRITICAL, never HIGH; the value is 34.2 or 2.1 by that level |
| AdminDashboard.HybridCardNeverNormalWhenLogged | src/pages/AdminDashboard.tsx:93 | over a valid non-empty log the hybrid card is never NORMAL |
| OwnerDashboard.TotalTransformers | src/pages/OwnerDashboard.tsx:34 | the sum of the societies' transformer counts (its value for the table is in `TotalTransformersOfTable`) |
| OwnerDashboard.SnapshotUpTo | src/pages/OwnerDashboard.tsx:24-25 | the record built by the first n iterations of the loop: n entries, entry i keyed by the i-th society's id |
| OwnerDashboard.Snapshot | src/pages/OwnerDashboard.tsx:24-25 | the record after the loop over every society (its lookups and size are in `SnapshotLookup` and `SnapshotFlatLength`) |
| OwnerDashboard.TotalTransformersOfTable | src/pages/OwnerDashboard.tsx:34 | the table's transformer count sums to 15 |
| OwnerDashboard.SnapshotLookup | src/pages/OwnerDashboard.tsx:24-26 | after a refresh, looking up a society's id gives exactly its `getTransformerStatuses` |
| OwnerDashboard.SnapshotFlatLength | src/pages/OwnerDashboard.tsx:34-35 | the flattened refresh holds as many statuses as the table has transformers, 15 |
| OwnerDashboard.OwnerState.constructor | src/pages/OwnerDashboard.tsx:19-20 | selection "s1" and an empty record |
| OwnerDashboard.OwnerState.Update | src/pages/OwnerDashboard.tsx:23-27 | the record becomes the refresh of every society, with distinct keys; the selection is unchanged |
| OwnerDashboard.OwnerState.Select | src/pages/OwnerDashboard.tsx:51 | the selection becomes the id; the record is unchanged |
| OwnerDashboard.OverallRisk | src/pages/OwnerDashboard.tsx:40 | CRITICAL iff the worst level is CRITICAL, HIGH iff the worst is HIGH and more than two statuses are HIGH, never above the worst level |
| OwnerDashboard.OverallRiskIgnoresTwoHigh | src/pages/OwnerDashboard.tsx:40 | any list with no CRITICAL status and exactly two HIGH ones has overall level NORMAL although its worst level is HIGH |
| OwnerDashboard.BlackoutCard | src/pages/OwnerDashboard.tsx:65 | level is the overall risk; value 23.5 when CRITICAL, else 4.2 |
| OwnerDashboard.AnomalyRateCard | src/pages/OwnerDashboard.tsx:66 | the value is the number of CRITICAL plus HIGH statuses, which lies in [0, number of statuses]; HIGH iff more than one status is HIGH; never CRITICAL |
| OwnerDashboard.HeadroomCard | src/pages/OwnerDashboard.tsx:67 | headroom plus mean utilization is 100, within [0,100] for in-range percentages; CRITICAL below 20 headroom, HIGH in [20,35), else NORMAL |
| OwnerDashboard.SocietyTile | src/pages/OwnerDashboard.tsx:78-80 | a tile shows the worst level and mean utilization of that society's statuses; NORMAL and 0 when it has no entry |
| OwnerDashboard.SelectedStatuses | src/pages/OwnerDashboard.tsx:41 | the selected society's entry, or no statuses when it has none |
| LiveChart.Slide | src/components/dashboard/LiveChart.tsx:40-45 | the window grows by one up to 30 points; the new point is last, preceded by the newest old points |
| LiveChart.SlideDropsOldest | src/components/dashboard/LiveChart.tsx:45 | below 30 points nothing is dropped; at 30 exactly the oldest point is dropped |
| LiveChart.InitialSeries | src/components/dashboard/LiveChart.tsx:23-31 | 21 points from readings of `<society>-t1`, five seconds apart, the last at the clock |
| LiveChart.ChartState.constructor | src/components/dashboard/LiveChart.tsx:18 | an empty chart |
| LiveChart.ChartState.Reset | src/components/dashboard/LiveChart.tsx:21-33 | a society change reseeds 21 points: point k plots the load and temperature of the k-th reading of `<society>-t1`, points are five seconds apart, the last at the clock |
| LiveChart.ChartState.Tick | src/components/dashboard/LiveChart.tsx:35-47 | while simulating, the window slides by the new reading; otherwise the data is unchanged; at most 30 points are kept |
| CityHeatmap.ZoneStatuses | src/components/dashboard/CityHeatmap.tsx:17 | the flatMap of each society id to its entry, or to nothing when it has none (its properties are in `ZoneStatusesConcat`, `UnknownSocietyContributesNothing` and `SingleSocietyZone`) |
| CityHeatmap.CityStatuses | src/components/dashboard/CityHeatmap.tsx:15-18 | every zone's statuses, zone after zone, as `allZoneStatuses` collects them (its properties are in `CityStatusesAppend` and `CityCountIsZoneSum`) |
| CityHeatmap.ZoneStatusesConcat | src/components/dashboard/CityHeatmap.tsx:17 | a zone's flatMap over concatenated society lists is the concatenation of the parts |
| CityHeatmap.CityStatusesAppend | src/components/dashboard/CityHeatmap.tsx:18 | visiting one more zone appends its statuses to the city's list |
| CityHeatmap.UnknownSocietyContributesNothing | src/components/dashboard/CityHeatmap.tsx:17 | a society id without an entry adds nothing to a zone |
| CityHeatmap.SingleSocietyZone | src/components/dashboard/CityHeatmap.tsx:17-19 | a one-society zone holds exactly that society's statuses, so any aggregate of the zone equals that of the society |
| CityHeatmap.CityCountIsZoneSum | src/components/dashboard/CityHeatmap.tsx:15-22 | a city holds as many statuses as its zones together |
| CityHeatmap.BuildCity | src/components/dashboard/CityHeatmap.tsx:14-23 | one view per zone in zone order, each with its flatMapped statuses; the city list is all zones' statuses in order |
| CityHeatmap.CityData | src/components/dashboard/CityHeatmap.tsx:13-25 | one view per city in city order, each as `BuildCity` specifies |
| ResidentDashboard.ResidentSociety | src/pages/ResidentDashboard.tsx:13 | never empty; the user's society when it is set and non-empty; "s1" exactly when there is no user, the id is absent or empty, or the id is "s1" |
| ResidentDashboard.SumLoad | src/pages/ResidentDashboard.tsx:17 | the `reduce` sum of the loads (its bounds are in `SumAtMost` and `SumAtLeast`) |
| ResidentDashboard.AvgLoad | src/pages/ResidentDashboard.tsx:17 | the mean load: its product with the series length is the load sum |
| ResidentDashboard.SumAtMost | src/pages/ResidentDashboard.tsx:17 | loads bounded above by m sum to at most length·m |
| ResidentDashboard.SumAtLeast | src/pages/ResidentDashboard.tsx:17 | loads bounded below by m sum to at least length·m |
| ResidentDashboard.MeanWithin | src/pages/ResidentDashboard.tsx:17 | loads within [lo, hi] have a mean within [lo, hi] |
| ResidentDashboard.PeakLoad | src/pages/ResidentDashboard.tsx:18 | the peak is at least every load and is attained by some reading |
| ResidentDashboard.AvgBetweenMinAndPeak | src/pages/ResidentDashboard.tsx:17-18 | the mean lies between the smallest load and the peak |
| ResidentDashboard.FindLoad | src/pages/ResidentDashboard.tsx:19 | `find` by load: none iff no reading has that load, else the first index that has it |
| ResidentDashboard.PeakHour | src/pages/ResidentDashboard.tsx:19 | the hour of the first reading at the peak (every earlier one is strictly lower); 0 for an empty series |
| ResidentDashboard.EstimatedBill | src/pages/ResidentDashboard.tsx:20 | the bill is 0.0576 times the mean load (720 hours at 0.08 per kWh, in thousands), non-negative for a non-negative load |
| ResidentDashboard.BillMonotone | src/pages/ResidentDashboard.tsx:20 | a higher mean load never gives a lower bill |
| ResidentDashboard.Savings | src/pages/ResidentDashboard.tsx:21 | for a non-negative bill the savings lie in [0, bill] |
| ResidentDashboard.Round | src/pages/ResidentDashboard.tsx:25 | `Math.round`: the integer within half a unit, halves rounded up |
| ResidentDashboard.PersonalData | src/pages/ResidentDashboard.tsx:23-26 | same length and order as the series; each point keeps its hour, and its usage is the nearest integer to 1.2% of the load, non-negative for a non-negative load |
| ResidentDashboard.DaySummaryBounds | src/pages/ResidentDashboard.tsx:15-21 | over a society's 24-hour series with draws in range: 0 < mean ≤ peak, the peak hour is below 24, and 0 ≤ savings ≤ bill |
| AuthContext.FindUser | src/contexts/AuthContext.tsx:18 | `find` by email and password: none iff no account matches both, else the first matching index |
| AuthContext.LoginResult | src/contexts/AuthContext.tsx:18-21 | none iff no account matches; otherwise the password-stripped record of a matching account with that email |
| AuthContext.DemoAccountsSignIn | src/contexts/AuthContext.tsx:18-22 | each demo account's own credentials sign in exactly that account |
| AuthContext.WrongPasswordRejected | src/contexts/AuthContext.tsx:18-24 | for every pair of distinct demo accounts, one's email with the other's password signs nobody in |
| AuthContext.AuthProvider.constructor | src/contexts/AuthContext.tsx:15 | nobody is signed in |
| AuthContext.AuthProvider.IsAuthenticated | src/contexts/AuthContext.tsx:30 | authenticated iff a user is set |
| AuthContext.AuthProvider.Login | src/contexts/AuthContext.tsx:17-25 | returns true iff some account matches both email and password; on success the user is the first match without its password; on failure the user is unchanged |
| AuthContext.AuthProvider.Logout | src/contexts/AuthContext.tsx:27 | nobody is signed in afterwards |

## Left out

- `getGridStabilityIndex`, the `GridStabilityIndex` type and the `CITIES` table are imported by the dashboards, but their code is not part of this model. Cities are therefore a parameter of `CityHeatmap.CityData`. Each zone and city view carries the status list its stability index would be computed from, not the index.
- `simulateDemandResponse`, `simulateDigitalTwin`, `getCarbonMetrics` and `generateIncidents` are not part of this model either, for the same reason.
- `src/lib/mock-data.ts` has no hybrid forecast, `totalRiskScore` or blackout formula, so none is modelled.
- AdminDashboard.HybridCard: its value reads `totalRiskScore`, a field anomaly results do not have. `undefined ?? 0` makes the value always 0, and the model states that.
- Timers and React wiring are not modelled: `setInterval`, clean-up, `useEffect`/`useMemo`, and the `isSimulating` toggle of the admin page. Each tick is one method call, and there is no concurrency.
- Each modelled call reads the clock once, as the `now` parameter. The source reads `Date.now()` once per reading, so it can differ by milliseconds inside one call.
- Each modelled call also takes one `hour`. The source reads `new Date().getHours()` once per reading (`src/lib/mock-data.ts:34`), so readings of one call made across an hour boundary could use different table rows.
- Formatting is not modelled: `toFixed`, `toLocaleTimeString`, the `${hour}:00` labels and the percentage text in risk reasons. A chart point's time is the clock in milliseconds. A usage point's hour is the number.
- JavaScript numbers are modelled as exact reals, so floating-point rounding is not modelled.
- ResidentDashboard.AvgLoad requires a non-empty series. The source divides by the length, which would give NaN for an empty series, but the series it summarises always has 24 readings.
- MockData.DetectRisk requires a positive capacity, like every member that divides by one. The source has no check and would divide by zero, but every capacity in the society table is positive.
- MockData.Jitter: the default percent of 0.15 is not modelled, because every caller passes its own percent.
- These are rendering only and are not modelled, except where a threshold rule picks a displayed constant:
  - StatCard, RiskCard, TransformerGauge, GridStabilityGauge, AnomalyTable, IncidentLog, LoadHistoryChart, SocietySelector, DashboardLayout and the pages Login and Dashboard;
  - the notification list and the peak-time recommendations;
  - the display constants.
