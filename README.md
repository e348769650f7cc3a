# Insider-threat risk simulation: a verified model

This project models the deterministic core of a small insider-threat risk system for a simulated bank. The system has four parts.

- **The activity generator** (`generator.py`).
  - It seats 1009 users over six roles and gives each a region and two clamped personality traits.
  - For every user it simulates 240 working days from 2025-09-01.
  - For each user-day it samples nine behaviour counters and draws an HR flag.
  - It scores how far the day's weighted counters exceed two standard deviations (the *opportunity score*).
  - It then decides whether the day is malicious. On a malicious day it spikes the role's counters in place.
- **The Monte Carlo loss engine** (`src/monte_carlo.py`).
  - From the labelled activity it takes each role's share of users with at least one malicious day (the *probability of action*, poa).
  - Each trial runs the chain insiders → attempts → successful attacks → losses for every role.
  - Each loss is clipped into its loss tier's bounds.
  - The per-trial totals and the per-role lists are collected.
  - The summary compares a mitigated run with the unmitigated baseline.
- **The risk analysis** (`src/risk_analysis.py`).
  - It computes the same per-user incident indicator.
  - It averages the indicator per role and per role × region.
  - It writes the 18 role × region rows of the risk-score table.
- **The dashboard's mitigation selection** (`src/app.py`).
  - It loads the table of security controls, keyed by stripped name, each with a normalised lookup key, a cost and a weight.
  - It sums the weight and cost of the controls a user ticks.

Every random draw of the source becomes an input of the model, and its range is a precondition:
- a normal draw is `mean + std * z`;
- a uniform draw lies in [0, 1);
- a `randint(lo, hi)` lies in [lo, hi];
- binomial, Poisson and lognormal draws are constrained by their supports.

Given the draws, the model computes exactly what the source computes. Arithmetic is on unbounded integers and exact reals.

Modules, one per file:
- `Org`: roles, regions, features, the per-day `Record`, and shared helpers.
- `Calendar`: `datetime + timedelta` and `strftime("%Y-%m-%d")`.
- `Generator`: the daily decision pipeline, with the row dict as the class `DayRow`.
- `Builder`: the user and row loops.
- `Incidents`: the groupby/mean bookkeeping both analyses share.
- `MonteCarlo`, `RiskAnalysis` and `App`.

Where the source loops and updates state, the model is a method with loop invariants. Each such method is proved equal to a recursive specification function, and the lemmas state what the source promises about that function.

Behaviour of the code worth noting:
- **Missing values in the risk tables.** The per-role table of `src/risk_analysis.py` is reindexed without a fill value. A role with no users therefore gets no number (`None`), not 0. The role × region table leaves a missing pair undefined unless the reindex itself added the row or column.
- **Roles missing from a table.** These are not rejected up front:
  - `ROLE_MAPPING.get` falls back silently to 'Employees (full-time)';
  - `generate_psychometrics` has a generic fallback;
  - a loss tier missing from the loss table, or one the lognormal cannot be fitted to (a bound at or below zero, or max < min), fails the trial only when a role has a success to price.
- **Formula constants.** The docstring at `generator.py:293-294` gives the daily-probability constants as 0.0003 and 0.0001. The code uses 0.000003 and 0.00001, and the model uses the code's.
- **Row order.** Rows come user by user and, within a user, day by day, in the order the loops produce them.

## Model

| member | source | states |
|---|---|---|
| Org.ParseRoleName | generator.py:12-19 | every role's dataset name is read back as that role |
| Org.Counters.Add | generator.py:340-364 | `row[f] += k` raises feature f by exactly k and leaves the other eight features alone |
| Org.Clamp | generator.py:242-243 | `min(max(x, lo), hi)` lies in [lo, hi]; it is x inside the interval, lo below it, hi above it |
| Calendar.NextDayOrdinal | generator.py:391 | one day later is a valid date whose ordinal is exactly one more, in the same or the next year |
| Calendar.AddDaysOrdinal | generator.py:391 | `start + timedelta(days=n)` is the valid date whose ordinal is n more than the start's |
| Calendar.AddDaysInjective | generator.py:391 | different day offsets give different dates |
| Calendar.PaddedRoundTrip | generator.py:414 | a zero-padded decimal field reads back as the number it encodes |
| Calendar.FormatDate | generator.py:414 | `strftime("%Y-%m-%d")` is ten characters: digits with '-' at positions 4 and 7 |
| Calendar.FormatDateRoundTrip | generator.py:414 | parsing the formatted day gives back the date |
| Calendar.FormatDateInjective | generator.py:414 | two dates with the same day string are the same date |
| Generator.Round | generator.py:205 | `round(x)` is within half a unit of x, and a tie goes to the even integer |
| Generator.RoundIsNearest | generator.py:205 | away from ties, `round(x)` is the unique integer within half a unit of x |
| Generator.NonnegativeInt | generator.py:204-205 | the result is never negative; it equals `round(x)` whenever that is not negative; it is 0 exactly when x ≤ 0.5 |
| Generator.GeneratePsychometrics | generator.py:208-244 | both traits lie in [0, 100] for every role name, the fallback included; a draw already inside [0, 100] is kept unchanged |
| Generator.SpikeZeroIff | generator.py:274-278 | a feature's spike `max(0, z - 2)` is never negative and is 0 exactly when the feature is at most mean + 2σ, or its σ is not positive |
| Generator.RawScoreNonNegative | generator.py:271-280 | with non-negative weights the accumulated score is never negative |
| Generator.RawScoreZeroIff | generator.py:271-280 | with positive weights the accumulated score is 0 exactly when every weighted feature is within mean + 2σ |
| Generator.OpportunityBounds | generator.py:271-281 | the opportunity score lies in [0, 5] |
| Generator.OpportunityZeroIff | generator.py:271-281 | the opportunity score is 0 exactly when every weighted feature is within mean + 2σ |
| Generator.RawScoreMonotone | generator.py:271-280 | raising counters never lowers the accumulated score |
| Generator.OpportunityMonotone | generator.py:260-281 | the opportunity score is non-decreasing in every counter |
| Generator.RawScoreIgnores | generator.py:272-276 | features with non-positive σ do not affect the accumulated score |
| Generator.OpportunityIgnores | generator.py:272-281 | days that differ only in features outside the weight table, or with non-positive σ, score the same |
| Generator.ProfileOfWellFormed | generator.py:96-201 | every role's weights are positive and every σ is positive, so the facts above apply to all six roles |
| Generator.StressFactor | generator.py:303-309 | the stress factor lies in 0..3; it is 0 exactly when no condition holds and 3 exactly when neuroticism > 65, the HR flag and conscientiousness < 50 all hold |
| Generator.DailyProbability | generator.py:327-329 | the clamped probability lies in [0, 0.0005] |
| Generator.ProbabilityCapNeverBinds | generator.py:314-329 | for stress 0..3 and opportunity in [0, 5] the clamp changes nothing, and the probability never exceeds 0.000259 |
| Generator.ProbabilityMonotone | generator.py:323-329 | more stress or more opportunity never lowers the daily probability |
| Generator.SpikedOutside | generator.py:338-364 | a feature outside the role's spike list keeps its value |
| Generator.SpikedAt | generator.py:338-364 | each listed feature grows by exactly its own draw |
| Generator.SpikeTableWellFormed | generator.py:338-364 | no role spikes a feature twice, and every `randint` range has 1 ≤ lo ≤ hi |
| Generator.SpikedFeaturesAreWeighted | generator.py:337-364 | every spiked feature is in the role's opportunity-weight table |
| Generator.TraderEmailsWeightedNotSpiked | generator.py:344-347 | Trader's `external_emails_sent` is weighted but not spiked, so the converse fails |
| Generator.MaliciousSpikeEffect | generator.py:338-364 | on a malicious day each listed feature rises by an amount in its inclusive range, no other feature moves, and non-negative counters stay non-negative |
| Generator.DayRow.constructor | generator.py:410-429 | the pre-injection row carries the given identity, day, counters, HR flag and traits, and has no malicious mark yet |
| Generator.WeightedSpikes | generator.py:271-280 | the loop's score is the weighted sum of spikes over the role's weight table, skipping features with non-positive σ and non-positive spikes |
| Generator.OpportunityScore | generator.py:260-281 | `opportunity_score(row)` is that sum capped at 5, computed from the row's current counters |
| Generator.DecideAndInjectMalicious | generator.py:284-366 | the day is malicious exactly when the uniform draw is below the daily probability computed from the pre-injection counters; a day that is not malicious leaves the row unchanged; a malicious one applies the role's spikes in place |
| Generator.InjectSpikes | generator.py:338-364 | the in-place `+=` chain of each role equals the role's spike list applied in order |
| Builder.MakeUser | generator.py:372-382 | a user id is "BB-" followed by the first eight hex digits of the uuid draw; the role is the seat's role; the region is the chosen entry of REGIONS; the traits are exactly `generate_psychometrics(role)` of the trait draws and lie in [0, 100] |
| Builder.NumUsersByRoleSums | generator.py:12-19 | NUM_USERS_BY_ROLE sums to 1009 and lists each role with its ROLE_HEADCOUNT |
| Builder.SeatsMatchHeadcount | generator.py:370-372 | the user loop creates 1009 seats, and each role gets exactly its headcount |
| Builder.AddRoleUsers | generator.py:372-382 | the inner loop appends `count` users of the role, each built from the next draw, and keeps the users before them |
| Builder.BuildUsers | generator.py:370-382 | the users list is one user per seat, roles in table order, user k built from draw k |
| Builder.SampleCounters | generator.py:396-404 | every sampled counter is non-negative and is `nonnegative_int` of its own feature's normal draw |
| Builder.HrFlag | generator.py:407 | the HR flag is 0 or 1, and 1 exactly when the uniform draw is below the role's HR chance |
| Builder.DayRecordDay | generator.py:387-414 | the day column parses back to 2025-09-01 plus the offset |
| Builder.DayRecordLabel | generator.py:396-439 | both flags are 0/1; counters are non-negative; `is_malicious` is 1 exactly when the decision rule holds on the pre-injection counters; a day that is not malicious keeps its sampled counters |
| Builder.DayStringsDistinct | generator.py:390-414 | different offsets never share a day string |
| Builder.SimulateDay | generator.py:391-440 | one pass of the day loop produces exactly the row the specification function gives for that user, offset and draws |
| Builder.DatasetAt | generator.py:389-440 | the dataset has `|users| * 240` rows, and row `i * 240 + k` is user i on day k |
| Builder.SimulateUser | generator.py:390-440 | the day loop of a user produces that user's 240 rows in day order |
| Builder.BuildRows | generator.py:386-440 | the row loop produces every user's block of rows, user after user |
| Builder.BuildDataset | generator.py:370-440 | the run produces 1009 users, user k built by MakeUser from seat k's role and the k-th user draw, with each role's headcount; and 1009 × 240 rows, equal to the specified dataset |
| Incidents.MaliciousSumPositive | src/monte_carlo.py:48-50 | on 0/1 labels a user's `is_malicious` sum is never negative, and is positive exactly when one of the user's rows is malicious |
| Incidents.HadIncidentIff | src/monte_carlo.py:48-50 | `had_incident` is 1 exactly when some row of the group is malicious, and 0 exactly when none is |
| Incidents.IncidentRate | src/risk_analysis.py:38-43 | the mean over a selection of groups lies in [0, 1], and is undefined exactly when the selection is empty |
| Incidents.IncidentRateShare | src/risk_analysis.py:40-41 | the mean times the number of selected groups is the number of them with an incident |
| Incidents.IncidentRateZero | src/risk_analysis.py:40-41 | the mean is 0 exactly when no selected group had an incident |
| Incidents.IncidentRateOne | src/risk_analysis.py:40-41 | the mean is 1 exactly when every selected group had an incident |
| Incidents.IncidentRateExtremes | src/risk_analysis.py:40-41 | both extremes together |
| MonteCarlo.RolesDistinct | src/monte_carlo.py:19 | ROLES lists no role twice |
| MonteCarlo.RolesComplete | src/monte_carlo.py:19 | ROLES lists every role |
| MonteCarlo.LossCategoryOfRoles | src/monte_carlo.py:36-43 | every dataset role name has its own mapping entry; only other names fall back to 'Employees (full-time)' |
| MonteCarlo.RolePoa | src/monte_carlo.py:48-53 | a role's poa lies in [0, 1]; it is the share of the role's users with an incident; it is 0.0 when the role has no users |
| MonteCarlo.PoaTable | src/monte_carlo.py:53 | the reindexed table has a value for every role |
| MonteCarlo.PoaExtremes | src/monte_carlo.py:48-53 | a role's poa is 0 exactly when none of its users had an incident, and 1 exactly when all did |
| MonteCarlo.BuildLossDict | src/monte_carlo.py:56-61 | the loop builds the table that sets each row's level in order |
| MonteCarlo.LossDictLastWins | src/monte_carlo.py:56-61 | a level's bounds are those of the last row that names it |
| MonteCarlo.LossDictDomain | src/monte_carlo.py:56-61 | a level is in the table exactly when some row names it |
| MonteCarlo.EffectiveVulnerability | src/monte_carlo.py:82 | 0.75·(1 − w) lies in [0, 0.75] for w in [0, 1]; it is 0.75 at w = 0 and 0 at w = 1 |
| MonteCarlo.EffectiveVulnerabilityAntitone | src/monte_carlo.py:82 | more mitigation never raises the vulnerability |
| MonteCarlo.ClipAll | src/monte_carlo.py:143 | `np.clip` keeps the count, and each loss lies in the tier's [min, max] |
| MonteCarlo.ClippedSumBounds | src/monte_carlo.py:142-145 | k clipped losses sum to between k·min and k·max |
| MonteCarlo.RoleOutcomeIncidents | src/monte_carlo.py:105-122 | zero insiders, zero attempts or poa = 0 give zero loss and zero incidents; otherwise the incidents equal the successes, even when that is 0, and never exceed the attempts |
| MonteCarlo.RoleOutcomeLoss | src/monte_carlo.py:124-147 | a role with k successes loses between k·min and k·max of its tier; the role fails exactly when it has a success to price and its tier is missing or has a bound at or below zero or max < min |
| MonteCarlo.ForEachRole | src/monte_carlo.py:98-99 | the per-trial dicts have exactly the roles of ROLES, each with the initial value |
| MonteCarlo.TrialOver | src/monte_carlo.py:101-147 | a completed trial has a loss and an incident entry for every role |
| MonteCarlo.TrialOverFails | src/monte_carlo.py:125 | a missing tier part-way through the role loop fails the whole trial |
| MonteCarlo.TrialOverEntry | src/monte_carlo.py:101-147 | in a completed trial, each role's entries are that role's own outcome |
| MonteCarlo.TrialOverTotal | src/monte_carlo.py:145-147 | with distinct roles, a trial's total is the sum of its per-role losses |
| MonteCarlo.VisitRole | src/monte_carlo.py:102-147 | one pass of the role loop, with its three short-circuits, fails exactly when the role's outcome fails; otherwise it moves the accumulators exactly as the outcome says |
| MonteCarlo.RunTrial | src/monte_carlo.py:97-147 | the role loop computes the specified trial |
| MonteCarlo.EmptyResults | src/monte_carlo.py:84-90 | the results dict starts with an empty list for every role |
| MonteCarlo.AppendEach | src/monte_carlo.py:150-152 | every role's list gains exactly that role's new value |
| MonteCarlo.AppendTrial | src/monte_carlo.py:149-152 | appending a trial keeps a list for every role |
| MonteCarlo.Simulate | src/monte_carlo.py:96-152 | a completed run has lists for every role |
| MonteCarlo.SimulateShape | src/monte_carlo.py:84-152 | a completed run echoes w and its vulnerability, and `total_loss` and every role's two lists have one entry per iteration |
| MonteCarlo.SimulateTotalEntry | src/monte_carlo.py:149 | entry k of `total_loss` is trial k's total |
| MonteCarlo.SimulateRoleEntry | src/monte_carlo.py:150-152 | entry k of each role's loss and incident lists is that role's result in trial k |
| MonteCarlo.TrialTotalIsSum | src/monte_carlo.py:145-149 | every trial total is the sum over ROLES of the per-role losses, each the role's own outcome |
| MonteCarlo.SimulateFails | src/monte_carlo.py:125 | a failed trial fails the whole run |
| MonteCarlo.RunMonteCarloSimulation | src/monte_carlo.py:63-154 | the iteration loop computes the specified run |
| MonteCarlo.AppendRoleEntries | src/monte_carlo.py:150-152 | the append loop adds one entry per role to both per-role lists |
| MonteCarlo.FullMitigationTrial | src/monte_carlo.py:82-122 | at w = 1 no attack succeeds, so every role's loss and incidents and the trial total are 0 |
| MonteCarlo.FullMitigationRun | src/monte_carlo.py:82-152 | a fully mitigated run completes, and every entry of every list is 0 |
| MonteCarlo.MinOf | src/monte_carlo.py:201 | `min()` is at most every entry |
| MonteCarlo.MinOfAttained | src/monte_carlo.py:201 | `min()` is one of the entries, so the reported minimum is a loss that occurred |
| MonteCarlo.MaxOf | src/monte_carlo.py:200 | `max()` is at least every entry |
| MonteCarlo.MaxOfAttained | src/monte_carlo.py:200 | `max()` is one of the entries, so the reported maximum is a loss that occurred |
| MonteCarlo.MeanBetweenMinMax | src/monte_carlo.py:165 | the mean lies between the minimum and the maximum |
| MonteCarlo.SavingsPct | src/monte_carlo.py:171-172 | savings_pct × baseline = savings × 100 when the baseline mean is positive, and 0 otherwise |
| MonteCarlo.Summarize | src/monte_carlo.py:164-201 | the mean EAL, min and max are those of the mitigated totals, and the baseline mean is the baseline totals' mean; min ≤ mean ≤ max; savings = baseline mean − mean EAL, and savings_pct is SavingsPct of the two; for exactly the roles of ROLES, each role's mean loss, mean incidents and max are those of its mitigated lists, with mean loss ≤ max |
| MonteCarlo.NoMitigationNoSavings | src/monte_carlo.py:168-172 | comparing a run with itself gives savings 0 and 0 % |
| MonteCarlo.ZeroRunSavesAll | src/monte_carlo.py:164-172 | an all-zero mitigated run has mean 0 and saves the whole baseline: 100 % whenever the baseline loses anything |
| MonteCarlo.SimulateNonEmpty | src/monte_carlo.py:96-152 | a completed run of at least one trial has a non-empty total list and non-empty lists for every role |
| MonteCarlo.RunsComparable | src/monte_carlo.py:157-162 | a completed mitigated run and a completed baseline run of N_ITER trials each can be summarised against each other |
| MonteCarlo.GenerateResults | src/monte_carlo.py:157-172 | the report exists exactly when both runs complete; the baseline run is the w = 0 run with vulnerability 0.75; the mean EAL, min and max are those of the mitigated run's totals, and the baseline mean is the baseline run's; min ≤ mean ≤ max; savings = baseline mean − mean EAL, and savings_pct is SavingsPct of the two; each role's mean loss, mean incidents and max are those of the mitigated run's lists |
| MonteCarlo.FullMitigationReport | src/monte_carlo.py:82-172 | with w = 1 and a completed baseline the report exists, the mean EAL is 0, the savings are the whole baseline mean, and 100 % whenever the baseline loses anything |
| RiskAnalysis.UserHadIncident | src/risk_analysis.py:34-36 | a (user, role, region) group's `had_incident` is 1 exactly when one of its rows is malicious, and 0 exactly when none is |
| RiskAnalysis.RoleAnnual | src/risk_analysis.py:38-43 | a role's annual probability lies in [0, 1], and is undefined exactly when the role has no users (no fill value) |
| RiskAnalysis.RoleAnnualExtremes | src/risk_analysis.py:39-41 | it is 0 exactly when none of the role's users had an incident, and 1 exactly when all did |
| RiskAnalysis.RoleRegionCell | src/risk_analysis.py:46-51 | a cell in a row or column the reindex added is 0.0; otherwise it is undefined exactly when the pair has no users, and is the pair's mean otherwise; every defined cell lies in [0, 1] |
| RiskAnalysis.PairPresent | src/risk_analysis.py:46-49 | a pair with users has both its role and its region among the unstacked labels |
| RiskAnalysis.RoleRegionCellZero | src/risk_analysis.py:46-51 | a cell is 0 exactly when the reindex added its row or column, or its users exist and none had an incident |
| RiskAnalysis.Percent | src/risk_analysis.py:75 | scaling to percent multiplies by 100 and keeps NaN as NaN |
| RiskAnalysis.RoleBlock | src/risk_analysis.py:80-86 | the inner loop appends one row per region |
| RiskAnalysis.RoleBlocks | src/risk_analysis.py:79-86 | the outer loop appends three rows per role |
| RiskAnalysis.RiskCsv | src/risk_analysis.py:78-86 | the table has 6 × 3 = 18 rows |
| RiskAnalysis.RiskCsvAt | src/risk_analysis.py:78-86 | row 3i + j is the entry for role i and region j |
| RiskAnalysis.RiskRowFor | src/risk_analysis.py:81-86 | one appended row holds the role, the region, the cell × 100 and ROLE_HEADCOUNT of the role |
| RiskAnalysis.BuildRiskCsv | src/risk_analysis.py:78-86 | the nested loop builds exactly the specified 18 rows |
| RiskAnalysis.RoleIndex | src/risk_analysis.py:16 | each role has a position in ROLES |
| RiskAnalysis.RegionIndex | src/risk_analysis.py:17 | each region has a position in REGIONS_ORDER |
| RiskAnalysis.RiskCsvIndex | src/risk_analysis.py:78-86 | row k is the entry for role k / 3 and region k % 3 |
| RiskAnalysis.RiskCsvOnePerPair | src/risk_analysis.py:78-86 | every (role, region) pair has exactly one row, and that row is the pair's entry |
| RiskAnalysis.RiskCsvOrdered | src/risk_analysis.py:79-80 | rows are ordered by role in ROLES order and, within a role, by region in REGIONS_ORDER order |
| App.StripLeft | src/app.py:28 | lstrip never lengthens, and its result does not start with whitespace |
| App.StripRight | src/app.py:28 | rstrip never lengthens, and its result does not end with whitespace |
| App.Strip | src/app.py:28 | the stripped name neither starts nor ends with whitespace |
| App.StripIsMiddle | src/app.py:28 | the stripped name is a contiguous middle of the name, surrounded only by whitespace |
| App.StripIdempotent | src/app.py:28 | stripping twice is stripping once |
| App.KeyPart | src/app.py:31 | each character becomes at most one key character: a character in [a-z0-9] stays itself, 'A'..'Z' become their lower-case letters, and every other character except the Kelvin sign and the dotted capital I is dropped |
| App.NormalizeKey | src/app.py:31 | a key contains only [a-z0-9] and is no longer than the name |
| App.NormalizeKeyAppend | src/app.py:31 | normalising works character by character: the key of a + b is the key of a followed by the key of b |
| App.NormalizeKeyFixpoint | src/app.py:31 | a string normalises to itself exactly when it already is a key |
| App.NormalizeKeyIdempotent | src/app.py:31 | normalising a key again leaves it unchanged |
| App.AsciiLowerChar | src/app.py:31 | ASCII lower-casing, the part of `lower()` that can produce a character in [a-z0-9] for names without the two special capitals: an ASCII capital becomes its small letter, and every other character is kept |
| App.AsciiLower | src/app.py:31 | ASCII lower-casing of a whole name keeps its length and lowers each character on its own |
| App.KeepKeyChars | src/app.py:31 | `re.sub(r"[^a-z0-9]", "", s)` leaves only [a-z0-9], never lengthens, and leaves a key unchanged |
| App.KeyPartIsLowerThenFilter | src/app.py:31 | for one character other than the two special capitals, KeyPart is ASCII lowering followed by the filter |
| App.NormalizeKeyIsLowerThenFilter | src/app.py:31 | for every name without the Kelvin sign or the dotted capital I, the key is the ASCII-lowered name with every character outside [a-z0-9] removed |
| App.Insert | src/app.py:32-36 | `d[name] = v` sets the entry; an existing name keeps its place and a new one goes last |
| App.SolutionOf | src/app.py:28-36 | an entry's key is a key, and its cost is the row's cost |
| App.SolutionWeight | src/app.py:29 | the weight is the percentage divided by 100, and at most 1 for a percentage of at most 100 |
| App.Loaded | src/app.py:27-36 | the loaded table is a well-formed dict holding the entries of the rows read in order |
| App.LoadSoftwareSolutions | src/app.py:22-38 | the loop builds exactly that table |
| App.LoadedNames | src/app.py:27-36 | a name has an entry exactly when some row carries that name once stripped |
| App.LoadedLastWins | src/app.py:32-36 | a name's entry comes from the last row carrying it |
| App.LoadedKeys | src/app.py:31-36 | every entry's key is its own name normalised |
| App.CalculateWeightsAndCosts | src/app.py:42-51 | the returned weight and cost are the sums over the selected entries |
| App.NothingSelected | src/app.py:42-47 | with nothing selected, including keys missing from the selections, the result is (0.0, 0) |
| App.OnlySelectedKeysMatter | src/app.py:47 | selections that select the same keys give the same weight and cost |
| App.SelectionMonotone | src/app.py:46-49 | selecting more controls never lowers the weight or the cost, when both are non-negative |
| App.WeightNotClamped | src/app.py:46-51 | the weight is a plain sum and is not clamped: two controls rated 60 % give 1.2 |

## Left out

- **Random sampling and seeding are not modelled.** This covers `np.random.normal/binomial/poisson/lognormal`, `random.random/randint/choice`, `uuid4` and the fixed seeds. Each draw is an input, and its range or support is a precondition. Distributions and seed reproducibility are outside the model.
- **User-id uniqueness is not modelled.** Two uuid draws can share their first eight hex digits. The model takes ids as given, and the incident groups are keyed by id together with role (and region), as in the source.
- **Lognormal parameters are not modelled.** `np.log` enters only the parameters of the lognormal draw. Losses are arbitrary real draws, and only the clip that follows is modelled.
- MonteCarlo.RoleOutcome: a tier with max < min makes `np.random.lognormal` raise ValueError, and the model fails the trial there. A tier with a bound at or below zero makes `np.log` return -inf or NaN, and the source then carries NaN losses into the totals. The model has no NaN, so it fails the trial (None) on such a tier too.
- **Percentiles are not modelled.** The model does not include `np.percentile` (p5, median, p95). `ATTEMPTS_MEAN` only parameterises the Poisson draw.
- **Floating point is replaced by exact reals.** IEEE rounding, NaN propagation and overflow are not modelled. NaN results of pandas are `None`.
- **File I/O is not modelled.** This covers the CSV writes and reads, the JSON dump and load, directory creation, and the header skip and field conversions (`float(row[2])`, `int(row[3])`). `App.SolutionRow` holds the already converted fields.
- **The analyses are not tied to the generator's output.** They take any list of activity records with 0/1 labels. The generator writes `billybank_activity_updated.csv` while the analyses read `billybank_activity.csv`.
- **Plotting and the dashboard are not modelled.** This covers Matplotlib and seaborn, the Streamlit `main`, `load_total_company_loss`, and the display sort.
- **The "NA" region replacement is not modelled.** Regions are the closed enumeration NA, EU and APAC, so pandas reading "NA" as NaN cannot arise.
- **`role_baseline_means` is not modelled.** `generate_monte_carlo_results` computes it but never reports it.
- **The claim that mean loss does not increase with mitigation is not stated.** Both runs seed numpy with 80 (`np.random.seed(80)`). A different vulnerability changes how many draws each trial consumes, so after the first divergence the two runs see different draws, and no ordering between their means follows.
- MonteCarlo.RunMonteCarloSimulation: requires 0 ≤ w ≤ 1 and poa values in [0, 1]. Summed control weights above 1 would make numpy reject the binomial probability, and that error is not modelled.
- App.AsciiLowerChar: is ASCII lower-casing, not Python's `lower()`. It leaves non-ASCII capitals such as 'É' as they are, lowers character by character without final-sigma context, and never lengthens a string. Under the assumption on the next line, these differences never produce a character in [a-z0-9], so the filter removes them and the key is unaffected. The two special capitals are handled by `App.KeyPart` and excluded from `App.NormalizeKeyIsLowerThenFilter`.
- App.KeyPart: assumes that under Unicode lower-casing the only non-ASCII characters landing in [a-z] are the Kelvin sign ('k') and the dotted capital I ('i' plus a combining dot, which is dropped). Every other non-ASCII character is dropped.
- **The returned row is not modelled.** `decide_and_inject_malicious` returns the same row object it mutated. The model mutates the `DayRow` in place and returns only the decision.
- **Aliasing of row dicts is not modelled.** The stored rows are snapshots (`Record` values) of each `DayRow` after its label is set.
- **The `.get(role, 0)` default of the headcount lookup is not modelled.** ROLE_HEADCOUNT names every role, so the default never applies.
- Calendar.FormatDate: pads the year to four digits. glibc's `%Y` does not pad years below 1000. The generator's dates lie in 2025 and 2026, so this never applies.
