# magdalena crash-statistics aggregation, modelled in Dafny

magdalena is a set of scripts that pull crash statistics from Mozilla's
crash-stats API and keep per-day JSON stores for dashboards. Several
scripts are modelled here. Each is cut down to its run loops, with the API
replies, the loaded store and the date helpers given as inputs.

- **By-type daily aggregation** (`get-bytypedata.py`, module `ByType`).
  For each day of a run, a day is skipped when it is stored with non-zero
  ADI and not forced. Otherwise the script does the following:
  - It resolves the product's and channel's versions with their sampling
    correction `tfactor = 100 / throttle`, and fetches ADI and SuperSearch
    facets.
  - It folds each contributing version into weighted buckets. `plugin`
    becomes `OOP Plugin`, other process types are capitalised, `Browser`
    takes the remainder, and `Hang Plugin` is filled from the `T` hang
    term.
  - When both buckets exist, it subtracts `Hang Plugin` from `OOP Plugin`.
  - It stores the day when its ADI total is non-zero.
  - It writes the store back sorted by day.
- **Category aggregation** (`get-categorydata.py`, module `Category`). The
  `reports` table has six crash categories. For every day with by-type
  data that is forced or not yet stored, each applicable category runs one
  SuperSearch. Desktop-only categories apply to Firefox only. The result is
  folded into per-process-type buckets plus `browser`, or into one
  weighted total. The day is stored when the raw count over all categories
  is non-zero.
- **Build-age table** (`datautils.py`, module `DataUtils`).
  `getMaxBuildAge` and `global_defaults`.
- **Per-version daily merge** (`get-dailydata.py`, module `Daily`).
  - Versions are the ones whose end date is after the window start.
  - Each crashes-per-ADU record with reports is written into a version →
    day store, weighted by its version's `tfactor`. With the corrected test
    below, a record with reports or ADU is written.
  - The latest day seen is tracked.
  - The store is written to `<product>-daily.json.new`, sorted on both
    levels. This is not the `<product>-daily.json` file it was read from.

Shared modules:

| module | contents |
|---|---|
| `Outcomes` | `Option`, `Result`, the reasons a day is skipped, and the exceptions that end a run |
| `StrOrder` | Python's `<` on strings; `list.sort()`; `sorted(d.items())` |
| `Socorro` | request and reply shapes; the API endpoints and date helpers as function-valued inputs (`Services`) |
| `Versions` | the catalog filters and `tfactor` |
| `Buckets` | the `if k not in d: d[k] = 0; d[k] += x` bucket pattern, the process-type fold, and the sums that state what it conserves |
| `DayStore` | the day loop over a store |

Each script's loops are `method`s, specified in one of two ways. Most are
proved equal to a prefix-recursive specification function, and the
properties are lemmas about those functions. The sorting loops
(`StrOrder.SortedItems`, `Daily.SortVersionDays`, `Daily.SortDays`,
`Daily.SortStore`) are specified instead by the relation their output
keeps to the input map: keys strictly ascending (`StrictlyIncreasing`),
listing exactly the map's entries (`Lists`), and every version's days
sorted in this way (`DaysSorted`).

Behaviour the model keeps from the code:

- **Zero throttle.** The code divides by the throttle unguarded, so the
  model requires a non-zero throttle.
- **Faults in the category and daily scripts.** These scripts do not check
  facet versions, record versions or the `adi` name. The model raises the
  exception the code raises (`Fault`), and the run then writes nothing.
- **No crash records.** When the daily script receives no records at all,
  its `maxday < day_end` message concatenates `None` to a string, so the
  code raises TypeError. The model raises it too.

## Model

| member | source | states |
|---|---|---|
| `DataUtils.MaxBuildAge` | datautils.py:10-26 | the age is one of the six durations and never longer than `1 year`; `1 year` is returned exactly for channels other than release, beta, aurora and nightly |
| `DataUtils.StableChannelWindows` | datautils.py:11-14 | release gives `12 weeks` and beta `4 weeks` whatever the flag |
| `DataUtils.PreReleaseWindows` | datautils.py:15-24 | aurora and nightly give `9 weeks` with the flag; without it, aurora gives `2 weeks` and nightly `1 weeks` |
| `DataUtils.CatchAllIsLongest` | datautils.py:25-26 | the catch-all age is at least as long as any channel's age, which the earliest-start-date computation relies on |
| `DataUtils.OverallNeverShorter` | datautils.py:10-26 | the flag defaults to false and never shortens a window |
| `DataUtils.DefaultBacklogs` | datautils.py:4-8 | the three default backlogs are 7, 20 and 15 days |
| `StrOrder.Sort` | get-bytypedata.py:155 | `list.sort()` returns a sorted permutation of its input |
| `StrOrder.SortedItems` | get-bytypedata.py:160 | a store sorted by day lists each entry once, with keys strictly ascending |
| `StrOrder.ListsInsert` | get-bytypedata.py:160 | inserting a new key into a listing of a map lists that map with the key added |
| `Versions.Eligible` | get-bytypedata.py:91 | a by-type entry qualifies when its product and build type match and its start date is after the cutoff; a daily entry (get-dailydata.py:52) when its product matches and its end date is after the window start |
| `Versions.Tfactor` | get-bytypedata.py:93 | `tfactor * throttle == 100`; throttle 100 gives tfactor 1 |
| `Versions.Resolve` | get-bytypedata.py:88-93 | a version is listed iff some catalog entry passes the filter; every listed version has a non-zero tfactor |
| `Versions.ResolveLastWins` | get-bytypedata.py:93 | for a version listed twice, the later entry's tfactor is kept |
| `Versions.ResolveVersions` | get-bytypedata.py:88-93 | the catalog loop builds exactly the resolved versions and tfactors |
| `Buckets.Add` | get-bytypedata.py:146-148 | a bucket is created at zero if missing and grows by the amount; no other bucket changes |
| `Buckets.AddInto` | get-bytypedata.py:146-148 | the create-then-add statements compute `Add` |
| `Buckets.Capitalize` | get-bytypedata.py:145 | `str.capitalize` keeps the length, upper-cases the first character and lower-cases every character after it |
| `Buckets.ByTypeNameNotHang` | get-bytypedata.py:141-152 | no process type and no browser remainder lands in `Hang Plugin` |
| `Buckets.FoldBucketsSum` | get-bytypedata.py:141-149 | the process-type buckets grow in total by the weighted raw sum |
| `Buckets.FoldBucketsKeeps` | get-bytypedata.py:141-149 | a bucket no process type names keeps its value and presence |
| `Buckets.ProcessVersionSum` | get-bytypedata.py:141-152 | the process buckets plus the browser bucket grow by exactly `count * tfactor` |
| `Buckets.FoldBucketsInto` | get-bytypedata.py:141-149 | the process-type loop computes the weighted buckets and `nonbrowser` |
| `Buckets.FoldProcessInto` | get-bytypedata.py:141-152 | the process-type loop plus the browser remainder compute one version's fold |
| `DayStore.FoldLookup` | get-bytypedata.py:74-157 | a listed day ends up with the step applied once to its old entry; every other day keeps its entry |
| `DayStore.FoldTwice` | get-bytypedata.py:74-157 | when every step settles after one visit, a second run changes nothing |
| `ByType.Refetch` | get-bytypedata.py:76 | a day is recomputed when it is forced, not stored, or stored with zero ADI |
| `ByType.AdiMap` | get-bytypedata.py:110-111 | the ADI map has a key exactly for each version in the hits |
| `ByType.AdiMapLastWins` | get-bytypedata.py:110-111 | each version's ADI is the `adi_count` of its last hit, a later hit overwriting an earlier one |
| `ByType.BuildAdi` | get-bytypedata.py:110-111 | the hits loop builds the ADI map, a later hit overwriting |
| `ByType.Contributing` | get-bytypedata.py:130-132 | a facet contributes iff its version was asked for and has ADI |
| `ByType.HangCorrected` | get-bytypedata.py:153-154 | when both buckets exist, the new `OOP Plugin` plus `Hang Plugin` equals the old `OOP Plugin`; otherwise nothing changes; no bucket other than `OOP Plugin` changes |
| `ByType.DayResult` | get-bytypedata.py:95-157 | a new day entry always has non-zero ADI and a sorted version list |
| `ByType.FoldHangInto` | get-bytypedata.py:136-140 | the hang loop computes the `T`-term fold |
| `ByType.FoldVersionInto` | get-bytypedata.py:135-152 | one contributing version's hang and process-type loops compute `FoldVersion` |
| `ByType.FoldFacetsInto` | get-bytypedata.py:129-152 | the facet loop computes the day's tally `FoldFacets` |
| `ByType.FinishInto` | get-bytypedata.py:153-157 | the hang correction, the version sort and the ADI test compute the day's entry from its tally |
| `ByType.FetchDay` | get-bytypedata.py:85-157 | the day body computes `DayResult` |
| `ByType.VisitInto` | get-bytypedata.py:74-157 | one visit replaces the day's entry by the step applied to it, leaving every other day as it is |
| `ByType.Run` | get-bytypedata.py:74-162 | the written list has strictly ascending days and lists exactly the store after the day loop |
| `ByType.FoldHangEffect` | get-bytypedata.py:136-140 | `Hang Plugin` grows by the weighted `T` count; it exists iff it did before or a `T` term was seen; nothing else changes |
| `ByType.FoldVersionConserves` | get-bytypedata.py:135-152 | per contributing version, all buckets except `Hang Plugin` grow by exactly `count * tfactor` |
| `ByType.FoldVersionHang` | get-bytypedata.py:136-140 | per contributing version, `Hang Plugin` grows only by the weighted `T` count |
| `ByType.FoldFacetsContributors` | get-bytypedata.py:130-134 | the day's `versions` are exactly the contributing terms, and its `adi` is the sum of their ADI |
| `ByType.FoldFacetsTotals` | get-bytypedata.py:129-152 | over the day, the non-hang buckets sum to the contributors' weighted count, and `Hang Plugin` to their weighted `T` count |
| `ByType.FoldFacetsHangPresent` | get-bytypedata.py:136-140 | `Hang Plugin` exists iff some contributor reported a `T` term |
| `ByType.DayResultFetchErrors` | get-bytypedata.py:104-127 | a reply without `hits`, or without `facets.version`, gives no entry |
| `ByType.DayResultComputed` | get-bytypedata.py:129-157 | with both replies, an entry exists iff the contributors' ADI sum is non-zero; the entry holds that sum, the contributors' terms sorted, and the hang-corrected fold |
| `ByType.StepSettles` | get-bytypedata.py:74-77 | visiting a day a second time changes nothing |
| `ByType.RunEntry` | get-bytypedata.py:74-157 | an unlisted day, or a complete day that is not forced, keeps its entry; a recomputed day takes the new entry, or keeps the old one when there is none |
| `ByType.RunKeepsStore` | get-bytypedata.py:74-162 | every stored day survives; every entry is either the old one or a new one with non-zero ADI |
| `ByType.RunIdempotent` | get-bytypedata.py:74-157 | with the same replies, a second run leaves the store as it is |
| `ByType.HangCorrectionExample` | get-bytypedata.py:153-154 | 200 and 50 give 150; with no hang bucket, `OOP Plugin` is unchanged |
| `ByType.ReleaseDayExample` | get-bytypedata.py:129-157 | throttle 10, count 120, 20 plugin crashes and 5 hangs give `Hang Plugin` 50, `OOP Plugin` 150 and `Browser` 1000, with ADI 500000 |
| `Category.RuleFold` | get-categorydata.py:176-193 | a category's fold succeeds iff every facet version has a tfactor; it is split iff the category is |
| `Category.RuleStep` | get-categorydata.py:159-193 | one category adds its own name to the day's categories exactly when it applies to the product |
| `Category.RuleStepReplyErrors` | get-categorydata.py:176-191 | an applicable category whose reply lacks `facets` raises KeyError on `facets`, and one whose `facets` lack `version` raises KeyError on `version` |
| `Category.Skip` | get-categorydata.py:138 | a day is left alone when it is stored and not forced, or when there is no by-type data for it |
| `Category.RulesFold` | get-categorydata.py:157-193 | the day's categories are exactly the applicable ones |
| `Category.RuleInto` | get-categorydata.py:176-193 | one category's loops compute `RuleFold` and, on success, its raw count |
| `Category.RuleStepInto` | get-categorydata.py:159-193 | one pass of the category loop computes `RuleStep` |
| `Category.RulesInto` | get-categorydata.py:157-193 | the category loop computes `RulesFold`; the first exception ends it |
| `Category.FetchDay` | get-categorydata.py:147-195 | the day body computes the day's data, or `None` when `allcount` is zero |
| `Category.VisitInto` | get-categorydata.py:136-195 | one visit applies the skip test and stores a counted day |
| `Category.Run` | get-categorydata.py:136-200 | a run raises exactly when the day loop does; otherwise the written list is the store after the loop, with strictly ascending days |
| `Category.ReportsTable` | get-categorydata.py:25-82 | six categories with distinct names; only `shutdownhang` is a single total; `shutdownhang` and `address:pure` are desktop-only |
| `Category.ReportsKeepScope` | get-categorydata.py:165-174 | a category's parameters win over the base query but never touch its product, version, date or aggregation keys |
| `Category.RuleFoldFirstError` | get-categorydata.py:178-192 | the KeyError names the first facet version without a tfactor |
| `Category.RuleFoldConserves` | get-categorydata.py:176-192 | split buckets, and a single total alike, add up to the weighted count of the versions |
| `Category.SplitBucketNames` | get-categorydata.py:176-187 | split buckets are named by the reported process terms as they are, plus `browser` exactly when some version was reported |
| `Category.SplitBucketsCover` | get-categorydata.py:176-183 | every process type a version of a split category reported has its own bucket |
| `Category.RulesFoldNoFault` | get-categorydata.py:175-192 | the categories raise nothing iff every applicable category's reply has `facets.version` and names only versions with a tfactor |
| `Category.RulesFoldValue` | get-categorydata.py:159-192 | each category's stored value is its own reply folded |
| `Category.RulesFoldCount` | get-categorydata.py:158-193 | with non-negative counts, `allcount` is zero iff no applicable category counted a report |
| `Category.CategoryNames` | get-categorydata.py:159-161 | a stored day has all six categories for Firefox and the four non-desktop ones otherwise |
| `Category.DayDataCategories` | get-categorydata.py:157-195 | a day raises nothing iff every reply is well formed; each stored value is that category's reply folded |
| `Category.VisitSettles` | get-categorydata.py:136-139 | visiting a day a second time changes nothing |
| `Category.FinalIsFold` | get-categorydata.py:136-195 | a run that raises nothing is the day-by-day fold of its visits |
| `Category.FinalFaults` | get-categorydata.py:136-195 | a run raises only what some listed day with by-type data raises, and raises nothing when no listed day can |
| `Category.RunEntry` | get-categorydata.py:136-195 | unlisted days, days without by-type data, and stored days that are not forced keep their entry; a visited day takes its data when categories counted reports |
| `Category.RunIdempotent` | get-categorydata.py:136-200 | when no listed day raises, the run finishes, and a second run with the same replies leaves the store as it is |
| `Daily.Put` | get-dailydata.py:73-75 | writes one version and day, creating the version's map; every other version and day keeps its entry |
| `Daily.Latest` | get-dailydata.py:76-77 | the new `maxday` is the later of the old one and the day |
| `Daily.MergeHitInto` | get-dailydata.py:69-77 | one record's statements compute `MergeHit` |
| `Daily.MergeRecordsInto` | get-dailydata.py:68-77 | the inner loop merges one version's records; the first exception ends it |
| `Daily.MergeInto` | get-dailydata.py:67-77 | the two nested loops merge all records in visiting order |
| `Daily.SortVersionDays` | get-dailydata.py:85 | one version's days come out strictly ascending, listing exactly its map |
| `Daily.SortDays` | get-dailydata.py:84-85 | the version loop keeps the version order and sorts every version's days |
| `Daily.DaysSortedAt` | get-dailydata.py:84-85 | each written version is in the store, with its days strictly ascending and listing exactly its map |
| `Daily.SortStore` | get-dailydata.py:83-85 | versions come out strictly ascending, each once, and each version's days strictly ascending, listing exactly its map |
| `Daily.Run` | get-dailydata.py:47-85 | a run raises exactly when the pass does; otherwise it writes the merged store sorted on both levels and reports whether `maxday` is before yesterday |
| `Daily.DailyVersions` | get-dailydata.py:49-54 | the versions asked for are exactly those of the product with an end date after the window start |
| `Daily.CrashesZero` | get-dailydata.py:70-72 | with a non-zero tfactor, weighted crashes are zero iff the report count is |
| `Daily.GoodHit` | get-dailydata.py:69-72 | as written, a record raises nothing iff its version has a tfactor and it has reports; as intended, iff its version has a tfactor |
| `Daily.MergeAllSucceeds` | get-dailydata.py:67-75 | the loops finish iff no record raises |
| `Daily.MergeAllFirstFault` | get-dailydata.py:67-75 | the exception is the one the first bad record raises |
| `Daily.MergeAllMaxday` | get-dailydata.py:59-77 | `maxday` is the old one or some record's day, and not below any record's day or the old one; it stays `None` iff it was and there are no records |
| `Daily.LastKept` | get-dailydata.py:73-75 | finds a kept record for a version and day that no later kept record for them follows, or none when no record for them is kept |
| `Daily.MergeAllStore` | get-dailydata.py:67-75 | each version and day holds the entry of its last kept record, weighted by that version's tfactor, or else its old entry; a version is in the store iff it was before or some record of it was kept |
| `Daily.DailyOutcome` | get-dailydata.py:59-79 | a pass succeeds iff there is a record and none raises; with no records it raises TypeError; `behind` holds iff `maxday` is before yesterday |
| `Daily.AduOnlyRecord` | get-dailydata.py:72 | as written, a record with 0 reports and 5000 ADU raises NameError |
| `Daily.AduOnlyRecordKept` | get-dailydata.py:72-75 | as intended, the same record is stored with 0 crashes and its 5000 ADU, and becomes `maxday` |
| `Daily.IntendedMerge` | get-dailydata.py:72-75 | the intended test fails only on an unknown version (KeyError), and agrees with the code as written whenever that finishes |

## Left out

- File input and output: reading and writing the JSON stores, `os.chdir`, `sys.exit`, `print` and `getDataPath`.
- Daily.Run: the merge does not carry over from one run to the next. The daily script reads `<product>-daily.json` but writes `<product>-daily.json.new`, so the next run starts again from the old file. The by-type and category scripts write back to the file they read.
- The API wrapper `getFromAPI` and the HTTP calls. The replies are inputs: function fields of `Socorro.Services`, so the same request always gets the same reply.
- The scripts `get-socorrodata.py` and `apiuse.py`.
- The date helpers `dayStringBeforeDelta`, `dayStringAdd`, `beforeTodayString`, `dayList` and `verifyForcedDates`. Their code is not part of this model. The first two are uninterpreted functions in `Services`. The day list, forced dates, window start and yesterday are inputs.
- `DataUtils.AgeDays`: the lengths of the duration strings are a reading of them, since the helper that interprets them is not part of this model.
- The loops over products and channels, the Platforms request and the ProductVersions catalog request (`get-bytypedata.py` lines 41-56). Each module models one (product, channel) pass, or one product pass for the daily merge. The catalog and platforms are inputs.
- Floating-point rounding. Weighted values are exact reals.
- Python 2 integer division in `100 / throttle` for an integer throttle.
- `ByType.Throttled`, `Category.Throttled`, `Daily.Throttled`: these require a non-zero throttle for every catalog entry the script might divide by. The by-type and category predicates cover all entries of the product and channel. The code raises ZeroDivisionError only for an entry inside a day's window.
- Missing `facets.process_type` or `facets.plugin_hang` sub-facets (a KeyError in the code): every facet version carries both lists.
- A CrashesPerAdu reply without `hits`: the reply is the `hits` dictionary itself.
- The order in which Python 2 iterates dictionaries. Categories are visited in table order. This affects only which exception is raised first when several could be. Replies are visited in the order given. Bucket dictionaries are maps without order.
- Unicode case mapping in `str.capitalize`: only ASCII letters change case.
- How `list.sort()` sorts: only its result is claimed, a sorted permutation.

## Findings

| source | as written | input that shows it | evidently intended | confidence | as-written member | corrected member |
|---|---|---|---|---|---|---|
| get-dailydata.py:72 | `if crashes or adi:` reads the name `adi`, which the script never defines, so any record with zero crashes raises NameError and ends the run | a record `{version: "45.0", report_count: 0, adu: 5000}` for a requested version | `if crashes or adu:`: store records that have crashes or ADU | high, not executed | `Daily.AduOnlyRecord` | `Daily.IntendedMerge` |

The `Daily.Variant` parameter selects between the two. With `AsWritten`,
`Daily.Run` follows the code. With `Intended`, it follows the corrected
test: `Daily.IntendedMerge` proves that only an unknown version can stop
the merge, and that the result agrees with the code whenever the code
finishes. `Daily.AduOnlyRecordKept` shows the corrected test storing the
record that `Daily.AduOnlyRecord` shows raising.
