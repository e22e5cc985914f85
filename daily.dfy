/**
 * The per-version daily merge of get-dailydata.py: the versions of a
 * product still current at the start of the window, their crashes-per-ADU
 * records written into a store of version -> day -> entry, the latest day
 * seen, and the store written to `<product>-daily.json.new` (not the file it
 * was read from), sorted on both levels.
 */
module Daily {
  import opened Outcomes
  import opened StrOrder
  import opened Socorro
  import opened Versions

  /** What one product's pass of the script works with. */
  datatype Job = Job(
    product: string,
    catalog: seq<VersionInfo>,  // the CurrentVersions reply
    dayStart: string,           // the first day of the window
    dayEnd: string,             // yesterday
    services: Services)

  /** Versions of the product whose end date is after the first day of the window. */
  function Window(job: Job): Eligibility
  {
    EndsAfter(job.product, job.dayStart)
  }

  predicate Throttled(job: Job)
  {
    ThrottlesKnown(job.catalog, Window(job))
  }

  function Request(job: Job, versions: seq<string>): CpaQuery
  {
    CpaQuery(job.product, versions, job.dayStart, job.dayEnd)
  }

  /** One stored day of one version: `{'crashes': ..., 'adu': ...}`. */
  datatype DailyEntry = DailyEntry(crashes: real, adu: int)

  /** version -> day -> entry. */
  type Store = map<string, map<string, DailyEntry>>

  /** The state the hit loop carries: the store and `maxday`. */
  datatype Merge = Merge(store: Store, maxday: Option<string>)

  /**
   * The hit test as written (`crashes or adi`, where `adi` names nothing)
   * and as evidently intended (`crashes or adu`).
   */
  datatype Variant = AsWritten | Intended

  /** The records of a reply in the order the two nested loops visit them. */
  function Flatten(hits: CpaHits): (r: seq<(string, CpaRecord)>)
    decreases |hits|
  {
    if hits == [] then [] else Flatten(hits[..|hits| - 1]) + hits[|hits| - 1].1
  }

  /** The entry stored for a version and day, if any. */
  function Lookup(store: Store, ver: string, day: string): Option<DailyEntry>
  {
    if ver in store && day in store[ver] then Some(store[ver][day]) else None
  }

  /** `proddata[ver][day] = e`, creating the version's map if needed. */
  function Put(store: Store, ver: string, day: string, e: DailyEntry): (r: Store)
    ensures r.Keys == store.Keys + {ver}
    ensures forall v, d :: Lookup(r, v, d) == if v == ver && d == day then Some(e) else Lookup(store, v, d)
  {
    store[ver := (if ver in store then store[ver] else map[])[day := e]]
  }

  /** `maxday` after seeing a day: the later of the two. */
  function Latest(maxday: Option<string>, day: string): (r: Option<string>)
    ensures r.Some?
    ensures r.value == day || r == maxday
    ensures !Less(r.value, day)
    ensures maxday.Some? ==> !Less(r.value, maxday.value)
  {
    LessIrreflexive(day);
    if maxday.None? then Some(day)
    else if Less(maxday.value, day) then
      LessAsymmetric(maxday.value, day);
      Some(day)
    else
      LessIrreflexive(maxday.value);
      maxday
  }

  /** A hit is written to the store. */
  predicate Kept(hit: (string, CpaRecord), tfactor: map<string, real>, variant: Variant)
  {
    && hit.1.version in tfactor
    && (Weighted(hit.1.reportCount, tfactor[hit.1.version]) != 0.0 || (variant == Intended && hit.1.adu != 0))
  }

  /** A hit raises nothing. */
  predicate Good(hit: (string, CpaRecord), tfactor: map<string, real>, variant: Variant)
  {
    hit.1.version in tfactor && (variant == Intended || Weighted(hit.1.reportCount, tfactor[hit.1.version]) != 0.0)
  }

  /** What a hit that is not good raises. */
  function FaultOf(hit: (string, CpaRecord), tfactor: map<string, real>): Fault
  {
    if hit.1.version !in tfactor then KeyError(hit.1.version) else NameError("adi")
  }

  /** The entry a kept hit writes: the report count weighted by its own version's tfactor. */
  function EntryOf(hit: (string, CpaRecord), tfactor: map<string, real>): DailyEntry
    requires hit.1.version in tfactor
  {
    DailyEntry(Weighted(hit.1.reportCount, tfactor[hit.1.version]), hit.1.adu)
  }

  /** The body of the inner hit loop. */
  function MergeHit(m: Merge, hit: (string, CpaRecord), tfactor: map<string, real>, variant: Variant): Result<Merge, Fault>
  {
    if !Good(hit, tfactor, variant) then Err(FaultOf(hit, tfactor))
    else if Kept(hit, tfactor, variant) then Ok(Merge(Put(m.store, hit.1.version, hit.0, EntryOf(hit, tfactor)), Latest(m.maxday, hit.0)))
    else Ok(Merge(m.store, Latest(m.maxday, hit.0)))
  }

  /** The two hit loops over the flattened records; the first exception ends them. */
  function MergeAll(m: Merge, hits: seq<(string, CpaRecord)>, tfactor: map<string, real>, variant: Variant): Result<Merge, Fault>
    decreases |hits|
  {
    if hits == [] then Ok(m)
    else
      match MergeAll(m, hits[..|hits| - 1], tfactor, variant)
      case Err(e) => Err(e)
      case Ok(p) => MergeHit(p, hits[|hits| - 1], tfactor, variant)
  }

  /** What a pass produces: the merged store, the latest day, and whether it is before yesterday. */
  datatype Merged = Merged(store: Store, maxday: string, behind: bool)

  /**
   * One product's pass: the merge of every record, then the `maxday <
   * day_end` check, which raises TypeError when there was no record at all
   * (`maxday` is still `None` and is concatenated to a string).
   */
  function Outcome(job: Job, stored: Store, variant: Variant): Result<Merged, Fault>
    requires Throttled(job)
  {
    var res := Resolve(job.catalog, Window(job));
    var hits := Flatten(job.services.crashesPerAdu(Request(job, res.versions)));
    match MergeAll(Merge(stored, None), hits, res.tfactor, variant)
    case Err(e) => Err(e)
    case Ok(m) =>
      if m.maxday.None? then Err(TypeError)
      else Ok(Merged(m.store, m.maxday.value, Less(m.maxday.value, job.dayEnd)))
  }

  /** One version's days as they are written: in order, each once. */
  ghost predicate SortedDays(days: seq<(string, DailyEntry)>, m: map<string, DailyEntry>)
  {
    StrictlyIncreasing(KeysOf(days)) && Lists(days, m)
  }

  /** Every written version is in the store, with its days written as `SortedDays`. */
  ghost predicate DaysSorted(out: seq<(string, seq<(string, DailyEntry)>)>, store: Store)
    decreases |out|
  {
    out != [] ==>
      var last := out[|out| - 1];
      && last.0 in store && SortedDays(last.1, store[last.0])
      && DaysSorted(out[..|out| - 1], store)
  }

  /** The store as it is written: versions in order, each once, each with its days in order. */
  ghost predicate SortedStore(out: seq<(string, seq<(string, DailyEntry)>)>, store: Store)
  {
    && StrictlyIncreasing(KeysOf(out))
    && (forall v :: v in store ==> v in KeysOf(out))
    && DaysSorted(out, store)
  }

  /** What `DaysSorted` says about each written version. */
  lemma {:induction false} DaysSortedAt(out: seq<(string, seq<(string, DailyEntry)>)>, store: Store, i: nat)
    requires DaysSorted(out, store) && i < |out|
    ensures out[i].0 in store && SortedDays(out[i].1, store[out[i].0])
    decreases |out|
  {
    if i < |out| - 1 {
      DaysSortedAt(out[..|out| - 1], store, i);
    }
  }

  // ---------------------------------------------------------------------
  // The script's loops

  lemma {:induction false} FlattenPrefix(hits: CpaHits, i: nat)
    requires i <= |hits|
    ensures |Flatten(hits[..i])| <= |Flatten(hits)|
    ensures Flatten(hits)[..|Flatten(hits[..i])|] == Flatten(hits[..i])
    decreases |hits|
  {
    if i < |hits| {
      var init := hits[..|hits| - 1];
      assert init[..i] == hits[..i];
      FlattenPrefix(init, i);
    } else {
      assert hits[..i] == hits;
    }
  }

  lemma {:induction false} MergeAllSticky(m: Merge, hits: seq<(string, CpaRecord)>, tfactor: map<string, real>, variant: Variant, k: nat)
    requires k <= |hits| && MergeAll(m, hits[..k], tfactor, variant).Err?
    ensures MergeAll(m, hits, tfactor, variant) == MergeAll(m, hits[..k], tfactor, variant)
    decreases |hits|
  {
    if k < |hits| {
      var init := hits[..|hits| - 1];
      assert init[..k] == hits[..k];
      MergeAllSticky(m, init, tfactor, variant, k);
    } else {
      assert hits[..k] == hits;
    }
  }

  /** Merging two runs of records is merging the second from where the first left off. */
  lemma {:induction false} MergeAllAppend(m: Merge, xs: seq<(string, CpaRecord)>, ys: seq<(string, CpaRecord)>, tfactor: map<string, real>, variant: Variant)
    ensures MergeAll(m, xs + ys, tfactor, variant) == match MergeAll(m, xs, tfactor, variant)
      case Err(e) => Err(e)
      case Ok(p) => MergeAll(p, ys, tfactor, variant)
    decreases |ys|
  {
    if ys == [] {
      assert xs + ys == xs;
    } else {
      var init := ys[..|ys| - 1];
      assert (xs + ys)[..|xs + ys| - 1] == xs + init;
      MergeAllAppend(m, xs, init, tfactor, variant);
    }
  }

  /** The body of the inner hit loop. */
  method MergeHitInto(store: Store, maxday: Option<string>, hit: (string, CpaRecord), tfactor: map<string, real>, variant: Variant)
    returns (r: Result<Merge, Fault>)
    ensures r == MergeHit(Merge(store, maxday), hit, tfactor, variant)
  {
    var (day, pvd) := hit;
    var ver := pvd.version;
    if ver !in tfactor {
      return Err(KeyError(ver));
    }
    var crashes := Weighted(pvd.reportCount, tfactor[ver]);
    var adu := pvd.adu;
    var s := store;
    if crashes != 0.0 || (variant == Intended && adu != 0) {
      var days := if ver in s then s[ver] else map[];
      s := s[ver := days[day := DailyEntry(crashes, adu)]];
    } else if variant == AsWritten {
      return Err(NameError("adi"));
    }
    var latest := maxday;
    if latest.None? || Less(latest.value, day) {
      latest := Some(day);
    }
    r := Ok(Merge(s, latest));
  }

  /** The inner hit loop over one version's records. */
  method MergeRecordsInto(m: Merge, pvdata: seq<(string, CpaRecord)>, tfactor: map<string, real>, variant: Variant)
    returns (r: Result<Merge, Fault>)
    ensures r == MergeAll(m, pvdata, tfactor, variant)
  {
    var store, maxday := m.store, m.maxday;
    for j := 0 to |pvdata|
      invariant MergeAll(m, pvdata[..j], tfactor, variant) == Ok(Merge(store, maxday))
    {
      assert pvdata[..j + 1][..j] == pvdata[..j];
      var next := MergeHitInto(store, maxday, pvdata[j], tfactor, variant);
      if next.Err? {
        MergeAllSticky(m, pvdata, tfactor, variant, j + 1);
        return Err(next.error);
      }
      store, maxday := next.value.store, next.value.maxday;
    }
    assert pvdata[..|pvdata|] == pvdata;
    r := Ok(Merge(store, maxday));
  }

  /** The two nested hit loops. */
  method MergeInto(stored: Store, hits: CpaHits, tfactor: map<string, real>, variant: Variant)
    returns (r: Result<Merge, Fault>)
    ensures r == MergeAll(Merge(stored, None), Flatten(hits), tfactor, variant)
  {
    ghost var start := Merge(stored, None);
    var m := Merge(stored, None);
    for i := 0 to |hits|
      invariant MergeAll(start, Flatten(hits[..i]), tfactor, variant) == Ok(m)
    {
      assert hits[..i + 1][..i] == hits[..i];
      assert Flatten(hits[..i + 1]) == Flatten(hits[..i]) + hits[i].1;
      MergeAllAppend(start, Flatten(hits[..i]), hits[i].1, tfactor, variant);
      var next := MergeRecordsInto(m, hits[i].1, tfactor, variant);
      if next.Err? {
        FlattenPrefix(hits, i + 1);
        MergeAllSticky(start, Flatten(hits), tfactor, variant, |Flatten(hits[..i + 1])|);
        return Err(next.error);
      }
      m := next.value;
    }
    assert hits[..|hits|] == hits;
    r := Ok(m);
  }

  lemma VersionsIncreasing(out: seq<(string, seq<(string, DailyEntry)>)>, items: seq<(string, map<string, DailyEntry>)>)
    requires StrictlyIncreasing(KeysOf(items))
    requires |out| == |items|
    requires forall j :: 0 <= j < |out| ==> out[j].0 == items[j].0
    ensures StrictlyIncreasing(KeysOf(out))
  {
    SameKeys(out, items);
  }

  lemma VersionsListed(out: seq<(string, seq<(string, DailyEntry)>)>, items: seq<(string, map<string, DailyEntry>)>, store: Store)
    requires Lists(items, store)
    requires |out| == |items|
    requires forall j :: 0 <= j < |out| ==> out[j].0 == items[j].0
    ensures forall v :: v in store ==> v in KeysOf(out)
  {
    SameKeys(out, items);
    forall v ensures v in store ==> v in KeysOf(out) {
      ListedKeys(items, store, v);
    }
  }

  /** Appending the next listed version, its days sorted, keeps every version's days sorted. */
  lemma DaysSortedSnoc(out: seq<(string, seq<(string, DailyEntry)>)>, store: Store,
                       items: seq<(string, map<string, DailyEntry>)>, i: nat, days: seq<(string, DailyEntry)>)
    requires DaysSorted(out, store)
    requires i < |items| && items[i].0 in store && store[items[i].0] == items[i].1
    requires SortedDays(days, items[i].1)
    ensures DaysSorted(out + [(items[i].0, days)], store)
  {
    assert (out + [(items[i].0, days)])[..|out|] == out;
  }

  /** `sorted(pvdata.items(), key=lambda t: t[0])` on one version's days. */
  method SortVersionDays(m: map<string, DailyEntry>) returns (days: seq<(string, DailyEntry)>)
    ensures SortedDays(days, m)
  {
    days := SortedItems(m);
  }

  /** The loop that sorts each version's days, in the given version order. */
  method SortDays(items: seq<(string, map<string, DailyEntry>)>, store: Store)
    returns (out: seq<(string, seq<(string, DailyEntry)>)>)
    requires forall j :: 0 <= j < |items| ==> items[j].0 in store && store[items[j].0] == items[j].1
    ensures |out| == |items|
    ensures forall j :: 0 <= j < |out| ==> out[j].0 == items[j].0
    ensures DaysSorted(out, store)
  {
    out := [];
    for i := 0 to |items|
      invariant |out| == i
      invariant forall j :: 0 <= j < i ==> out[j].0 == items[j].0
      invariant DaysSorted(out, store)
    {
      var days := SortVersionDays(items[i].1);
      DaysSortedSnoc(out, store, items, i, days);
      out := out + [(items[i].0, days)];
    }
  }

  /** The two-level sort of the store as it is written to the `.new` file. */
  method SortStore(store: Store) returns (out: seq<(string, seq<(string, DailyEntry)>)>)
    ensures SortedStore(out, store)
  {
    var items := SortedItems(store);
    out := SortDays(items, store);
    VersionsIncreasing(out, items);
    VersionsListed(out, items, store);
  }

  /**
   * One product's pass: versions and tfactors, the CrashesPerAdu request,
   * the hit loops, the `maxday` check and the sorted store.
   */
  method Run(job: Job, stored: Store, variant: Variant)
    returns (r: Result<(seq<(string, seq<(string, DailyEntry)>)>, bool), Fault>)
    requires Throttled(job)
    ensures r.Err? <==> Outcome(job, stored, variant).Err?
    ensures r.Err? ==> r.error == Outcome(job, stored, variant).error
    ensures r.Ok? ==> SortedStore(r.value.0, Outcome(job, stored, variant).value.store)
    ensures r.Ok? ==> r.value.1 == Outcome(job, stored, variant).value.behind
  {
    var versions, tfactor := ResolveVersions(job.catalog, Window(job));
    var hits := job.services.crashesPerAdu(Request(job, versions));
    var m := MergeInto(stored, hits, tfactor, variant);
    if m.Err? {
      return Err(m.error);
    }
    if m.value.maxday.None? {
      return Err(TypeError);
    }
    var behind := Less(m.value.maxday.value, job.dayEnd);
    var out := SortStore(m.value.store);
    r := Ok((out, behind));
  }

  // ---------------------------------------------------------------------
  // Properties of the version selection

  /**
   * The versions asked for are exactly those of a catalog entry for the
   * product whose end date is after the first day of the window.
   */
  lemma DailyVersions(job: Job)
    requires Throttled(job)
    ensures forall v :: v in Resolve(job.catalog, Window(job)).versions <==>
      exists e :: e in job.catalog && e.product == job.product && Less(job.dayStart, e.endDate) && e.version == v
    ensures forall v :: v in Resolve(job.catalog, Window(job)).tfactor ==> Resolve(job.catalog, Window(job)).tfactor[v] != 0.0
  {
  }

  // ---------------------------------------------------------------------
  // Properties of the hit loops

  /** With a non-zero tfactor, a record's weighted crashes are zero exactly when its report count is. */
  lemma CrashesZero(count: int, tfactor: real)
    requires tfactor != 0.0
    ensures Weighted(count, tfactor) == 0.0 <==> count == 0
  {
    if count != 0 {
      assert count as real != 0.0;
    }
  }

  /**
   * As written, a record raises nothing exactly when its version was asked
   * for and it has a non-zero report count; as intended, when its version
   * was asked for.
   */
  lemma GoodHit(hit: (string, CpaRecord), tfactor: map<string, real>, variant: Variant)
    requires forall v :: v in tfactor ==> tfactor[v] != 0.0
    ensures Good(hit, tfactor, variant) <==>
      hit.1.version in tfactor && (variant == Intended || hit.1.reportCount != 0)
  {
    if hit.1.version in tfactor {
      CrashesZero(hit.1.reportCount, tfactor[hit.1.version]);
    }
  }

  /** The hit loops finish exactly when every record raises nothing. */
  lemma {:induction false} MergeAllSucceeds(m: Merge, hits: seq<(string, CpaRecord)>, tfactor: map<string, real>, variant: Variant)
    ensures MergeAll(m, hits, tfactor, variant).Ok? <==> forall h :: h in hits ==> Good(h, tfactor, variant)
    decreases |hits|
  {
    if hits != [] {
      var init := hits[..|hits| - 1];
      assert hits == init + [hits[|hits| - 1]];
      MergeAllSucceeds(m, init, tfactor, variant);
    }
  }

  /** An exception is the one the first bad record raises. */
  lemma {:induction false} MergeAllFirstFault(m: Merge, hits: seq<(string, CpaRecord)>, tfactor: map<string, real>, variant: Variant)
    ensures MergeAll(m, hits, tfactor, variant).Err? ==> exists i :: (
      && 0 <= i < |hits|
      && !Good(hits[i], tfactor, variant)
      && MergeAll(m, hits, tfactor, variant).error == FaultOf(hits[i], tfactor)
      && forall j :: 0 <= j < i ==> Good(hits[j], tfactor, variant))
    decreases |hits|
  {
    if hits != [] {
      var init := hits[..|hits| - 1];
      assert hits == init + [hits[|hits| - 1]];
      MergeAllFirstFault(m, init, tfactor, variant);
      MergeAllSucceeds(m, init, tfactor, variant);
      if MergeAll(m, init, tfactor, variant).Err? {
        var i :| 0 <= i < |init| && !Good(init[i], tfactor, variant)
          && MergeAll(m, init, tfactor, variant).error == FaultOf(init[i], tfactor)
          && forall j :: 0 <= j < i ==> Good(init[j], tfactor, variant);
        assert hits[i] == init[i];
      } else {
        assert forall j :: 0 <= j < |init| ==> init[j] in init;
      }
    }
  }

  /**
   * `maxday` ends as the latest day of all records (and of the day it
   * started from), and stays `None` only when there was none.
   */
  lemma {:induction false} MergeAllMaxday(m: Merge, hits: seq<(string, CpaRecord)>, tfactor: map<string, real>, variant: Variant)
    requires MergeAll(m, hits, tfactor, variant).Ok?
    ensures var r := MergeAll(m, hits, tfactor, variant).value;
      && (r.maxday.Some? <==> m.maxday.Some? || hits != [])
      && (forall h :: h in hits ==> !Less(r.maxday.value, h.0))
      && (m.maxday.Some? ==> !Less(r.maxday.value, m.maxday.value))
      && (r.maxday.Some? ==> r.maxday == m.maxday || exists h :: h in hits && h.0 == r.maxday.value)
    decreases |hits|
  {
    if hits != [] {
      var init, h := hits[..|hits| - 1], hits[|hits| - 1];
      assert hits == init + [h];
      MergeAllSucceeds(m, hits, tfactor, variant);
      MergeAllSucceeds(m, init, tfactor, variant);
      MergeAllMaxday(m, init, tfactor, variant);
      var p := MergeAll(m, init, tfactor, variant).value;
      var r := MergeAll(m, hits, tfactor, variant).value;
      assert r.maxday == Latest(p.maxday, h.0);
      forall g | g in hits ensures !Less(r.maxday.value, g.0) {
        if g in init {
          NotLessTransitive(r.maxday.value, p.maxday.value, g.0);
        }
      }
      if m.maxday.Some? {
        NotLessTransitive(r.maxday.value, p.maxday.value, m.maxday.value);
      }
    } else if m.maxday.Some? {
      LessIrreflexive(m.maxday.value);
    }
  }

  /** The last kept record for a version and day, if any. */
  function LastKept(hits: seq<(string, CpaRecord)>, ver: string, day: string, tfactor: map<string, real>, variant: Variant)
    : (r: Option<(string, CpaRecord)>)
    ensures r.Some? ==> r.value in hits && r.value.0 == day && r.value.1.version == ver && Kept(r.value, tfactor, variant)
    ensures r.None? ==> forall h :: h in hits && h.0 == day && h.1.version == ver ==> !Kept(h, tfactor, variant)
    ensures r.Some? ==> exists i :: 0 <= i < |hits| && hits[i] == r.value &&
                          (forall j :: i < j < |hits| && hits[j].0 == day && hits[j].1.version == ver ==> !Kept(hits[j], tfactor, variant))
    decreases |hits|
  {
    if hits == [] then None
    else
      var init, h := hits[..|hits| - 1], hits[|hits| - 1];
      assert hits == init + [h];
      if h.0 == day && h.1.version == ver && Kept(h, tfactor, variant) then Some(h)
      else LastKept(init, ver, day, tfactor, variant)
  }

  /**
   * After the hit loops, each version and day holds the entry of its last
   * kept record, weighted by that version's tfactor, or what it held
   * before; a version appears only when it had one before or a kept record.
   */
  lemma {:induction false} MergeAllStore(m: Merge, hits: seq<(string, CpaRecord)>, tfactor: map<string, real>, variant: Variant)
    requires MergeAll(m, hits, tfactor, variant).Ok?
    ensures forall v, d :: (
      Lookup(MergeAll(m, hits, tfactor, variant).value.store, v, d) ==
        if LastKept(hits, v, d, tfactor, variant).Some? then Some(EntryOf(LastKept(hits, v, d, tfactor, variant).value, tfactor))
        else Lookup(m.store, v, d))
    ensures forall v :: v in MergeAll(m, hits, tfactor, variant).value.store <==>
      v in m.store || exists h :: h in hits && h.1.version == v && Kept(h, tfactor, variant)
    decreases |hits|
  {
    if hits != [] {
      var init, h := hits[..|hits| - 1], hits[|hits| - 1];
      assert hits == init + [h];
      MergeAllStore(m, init, tfactor, variant);
      var p := MergeAll(m, init, tfactor, variant).value;
      var r := MergeAll(m, hits, tfactor, variant).value;
      var kept := Kept(h, tfactor, variant);
      assert r.store == if kept then Put(p.store, h.1.version, h.0, EntryOf(h, tfactor)) else p.store;
      forall v, d ensures Lookup(r.store, v, d) ==
        if LastKept(hits, v, d, tfactor, variant).Some? then Some(EntryOf(LastKept(hits, v, d, tfactor, variant).value, tfactor))
        else Lookup(m.store, v, d)
      {
        if !(h.0 == d && h.1.version == v && kept) {
          assert LastKept(hits, v, d, tfactor, variant) == LastKept(init, v, d, tfactor, variant);
        }
      }
      forall v ensures v in r.store <==> v in m.store || exists g :: g in hits && g.1.version == v && Kept(g, tfactor, variant) {
        if v in p.store && v !in m.store {
          var g :| g in init && g.1.version == v && Kept(g, tfactor, variant);
          assert g in hits;
        }
        if kept && h.1.version == v {
          assert h in hits;
        }
        if exists g :: g in hits && g.1.version == v && Kept(g, tfactor, variant) {
          var g :| g in hits && g.1.version == v && Kept(g, tfactor, variant);
          if g != h {
            assert g in init;
          }
        }
      }
    }
  }

  // ---------------------------------------------------------------------
  // Properties of one product's pass

  /**
   * A pass writes a store exactly when there is at least one record and
   * none raises; with no record at all it raises TypeError. The latest
   * day is the latest record day, and the pass is behind exactly when
   * that day is before yesterday.
   */
  lemma DailyOutcome(job: Job, stored: Store, variant: Variant)
    requires Throttled(job)
    ensures var res := Resolve(job.catalog, Window(job));
      var hits := Flatten(job.services.crashesPerAdu(Request(job, res.versions)));
      && (Outcome(job, stored, variant).Ok? <==> hits != [] && forall h :: h in hits ==> Good(h, res.tfactor, variant))
      && (Outcome(job, stored, variant) == Err(TypeError) <==> hits == [])
      && (Outcome(job, stored, variant).Ok? ==>
            && (exists h :: h in hits && h.0 == Outcome(job, stored, variant).value.maxday)
            && (forall h :: h in hits ==> !Less(Outcome(job, stored, variant).value.maxday, h.0))
            && (Outcome(job, stored, variant).value.behind <==> Less(Outcome(job, stored, variant).value.maxday, job.dayEnd)))
  {
    var res := Resolve(job.catalog, Window(job));
    var hits := Flatten(job.services.crashesPerAdu(Request(job, res.versions)));
    var start := Merge(stored, None);
    MergeAllSucceeds(start, hits, res.tfactor, variant);
    MergeAllFirstFault(start, hits, res.tfactor, variant);
    if MergeAll(start, hits, res.tfactor, variant).Ok? {
      MergeAllMaxday(start, hits, res.tfactor, variant);
    }
  }

  // ---------------------------------------------------------------------
  // The `adi` name in the hit test

  /**
   * A record with no crashes but with ADU: as written, the hit test reaches
   * the undefined name `adi` and the run stops.
   */
  lemma AduOnlyRecord()
    ensures MergeHit(Merge(map[], None), ("2016-03-01", CpaRecord("45.0", 0, 5000)), map["45.0" := 1.0], AsWritten)
      == Err(NameError("adi"))
  {
    assert Weighted(0, 1.0) == 0.0;
  }

  /** With the intended test, the same record is stored with its ADU. */
  lemma AduOnlyRecordKept()
    ensures MergeHit(Merge(map[], None), ("2016-03-01", CpaRecord("45.0", 0, 5000)), map["45.0" := 1.0], Intended)
      == Ok(Merge(map["45.0" := map["2016-03-01" := DailyEntry(0.0, 5000)]], Some("2016-03-01")))
  {
    var hit := ("2016-03-01", CpaRecord("45.0", 0, 5000));
    var tfactor := map["45.0" := 1.0];
    assert Good(hit, tfactor, Intended) && Kept(hit, tfactor, Intended);
    assert EntryOf(hit, tfactor) == DailyEntry(0.0, 5000);
    assert Latest(None, hit.0) == Some(hit.0);
  }


  /**
   * As intended, only a version that was not asked for stops the hit loops,
   * and whenever the loops as written finish, the intended ones finish with
   * the same store and day.
   */
  lemma {:induction false} IntendedMerge(m: Merge, hits: seq<(string, CpaRecord)>, tfactor: map<string, real>)
    ensures MergeAll(m, hits, tfactor, Intended).Ok? <==> forall h :: h in hits ==> h.1.version in tfactor
    ensures MergeAll(m, hits, tfactor, Intended).Err? ==> MergeAll(m, hits, tfactor, Intended).error.KeyError?
    ensures MergeAll(m, hits, tfactor, AsWritten).Ok? ==> MergeAll(m, hits, tfactor, Intended) == MergeAll(m, hits, tfactor, AsWritten)
    decreases |hits|
  {
    MergeAllSucceeds(m, hits, tfactor, Intended);
    MergeAllFirstFault(m, hits, tfactor, Intended);
    if hits != [] {
      var init := hits[..|hits| - 1];
      assert hits == init + [hits[|hits| - 1]];
      IntendedMerge(m, init, tfactor);
    }
  }
}
