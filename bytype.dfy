/**
 * The by-type daily aggregation of get-bytypedata.py: for each day of the
 * run, crash counts per process type (`Browser`, `OOP Plugin`, `Hang Plugin`,
 * and the other capitalised process types), weighted by each version's
 * sampling correction, together with the day's ADI total.
 */
module ByType {
  import opened Outcomes
  import opened StrOrder
  import opened Socorro
  import opened Versions
  import opened Buckets
  import DayStore

  /** One stored day: `{'versions': [...], 'adi': n, 'crashes': {...}}`. */
  datatype TypeDay = TypeDay(versions: seq<string>, adi: int, crashes: map<string, real>)

  /** What one (product, channel) pass of the script works with. */
  datatype Job = Job(
    product: string,
    channel: string,
    catalog: seq<VersionInfo>,  // the ProductVersions hits (`all_versions`)
    platforms: seq<string>,     // the names of the Platforms reply
    forced: set<string>,        // the forced dates
    services: Services)

  /** No catalog entry the job might divide by has a zero throttle. */
  predicate Throttled(job: Job)
  {
    ChannelThrottled(job.catalog, job.product, job.channel)
  }

  /** The versions of the job's product and channel that started after the day's cutoff. */
  function EligibleOn(job: Job, day: string): Eligibility
  {
    ChannelWindow(job.product, job.channel, job.services.dayBefore, day)
  }

  function ResolveOn(job: Job, day: string): (r: Resolved)
    requires Throttled(job)
    ensures forall v :: v in r.versions ==> v in r.tfactor
  {
    ChannelWindowThrottled(job.catalog, job.product, job.channel, job.services.dayBefore, day);
    Resolve(job.catalog, EligibleOn(job, day))
  }

  /**
   * Whether a day is (re)computed, given its stored entry: unless it is
   * forced, a day with stored non-zero ADI is left alone.
   */
  predicate Refetch(job: Job, day: string, stored: Option<TypeDay>)
  {
    day in job.forced || stored.None? || stored.value.adi == 0
  }

  /** The `adi` dictionary built from the ADI hits (a later hit overwrites). */
  function AdiMap(hits: seq<AdiHit>): (adi: map<string, int>)
    ensures forall v :: v in adi <==> exists h :: h in hits && h.version == v
  {
    if hits == [] then map[]
    else
      var init, h := hits[..|hits| - 1], hits[|hits| - 1];
      assert hits == init + [h];
      AdiMap(init)[h.version := h.adiCount]
  }

  /** A version's ADI is the `adi_count` of its last hit. */
  lemma {:induction false} AdiMapLastWins(hits: seq<AdiHit>, i: nat)
    requires i < |hits|
    requires forall j :: i < j < |hits| ==> hits[j].version != hits[i].version
    ensures hits[i].version in AdiMap(hits)
    ensures AdiMap(hits)[hits[i].version] == hits[i].adiCount
    decreases |hits|
  {
    if i < |hits| - 1 {
      AdiMapLastWins(hits[..|hits| - 1], i);
    }
  }

  function AdiRequest(job: Job, versions: seq<string>, day: string): AdiQuery
  {
    AdiQuery(job.product, versions, day, day, job.platforms)
  }

  /** The SuperSearch query of one day: versions faceted by process type and hang flag. */
  function SearchQuery(job: Job, versions: seq<string>, day: string): Query
  {
    map[
      "product" := Str(job.product),
      "version" := Strs(versions),
      "date" := Strs([">=" + day, "<" + job.services.nextDay(day)]),
      "_aggs.version" := Strs(["process_type", "plugin_hang"]),
      "_results_number" := Int(0)
    ]
  }

  /** Adds each `T` (hung) plugin-hang count, weighted, to `Hang Plugin`. */
  function FoldHang(m: map<string, real>, hs: seq<Bucket>, tfactor: real): map<string, real>
  {
    if hs == [] then m
    else
      var p := FoldHang(m, hs[..|hs| - 1], tfactor);
      var h := hs[|hs| - 1];
      if h.term == "T" then Add(p, HangPlugin, Weighted(h.count, tfactor)) else p
  }

  /** The raw count of the `T` terms of a plugin-hang facet. */
  function HangCount(hs: seq<Bucket>): int
  {
    if hs == [] then 0
    else
      var h := hs[|hs| - 1];
      HangCount(hs[..|hs| - 1]) + if h.term == "T" then h.count else 0
  }

  /** Everything one version adds to the day's buckets. */
  function FoldVersion(m: map<string, real>, f: VersionFacet, tfactor: real): map<string, real>
  {
    FoldProcessVersion(FoldHang(m, f.pluginHang, tfactor), f, tfactor, ByType)
  }

  /** A facet version counts only when it was asked for and has ADI. */
  predicate Contributes(f: VersionFacet, versions: seq<string>, adi: map<string, int>)
  {
    f.term in versions && f.term in adi
  }

  /** The facet versions that contribute, in reply order. */
  function Contributing(fs: seq<VersionFacet>, versions: seq<string>, adi: map<string, int>): (cs: seq<VersionFacet>)
    ensures forall f :: f in cs <==> f in fs && Contributes(f, versions, adi)
  {
    if fs == [] then []
    else
      var init, f := fs[..|fs| - 1], fs[|fs| - 1];
      assert fs == init + [f];
      Contributing(init, versions, adi) + if Contributes(f, versions, adi) then [f] else []
  }

  function Terms(cs: seq<VersionFacet>): (ts: seq<string>)
    ensures |ts| == |cs|
    ensures forall i :: 0 <= i < |cs| ==> ts[i] == cs[i].term
  {
    if cs == [] then [] else Terms(cs[..|cs| - 1]) + [cs[|cs| - 1].term]
  }

  function AdiSum(cs: seq<VersionFacet>, adi: map<string, int>): int
    requires forall f :: f in cs ==> f.term in adi
  {
    if cs == [] then 0 else AdiSum(cs[..|cs| - 1], adi) + adi[cs[|cs| - 1].term]
  }

  /** Σ weighted `T` hang counts over versions. */
  function HangTotal(cs: seq<VersionFacet>, tfactor: map<string, real>): real
    requires forall f :: f in cs ==> f.term in tfactor
  {
    if cs == [] then 0.0
    else
      var f := cs[|cs| - 1];
      HangTotal(cs[..|cs| - 1], tfactor) + Weighted(HangCount(f.pluginHang), tfactor[f.term])
  }

  /** The day under construction: `versions`, `adi` and `crashes` before the final touches. */
  datatype Tally = Tally(versions: seq<string>, adi: int, crashes: map<string, real>)

  /** The loop over `facets.version`. */
  function FoldFacets(fs: seq<VersionFacet>, versions: seq<string>, tfactor: map<string, real>, adi: map<string, int>): Tally
    requires forall v :: v in versions ==> v in tfactor
  {
    if fs == [] then Tally([], 0, map[])
    else
      var t := FoldFacets(fs[..|fs| - 1], versions, tfactor, adi);
      var f := fs[|fs| - 1];
      if Contributes(f, versions, adi) then
        Tally(t.versions + [f.term], t.adi + adi[f.term], FoldVersion(t.crashes, f, tfactor[f.term]))
      else t
  }

  /**
   * The hang correction: hangs are also counted as plugin crashes, so
   * `OOP Plugin` loses what `Hang Plugin` holds when both buckets exist.
   */
  function HangCorrected(m: map<string, real>): (r: map<string, real>)
    ensures r.Keys == m.Keys
    ensures forall k :: k in m && k != OopPlugin ==> r[k] == m[k]
    ensures OopPlugin in m && HangPlugin in m ==> r[OopPlugin] + r[HangPlugin] == m[OopPlugin]
    ensures OopPlugin in m && HangPlugin !in m ==> r[OopPlugin] == m[OopPlugin]
  {
    if OopPlugin in m && HangPlugin in m then m[OopPlugin := m[OopPlugin] - m[HangPlugin]] else m
  }

  /**
   * The new entry for one day, or why there is none: a reply without the
   * field the script reads next, or an ADI total of zero.
   */
  function DayResult(job: Job, day: string): (r: Result<TypeDay, Skip>)
    requires Throttled(job)
    ensures r.Ok? ==> r.value.adi != 0 && Sorted(r.value.versions)
  {
    var res := ResolveOn(job, day);
    match job.services.adi(AdiRequest(job, res.versions, day))
    case AdiMissing => Err(FetchError)
    case AdiHits(hits) =>
      match job.services.superSearch(SearchQuery(job, res.versions, day))
      case NoFacets => Err(FetchError)
      case NoVersionFacet => Err(FetchError)
      case Facets(fs) =>
        Finish(FoldFacets(fs, res.versions, res.tfactor, AdiMap(hits)))
  }

  /** The day's entry from its tally: sorted versions, hang-corrected buckets, or no data. */
  function Finish(t: Tally): Result<TypeDay, Skip>
  {
    if t.adi != 0 then Ok(TypeDay(Sort(t.versions), t.adi, HangCorrected(t.crashes)))
    else Err(NoData)
  }

  /** One visit of the day loop: the day's entry afterwards. */
  function Step(job: Job, day: string, stored: Option<TypeDay>): Option<TypeDay>
    requires Throttled(job)
  {
    if !Refetch(job, day, stored) then stored
    else
      match DayResult(job, day)
      case Ok(v) => Some(v)
      case Err(_) => stored
  }

  function Update(job: Job): (string, Option<TypeDay>) -> Option<TypeDay>
    requires Throttled(job)
  {
    (day, stored) => Step(job, day, stored)
  }

  /** The store after the day loop. */
  function Final(job: Job, days: seq<string>, stored: map<string, TypeDay>): map<string, TypeDay>
    requires Throttled(job)
  {
    DayStore.Fold(stored, days, Update(job))
  }

  // ---------------------------------------------------------------------
  // The script's loops

  /** The hang loop of one version. */
  method FoldHangInto(crashes: map<string, real>, hs: seq<Bucket>, tfactor: real) returns (r: map<string, real>)
    ensures r == FoldHang(crashes, hs, tfactor)
  {
    r := crashes;
    for i := 0 to |hs|
      invariant r == FoldHang(crashes, hs[..i], tfactor)
    {
      assert hs[..i + 1][..i] == hs[..i];
      if hs[i].term == "T" {
        r := AddInto(r, HangPlugin, Weighted(hs[i].count, tfactor));
      }
    }
    assert hs[..|hs|] == hs;
  }

  /** The loop that fills `adi` from the ADI hits. */
  method BuildAdi(hits: seq<AdiHit>) returns (adi: map<string, int>)
    ensures adi == AdiMap(hits)
  {
    adi := map[];
    for i := 0 to |hits|
      invariant adi == AdiMap(hits[..i])
    {
      assert hits[..i + 1][..i] == hits[..i];
      adi := adi[hits[i].version := hits[i].adiCount];
    }
    assert hits[..|hits|] == hits;
  }

  /** One facet version's statements: the hang loop, then the process-type loop. */
  method FoldVersionInto(crashes: map<string, real>, f: VersionFacet, tfactor: real) returns (r: map<string, real>)
    ensures r == FoldVersion(crashes, f, tfactor)
  {
    r := FoldHangInto(crashes, f.pluginHang, tfactor);
    r := FoldProcessInto(r, f, tfactor, ByType);
  }

  /** The loop over `facets.version`. */
  method FoldFacetsInto(fs: seq<VersionFacet>, versions: seq<string>, tfactor: map<string, real>, adi: map<string, int>)
    returns (t: Tally)
    requires forall v :: v in versions ==> v in tfactor
    ensures t == FoldFacets(fs, versions, tfactor, adi)
  {
    var dayVersions: seq<string>, total, crashes := [], 0, map[];
    for i := 0 to |fs|
      invariant Tally(dayVersions, total, crashes) == FoldFacets(fs[..i], versions, tfactor, adi)
    {
      var f := fs[i];
      assert fs[..i + 1][..i] == fs[..i];
      if f.term in versions && f.term in adi {
        dayVersions := dayVersions + [f.term];
        total := total + adi[f.term];
        crashes := FoldVersionInto(crashes, f, tfactor[f.term]);
      }
    }
    assert fs[..|fs|] == fs;
    t := Tally(dayVersions, total, crashes);
  }

  /** The body of the day loop after the skip test. */
  method FetchDay(job: Job, day: string) returns (r: Result<TypeDay, Skip>)
    requires Throttled(job)
    ensures r == DayResult(job, day)
  {
    var versions, tfactor := ResolveVersions(job.catalog, EligibleOn(job, day));
    var adiReply := job.services.adi(AdiRequest(job, versions, day));
    if adiReply.AdiMissing? {
      return Err(FetchError);
    }
    var adi := BuildAdi(adiReply.hits);
    var results := job.services.superSearch(SearchQuery(job, versions, day));
    if !results.Facets? {
      return Err(FetchError);
    }
    var t := FoldFacetsInto(results.versions, versions, tfactor, adi);
    r := FinishInto(t);
  }

  /** The hang correction, the version sort and the zero-ADI test after the facet loop. */
  method FinishInto(t: Tally) returns (r: Result<TypeDay, Skip>)
    ensures r == Finish(t)
  {
    var dayVersions, total, crashes := t.versions, t.adi, t.crashes;
    if OopPlugin in crashes && HangPlugin in crashes {
      crashes := crashes[OopPlugin := crashes[OopPlugin] - crashes[HangPlugin]];
    }
    dayVersions := Sort(dayVersions);
    if total != 0 {
      r := Ok(TypeDay(dayVersions, total, crashes));
    } else {
      r := Err(NoData);
    }
  }

  /** One pass of the day loop: the skip test, then the fetch and the store update. */
  method VisitInto(job: Job, day: string, store: map<string, TypeDay>) returns (r: map<string, TypeDay>)
    requires Throttled(job)
    ensures r == DayStore.Put(store, day, Update(job)(day, DayStore.Lookup(store, day)))
  {
    DayStore.PutSame(store, day);
    r := store;
    if day !in job.forced && day in store && store[day].adi != 0 {
      // already complete
    } else {
      var res := FetchDay(job, day);
      if res.Ok? {
        r := store[day := res.value];
      }
    }
  }

  /**
   * One (product, channel) pass: the day loop over `stored`, then the store
   * sorted by day as it is written back.
   */
  method Run(job: Job, days: seq<string>, stored: map<string, TypeDay>) returns (written: seq<(string, TypeDay)>)
    requires Throttled(job)
    ensures StrictlyIncreasing(KeysOf(written))
    ensures Lists(written, Final(job, days, stored))
  {
    var store := stored;
    for i := 0 to |days|
      invariant store == DayStore.Fold(stored, days[..i], Update(job))
    {
      assert days[..i + 1][..i] == days[..i];
      store := VisitInto(job, days[i], store);
    }
    assert days[..|days|] == days;
    written := SortedItems(store);
  }

  // ---------------------------------------------------------------------
  // Properties of the per-version fold

  /** The hang loop grows `Hang Plugin` by the weighted `T` count and touches nothing else. */
  lemma {:induction false} FoldHangEffect(m: map<string, real>, hs: seq<Bucket>, tfactor: real)
    ensures Value(FoldHang(m, hs, tfactor), HangPlugin) == Value(m, HangPlugin) + Weighted(HangCount(hs), tfactor)
    ensures forall k :: k != HangPlugin ==> Value(FoldHang(m, hs, tfactor), k) == Value(m, k)
    ensures FoldHang(m, hs, tfactor).Keys - {HangPlugin} == m.Keys - {HangPlugin}
    ensures HangPlugin in FoldHang(m, hs, tfactor) <==> HangPlugin in m || exists h :: h in hs && h.term == "T"
    ensures SumExcept(FoldHang(m, hs, tfactor), {HangPlugin}) == SumExcept(m, {HangPlugin})
    decreases |hs|
  {
    if hs != [] {
      var init, h := hs[..|hs| - 1], hs[|hs| - 1];
      assert hs == init + [h];
      FoldHangEffect(m, init, tfactor);
      var p := FoldHang(m, init, tfactor);
      if h.term == "T" {
        AddSumExcept(p, {HangPlugin}, HangPlugin, Weighted(h.count, tfactor));
        WeightedAdd(HangCount(init), h.count, tfactor);
      }
    }
  }

  /**
   * For one contributing version the process buckets plus `Browser` (every
   * bucket but `Hang Plugin`) grow by exactly the version's weighted count.
   */
  lemma FoldVersionConserves(m: map<string, real>, f: VersionFacet, tfactor: real)
    ensures SumExcept(FoldVersion(m, f, tfactor), {HangPlugin}) == SumExcept(m, {HangPlugin}) + Weighted(f.count, tfactor)
  {
    FoldHangEffect(m, f.pluginHang, tfactor);
    forall p | p in f.processType ensures BucketName(ByType, p.term) !in {HangPlugin} {
      ByTypeNameNotHang(p.term);
    }
    ByTypeNameNotHang("");
    ProcessVersionSum(FoldHang(m, f.pluginHang, tfactor), f, tfactor, ByType, {HangPlugin});
  }

  /** `Hang Plugin` grows only by the version's weighted `T` hang count. */
  lemma FoldVersionHang(m: map<string, real>, f: VersionFacet, tfactor: real)
    ensures Value(FoldVersion(m, f, tfactor), HangPlugin) == Value(m, HangPlugin) + Weighted(HangCount(f.pluginHang), tfactor)
    ensures HangPlugin in FoldVersion(m, f, tfactor) <==> HangPlugin in m || exists h :: h in f.pluginHang && h.term == "T"
  {
    FoldHangEffect(m, f.pluginHang, tfactor);
    var hung := FoldHang(m, f.pluginHang, tfactor);
    forall p | p in f.processType ensures BucketName(ByType, p.term) != HangPlugin {
      ByTypeNameNotHang(p.term);
    }
    ByTypeNameNotHang("");
    FoldBucketsKeeps(hung, f.processType, tfactor, ByType, HangPlugin);
  }

  // ---------------------------------------------------------------------
  // Properties of the day's fold

  lemma TermsSnoc(cs: seq<VersionFacet>, f: VersionFacet)
    ensures Terms(cs + [f]) == Terms(cs) + [f.term]
  {
    assert (cs + [f])[..|cs|] == cs;
  }

  /**
   * Only facet versions that were asked for and have ADI contribute: the
   * day's `versions` are exactly their terms and its `adi` the sum of their
   * ADI counts.
   */
  lemma {:induction false} FoldFacetsContributors(fs: seq<VersionFacet>, versions: seq<string>, tfactor: map<string, real>, adi: map<string, int>)
    requires forall v :: v in versions ==> v in tfactor
    ensures FoldFacets(fs, versions, tfactor, adi).versions == Terms(Contributing(fs, versions, adi))
    ensures FoldFacets(fs, versions, tfactor, adi).adi == AdiSum(Contributing(fs, versions, adi), adi)
    decreases |fs|
  {
    if fs != [] {
      var init, f := fs[..|fs| - 1], fs[|fs| - 1];
      FoldFacetsContributors(init, versions, tfactor, adi);
      var cs := Contributing(init, versions, adi);
      if Contributes(f, versions, adi) {
        TermsSnoc(cs, f);
        assert (cs + [f])[..|cs|] == cs;
      } else {
        assert cs + [] == cs;
      }
    }
  }

  /**
   * Over the whole day, the buckets other than `Hang Plugin` add up to the
   * weighted crash count of the contributing versions, and `Hang Plugin` to
   * their weighted `T` hang count.
   */
  lemma {:induction false} FoldFacetsTotals(fs: seq<VersionFacet>, versions: seq<string>, tfactor: map<string, real>, adi: map<string, int>)
    requires forall v :: v in versions ==> v in tfactor
    ensures SumExcept(FoldFacets(fs, versions, tfactor, adi).crashes, {HangPlugin}) == WeightedCount(Contributing(fs, versions, adi), tfactor)
    ensures Value(FoldFacets(fs, versions, tfactor, adi).crashes, HangPlugin) == HangTotal(Contributing(fs, versions, adi), tfactor)
    decreases |fs|
  {
    if fs != [] {
      var init, f := fs[..|fs| - 1], fs[|fs| - 1];
      FoldFacetsTotals(init, versions, tfactor, adi);
      var cs := Contributing(init, versions, adi);
      var t := FoldFacets(init, versions, tfactor, adi);
      if Contributes(f, versions, adi) {
        FoldVersionConserves(t.crashes, f, tfactor[f.term]);
        FoldVersionHang(t.crashes, f, tfactor[f.term]);
        assert (cs + [f])[..|cs|] == cs;
      } else {
        assert cs + [] == cs;
      }
    }
  }

  /** `Hang Plugin` exists exactly when some contributing version reported a `T` hang term. */
  lemma {:induction false} FoldFacetsHangPresent(fs: seq<VersionFacet>, versions: seq<string>, tfactor: map<string, real>, adi: map<string, int>)
    requires forall v :: v in versions ==> v in tfactor
    ensures HangPlugin in FoldFacets(fs, versions, tfactor, adi).crashes
        <==> exists f, h :: f in Contributing(fs, versions, adi) && h in f.pluginHang && h.term == "T"
    decreases |fs|
  {
    if fs != [] {
      var init, f := fs[..|fs| - 1], fs[|fs| - 1];
      FoldFacetsHangPresent(init, versions, tfactor, adi);
      var t := FoldFacets(init, versions, tfactor, adi);
      if Contributes(f, versions, adi) {
        FoldVersionHang(t.crashes, f, tfactor[f.term]);
      }
    }
  }

  /** A reply without `hits` or without `facets.version` leaves no entry for the day. */
  lemma DayResultFetchErrors(job: Job, day: string)
    requires Throttled(job)
    ensures job.services.adi(AdiRequest(job, ResolveOn(job, day).versions, day)).AdiMissing?
        ==> DayResult(job, day) == Err(FetchError)
    ensures job.services.adi(AdiRequest(job, ResolveOn(job, day).versions, day)).AdiHits?
        && !job.services.superSearch(SearchQuery(job, ResolveOn(job, day).versions, day)).Facets?
        ==> DayResult(job, day) == Err(FetchError)
  {
  }

  /**
   * With both replies present, the day has an entry exactly when the
   * contributing versions' ADI adds up to non-zero; its `versions` are their
   * terms sorted, its `adi` that sum, and its buckets the hang-corrected fold.
   */
  lemma DayResultComputed(job: Job, day: string, hits: seq<AdiHit>, fs: seq<VersionFacet>)
    requires Throttled(job)
    requires job.services.adi(AdiRequest(job, ResolveOn(job, day).versions, day)) == AdiHits(hits)
    requires job.services.superSearch(SearchQuery(job, ResolveOn(job, day).versions, day)) == Facets(fs)
    ensures var res := ResolveOn(job, day);
      var cs := Contributing(fs, res.versions, AdiMap(hits));
      && (DayResult(job, day).Ok? <==> AdiSum(cs, AdiMap(hits)) != 0)
      && (DayResult(job, day).Err? ==> DayResult(job, day).error == NoData)
      && (DayResult(job, day).Ok? ==>
            && DayResult(job, day).value.adi == AdiSum(cs, AdiMap(hits))
            && Sorted(DayResult(job, day).value.versions)
            && multiset(DayResult(job, day).value.versions) == multiset(Terms(cs))
            && DayResult(job, day).value.crashes == HangCorrected(FoldFacets(fs, res.versions, res.tfactor, AdiMap(hits)).crashes))
  {
    var res := ResolveOn(job, day);
    FoldFacetsContributors(fs, res.versions, res.tfactor, AdiMap(hits));
  }

  // ---------------------------------------------------------------------
  // Properties of the store

  /** Once a day has been visited, visiting it again gives the same entry. */
  lemma StepSettles(job: Job, day: string, stored: Option<TypeDay>)
    requires Throttled(job)
    ensures Step(job, day, Step(job, day, stored)) == Step(job, day, stored)
  {
  }

  /**
   * What the day loop does to one day: days not listed, and listed days
   * that are complete and not forced, keep their entry; a recomputed day
   * gets the new entry if there is one and keeps its old one otherwise.
   */
  lemma RunEntry(job: Job, days: seq<string>, stored: map<string, TypeDay>, day: string)
    requires Throttled(job)
    ensures day !in days ==> DayStore.Lookup(Final(job, days, stored), day) == DayStore.Lookup(stored, day)
    ensures day in days && !Refetch(job, day, DayStore.Lookup(stored, day))
        ==> DayStore.Lookup(Final(job, days, stored), day) == DayStore.Lookup(stored, day)
    ensures day in days && Refetch(job, day, DayStore.Lookup(stored, day)) && DayResult(job, day).Ok?
        ==> DayStore.Lookup(Final(job, days, stored), day) == Some(DayResult(job, day).value)
    ensures day in days && DayResult(job, day).Err?
        ==> DayStore.Lookup(Final(job, days, stored), day) == DayStore.Lookup(stored, day)
  {
    StepSettles(job, day, DayStore.Lookup(stored, day));
    DayStore.FoldLookup(stored, days, Update(job), day);
  }

  /**
   * The written store keeps every stored day, and each entry is either the
   * stored one or a freshly computed one with non-zero ADI.
   */
  lemma RunKeepsStore(job: Job, days: seq<string>, stored: map<string, TypeDay>)
    requires Throttled(job)
    ensures stored.Keys <= Final(job, days, stored).Keys
    ensures forall day :: day in Final(job, days, stored) ==>
      || (day in stored && Final(job, days, stored)[day] == stored[day])
      || (day in days && DayResult(job, day) == Ok(Final(job, days, stored)[day]) && Final(job, days, stored)[day].adi != 0)
  {
    var fin := Final(job, days, stored);
    forall day ensures day in stored ==> day in fin {
      RunEntry(job, days, stored, day);
    }
    forall day | day in fin
      ensures || (day in stored && fin[day] == stored[day])
              || (day in days && DayResult(job, day) == Ok(fin[day]) && fin[day].adi != 0)
    {
      RunEntry(job, days, stored, day);
      assert DayStore.Lookup(fin, day) == Some(fin[day]);
    }
  }

  /**
   * Running the script again on its own output, with the same replies,
   * leaves the store as it is.
   */
  lemma RunIdempotent(job: Job, days: seq<string>, stored: map<string, TypeDay>)
    requires Throttled(job)
    ensures Final(job, days, Final(job, days, stored)) == Final(job, days, stored)
  {
    forall e ensures Update(job)(e, Update(job)(e, DayStore.Lookup(stored, e))) == Update(job)(e, DayStore.Lookup(stored, e)) {
      StepSettles(job, e, DayStore.Lookup(stored, e));
    }
    DayStore.FoldTwice(stored, days, Update(job));
  }

  // ---------------------------------------------------------------------
  // Worked examples

  /** Hang correction: 200 and 50 give 150; without hangs nothing changes. */
  lemma HangCorrectionExample()
    ensures HangCorrected(map[OopPlugin := 200.0, HangPlugin := 50.0])[OopPlugin] == 150.0
    ensures HangCorrected(map[OopPlugin := 40.0])[OopPlugin] == 40.0
  {
  }

  /**
   * One release version with throttle 10 (tfactor 10), 120 crashes of which
   * 20 in plugins and 5 hung plugins, and 500000 ADI: `Hang Plugin` 50,
   * `OOP Plugin` 200 - 50 = 150, `Browser` (120 - 20) * 10 = 1000.
   */
  lemma ReleaseDayExample()
    ensures var f := VersionFacet("120.0", 120, [Bucket("plugin", 20)], [Bucket("T", 5)]);
      var t := FoldFacets([f], ["120.0"], map["120.0" := Tfactor(10.0)], map["120.0" := 500000]);
      && t.versions == ["120.0"]
      && t.adi == 500000
      && HangCorrected(t.crashes) == map[HangPlugin := 50.0, OopPlugin := 150.0, "Browser" := 1000.0]
  {
    var f := VersionFacet("120.0", 120, [Bucket("plugin", 20)], [Bucket("T", 5)]);
    assert Tfactor(10.0) == 10.0;
    var hung := FoldHang(map[], f.pluginHang, 10.0);
    assert [Bucket("T", 5)][..0] == [];
    assert hung == map[HangPlugin := 50.0];
    assert [Bucket("plugin", 20)][..0] == [];
    assert RawSum(f.processType) == 20;
    assert FoldBuckets(hung, f.processType, 10.0, ByType) == map[HangPlugin := 50.0, OopPlugin := 200.0];
    assert FoldVersion(map[], f, 10.0) == map[HangPlugin := 50.0, OopPlugin := 200.0, "Browser" := 1000.0];
    assert [f][..0] == [];
  }
}
