/**
 * The per-category daily aggregation of get-categorydata.py: for each day
 * that already has by-type data, one SuperSearch per crash category
 * (startup crashes, out-of-memory crashes, shutdown hangs, bare-address
 * crashes), each weighted by the versions' sampling corrections and, for
 * most categories, split by process type.
 */
module Category {
  import opened Outcomes
  import opened StrOrder
  import opened Socorro
  import opened Versions
  import opened Buckets
  import DayStore

  /** One entry of the `reports` table. */
  datatype Rule = Rule(
    name: string,
    params: Query,      // SuperSearch parameters that select the category
    processSplit: bool, // count per process type, or one weighted total
    desktopOnly: bool)  // only looked at for Firefox

  /** The categories, with their search parameters and flags, in table order. */
  const Reports: seq<Rule> := [Startup, Oom, OomSmall, OomLarge, ShutdownHang, AddressPure]

  const Startup := Rule("startup", map["uptime" := Str("<60")], true, false)
  const Oom := Rule("oom", map["signature" := Strs(["^js::AutoEnterOOMUnsafeRegion::crash", "^OOM |"])], true, false)
  const OomSmall := Rule("oom:small", map["signature" := Str("=OOM | small")], true, false)
  const OomLarge := Rule("oom:large", map["signature" := Str("^OOM | large |")], true, false)
  const ShutdownHang := Rule("shutdownhang", map["signature" := Str("^shutdownhang |")], false, true)
  const AddressPure := Rule("address:pure", map["signature" := Strs(["=@0x0", "^@0x1", "^@0x2", "^@0x3", "^@0x4", "^@0x5",
    "^@0x6", "^@0x7", "^@0x8", "^@0x9", "^@0xa", "^@0xb", "^@0xc", "^@0xd", "^@0xe", "^@0xf"])], true, true)

  /** Desktop-only categories are skipped for every product but Firefox. */
  predicate Applies(rule: Rule, product: string)
  {
    !(rule.desktopOnly && product != "Firefox")
  }

  /** A category's value on one day: weighted counts per process type, or one weighted total. */
  datatype CatValue = Split(buckets: map<string, real>) | Scalar(total: real)

  /** One stored day: category name to value. */
  type CatData = map<string, CatValue>

  /** What one (product, channel) pass of the script works with. */
  datatype Job = Job(
    product: string,
    channel: string,
    catalog: seq<VersionInfo>,  // the ProductVersions hits (`all_versions`)
    typeDays: set<string>,      // the days the stored by-type data has
    forced: set<string>,        // the forced dates
    services: Services)

  predicate Throttled(job: Job)
  {
    ChannelThrottled(job.catalog, job.product, job.channel)
  }

  /** The versions and tfactors for one day. */
  function ResolveOn(job: Job, day: string): Resolved
    requires Throttled(job)
  {
    ChannelWindowThrottled(job.catalog, job.product, job.channel, job.services.dayBefore, day);
    Resolve(job.catalog, ChannelWindow(job.product, job.channel, job.services.dayBefore, day))
  }

  /** The parameters every category query starts from. */
  function BaseQuery(job: Job, versions: seq<string>, day: string): Query
  {
    map[
      "product" := Str(job.product),
      "version" := Strs(versions),
      "date" := Strs([">=" + day, "<" + job.services.nextDay(day)]),
      "_aggs.version" := Strs(["process_type"]),
      "_results_number" := Int(0),
      "_facets" := Str("process_type")
    ]
  }

  /** `ssparams.update(rep['params'])`: the category's parameters win. */
  function RuleQuery(job: Job, versions: seq<string>, day: string, rule: Rule): Query
  {
    BaseQuery(job, versions, day) + rule.params
  }

  /** Adds one facet version to a category value. */
  function Absorb(v: CatValue, f: VersionFacet, tfactor: real): CatValue
  {
    match v
    case Split(m) => Split(FoldProcessVersion(m, f, tfactor, Raw))
    case Scalar(t) => Scalar(t + Weighted(f.count, tfactor))
  }

  /**
   * The loop over `facets.version` for one category; a version without a
   * `verinfo` entry raises KeyError.
   */
  function RuleFold(rule: Rule, fs: seq<VersionFacet>, tfactor: map<string, real>): (r: Result<CatValue, Fault>)
    ensures r.Ok? <==> forall f :: f in fs ==> f.term in tfactor
    ensures r.Ok? ==> r.value.Split? == rule.processSplit
    decreases |fs|
  {
    if fs == [] then Ok(if rule.processSplit then Split(map[]) else Scalar(0.0))
    else
      var init, f := fs[..|fs| - 1], fs[|fs| - 1];
      assert fs == init + [f];
      match RuleFold(rule, init, tfactor)
      case Err(e) => Err(e)
      case Ok(v) => if f.term in tfactor then Ok(Absorb(v, f, tfactor[f.term])) else Err(KeyError(f.term))
  }

  /** The day under construction: `catdata` and `allcount`. */
  datatype Tally = Tally(catdata: CatData, allcount: int)

  /**
   * One pass of the loop over the categories: skip a desktop-only category
   * for other products, else search and fold the reply into the day.
   */
  function RuleStep(job: Job, res: Resolved, day: string, t: Tally, rule: Rule): (r: Result<Tally, Fault>)
    ensures r.Ok? ==> r.value.catdata.Keys == t.catdata.Keys + (if Applies(rule, job.product) then {rule.name} else {})
  {
    if !Applies(rule, job.product) then Ok(t)
    else
      match job.services.superSearch(RuleQuery(job, res.versions, day, rule))
      case NoFacets => Err(KeyError("facets"))
      case NoVersionFacet => Err(KeyError("version"))
      case Facets(fs) =>
        match RuleFold(rule, fs, res.tfactor)
        case Err(e) => Err(e)
        case Ok(v) => Ok(Tally(t.catdata[rule.name := v], t.allcount + RawCount(fs)))
  }

  /**
   * An applicable category whose reply lacks `facets` raises KeyError on
   * `facets`; one whose `facets` lack `version` raises KeyError on `version`.
   */
  lemma RuleStepReplyErrors(job: Job, res: Resolved, day: string, t: Tally, rule: Rule)
    requires Applies(rule, job.product)
    ensures job.services.superSearch(RuleQuery(job, res.versions, day, rule)).NoFacets?
      ==> RuleStep(job, res, day, t, rule) == Err(KeyError("facets"))
    ensures job.services.superSearch(RuleQuery(job, res.versions, day, rule)).NoVersionFacet?
      ==> RuleStep(job, res, day, t, rule) == Err(KeyError("version"))
  {
  }

  /** The loop over the categories of one day. */
  function RulesFold(job: Job, res: Resolved, day: string, rules: seq<Rule>): (r: Result<Tally, Fault>)
    ensures r.Ok? ==> r.value.catdata.Keys == set rule | rule in rules && Applies(rule, job.product) :: rule.name
    decreases |rules|
  {
    if rules == [] then Ok(Tally(map[], 0))
    else
      var init, rule := rules[..|rules| - 1], rules[|rules| - 1];
      assert rules == init + [rule];
      match RulesFold(job, res, day, init)
      case Err(e) => Err(e)
      case Ok(t) => RuleStep(job, res, day, t, rule)
  }

  /**
   * One day's category data, `None` when no report of any category was
   * counted, or the exception that ends the run.
   */
  function DayData(job: Job, day: string): Result<Option<CatData>, Fault>
    requires Throttled(job)
  {
    match RulesFold(job, ResolveOn(job, day), day, Reports)
    case Err(e) => Err(e)
    case Ok(t) => Ok(if t.allcount != 0 then Some(t.catdata) else None)
  }

  /**
   * A day is left alone when it is already stored and not forced, or when
   * there is no by-type data for it.
   */
  predicate Skip(job: Job, day: string, stored: Option<CatData>)
  {
    (day !in job.forced && stored.Some?) || day !in job.typeDays
  }

  /** One visit of the day loop: the day's entry afterwards, or the exception. */
  function Visit(job: Job, day: string, stored: Option<CatData>): Result<Option<CatData>, Fault>
    requires Throttled(job)
  {
    if Skip(job, day, stored) then Ok(stored)
    else
      match DayData(job, day)
      case Err(e) => Err(e)
      case Ok(None) => Ok(stored)
      case Ok(Some(c)) => Ok(Some(c))
  }

  /** The day loop over a store; the first exception ends it. */
  function Final(job: Job, days: seq<string>, stored: map<string, CatData>): Result<map<string, CatData>, Fault>
    requires Throttled(job)
    decreases |days|
  {
    if days == [] then Ok(stored)
    else
      var d := days[|days| - 1];
      match Final(job, days[..|days| - 1], stored)
      case Err(e) => Err(e)
      case Ok(p) =>
        match Visit(job, d, DayStore.Lookup(p, d))
        case Err(e) => Err(e)
        case Ok(o) => Ok(DayStore.Put(p, d, o))
  }

  /** A visit's entry when it raises nothing. */
  function Settled(job: Job): (string, Option<CatData>) -> Option<CatData>
    requires Throttled(job)
  {
    (day, stored) => match Visit(job, day, stored) case Ok(o) => o case Err(_) => stored
  }

  // ---------------------------------------------------------------------
  // The script's loops

  lemma {:induction false} RuleFoldSticky(rule: Rule, fs: seq<VersionFacet>, tfactor: map<string, real>, j: nat)
    requires j <= |fs| && RuleFold(rule, fs[..j], tfactor).Err?
    ensures RuleFold(rule, fs, tfactor) == RuleFold(rule, fs[..j], tfactor)
    decreases |fs|
  {
    if j < |fs| {
      var init := fs[..|fs| - 1];
      assert init[..j] == fs[..j];
      RuleFoldSticky(rule, init, tfactor, j);
    } else {
      assert fs[..j] == fs;
    }
  }

  /** The loop over `facets.version` of one category, with its share of `allcount`. */
  method RuleInto(rule: Rule, fs: seq<VersionFacet>, tfactor: map<string, real>)
    returns (r: Result<CatValue, Fault>, count: int)
    ensures r == RuleFold(rule, fs, tfactor)
    ensures r.Ok? ==> count == RawCount(fs)
  {
    count := 0;
    var v := if rule.processSplit then Split(map[]) else Scalar(0.0);
    for i := 0 to |fs|
      invariant RuleFold(rule, fs[..i], tfactor) == Ok(v)
      invariant count == RawCount(fs[..i])
    {
      var f := fs[i];
      assert fs[..i + 1][..i] == fs[..i];
      if f.term !in tfactor {
        RuleFoldSticky(rule, fs, tfactor, i + 1);
        r := Err(KeyError(f.term));
        return;
      }
      if rule.processSplit {
        var m := FoldProcessInto(v.buckets, f, tfactor[f.term], Raw);
        v := Split(m);
      } else {
        v := Scalar(v.total + Weighted(f.count, tfactor[f.term]));
      }
      count := count + f.count;
    }
    assert fs[..|fs|] == fs;
    r := Ok(v);
  }

  lemma {:induction false} RulesFoldSticky(job: Job, res: Resolved, day: string, rules: seq<Rule>, j: nat)
    requires j <= |rules| && RulesFold(job, res, day, rules[..j]).Err?
    ensures RulesFold(job, res, day, rules) == RulesFold(job, res, day, rules[..j])
    decreases |rules|
  {
    if j < |rules| {
      var init := rules[..|rules| - 1];
      assert init[..j] == rules[..j];
      RulesFoldSticky(job, res, day, init, j);
    } else {
      assert rules[..j] == rules;
    }
  }

  /** One category's `continue` test, search and fold. */
  method RuleStepInto(job: Job, versions: seq<string>, tfactor: map<string, real>, day: string, t: Tally, rule: Rule)
    returns (r: Result<Tally, Fault>)
    ensures r == RuleStep(job, Resolved(versions, tfactor), day, t, rule)
  {
    if rule.desktopOnly && job.product != "Firefox" {
      return Ok(t);
    }
    var results := job.services.superSearch(RuleQuery(job, versions, day, rule));
    if results.NoFacets? {
      return Err(KeyError("facets"));
    } else if results.NoVersionFacet? {
      return Err(KeyError("version"));
    }
    var v, count := RuleInto(rule, results.versions, tfactor);
    if v.Err? {
      return Err(v.error);
    }
    r := Ok(Tally(t.catdata[rule.name := v.value], t.allcount + count));
  }

  /** The loop over the categories, for any table of them. */
  method RulesInto(job: Job, versions: seq<string>, tfactor: map<string, real>, day: string, rules: seq<Rule>)
    returns (r: Result<Tally, Fault>)
    ensures r == RulesFold(job, Resolved(versions, tfactor), day, rules)
  {
    ghost var res := Resolved(versions, tfactor);
    var t := Tally(map[], 0);
    for i := 0 to |rules|
      invariant RulesFold(job, res, day, rules[..i]) == Ok(t)
    {
      ghost var done := rules[..i + 1];
      assert done[..i] == rules[..i] && done[i] == rules[i];
      var next := RuleStepInto(job, versions, tfactor, day, t, rules[i]);
      if next.Err? {
        RulesFoldSticky(job, res, day, rules, i + 1);
        return next;
      }
      t := next.value;
    }
    assert rules[..|rules|] == rules;
    r := Ok(t);
  }

  /** The body of the day loop after the skip test. */
  method FetchDay(job: Job, day: string) returns (r: Result<Option<CatData>, Fault>)
    requires Throttled(job)
    ensures r == DayData(job, day)
  {
    var versions, tfactor := ResolveVersions(job.catalog, ChannelWindow(job.product, job.channel, job.services.dayBefore, day));
    var t := RulesInto(job, versions, tfactor, day, Reports);
    if t.Err? {
      return Err(t.error);
    }
    if t.value.allcount != 0 {
      r := Ok(Some(t.value.catdata));
    } else {
      r := Ok(None);
    }
  }

  lemma {:induction false} FinalSticky(job: Job, days: seq<string>, stored: map<string, CatData>, j: nat)
    requires Throttled(job)
    requires j <= |days| && Final(job, days[..j], stored).Err?
    ensures Final(job, days, stored) == Final(job, days[..j], stored)
    decreases |days|
  {
    if j < |days| {
      var init := days[..|days| - 1];
      assert init[..j] == days[..j];
      FinalSticky(job, init, stored, j);
    } else {
      assert days[..j] == days;
    }
  }

  /** One pass of the day loop's body over the store. */
  method VisitInto(job: Job, day: string, store: map<string, CatData>) returns (r: Result<map<string, CatData>, Fault>)
    requires Throttled(job)
    ensures r == match Visit(job, day, DayStore.Lookup(store, day))
      case Err(e) => Err(e)
      case Ok(o) => Ok(DayStore.Put(store, day, o))
  {
    if (day !in job.forced && day in store) || day !in job.typeDays {
      DayStore.PutSame(store, day);
      return Ok(store);
    }
    var data := FetchDay(job, day);
    if data.Err? {
      return Err(data.error);
    }
    if data.value.Some? {
      r := Ok(store[day := data.value.value]);
    } else {
      DayStore.PutSame(store, day);
      r := Ok(store);
    }
  }

  /**
   * One (product, channel) pass: the day loop over `stored`, then the store
   * sorted by day as it is written back; an exception writes nothing.
   */
  method Run(job: Job, days: seq<string>, stored: map<string, CatData>)
    returns (r: Result<seq<(string, CatData)>, Fault>)
    requires Throttled(job)
    ensures r.Err? <==> Final(job, days, stored).Err?
    ensures r.Err? ==> r.error == Final(job, days, stored).error
    ensures r.Ok? ==> StrictlyIncreasing(KeysOf(r.value)) && Lists(r.value, Final(job, days, stored).value)
  {
    var store := stored;
    for i := 0 to |days|
      invariant Final(job, days[..i], stored) == Ok(store)
    {
      assert days[..i + 1][..i] == days[..i];
      var next := VisitInto(job, days[i], store);
      if next.Err? {
        FinalSticky(job, days, stored, i + 1);
        return Err(next.error);
      }
      store := next.value;
    }
    assert days[..|days|] == days;
    var written := SortedItems(store);
    r := Ok(written);
  }

  // ---------------------------------------------------------------------
  // Properties of the categories table

  /**
   * Six categories with distinct names; only `shutdownhang` is counted as a
   * single total, and `shutdownhang` and `address:pure` are desktop-only.
   */
  lemma ReportsTable()
    ensures |Reports| == 6
    ensures forall i, j :: 0 <= i < j < |Reports| ==> Reports[i].name != Reports[j].name
    ensures forall rule :: rule in Reports ==> (!rule.processSplit <==> rule.name == "shutdownhang")
    ensures forall rule :: rule in Reports ==> (rule.desktopOnly <==> rule.name in {"shutdownhang", "address:pure"})
  {
  }

  /**
   * A category only narrows the search: it adds its own filter and never
   * overrides the product, the versions, the day or the aggregation.
   */
  lemma ReportsKeepScope(job: Job, versions: seq<string>, day: string)
    ensures forall rule, k :: rule in Reports && k in BaseQuery(job, versions, day) ==>
      (k !in rule.params && RuleQuery(job, versions, day, rule)[k] == BaseQuery(job, versions, day)[k])
    ensures forall rule, k :: rule in Reports && k in rule.params ==>
      RuleQuery(job, versions, day, rule)[k] == rule.params[k]
  {
    forall rule | rule in Reports ensures rule.params.Keys <= {"uptime", "signature"} {
      var i :| 0 <= i < |Reports| && Reports[i] == rule;
      if i == 0 { } else if i == 1 { } else if i == 2 { } else if i == 3 { } else if i == 4 { } else { }
    }
    assert BaseQuery(job, versions, day).Keys !! {"uptime", "signature"};
  }

  // ---------------------------------------------------------------------
  // Properties of one category's fold

  /** The exception names the first facet version that has no `verinfo` entry. */
  lemma {:induction false} RuleFoldFirstError(rule: Rule, fs: seq<VersionFacet>, tfactor: map<string, real>)
    ensures RuleFold(rule, fs, tfactor).Err? ==> exists i :: (
      && 0 <= i < |fs|
      && fs[i].term !in tfactor
      && RuleFold(rule, fs, tfactor).error == KeyError(fs[i].term)
      && forall j :: 0 <= j < i ==> fs[j].term in tfactor)
    decreases |fs|
  {
    if fs != [] {
      var init := fs[..|fs| - 1];
      RuleFoldFirstError(rule, init, tfactor);
      if RuleFold(rule, init, tfactor).Err? {
        var i :| 0 <= i < |init| && init[i].term !in tfactor
          && RuleFold(rule, init, tfactor).error == KeyError(init[i].term)
          && forall j :: 0 <= j < i ==> init[j].term in tfactor;
        assert fs[i] == init[i];
      } else {
        assert forall j :: 0 <= j < |init| ==> init[j] in init;
      }
    }
  }

  /**
   * Nothing is lost or invented: a split category's buckets add up to the
   * weighted count of its versions, and so does a single-total category.
   */
  lemma {:induction false} RuleFoldConserves(rule: Rule, fs: seq<VersionFacet>, tfactor: map<string, real>)
    requires RuleFold(rule, fs, tfactor).Ok?
    ensures match RuleFold(rule, fs, tfactor).value
      case Split(m) => SumExcept(m, {}) == WeightedCount(fs, tfactor)
      case Scalar(t) => t == WeightedCount(fs, tfactor)
    decreases |fs|
  {
    if fs == [] {
      assert SumExcept(map[], {}) == 0.0;
    } else {
      var init, f := fs[..|fs| - 1], fs[|fs| - 1];
      assert fs == init + [f];
      RuleFoldConserves(rule, init, tfactor);
      match RuleFold(rule, init, tfactor).value
      case Split(m) =>
        ProcessVersionSum(m, f, tfactor[f.term], Raw, {});
      case Scalar(t) =>
    }
  }

  /**
   * A split category's buckets are the process types its versions reported,
   * plus `browser` as soon as one version was seen.
   */
  lemma {:induction false} SplitBucketNames(rule: Rule, fs: seq<VersionFacet>, tfactor: map<string, real>)
    requires RuleFold(rule, fs, tfactor).Ok? && rule.processSplit
    ensures "browser" in RuleFold(rule, fs, tfactor).value.buckets <==> fs != []
    ensures forall k :: k in RuleFold(rule, fs, tfactor).value.buckets ==>
      k == "browser" || exists f, p :: f in fs && p in f.processType && p.term == k
    decreases |fs|
  {
    if fs != [] {
      var init, f := fs[..|fs| - 1], fs[|fs| - 1];
      assert fs == init + [f];
      SplitBucketNames(rule, init, tfactor);
      var m := RuleFold(rule, init, tfactor).value.buckets;
      forall k | k in FoldBuckets(m, f.processType, tfactor[f.term], Raw)
        ensures k in m || exists p :: p in f.processType && p.term == k
      {
        FoldBucketsNames(m, f.processType, tfactor[f.term], k);
      }
    }
  }

  /** Every process type a version of a split category reported has its bucket. */
  lemma {:induction false} SplitBucketsCover(rule: Rule, fs: seq<VersionFacet>, tfactor: map<string, real>)
    requires RuleFold(rule, fs, tfactor).Ok? && rule.processSplit
    ensures forall f, p :: f in fs && p in f.processType ==> p.term in RuleFold(rule, fs, tfactor).value.buckets
    decreases |fs|
  {
    if fs != [] {
      var init, f := fs[..|fs| - 1], fs[|fs| - 1];
      assert fs == init + [f];
      SplitBucketsCover(rule, init, tfactor);
      var m := RuleFold(rule, init, tfactor).value.buckets;
      forall g, p | g in fs && p in g.processType ensures p.term in RuleFold(rule, fs, tfactor).value.buckets {
        FoldBucketsNames(m, f.processType, tfactor[f.term], p.term);
        if g != f {
          assert g in init;
        }
      }
    }
  }

  lemma {:induction false} FoldBucketsNames(m: map<string, real>, ps: seq<Bucket>, tfactor: real, k: string)
    ensures k in FoldBuckets(m, ps, tfactor, Raw) <==> k in m || exists p :: p in ps && p.term == k
    decreases |ps|
  {
    if ps != [] {
      var init := ps[..|ps| - 1];
      assert ps == init + [ps[|ps| - 1]];
      FoldBucketsNames(m, init, tfactor, k);
    }
  }

  // ---------------------------------------------------------------------
  // Properties of one day

  /** Every search reply a day's categories get has facets naming only known versions. */
  predicate Answered(job: Job, res: Resolved, day: string, rules: seq<Rule>)
  {
    forall rule :: rule in rules && Applies(rule, job.product) ==>
      && job.services.superSearch(RuleQuery(job, res.versions, day, rule)).Facets?
      && forall f :: f in job.services.superSearch(RuleQuery(job, res.versions, day, rule)).versions ==> f.term in res.tfactor
  }

  /** The categories raise nothing exactly when every reply is answered with known versions. */
  lemma {:induction false} RulesFoldNoFault(job: Job, res: Resolved, day: string, rules: seq<Rule>)
    ensures RulesFold(job, res, day, rules).Ok? <==> Answered(job, res, day, rules)
    decreases |rules|
  {
    if rules != [] {
      var init, rule := rules[..|rules| - 1], rules[|rules| - 1];
      assert rules == init + [rule];
      RulesFoldNoFault(job, res, day, init);
    }
  }

  /**
   * The value stored for an applicable category is its own reply folded,
   * when no later category has the same name.
   */
  lemma {:induction false} RulesFoldValue(job: Job, res: Resolved, day: string, rules: seq<Rule>, i: nat)
    requires RulesFold(job, res, day, rules).Ok?
    requires i < |rules| && Applies(rules[i], job.product)
    requires forall j :: i < j < |rules| ==> rules[j].name != rules[i].name
    ensures job.services.superSearch(RuleQuery(job, res.versions, day, rules[i])).Facets?
    ensures RuleFold(rules[i], job.services.superSearch(RuleQuery(job, res.versions, day, rules[i])).versions, res.tfactor)
      == Ok(RulesFold(job, res, day, rules).value.catdata[rules[i].name])
    decreases |rules|
  {
    var init := rules[..|rules| - 1];
    assert rules == init + [rules[|rules| - 1]];
    if i < |rules| - 1 {
      RulesFoldValue(job, res, day, init, i);
    }
  }

  lemma RawCountNonNegative(fs: seq<VersionFacet>)
    requires forall f :: f in fs ==> f.count >= 0
    ensures RawCount(fs) >= 0
    ensures RawCount(fs) == 0 <==> forall f :: f in fs ==> f.count == 0
    decreases |fs|
  {
    if fs != [] {
      var init := fs[..|fs| - 1];
      assert fs == init + [fs[|fs| - 1]];
      RawCountNonNegative(init);
    }
  }

  /** No applicable category's reply counted a single report. */
  predicate Quiet(job: Job, res: Resolved, day: string, rules: seq<Rule>)
  {
    forall rule, f ::
      (&& rule in rules && Applies(rule, job.product)
       && job.services.superSearch(RuleQuery(job, res.versions, day, rule)).Facets?
       && f in job.services.superSearch(RuleQuery(job, res.versions, day, rule)).versions) ==> f.count == 0
  }

  /**
   * With non-negative counts, `allcount` is zero (and the day is not
   * stored) exactly when no category counted any report.
   */
  lemma {:induction false} RulesFoldCount(job: Job, res: Resolved, day: string, rules: seq<Rule>)
    requires RulesFold(job, res, day, rules).Ok?
    requires forall rule, f ::
      (&& rule in rules
       && job.services.superSearch(RuleQuery(job, res.versions, day, rule)).Facets?
       && f in job.services.superSearch(RuleQuery(job, res.versions, day, rule)).versions) ==> f.count >= 0
    ensures RulesFold(job, res, day, rules).value.allcount >= 0
    ensures RulesFold(job, res, day, rules).value.allcount == 0 <==> Quiet(job, res, day, rules)
    decreases |rules|
  {
    if rules != [] {
      var init, rule := rules[..|rules| - 1], rules[|rules| - 1];
      assert rules == init + [rule];
      RulesFoldCount(job, res, day, init);
      if Applies(rule, job.product) {
        RawCountNonNegative(job.services.superSearch(RuleQuery(job, res.versions, day, rule)).versions);
      }
    }
  }

  /** A stored day holds all six categories for Firefox and the four non-desktop ones otherwise. */
  lemma CategoryNames(job: Job, day: string)
    requires Throttled(job)
    ensures DayData(job, day).Ok? && DayData(job, day).value.Some? ==>
      DayData(job, day).value.value.Keys ==
        if job.product == "Firefox" then {"startup", "oom", "oom:small", "oom:large", "shutdownhang", "address:pure"}
        else {"startup", "oom", "oom:small", "oom:large"}
  {
    ApplicableNames(job.product);
  }

  lemma ApplicableNames(product: string)
    ensures (set rule | rule in Reports && Applies(rule, product) :: rule.name) ==
      if product == "Firefox" then {"startup", "oom", "oom:small", "oom:large", "shutdownhang", "address:pure"}
      else {"startup", "oom", "oom:small", "oom:large"}
  {
    var names := set rule | rule in Reports && Applies(rule, product) :: rule.name;
    var target := if product == "Firefox" then {"startup", "oom", "oom:small", "oom:large", "shutdownhang", "address:pure"}
      else {"startup", "oom", "oom:small", "oom:large"};
    forall n | n in names ensures n in target {
      var rule :| rule in Reports && Applies(rule, product) && rule.name == n;
      var i :| 0 <= i < |Reports| && Reports[i] == rule;
      if i == 0 { } else if i == 1 { } else if i == 2 { } else if i == 3 { } else if i == 4 { } else { }
    }
    assert Reports[0] in Reports && Reports[1] in Reports && Reports[2] in Reports && Reports[3] in Reports;
    if product == "Firefox" {
      assert Reports[4] in Reports && Reports[5] in Reports;
    }
  }

  /**
   * Each stored category value is that category's reply folded with the
   * day's tfactors; the day raises an exception exactly when some reply
   * lacks facets or names a version the day did not ask for.
   */
  lemma DayDataCategories(job: Job, day: string, i: nat)
    requires Throttled(job)
    requires i < |Reports| && Applies(Reports[i], job.product)
    ensures DayData(job, day).Ok? <==> Answered(job, ResolveOn(job, day), day, Reports)
    ensures DayData(job, day).Ok? && DayData(job, day).value.Some? ==>
      var q := job.services.superSearch(RuleQuery(job, ResolveOn(job, day).versions, day, Reports[i]));
      q.Facets? && RuleFold(Reports[i], q.versions, ResolveOn(job, day).tfactor) == Ok(DayData(job, day).value.value[Reports[i].name])
  {
    var res := ResolveOn(job, day);
    RulesFoldNoFault(job, res, day, Reports);
    if RulesFold(job, res, day, Reports).Ok? {
      ReportsTable();
      RulesFoldValue(job, res, day, Reports, i);
    }
  }

  // ---------------------------------------------------------------------
  // Properties of the store

  /** Once a day has been visited without an exception, visiting it again changes nothing. */
  lemma VisitSettles(job: Job, day: string, stored: Option<CatData>)
    requires Throttled(job)
    ensures Settled(job)(day, Settled(job)(day, stored)) == Settled(job)(day, stored)
  {
  }

  /** A run that raises nothing leaves the store as the pointwise fold of the visits. */
  lemma {:induction false} FinalIsFold(job: Job, days: seq<string>, stored: map<string, CatData>)
    requires Throttled(job)
    requires Final(job, days, stored).Ok?
    ensures Final(job, days, stored).value == DayStore.Fold(stored, days, Settled(job))
    decreases |days|
  {
    if days != [] {
      FinalIsFold(job, days[..|days| - 1], stored);
    }
  }

  /**
   * A run raises an exception only when a visited day does, and raises
   * none when no day of the list can.
   */
  lemma {:induction false} FinalFaults(job: Job, days: seq<string>, stored: map<string, CatData>)
    requires Throttled(job)
    ensures Final(job, days, stored).Err? ==> exists d :: d in days && d in job.typeDays && DayData(job, d) == Err(Final(job, days, stored).error)
    ensures (forall d :: d in days ==> DayData(job, d).Ok?) ==> Final(job, days, stored).Ok?
    decreases |days|
  {
    if days != [] {
      var init := days[..|days| - 1];
      assert days == init + [days[|days| - 1]];
      FinalFaults(job, init, stored);
    }
  }

  /**
   * What a run that raises nothing does to one day: days not listed,
   * days without by-type data, and stored days that are not forced keep
   * their entry; a visited day gets the new entry when categories counted
   * reports and keeps its old one otherwise.
   */
  lemma RunEntry(job: Job, days: seq<string>, stored: map<string, CatData>, day: string)
    requires Throttled(job)
    requires Final(job, days, stored).Ok?
    ensures day !in days ==> DayStore.Lookup(Final(job, days, stored).value, day) == DayStore.Lookup(stored, day)
    ensures day in days && Skip(job, day, DayStore.Lookup(stored, day))
      ==> DayStore.Lookup(Final(job, days, stored).value, day) == DayStore.Lookup(stored, day)
    ensures day in days && !Skip(job, day, DayStore.Lookup(stored, day)) ==>
      && DayData(job, day).Ok?
      && DayStore.Lookup(Final(job, days, stored).value, day)
         == if DayData(job, day).value.Some? then DayData(job, day).value else DayStore.Lookup(stored, day)
  {
    FinalIsFold(job, days, stored);
    VisitSettles(job, day, DayStore.Lookup(stored, day));
    DayStore.FoldLookup(stored, days, Settled(job), day);
    if day in days && !Skip(job, day, DayStore.Lookup(stored, day)) {
      FinalVisitOk(job, days, stored, day);
    }
  }

  /** In a run that raises nothing, a day first visited unstored raised nothing. */
  lemma {:induction false} FinalVisitOk(job: Job, days: seq<string>, stored: map<string, CatData>, day: string)
    requires Throttled(job)
    requires Final(job, days, stored).Ok?
    requires day in days && !Skip(job, day, DayStore.Lookup(stored, day))
    ensures DayData(job, day).Ok?
    decreases |days|
  {
    var init, d := days[..|days| - 1], days[|days| - 1];
    assert days == init + [d];
    if day in init {
      FinalVisitOk(job, init, stored, day);
    } else {
      assert d == day;
      FinalIsFold(job, init, stored);
      DayStore.FoldLookup(stored, init, Settled(job), day);
    }
  }

  /**
   * Running the script again on its own output, with the same replies and
   * none of them raising, leaves the store as it is.
   */
  lemma RunIdempotent(job: Job, days: seq<string>, stored: map<string, CatData>)
    requires Throttled(job)
    requires forall d :: d in days ==> DayData(job, d).Ok?
    ensures Final(job, days, stored).Ok?
    ensures Final(job, days, Final(job, days, stored).value) == Final(job, days, stored)
  {
    FinalFaults(job, days, stored);
    var once := Final(job, days, stored).value;
    FinalFaults(job, days, once);
    FinalIsFold(job, days, stored);
    FinalIsFold(job, days, once);
    forall e ensures Settled(job)(e, Settled(job)(e, DayStore.Lookup(stored, e))) == Settled(job)(e, DayStore.Lookup(stored, e)) {
      VisitSettles(job, e, DayStore.Lookup(stored, e));
    }
    DayStore.FoldTwice(stored, days, Settled(job));
  }
}
