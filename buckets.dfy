/**
 * Weighted crash buckets: the `if name not in d: d[name] = 0;
 * d[name] += count * tfactor` pattern both aggregation scripts use, the
 * process-type fold with its derived browser remainder, and the sums that
 * state what the folds conserve.
 */
module Buckets {
  import opened Socorro

  const HangPlugin := "Hang Plugin"
  const OopPlugin := "OOP Plugin"

  /** A bucket's value, zero when the bucket has not been created. */
  function Value(m: map<string, real>, k: string): real
  {
    if k in m then m[k] else 0.0
  }

  /** Creates bucket k at zero if needed, then adds x to it. */
  function Add(m: map<string, real>, k: string, x: real): (r: map<string, real>)
    ensures r.Keys == m.Keys + {k}
    ensures Value(r, k) == Value(m, k) + x
    ensures forall j :: j != k ==> Value(r, j) == Value(m, j)
  {
    m[k := Value(m, k) + x]
  }

  /** `if k not in m: m[k] = 0` followed by `m[k] += x`. */
  method AddInto(m: map<string, real>, k: string, x: real) returns (r: map<string, real>)
    ensures r == Add(m, k, x)
  {
    r := m;
    if k !in r {
      r := r[k := 0.0];
    }
    r := r[k := r[k] + x];
  }

  /** The sum of the buckets named in `keys`. */
  ghost function Total(m: map<string, real>, keys: set<string>): real
    requires keys <= m.Keys
    decreases keys
  {
    if keys == {} then 0.0
    else
      var k :| k in keys;
      m[k] + Total(m, keys - {k})
  }

  /** A total may be split at any of its buckets. */
  lemma {:induction false} TotalPick(m: map<string, real>, keys: set<string>, k: string)
    requires keys <= m.Keys && k in keys
    ensures Total(m, keys) == m[k] + Total(m, keys - {k})
    decreases keys
  {
    var j :| j in keys && Total(m, keys) == m[j] + Total(m, keys - {j});
    if j != k {
      TotalPick(m, keys - {j}, k);
      TotalPick(m, keys - {k}, j);
      assert keys - {j} - {k} == keys - {k} - {j};
    }
  }

  /** Totals only depend on the buckets they add up. */
  lemma {:induction false} TotalAgree(m1: map<string, real>, m2: map<string, real>, keys: set<string>)
    requires keys <= m1.Keys && keys <= m2.Keys
    requires forall j :: j in keys ==> m1[j] == m2[j]
    ensures Total(m1, keys) == Total(m2, keys)
    decreases keys
  {
    if keys != {} {
      var j :| j in keys && Total(m1, keys) == m1[j] + Total(m1, keys - {j});
      TotalPick(m2, keys, j);
      TotalAgree(m1, m2, keys - {j});
    }
  }

  /** The sum of every bucket whose name is not in `excluded`. */
  ghost function SumExcept(m: map<string, real>, excluded: set<string>): real
  {
    Total(m, m.Keys - excluded)
  }

  /** Adding x to a bucket adds x to every sum that counts that bucket. */
  lemma AddSumExcept(m: map<string, real>, excluded: set<string>, k: string, x: real)
    ensures SumExcept(Add(m, k, x), excluded) == SumExcept(m, excluded) + (if k in excluded then 0.0 else x)
  {
    var r := Add(m, k, x);
    var keys := m.Keys - excluded;
    if k in excluded {
      assert r.Keys - excluded == keys;
      TotalAgree(r, m, keys);
    } else if k in m {
      assert r.Keys - excluded == keys;
      TotalPick(r, keys, k);
      TotalPick(m, keys, k);
      TotalAgree(r, m, keys - {k});
    } else {
      assert (r.Keys - excluded) - {k} == keys;
      TotalPick(r, r.Keys - excluded, k);
      TotalAgree(r, m, keys);
    }
  }

  /** ASCII case mapping, as `str.capitalize()` applies it. */
  function Lower(c: char): (r: char)
    ensures !('A' <= r <= 'Z')
  {
    if 'A' <= c <= 'Z' then (c as int + 32) as char else c
  }

  function Upper(c: char): char
  {
    if 'a' <= c <= 'z' then (c as int - 32) as char else c
  }

  /** `str.capitalize()`: the first character upper-cased, the rest lower-cased. */
  function Capitalize(s: string): (r: string)
    ensures |r| == |s|
    ensures |s| > 0 ==> r[0] == Upper(s[0])
    ensures forall i :: 0 < i < |s| ==> r[i] == Lower(s[i])
  {
    if s == [] then [] else [Upper(s[0])] + seq(|s| - 1, i requires 0 <= i < |s| - 1 => Lower(s[i + 1]))
  }

  /** How a process-type term becomes a bucket name. */
  datatype Naming =
    | ByType   // `plugin` becomes `OOP Plugin`, other terms are capitalised
    | Raw      // the term itself

  function BucketName(naming: Naming, term: string): string
  {
    match naming
    case ByType => if term == "plugin" then OopPlugin else Capitalize(term)
    case Raw => term
  }

  /** The bucket that receives the reports of no listed process type. */
  function BrowserName(naming: Naming): string
  {
    match naming
    case ByType => "Browser"
    case Raw => "browser"
  }

  /** No process type ever lands in the `Hang Plugin` bucket of a by-type day. */
  lemma ByTypeNameNotHang(term: string)
    ensures BucketName(ByType, term) != HangPlugin
    ensures BrowserName(ByType) != HangPlugin
  {
    if term != "plugin" && |term| == |HangPlugin| {
      assert BucketName(ByType, term)[5] == Lower(term[5]);
      assert HangPlugin[5] == 'P';
    }
  }

  /** The unweighted sum of a facet's counts (`nonbrowser`). */
  function RawSum(ps: seq<Bucket>): int
  {
    if ps == [] then 0 else RawSum(ps[..|ps| - 1]) + ps[|ps| - 1].count
  }

  /** Adds each process-type count, weighted, to the bucket its term names. */
  function FoldBuckets(m: map<string, real>, ps: seq<Bucket>, tfactor: real, naming: Naming): map<string, real>
  {
    if ps == [] then m
    else
      var p := ps[|ps| - 1];
      Add(FoldBuckets(m, ps[..|ps| - 1], tfactor, naming), BucketName(naming, p.term), Weighted(p.count, tfactor))
  }

  /** One version's process-type fold: the listed types plus the browser remainder. */
  function FoldProcessVersion(m: map<string, real>, f: VersionFacet, tfactor: real, naming: Naming): map<string, real>
  {
    Add(FoldBuckets(m, f.processType, tfactor, naming), BrowserName(naming),
        Weighted(f.count - RawSum(f.processType), tfactor))
  }

  /** The process-type buckets grow in total by the weighted raw sum. */
  lemma {:induction false} FoldBucketsSum(m: map<string, real>, ps: seq<Bucket>, tfactor: real, naming: Naming, excluded: set<string>)
    requires forall i :: 0 <= i < |ps| ==> BucketName(naming, ps[i].term) !in excluded
    ensures SumExcept(FoldBuckets(m, ps, tfactor, naming), excluded) == SumExcept(m, excluded) + Weighted(RawSum(ps), tfactor)
    decreases |ps|
  {
    if ps != [] {
      var init, p := ps[..|ps| - 1], ps[|ps| - 1];
      var k, w := BucketName(naming, p.term), Weighted(p.count, tfactor);
      var before := FoldBuckets(m, init, tfactor, naming);
      assert SumExcept(before, excluded) == SumExcept(m, excluded) + Weighted(RawSum(init), tfactor) by {
        FoldBucketsSum(m, init, tfactor, naming, excluded);
      }
      assert SumExcept(Add(before, k, w), excluded) == SumExcept(before, excluded) + w by {
        assert k !in excluded;
        AddSumExcept(before, excluded, k, w);
      }
      assert Weighted(RawSum(init), tfactor) + w == Weighted(RawSum(ps), tfactor) by {
        WeightedAdd(RawSum(init), p.count, tfactor);
      }
      assert FoldBuckets(m, ps, tfactor, naming) == Add(before, k, w);
    }
  }

  /** A bucket no process type names keeps its value through the fold. */
  lemma {:induction false} FoldBucketsKeeps(m: map<string, real>, ps: seq<Bucket>, tfactor: real, naming: Naming, k: string)
    requires forall p :: p in ps ==> BucketName(naming, p.term) != k
    ensures Value(FoldBuckets(m, ps, tfactor, naming), k) == Value(m, k)
    ensures k in FoldBuckets(m, ps, tfactor, naming) <==> k in m
    decreases |ps|
  {
    if ps != [] {
      assert ps[|ps| - 1] in ps;
      FoldBucketsKeeps(m, ps[..|ps| - 1], tfactor, naming, k);
    }
  }

  /**
   * For one version, the process-type buckets plus the browser bucket grow
   * in total by exactly the version's weighted count.
   */
  lemma ProcessVersionSum(m: map<string, real>, f: VersionFacet, tfactor: real, naming: Naming, excluded: set<string>)
    requires forall p :: p in f.processType ==> BucketName(naming, p.term) !in excluded
    requires BrowserName(naming) !in excluded
    ensures SumExcept(FoldProcessVersion(m, f, tfactor, naming), excluded) == SumExcept(m, excluded) + Weighted(f.count, tfactor)
  {
    var folded := FoldBuckets(m, f.processType, tfactor, naming);
    forall i | 0 <= i < |f.processType| ensures BucketName(naming, f.processType[i].term) !in excluded {
      assert f.processType[i] in f.processType;
    }
    FoldBucketsSum(m, f.processType, tfactor, naming, excluded);
    AddSumExcept(folded, excluded, BrowserName(naming), Weighted(f.count - RawSum(f.processType), tfactor));
    WeightedAdd(RawSum(f.processType), f.count - RawSum(f.processType), tfactor);
  }

  /** The loop over `process_type` terms: weighted buckets and the raw `nonbrowser` sum. */
  method FoldBucketsInto(crashes: map<string, real>, ps: seq<Bucket>, tfactor: real, naming: Naming)
    returns (r: map<string, real>, nonbrowser: int)
    ensures r == FoldBuckets(crashes, ps, tfactor, naming)
    ensures nonbrowser == RawSum(ps)
  {
    r, nonbrowser := crashes, 0;
    for i := 0 to |ps|
      invariant r == FoldBuckets(crashes, ps[..i], tfactor, naming)
      invariant nonbrowser == RawSum(ps[..i])
    {
      var p := ps[i];
      assert ps[..i + 1][..i] == ps[..i];
      r := AddInto(r, BucketName(naming, p.term), Weighted(p.count, tfactor));
      nonbrowser := nonbrowser + p.count;
    }
    assert ps[..|ps|] == ps;
  }

  /** One version's process-type loop followed by the browser remainder. */
  method FoldProcessInto(crashes: map<string, real>, f: VersionFacet, tfactor: real, naming: Naming)
    returns (r: map<string, real>)
    ensures r == FoldProcessVersion(crashes, f, tfactor, naming)
  {
    var nonbrowser;
    r, nonbrowser := FoldBucketsInto(crashes, f.processType, tfactor, naming);
    r := AddInto(r, BrowserName(naming), Weighted(f.count - nonbrowser, tfactor));
  }

  /** Σ `count * tfactor` over facet versions, each with its own tfactor. */
  function WeightedCount(fs: seq<VersionFacet>, tfactor: map<string, real>): real
    requires forall f :: f in fs ==> f.term in tfactor
  {
    if fs == [] then 0.0
    else
      var f := fs[|fs| - 1];
      WeightedCount(fs[..|fs| - 1], tfactor) + Weighted(f.count, tfactor[f.term])
  }

  /** Σ `count` over facet versions, unweighted. */
  function RawCount(fs: seq<VersionFacet>): int
  {
    if fs == [] then 0 else RawCount(fs[..|fs| - 1]) + fs[|fs| - 1].count
  }
}
