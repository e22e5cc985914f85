/**
 * A per-(product, channel) store of day -> aggregate and the way a run
 * updates it: the days of the run's list are visited in order, and each
 * visit replaces that day's entry by what a per-day step `at` makes of it.
 * Both aggregation scripts have this shape; only their steps differ.
 */
module DayStore {
  import opened Outcomes

  /** The store's entry for a day, if any (`d in store`). */
  function Lookup<V>(s: map<string, V>, d: string): (o: Option<V>)
    ensures o.Some? <==> d in s
  {
    if d in s then Some(s[d]) else None
  }

  /** Sets or removes one day's entry. */
  function Put<V>(s: map<string, V>, d: string, o: Option<V>): map<string, V>
  {
    match o
    case Some(v) => s[d := v]
    case None => s - {d}
  }

  /** The store after visiting `days` in order with the per-day step `at`. */
  function Fold<V>(s: map<string, V>, days: seq<string>, at: (string, Option<V>) -> Option<V>): map<string, V>
    decreases |days|
  {
    if days == [] then s
    else
      var p := Fold(s, days[..|days| - 1], at);
      var d := days[|days| - 1];
      Put(p, d, at(d, Lookup(p, d)))
  }

  lemma PutLookup<V>(s: map<string, V>, d: string, o: Option<V>, e: string)
    ensures Lookup(Put(s, d, o), e) == if e == d then o else Lookup(s, e)
  {
  }

  /** Writing back a day's own entry changes nothing. */
  lemma PutSame<V>(s: map<string, V>, d: string)
    ensures Put(s, d, Lookup(s, d)) == s
  {
    if d in s {
      assert s[d := s[d]] == s;
    } else {
      assert s - {d} == s;
    }
  }

  /** Two stores with the same entry for every day are the same store. */
  lemma LookupExtensional<V>(a: map<string, V>, b: map<string, V>)
    requires forall e :: Lookup(a, e) == Lookup(b, e)
    ensures a == b
  {
    assert a.Keys == b.Keys by {
      forall e ensures e in a <==> e in b {
        assert Lookup(a, e).Some? == Lookup(b, e).Some?;
      }
    }
    forall e | e in a ensures a[e] == b[e] {
      assert Lookup(a, e) == Lookup(b, e);
    }
  }

  /**
   * Each day's final entry is the step applied once to its entry before the
   * run when the day is listed (however often), and the old entry otherwise,
   * provided a second visit leaves the first one's result alone.
   */
  lemma {:induction false} FoldLookup<V>(s: map<string, V>, days: seq<string>, at: (string, Option<V>) -> Option<V>, e: string)
    requires at(e, at(e, Lookup(s, e))) == at(e, Lookup(s, e))
    ensures Lookup(Fold(s, days, at), e) == if e in days then at(e, Lookup(s, e)) else Lookup(s, e)
    decreases |days|
  {
    if days != [] {
      var init, d := days[..|days| - 1], days[|days| - 1];
      assert days == init + [d];
      FoldLookup(s, init, at, e);
      var p := Fold(s, init, at);
      PutLookup(p, d, at(d, Lookup(p, d)), e);
    }
  }

  /**
   * A run repeated on its own output changes nothing, when every step is
   * settled by one visit.
   */
  lemma FoldTwice<V>(s: map<string, V>, days: seq<string>, at: (string, Option<V>) -> Option<V>)
    requires forall e :: at(e, at(e, Lookup(s, e))) == at(e, Lookup(s, e))
    ensures Fold(Fold(s, days, at), days, at) == Fold(s, days, at)
  {
    var once := Fold(s, days, at);
    forall e ensures Lookup(Fold(once, days, at), e) == Lookup(once, e) {
      FoldLookup(s, days, at, e);
      FoldLookup(once, days, at, e);
    }
    LookupExtensional(Fold(once, days, at), once);
  }
}
