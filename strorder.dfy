/**
 * Python's ordering of `str` values (code-point lexicographic, a proper
 * prefix sorts first), and the two uses the scripts make of it: `list.sort()`
 * on version names and `sorted(d.items(), key=lambda t: t[0])` on stores.
 */
module StrOrder {

  /** `a < b` on Python strings. */
  predicate Less(a: string, b: string)
    decreases |a|
  {
    if |a| == 0 then |b| > 0
    else if |b| == 0 then false
    else if a[0] != b[0] then a[0] < b[0]
    else Less(a[1..], b[1..])
  }

  lemma {:induction false} LessIrreflexive(a: string)
    ensures !Less(a, a)
  {
    if |a| > 0 {
      LessIrreflexive(a[1..]);
    }
  }

  lemma {:induction false} LessTransitive(a: string, b: string, c: string)
    requires Less(a, b) && Less(b, c)
    ensures Less(a, c)
    decreases |a|
  {
    if |a| > 0 && a[0] == b[0] && b[0] == c[0] {
      LessTransitive(a[1..], b[1..], c[1..]);
    }
  }

  lemma {:induction false} LessTotal(a: string, b: string)
    requires a != b
    ensures Less(a, b) || Less(b, a)
    decreases |a|
  {
    if |a| > 0 && |b| > 0 && a[0] == b[0] {
      assert a == [a[0]] + a[1..] && b == [b[0]] + b[1..];
      LessTotal(a[1..], b[1..]);
    }
  }

  lemma LessAsymmetric(a: string, b: string)
    requires Less(a, b)
    ensures !Less(b, a)
  {
    if Less(b, a) {
      LessTransitive(a, b, a);
      LessIrreflexive(a);
    }
  }

  /** "Not below" is transitive too. */
  lemma NotLessTransitive(a: string, b: string, c: string)
    requires !Less(a, b) && !Less(b, c)
    ensures !Less(a, c)
  {
    if Less(a, c) && b != c {
      LessTotal(b, c);
      LessTransitive(a, c, b);
    }
  }

  /** Non-descending under `Less`, as `list.sort()` leaves a list. */
  predicate Sorted(s: seq<string>)
  {
    forall i, j :: 0 <= i < j < |s| ==> !Less(s[j], s[i])
  }

  /** Strictly ascending: sorted and without duplicates. */
  predicate StrictlyIncreasing(s: seq<string>)
  {
    forall i, j :: 0 <= i < j < |s| ==> Less(s[i], s[j])
  }

  /** Prepending an element that is not above the head keeps a list sorted. */
  lemma SortedFront(x: string, s: seq<string>)
    requires Sorted(s) && s != [] && !Less(s[0], x)
    ensures Sorted([x] + s)
  {
    forall j | 0 < j < |s| ensures !Less(s[j], x) {
      NotLessTransitive(s[j], s[0], x);
    }
  }

  /** Prepending a lower bound of a sorted list keeps it sorted. */
  lemma SortedCons(h: string, rest: seq<string>)
    requires Sorted(rest)
    requires forall j :: 0 <= j < |rest| ==> !Less(rest[j], h)
    ensures Sorted([h] + rest)
  {
    forall i, j | 0 <= i < j < |[h] + rest| ensures !Less(([h] + rest)[j], ([h] + rest)[i]) {
      assert ([h] + rest)[j] == rest[j - 1];
    }
  }

  /** What x is inserted into behind the head of s stays above that head. */
  lemma AboveHead(s: seq<string>, x: string, rest: seq<string>)
    requires Sorted(s) && s != [] && Less(s[0], x)
    requires multiset(rest) == multiset(s[1..]) + multiset{x}
    ensures forall j :: 0 <= j < |rest| ==> !Less(rest[j], s[0])
  {
    forall j | 0 <= j < |rest| ensures !Less(rest[j], s[0]) {
      assert rest[j] in multiset(rest);
      if rest[j] == x {
        LessAsymmetric(s[0], x);
      } else {
        assert rest[j] in multiset(s[1..]);
        var k :| 0 <= k < |s[1..]| && s[1..][k] == rest[j];
        assert s[k + 1] == rest[j];
      }
    }
  }

  /** Places x in front of the first element that is not below it. */
  function Insert(x: string, s: seq<string>): (r: seq<string>)
    requires Sorted(s)
    ensures Sorted(r)
    ensures multiset(r) == multiset(s) + multiset{x}
  {
    if s == [] then [x]
    else if !Less(s[0], x) then
      SortedFront(x, s);
      [x] + s
    else
      var rest := Insert(x, s[1..]);
      assert s == [s[0]] + s[1..];
      AboveHead(s, x, rest);
      SortedCons(s[0], rest);
      [s[0]] + rest
  }

  /** An insertion sort standing for Python's `list.sort()`. */
  function Sort(s: seq<string>): (r: seq<string>)
    ensures Sorted(r)
    ensures multiset(r) == multiset(s)
  {
    if s == [] then []
    else
      assert s == [s[0]] + s[1..];
      Insert(s[0], Sort(s[1..]))
  }

  /** The keys of a list of `(key, value)` pairs, in order. */
  function KeysOf<V>(items: seq<(string, V)>): (ks: seq<string>)
    ensures |ks| == |items|
    ensures forall i :: 0 <= i < |items| ==> ks[i] == items[i].0
  {
    if items == [] then [] else [items[0].0] + KeysOf(items[1..])
  }

  /** The pairs of `items` are exactly the entries of `m`. */
  ghost predicate Lists<V>(items: seq<(string, V)>, m: map<string, V>)
  {
    && (forall i :: 0 <= i < |items| ==> items[i].0 in m && m[items[i].0] == items[i].1)
    && (forall k :: k in m ==> k in KeysOf(items))
  }

  /** Two listings that agree key by key have the same keys. */
  lemma SameKeys<U, V>(a: seq<(string, U)>, b: seq<(string, V)>)
    requires |a| == |b|
    requires forall j :: 0 <= j < |a| ==> a[j].0 == b[j].0
    ensures KeysOf(a) == KeysOf(b)
  {
  }

  /** The keys of a listing are the keys of the map it lists. */
  lemma ListedKeys<V>(items: seq<(string, V)>, m: map<string, V>, k: string)
    requires Lists(items, m)
    ensures k in m <==> k in KeysOf(items)
  {
    if k in KeysOf(items) {
      var j :| 0 <= j < |items| && KeysOf(items)[j] == k;
    }
  }

  lemma KeysOfCons<V>(p: (string, V), items: seq<(string, V)>)
    ensures KeysOf([p] + items) == [p.0] + KeysOf(items)
  {
    assert ([p] + items)[1..] == items;
  }

  lemma ConsIncreasing(x: string, ks: seq<string>)
    requires StrictlyIncreasing(ks)
    requires forall j :: 0 <= j < |ks| ==> Less(x, ks[j])
    ensures StrictlyIncreasing([x] + ks)
  {
    forall i, j | 0 <= i < j < |[x] + ks| ensures Less(([x] + ks)[i], ([x] + ks)[j]) {
      if i > 0 {
        assert ([x] + ks)[i] == ks[i - 1];
      }
    }
  }

  /** Every key after the first of a strictly ascending list lies above the first. */
  lemma TailAboveHead(ks: seq<string>, x: string)
    requires StrictlyIncreasing(ks)
    requires |ks| > 0 && x in ks[1..]
    ensures Less(ks[0], x)
  {
    var i :| 1 <= i < |ks| && ks[i] == x;
  }

  /** Inserts the pair (k, v) into a list with strictly ascending keys. */
  function InsertItem<V>(items: seq<(string, V)>, k: string, v: V): (r: seq<(string, V)>)
    requires StrictlyIncreasing(KeysOf(items))
    requires forall p :: p in items ==> p.0 != k
    ensures StrictlyIncreasing(KeysOf(r))
    ensures |r| == |items| + 1
    ensures (k, v) in r
    ensures forall p :: p in items ==> p in r
    ensures forall p :: p in r ==> p in items || p == (k, v)
    ensures forall x :: x in KeysOf(r) ==> x in KeysOf(items) || x == k
  {
    if items == [] then [(k, v)]
    else
      var head := items[0];
      assert items == [head] + items[1..];
      assert head in items;
      if Less(k, head.0) then
        KeysOfCons((k, v), items);
        forall j | 0 <= j < |items| ensures Less(k, KeysOf(items)[j]) {
          if j > 0 {
            LessTransitive(k, head.0, KeysOf(items)[j]);
          }
        }
        ConsIncreasing(k, KeysOf(items));
        [(k, v)] + items
      else
        LessTotal(k, head.0);
        KeysOfCons(head, items[1..]);
        var rest := InsertItem(items[1..], k, v);
        forall j | 0 <= j < |rest| ensures Less(head.0, KeysOf(rest)[j]) {
          var x := KeysOf(rest)[j];
          assert x in KeysOf(rest);
          if x != k {
            TailAboveHead(KeysOf(items), x);
          }
        }
        KeysOfCons(head, rest);
        ConsIncreasing(head.0, KeysOf(rest));
        [head] + rest
  }

  /** A key missing from the listed map is missing from the listing. */
  lemma ListsMissing<V>(items: seq<(string, V)>, sub: map<string, V>, k: string)
    requires Lists(items, sub) && k !in sub
    ensures forall p :: p in items ==> p.0 != k
  {
    forall p | p in items ensures p.0 != k {
      var j :| 0 <= j < |items| && items[j] == p;
    }
  }

  /** Every pair of the new listing is an entry of the grown map. */
  lemma InsertEntries<V>(items: seq<(string, V)>, sub: map<string, V>, k: string, v: V)
    requires StrictlyIncreasing(KeysOf(items)) && Lists(items, sub) && k !in sub
    requires forall p :: p in items ==> p.0 != k
    ensures forall i :: 0 <= i < |InsertItem(items, k, v)| ==>
      InsertItem(items, k, v)[i].0 in sub[k := v] && sub[k := v][InsertItem(items, k, v)[i].0] == InsertItem(items, k, v)[i].1
  {
    var r := InsertItem(items, k, v);
    forall i | 0 <= i < |r| ensures r[i].0 in sub[k := v] && sub[k := v][r[i].0] == r[i].1 {
      assert r[i] in r;
      if r[i] != (k, v) {
        var j :| 0 <= j < |items| && items[j] == r[i];
      }
    }
  }

  /** Every key of the grown map is listed by the new listing. */
  lemma InsertKeys<V>(items: seq<(string, V)>, sub: map<string, V>, k: string, v: V)
    requires StrictlyIncreasing(KeysOf(items)) && Lists(items, sub)
    requires forall p :: p in items ==> p.0 != k
    ensures forall x :: x in sub[k := v] ==> x in KeysOf(InsertItem(items, k, v))
  {
    var r := InsertItem(items, k, v);
    forall x | x in sub[k := v] ensures x in KeysOf(r) {
      if x == k {
        var i :| 0 <= i < |r| && r[i] == (k, v);
        assert KeysOf(r)[i] == x;
      } else {
        var j :| 0 <= j < |items| && KeysOf(items)[j] == x;
        assert items[j] in items;
        var i :| 0 <= i < |r| && r[i] == items[j];
        assert KeysOf(r)[i] == x;
      }
    }
  }

  /** Inserting a new key into a listing of `sub` lists `sub` with that key added. */
  lemma ListsInsert<V>(items: seq<(string, V)>, sub: map<string, V>, k: string, v: V)
    requires StrictlyIncreasing(KeysOf(items)) && Lists(items, sub) && k !in sub
    ensures forall p :: p in items ==> p.0 != k
    ensures Lists(InsertItem(items, k, v), sub[k := v])
  {
    ListsMissing(items, sub, k);
    InsertEntries(items, sub, k, v);
    InsertKeys(items, sub, k, v);
  }

  /** Moving key k out of `rest` adds its entry to the part of m not in `rest`. */
  lemma MoveKey<V>(m: map<string, V>, rest: set<string>, k: string)
    requires k in rest && rest <= m.Keys
    ensures k !in m - rest
    ensures (m - rest)[k := m[k]] == m - (rest - {k})
  {
  }

  lemma SubtractNone<V>(m: map<string, V>)
    ensures m - m.Keys == map[] && m - {} == m
  {
  }

  /**
   * `sorted(m.items(), key=lambda t: t[0])`: the entries of `m`, each once,
   * in strictly ascending key order.
   */
  method SortedItems<V>(m: map<string, V>) returns (items: seq<(string, V)>)
    ensures StrictlyIncreasing(KeysOf(items))
    ensures Lists(items, m)
    ensures |items| == |m|
  {
    items := [];
    var rest := m.Keys;
    SubtractNone(m);
    while rest != {}
      invariant rest <= m.Keys
      invariant StrictlyIncreasing(KeysOf(items))
      invariant Lists(items, m - rest)
      invariant |items| + |rest| == |m|
      decreases rest
    {
      var k :| k in rest;
      MoveKey(m, rest, k);
      ListsInsert(items, m - rest, k, m[k]);
      items := InsertItem(items, k, m[k]);
      rest := rest - {k};
    }
  }
}
