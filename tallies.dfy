/** A JavaScript `Map<string, number>` used as a counter: `m.set(k, (m.get(k) || 0) + d)`
    for each delta, then `Array.from(m.entries())`. The map remembers its
    keys in first-insertion order, as a JavaScript `Map` does; the model
    keeps the map as a value that each update replaces. */
module Tallies {
  import opened Collections

  /** One `[key, value]` pair of `Map.prototype.entries`, or the
      `{ name, value }` object it is mapped to. */
  datatype Entry = Entry(name: string, value: int)

  function Value(e: Entry): int {
    e.value
  }

  function Name(e: Entry): string {
    e.name
  }

  /** The keys of a sequence of `(key, delta)` updates, in update order. */
  function KeysOf(a: seq<(string, int)>): (r: seq<string>)
    ensures |r| == |a|
  {
    if a == [] then [] else KeysOf(a[..|a| - 1]) + [a[|a| - 1].0]
  }

  /** The sum of the deltas applied to key `k`. */
  function SumFor(a: seq<(string, int)>, k: string): int {
    if a == [] then 0
    else SumFor(a[..|a| - 1], k) + (if a[|a| - 1].0 == k then a[|a| - 1].1 else 0)
  }

  /** The sum of all deltas. */
  function Total(a: seq<(string, int)>): int {
    if a == [] then 0 else Total(a[..|a| - 1]) + a[|a| - 1].1
  }

  function TabulateKeys(ks: seq<string>, a: seq<(string, int)>): (r: seq<Entry>)
    ensures |r| == |ks|
    ensures forall i :: 0 <= i < |ks| ==> r[i] == Entry(ks[i], SumFor(a, ks[i]))
  {
    if ks == [] then [] else TabulateKeys(ks[..|ks| - 1], a) + [Entry(ks[|ks| - 1], SumFor(a, ks[|ks| - 1]))]
  }

  /** The entries of the counter after the updates `a`: one per distinct
      key, in first-update order, holding that key's summed deltas. */
  function Tabulate(a: seq<(string, int)>): seq<Entry> {
    TabulateKeys(Dedup(KeysOf(a)), a)
  }

  function Names(es: seq<Entry>): (r: seq<string>)
    ensures |r| == |es|
    ensures forall i :: 0 <= i < |es| ==> r[i] == es[i].name
  {
    if es == [] then [] else Names(es[..|es| - 1]) + [es[|es| - 1].name]
  }

  /** The state of the counter: its keys in first-insertion order and the
      value held for each. */
  datatype Counter = Counter(keys: seq<string>, counts: map<string, int>)

  /** `new Map()`. */
  const NewCounter := Counter([], map[])

  /** `m.get(k) || 0`. */
  function Get(c: Counter, k: string): int {
    if k in c.counts then c.counts[k] else 0
  }

  /** The counter holds exactly what the updates `a` put in it. */
  ghost predicate Holds(c: Counter, a: seq<(string, int)>) {
    && c.keys == Dedup(KeysOf(a))
    && (forall k :: k in c.counts <==> k in c.keys)
    && (forall k :: k in c.counts ==> c.counts[k] == SumFor(a, k))
  }

  /** `m.set(k, (m.get(k) || 0) + d)`: a new key goes to the end of the
      insertion order, an existing key keeps its place. */
  function Add(c: Counter, k: string, d: int): (r: Counter)
    ensures Get(r, k) == Get(c, k) + d
    ensures forall j :: j != k ==> Get(r, j) == Get(c, j)
    ensures r.keys == if k in c.counts then c.keys else c.keys + [k]
  {
    Counter(if k in c.counts then c.keys else c.keys + [k], c.counts[k := Get(c, k) + d])
  }

  /** `Array.from(m.entries())`, each pair as an `Entry`. */
  function Entries(c: Counter): (r: seq<Entry>)
    ensures |r| == |c.keys|
    ensures forall i :: 0 <= i < |r| ==> r[i] == Entry(c.keys[i], Get(c, c.keys[i]))
  {
    seq(|c.keys|, i requires 0 <= i < |c.keys| => Entry(c.keys[i], Get(c, c.keys[i])))
  }

  /** The counter after applying the updates `a` to `new Map()` in order. */
  function CounterOf(a: seq<(string, int)>): Counter {
    if a == [] then NewCounter else Add(CounterOf(a[..|a| - 1]), a[|a| - 1].0, a[|a| - 1].1)
  }

  lemma CounterOfSnoc(a: seq<(string, int)>, k: string, d: int)
    ensures CounterOf(a + [(k, d)]) == Add(CounterOf(a), k, d)
  {
    assert (a + [(k, d)])[..|a|] == a;
  }

  /** Whatever the updates, the counter holds one key per distinct updated
      key, in first-update order, with that key's summed deltas. */
  lemma {:induction false} CounterOfHolds(a: seq<(string, int)>)
    ensures Holds(CounterOf(a), a)
  {
    var c := CounterOf(a);
    CounterKeys(a);
    CounterDomain(a);
    forall j | j in c.counts ensures c.counts[j] == SumFor(a, j) {
      CounterGets(a, j);
    }
  }

  /** The counter's keys are the distinct updated keys, in first-update order. */
  lemma {:induction false} CounterKeys(a: seq<(string, int)>)
    ensures CounterOf(a).keys == Dedup(KeysOf(a))
  {
    if a != [] {
      var a0, k, d := a[..|a| - 1], a[|a| - 1].0, a[|a| - 1].1;
      CounterKeys(a0);
      CounterDomain(a0);
      assert a == a0 + [(k, d)];
      CounterOfSnoc(a0, k, d);
      KeysOfSnoc(a0, k, d);
      DedupSnoc(KeysOf(a0), k);
    }
  }

  /** A key has an entry exactly when it is one of the counter's keys. */
  lemma {:induction false} CounterDomain(a: seq<(string, int)>)
    ensures forall k :: k in CounterOf(a).counts <==> k in CounterOf(a).keys
  {
    if a != [] {
      CounterDomain(a[..|a| - 1]);
    }
  }

  /** Each key holds its summed deltas. */
  lemma {:induction false} CounterGets(a: seq<(string, int)>, j: string)
    ensures Get(CounterOf(a), j) == SumFor(a, j)
  {
    if a != [] {
      CounterGets(a[..|a| - 1], j);
    }
  }

  /** `Array.from(m.entries())` after the updates `a` is their tabulation. */
  lemma EntriesOfCounter(a: seq<(string, int)>)
    ensures Entries(CounterOf(a)) == Tabulate(a)
  {
    CounterOfHolds(a);
    EntriesHold(CounterOf(a), a);
  }

  /** Each update keeps the counter in step with the updates applied so far. */
  lemma AddHolds(c: Counter, a: seq<(string, int)>, k: string, d: int)
    requires Holds(c, a)
    ensures Holds(Add(c, k, d), a + [(k, d)])
  {
    AddKeys(c, a, k, d);
    AddValues(c, a, k, d);
  }

  lemma AddKeys(c: Counter, a: seq<(string, int)>, k: string, d: int)
    requires c.keys == Dedup(KeysOf(a)) && forall j :: j in c.counts <==> j in c.keys
    ensures Add(c, k, d).keys == Dedup(KeysOf(a + [(k, d)]))
    ensures forall j :: j in Add(c, k, d).counts <==> j in Add(c, k, d).keys
  {
    KeysOfSnoc(a, k, d);
    DedupSnoc(KeysOf(a), k);
  }

  lemma AddValues(c: Counter, a: seq<(string, int)>, k: string, d: int)
    requires c.keys == Dedup(KeysOf(a)) && forall j :: j in c.counts <==> j in c.keys
    requires forall j :: j in c.counts ==> c.counts[j] == SumFor(a, j)
    ensures forall j :: j in Add(c, k, d).counts ==> Add(c, k, d).counts[j] == SumFor(a + [(k, d)], j)
  {
    if k !in c.counts {
      DedupSpec(KeysOf(a));
      SumForAbsent(a, k);
    }
    forall j | j in Add(c, k, d).counts
      ensures Add(c, k, d).counts[j] == SumFor(a + [(k, d)], j)
    {
      SumForSnoc(a, k, d, j);
    }
  }

  /** The entries of a counter are the tabulation of its updates. */
  lemma EntriesHold(c: Counter, a: seq<(string, int)>)
    requires Holds(c, a)
    ensures Entries(c) == Tabulate(a)
  {
    var es, ts := Entries(c), Tabulate(a);
    forall i | 0 <= i < |es| ensures es[i] == ts[i] {
      assert c.keys[i] in c.counts;
    }
  }

  lemma {:induction false} KeysOfIndex(a: seq<(string, int)>)
    ensures forall i :: 0 <= i < |a| ==> KeysOf(a)[i] == a[i].0
  {
    if a != [] {
      KeysOfIndex(a[..|a| - 1]);
    }
  }

  lemma KeysOfSnoc(a: seq<(string, int)>, k: string, d: int)
    ensures KeysOf(a + [(k, d)]) == KeysOf(a) + [k]
  {
    assert (a + [(k, d)])[..|a|] == a;
  }

  lemma SumForSnoc(a: seq<(string, int)>, k: string, d: int, j: string)
    ensures SumFor(a + [(k, d)], j) == SumFor(a, j) + (if j == k then d else 0)
  {
    assert (a + [(k, d)])[..|a|] == a;
  }

  lemma {:induction false} SumForAbsent(a: seq<(string, int)>, k: string)
    requires k !in KeysOf(a)
    ensures SumFor(a, k) == 0
  {
    if a != [] {
      var a0 := a[..|a| - 1];
      assert KeysOf(a) == KeysOf(a0) + [a[|a| - 1].0];
      SumForAbsent(a0, k);
    }
  }

  lemma {:induction false} SumShift(ks: seq<string>, a: seq<(string, int)>, k: string, d: int)
    requires Distinct(ks)
    ensures SumBy(TabulateKeys(ks, a + [(k, d)]), Value)
         == SumBy(TabulateKeys(ks, a), Value) + (if k in ks then d else 0)
  {
    if ks != [] {
      var ks0, j := ks[..|ks| - 1], ks[|ks| - 1];
      assert Distinct(ks0);
      SumShift(ks0, a, k, d);
      var a1 := a + [(k, d)];
      assert a1[..|a1| - 1] == a;
      assert SumFor(a1, j) == SumFor(a, j) + (if j == k then d else 0);
      SumByAppend(TabulateKeys(ks0, a1), Entry(j, SumFor(a1, j)), Value);
      SumByAppend(TabulateKeys(ks0, a), Entry(j, SumFor(a, j)), Value);
      assert ks == ks0 + [j];
      assert k in ks <==> k in ks0 || k == j;
      assert j !in ks0;
    }
  }

  /** The counter's values add up to the sum of all deltas. */
  lemma {:induction false} TabulateTotal(a: seq<(string, int)>)
    ensures SumBy(Tabulate(a), Value) == Total(a)
  {
    if a != [] {
      var a0, k, d := a[..|a| - 1], a[|a| - 1].0, a[|a| - 1].1;
      assert a == a0 + [(k, d)];
      TabulateTotal(a0);
      var ks0 := Dedup(KeysOf(a0));
      DedupSpec(KeysOf(a0));
      assert KeysOf(a) == KeysOf(a0) + [k];
      SumShift(ks0, a0, k, d);
      if k !in ks0 {
        SumForAbsent(a0, k);
        assert Dedup(KeysOf(a)) == ks0 + [k];
        assert (ks0 + [k])[..|ks0|] == ks0;
        SumByAppend(TabulateKeys(ks0, a), Entry(k, SumFor(a, k)), Value);
      } else {
        assert Dedup(KeysOf(a)) == ks0;
      }
    }
  }

  /** The counter has one entry per distinct key, in first-update order. */
  lemma TabulateNames(a: seq<(string, int)>)
    ensures Names(Tabulate(a)) == Dedup(KeysOf(a))
    ensures Distinct(Names(Tabulate(a)))
  {
    DedupSpec(KeysOf(a));
  }

  /** An entry of the counter is a key that was updated, with that key's sum. */
  lemma TabulateMember(a: seq<(string, int)>, e: Entry)
    ensures e in Tabulate(a) <==> (exists i :: 0 <= i < |a| && a[i].0 == e.name) && e.value == SumFor(a, e.name)
  {
    var ks := Dedup(KeysOf(a));
    DedupSpec(KeysOf(a));
    KeysOfIndex(a);
    if e in Tabulate(a) {
      var i :| 0 <= i < |ks| && Tabulate(a)[i] == e;
      assert ks[i] in KeysOf(a);
    }
    if (exists i :: 0 <= i < |a| && a[i].0 == e.name) && e.value == SumFor(a, e.name) {
      var i :| 0 <= i < |a| && a[i].0 == e.name;
      assert KeysOf(a)[i] == e.name;
      assert e.name in ks;
      var j :| 0 <= j < |ks| && ks[j] == e.name;
      assert Tabulate(a)[j] == e;
    }
  }

  /** No two entries share a name. */
  predicate UniqueNames(es: seq<Entry>) {
    forall i, j :: 0 <= i < j < |es| ==> es[i].name != es[j].name
  }

  /** The counter's entries have distinct names. */
  lemma TabulateUnique(a: seq<(string, int)>)
    ensures Distinct(Tabulate(a))
    ensures UniqueNames(Tabulate(a))
  {
    var t := Tabulate(a);
    TabulateNames(a);
    forall i, j | 0 <= i < j < |t| ensures t[i].name != t[j].name {
      assert Names(t)[i] != Names(t)[j];
    }
  }

  /** Sorting entries with distinct names keeps the names distinct. */
  lemma {:induction false} SortedUnique(t: seq<Entry>, le: (Entry, Entry) -> bool)
    requires TotalPreorder(le)
    requires UniqueNames(t)
    ensures UniqueNames(SortBy(t, le))
  {
    var s := SortBy(t, le);
    assert Distinct(t);
    DistinctPermutation(t, s);
    forall i, j | 0 <= i < j < |s| ensures s[i].name != s[j].name {
      assert s[i] in multiset(t) && s[j] in multiset(t);
      var p :| 0 <= p < |t| && t[p] == s[i];
      var q :| 0 <= q < |t| && t[q] == s[j];
      assert p != q;
    }
  }

  /** The counter's entries with a comparator applied: the same entries, so
      still one per key holding that key's sum, and the same total. */
  lemma SortedTabulation(a: seq<(string, int)>, le: (Entry, Entry) -> bool)
    requires TotalPreorder(le)
    ensures forall e :: e in SortBy(Tabulate(a), le) <==> e in Tabulate(a)
    ensures UniqueNames(SortBy(Tabulate(a), le))
    ensures SumBy(SortBy(Tabulate(a), le), Value) == Total(a)
  {
    var t := Tabulate(a);
    var s := SortBy(t, le);
    forall e ensures e in s <==> e in t {
      assert e in s <==> e in multiset(s);
      assert e in t <==> e in multiset(t);
    }
    TabulateUnique(a);
    SortedUnique(t, le);
    SumBySort(t, le, Value);
    TabulateTotal(a);
  }

  // ---- occurrence counters and sorted counters ----

  /** One `(tag, 1)` update per tag. */
  function Ones(cs: seq<string>): (r: seq<(string, int)>)
    ensures |r| == |cs|
  {
    if cs == [] then [] else Ones(cs[..|cs| - 1]) + [(cs[|cs| - 1], 1)]
  }

  lemma {:induction false} OnesAppend(a: seq<string>, b: seq<string>)
    ensures Ones(a + b) == Ones(a) + Ones(b)
  {
    if b == [] {
      assert a + b == a;
    } else {
      var b0 := b[..|b| - 1];
      assert (a + b)[..|a + b| - 1] == a + b0;
      OnesAppend(a, b0);
    }
  }

  /** A tag counter's updates are the tags, each adding one. */
  lemma OnesFacts(cs: seq<string>, c: string)
    ensures KeysOf(Ones(cs)) == cs
    ensures Total(Ones(cs)) == |cs|
    ensures SumFor(Ones(cs), c) == multiset(cs)[c]
  {
    OnesKeys(cs);
    OnesTotal(cs);
    OnesSum(cs, c);
  }

  lemma {:induction false} OnesKeys(cs: seq<string>)
    ensures KeysOf(Ones(cs)) == cs
  {
    if cs != [] {
      var cs0 := cs[..|cs| - 1];
      OnesKeys(cs0);
      assert Ones(cs)[..|cs| - 1] == Ones(cs0);
      assert cs == cs0 + [cs[|cs| - 1]];
    }
  }

  lemma {:induction false} OnesTotal(cs: seq<string>)
    ensures Total(Ones(cs)) == |cs|
  {
    if cs != [] {
      var cs0 := cs[..|cs| - 1];
      OnesTotal(cs0);
      assert Ones(cs)[..|cs| - 1] == Ones(cs0);
    }
  }

  lemma {:induction false} OnesSum(cs: seq<string>, c: string)
    ensures SumFor(Ones(cs), c) == multiset(cs)[c]
  {
    if cs != [] {
      var cs0 := cs[..|cs| - 1];
      OnesSum(cs0, c);
      assert Ones(cs)[..|cs| - 1] == Ones(cs0);
      assert cs == cs0 + [cs[|cs| - 1]];
    }
  }

  /** The entries of a tag counter: each tag with its number of occurrences. */
  lemma OnesMember(cs: seq<string>, e: Entry)
    ensures e in Tabulate(Ones(cs)) <==> e.name in cs && e.value == multiset(cs)[e.name]
  {
    TabulateMember(Ones(cs), e);
    OnesFacts(cs, e.name);
    KeysOfIndex(Ones(cs));
    if e.name in cs {
      var i :| 0 <= i < |cs| && cs[i] == e.name;
      assert KeysOf(Ones(cs))[i] == e.name;
    }
  }

  /** The comparator `(a, b) => b.value - a.value`. */
  function ByValueDesc(): (Entry, Entry) -> bool {
    ByKey(Value, false)
  }

  /** A counter's entries sorted by `(a, b) => b.value - a.value`. */
  function Distribution(a: seq<(string, int)>): seq<Entry> {
    ByKeyTotal(Value, false);
    SortBy(Tabulate(a), ByValueDesc())
  }

  /** A sorted counter: one entry per key holding the key's sum, values
      from highest, adding up to the sum of the deltas. */
  lemma DistributionSpec(a: seq<(string, int)>)
    ensures var d := Distribution(a);
      && UniqueNames(d)
      && (forall i, j :: 0 <= i < j < |d| ==> d[i].value >= d[j].value)
      && (forall e :: e in d <==> e in Tabulate(a))
      && (forall e :: e in d <==> (exists i :: 0 <= i < |a| && a[i].0 == e.name) && e.value == SumFor(a, e.name))
      && SumBy(d, Value) == Total(a)
  {
    ByKeyTotal(Value, false);
    SortedTabulation(a, ByValueDesc());
    var d := Distribution(a);
    assert SortedBy(d, ByValueDesc());
    forall i, j | 0 <= i < j < |d| ensures d[i].value >= d[j].value {
      assert ByValueDesc()(d[i], d[j]);
      assert Value(d[i]) >= Value(d[j]);
    }
    forall e ensures e in Distribution(a) <==> (exists i :: 0 <= i < |a| && a[i].0 == e.name) && e.value == SumFor(a, e.name) {
      TabulateMember(a, e);
    }
  }

  /** A sorted counter is empty exactly when there were no deltas, and its
      first entry has the highest value. */
  lemma DistributionHead(a: seq<(string, int)>)
    ensures Distribution(a) == [] <==> a == []
    ensures forall e :: e in Distribution(a) ==> e.value <= Distribution(a)[0].value
  {
    ByKeyTotal(Value, false);
    var d := Distribution(a);
    var ks := KeysOf(a);
    DedupSpec(ks);
    if a != [] {
      assert ks[|a| - 1] in Dedup(ks);
    }
    assert |d| == |Dedup(ks)|;
    assert SortedBy(d, ByValueDesc());
    forall e | e in d ensures e.value <= d[0].value {
      var j :| 0 <= j < |d| && d[j] == e;
      if j > 0 {
        assert ByValueDesc()(d[0], d[j]);
        assert Value(d[0]) >= Value(d[j]);
      }
    }
  }

  /** The first `n` entries of a sorted counter (`.slice(0, n)`). */
  function Top(a: seq<(string, int)>, n: nat): seq<Entry> {
    Take(Distribution(a), n)
  }

  /** At most `n` entries, distinct names, values from highest, each an
      entry of the counter, and no entry left out has a higher value than any
      entry kept. */
  lemma TopSpec(a: seq<(string, int)>, n: nat)
    ensures var t := Top(a, n);
      && |t| <= n
      && (|Tabulate(a)| >= n ==> |t| == n)
      && UniqueNames(t)
      && (forall i, j :: 0 <= i < j < |t| ==> t[i].value >= t[j].value)
      && (forall e :: e in t ==> e in Tabulate(a))
  {
    var d := Distribution(a);
    var t := Top(a, n);
    DistributionSpec(a);
    ByKeyTotal(Value, false);
    assert |d| == |Tabulate(a)|;
    forall e | e in t ensures e in Tabulate(a) {
      var i :| 0 <= i < |t| && t[i] == e;
      assert d[i] == e;
    }
  }

  /** An entry of the counter that is not among the first `n` has a value no
      higher than any of them. */
  lemma TopIsTop(a: seq<(string, int)>, n: nat, e: Entry)
    requires e in Tabulate(a) && e !in Top(a, n)
    ensures forall i :: 0 <= i < |Top(a, n)| ==> Top(a, n)[i].value >= e.value
  {
    ByKeyTotal(Value, false);
    var d := Distribution(a);
    var t := Top(a, n);
    assert e in multiset(Tabulate(a));
    assert e in multiset(d);
    var k :| 0 <= k < |d| && d[k] == e;
    assert SortedBy(d, ByValueDesc());
    assert k >= |t| by {
      assert forall i :: 0 <= i < |t| ==> t[i] == d[i] && t[i] != e;
    }
    forall i | 0 <= i < |t| ensures t[i].value >= e.value {
      assert t[i] == d[i];
      assert ByValueDesc()(d[i], d[k]);
      assert Value(d[i]) >= Value(d[k]);
    }
  }

  /** `es.find((p) => p.name === name)?.value || 0`. */
  function FindValue(es: seq<Entry>, name: string): int {
    if es == [] then 0 else if es[0].name == name then es[0].value else FindValue(es[1..], name)
  }

  /** The value of the first entry with that name, or 0 when there is none. */
  lemma {:induction false} FindValueSpec(es: seq<Entry>, name: string)
    ensures (forall i :: 0 <= i < |es| ==> es[i].name != name) ==> FindValue(es, name) == 0
    ensures forall i :: 0 <= i < |es| && es[i].name == name && (forall j :: 0 <= j < i ==> es[j].name != name) ==>
      FindValue(es, name) == es[i].value
  {
    if es != [] && es[0].name != name {
      var rest := es[1..];
      FindValueSpec(rest, name);
      assert forall i :: 0 < i < |es| ==> es[i] == rest[i - 1];
    }
  }

  /** In a counter with distinct names, the lookup finds the entry of that
      name. */
  lemma FindValueUnique(es: seq<Entry>, e: Entry)
    requires UniqueNames(es) && e in es
    ensures FindValue(es, e.name) == e.value
  {
    FindValueSpec(es, e.name);
    var i :| 0 <= i < |es| && es[i] == e;
  }
}
