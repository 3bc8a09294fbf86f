/** Sequence helpers shared by every component: the JavaScript array idioms the
    dashboard relies on (`new Set`, `filter`, `sort`, `slice`, a toggled list),
    each stated once. */
module Collections {

  datatype Option<T> = None | Some(value: T)

  predicate Distinct<T(==)>(s: seq<T>) {
    forall i, j :: 0 <= i < j < |s| ==> s[i] != s[j]
  }

  /** `Array.from(new Set(s))`: the elements of `s` without repetition, each at
      its first occurrence. */
  function Dedup<T(==,!new)>(s: seq<T>): (r: seq<T>)
    ensures |r| <= |s|
  {
    if s == [] then []
    else
      var d := Dedup(s[..|s| - 1]);
      if s[|s| - 1] in d then d else d + [s[|s| - 1]]
  }

  /** The de-duplicated list has no repetition and holds exactly the
      elements of the original. */
  lemma {:induction false} DedupSpec<T(!new)>(s: seq<T>)
    ensures Distinct(Dedup(s))
    ensures forall x :: x in Dedup(s) <==> x in s
  {
    if s != [] {
      var init, x := s[..|s| - 1], s[|s| - 1];
      DedupSpec(init);
      assert s == init + [x];
      assert forall y :: y in s <==> y in init || y == x;
    }
  }

  lemma DedupSnoc<T(!new)>(s: seq<T>, x: T)
    ensures Dedup(s + [x]) == if x in Dedup(s) then Dedup(s) else Dedup(s) + [x]
  {
    assert (s + [x])[..|s|] == s;
  }

  lemma {:induction false} DedupOfDistinct<T(!new)>(s: seq<T>)
    requires Distinct(s)
    ensures Dedup(s) == s
  {
    if s != [] {
      var init := s[..|s| - 1];
      assert Distinct(init);
      DedupOfDistinct(init);
      assert s[|s| - 1] !in init;
      assert s == init + [s[|s| - 1]];
    }
  }

  /** Merging into a de-duplicated prefix is the same as de-duplicating the whole. */
  lemma {:induction false} DedupAppend<T(!new)>(a: seq<T>, b: seq<T>)
    ensures Dedup(Dedup(a) + b) == Dedup(a + b)
    decreases |b|
  {
    if b == [] {
      assert Dedup(a) + b == Dedup(a);
      assert a + b == a;
      DedupSpec(a);
      DedupOfDistinct(Dedup(a));
    } else {
      var b', x := b[..|b| - 1], b[|b| - 1];
      DedupAppend(a, b');
      assert (Dedup(a) + b)[..|Dedup(a) + b| - 1] == Dedup(a) + b';
      assert (a + b)[..|a + b| - 1] == a + b';
    }
  }

  /** `xs.forEach(x => set.add(x))` on a set holding `s`, in insertion order. */
  method AddAll<T(==,!new)>(s: seq<T>, xs: seq<T>) returns (r: seq<T>)
    requires Distinct(s)
    ensures r == Dedup(s + xs)
  {
    r := s;
    DedupOfDistinct(s);
    assert s + xs[..0] == s;
    var k := 0;
    while k < |xs|
      invariant 0 <= k <= |xs|
      invariant r == Dedup(s + xs[..k])
    {
      assert s + xs[..k + 1] == (s + xs[..k]) + [xs[k]];
      DedupSnoc(s + xs[..k], xs[k]);
      if xs[k] !in r {
        r := r + [xs[k]];
      }
      k := k + 1;
    }
    assert xs[..k] == xs;
  }

  /** Distinctness is a property of the multiset of elements. */
  lemma {:induction false} DistinctByMultiset<T>(s: seq<T>)
    ensures Distinct(s) <==> forall x :: multiset(s)[x] <= 1
  {
    if s != [] {
      var t := s[1..];
      DistinctByMultiset(t);
      assert s == [s[0]] + t;
      if Distinct(s) {
        assert Distinct(t);
        assert s[0] !in t;
      } else {
        var i, j :| 0 <= i < j < |s| && s[i] == s[j];
        if i == 0 {
          assert s[0] in t;
          assert multiset(s)[s[0]] >= 2;
        } else {
          assert t[i - 1] == t[j - 1];
          assert !Distinct(t);
          var y :| multiset(t)[y] > 1;
          assert multiset(s)[y] > 1;
        }
      }
    }
  }

  lemma DistinctPermutation<T>(a: seq<T>, b: seq<T>)
    requires multiset(a) == multiset(b)
    requires Distinct(a)
    ensures Distinct(b)
  {
    DistinctByMultiset(a);
    DistinctByMultiset(b);
  }

  /** `s.filter(p)`: the elements satisfying `p`, in their original order. */
  function Filter<T(!new)>(s: seq<T>, p: T -> bool): (r: seq<T>)
    ensures |r| <= |s|
    ensures forall x :: x in r <==> x in s && p(x)
  {
    if s == [] then []
    else
      assert s == [s[0]] + s[1..];
      (if p(s[0]) then [s[0]] else []) + Filter(s[1..], p)
  }

  lemma {:induction false} FilterAppend<T(!new)>(a: seq<T>, b: seq<T>, p: T -> bool)
    ensures Filter(a + b, p) == Filter(a, p) + Filter(b, p)
  {
    if a != [] {
      var x, rest := a[0], a[1..];
      FilterAppend(rest, b, p);
      var ab := a + b;
      assert ab[0] == x && ab[1..] == rest + b;
      var head := if p(x) then [x] else [];
      assert Filter(ab, p) == head + Filter(rest + b, p);
      assert Filter(a, p) == head + Filter(rest, p);
      assert head + (Filter(rest, p) + Filter(b, p)) == (head + Filter(rest, p)) + Filter(b, p);
    } else {
      assert a + b == b;
    }
  }

  /** Filtering keeps every passing element with its multiplicity. */
  lemma {:induction false} FilterMultiset<T(!new)>(s: seq<T>, p: T -> bool)
    ensures forall x :: multiset(Filter(s, p))[x] == if p(x) then multiset(s)[x] else 0
  {
    if s != [] {
      FilterMultiset(s[1..], p);
      assert s == [s[0]] + s[1..];
    }
  }

  /** Filtering a list without repetition gives a list without repetition. */
  lemma {:induction false} FilterDistinct<T(!new)>(s: seq<T>, p: T -> bool)
    requires Distinct(s)
    ensures Distinct(Filter(s, p))
  {
    if s != [] {
      assert Distinct(s[1..]) by {
        forall i, j | 0 <= i < j < |s[1..]| ensures s[1..][i] != s[1..][j] {
          assert s[1..][i] == s[i + 1] && s[1..][j] == s[j + 1];
        }
      }
      FilterDistinct(s[1..], p);
      assert s[0] !in s[1..];
    }
  }

  lemma {:induction false} FilterAllPass<T(!new)>(s: seq<T>, p: T -> bool)
    requires forall x :: x in s ==> p(x)
    ensures Filter(s, p) == s
  {
    if s != [] {
      FilterAllPass(s[1..], p);
      assert s == [s[0]] + s[1..];
    }
  }

  lemma {:induction false} FilterNonePass<T(!new)>(s: seq<T>, p: T -> bool)
    requires forall x :: x in s ==> !p(x)
    ensures Filter(s, p) == []
  {
    if s != [] {
      FilterNonePass(s[1..], p);
    }
  }

  /** Two tests that agree on every element filter alike. */
  lemma {:induction false} FilterSame<T(!new)>(s: seq<T>, p: T -> bool, q: T -> bool)
    requires forall x :: x in s ==> p(x) == q(x)
    ensures Filter(s, p) == Filter(s, q)
  {
    if s != [] {
      FilterSame(s[1..], p, q);
    }
  }

  /** `Array.prototype.find`: the first element satisfying `p`. */
  function Find<T>(s: seq<T>, p: T -> bool): Option<T> {
    if s == [] then None
    else if p(s[0]) then Some(s[0])
    else Find(s[1..], p)
  }

  /** `Find` fails exactly when no element satisfies `p`, and otherwise
      yields the element at the first such index. */
  lemma FindSpec<T>(s: seq<T>, p: T -> bool)
    ensures Find(s, p).None? <==> forall i :: 0 <= i < |s| ==> !p(s[i])
    ensures Find(s, p).Some? ==>
      exists i :: 0 <= i < |s| && s[i] == Find(s, p).value && p(s[i]) && forall j :: 0 <= j < i ==> !p(s[j])
  {
    FindNone(s, p);
    FindSome(s, p);
  }

  lemma {:induction false} FindNone<T>(s: seq<T>, p: T -> bool)
    ensures Find(s, p).None? <==> forall i :: 0 <= i < |s| ==> !p(s[i])
  {
    if s != [] && !p(s[0]) {
      FindNone(s[1..], p);
      assert forall i :: 0 < i < |s| ==> s[i] == s[1..][i - 1];
    }
  }

  lemma {:induction false} FindSome<T>(s: seq<T>, p: T -> bool)
    ensures Find(s, p).Some? ==>
      exists i :: 0 <= i < |s| && s[i] == Find(s, p).value && p(s[i]) && forall j :: 0 <= j < i ==> !p(s[j])
  {
    if s != [] && !p(s[0]) {
      var rest := s[1..];
      FindSome(rest, p);
      if Find(rest, p).Some? {
        var i :| 0 <= i < |rest| && rest[i] == Find(rest, p).value && p(rest[i]) && forall j :: 0 <= j < i ==> !p(rest[j]);
        assert s[i + 1] == rest[i];
        assert forall j :: 0 < j < i + 1 ==> !p(s[j]) by {
          forall j | 0 < j < i + 1 ensures !p(s[j]) {
            assert s[j] == rest[j - 1];
          }
        }
      }
    }
  }

  /** The first element satisfying `p` is the one `Find` yields. */
  lemma FindFirst<T>(s: seq<T>, p: T -> bool, i: nat)
    requires i < |s| && p(s[i]) && forall j :: 0 <= j < i ==> !p(s[j])
    ensures Find(s, p) == Some(s[i])
  {
    FindSpec(s, p);
    var k :| 0 <= k < |s| && s[k] == Find(s, p).value && p(s[k]) && forall j :: 0 <= j < k ==> !p(s[j]);
    assert k == i;
  }

  function NotEqualTo<T(==)>(x: T): T -> bool {
    y => y != x
  }

  /** `s.includes(x) ? s.filter(y => y !== x) : [...s, x]`. */
  function Toggled<T(==,!new)>(s: seq<T>, x: T): (r: seq<T>)
    ensures x in s ==> x !in r
    ensures x !in s ==> x in r
  {
    if x in s then Filter(s, NotEqualTo(x)) else s + [x]
  }

  /** Toggling a present element removes all its occurrences and no other element. */
  lemma ToggledPresent<T(!new)>(s: seq<T>, x: T)
    requires x in s
    ensures multiset(Toggled(s, x)) == multiset(s)[x := 0]
    ensures Toggled(s, x) == Filter(s, NotEqualTo(x))
  {
    var r := Toggled(s, x);
    FilterMultiset(s, NotEqualTo(x));
    forall y ensures multiset(r)[y] == multiset(s)[x := 0][y] {
      assert NotEqualTo(x)(y) == (y != x);
    }
  }

  /** Toggling keeps a duplicate-free list duplicate-free. */
  lemma ToggledDistinct<T(!new)>(s: seq<T>, x: T)
    requires Distinct(s)
    ensures Distinct(Toggled(s, x))
  {
    if x in s {
      FilterDistinct(s, NotEqualTo(x));
    }
  }

  lemma ToggledAbsent<T(!new)>(s: seq<T>, x: T)
    requires x !in s
    ensures Toggled(s, x) == s + [x]
    ensures |Toggled(s, x)| == |s| + 1
  {
  }

  /** Toggling an absent element twice gives the original list back. */
  lemma {:induction false} ToggleTwiceAbsent<T(!new)>(s: seq<T>, x: T)
    requires x !in s
    ensures Toggled(Toggled(s, x), x) == s
  {
    var t := s + [x];
    assert x in t;
    forall y | y in s ensures NotEqualTo(x)(y) { }
    FilterAllPass(s, NotEqualTo(x));
    FilterAppend(s, [x], NotEqualTo(x));
    assert Filter([x], NotEqualTo(x)) == [];
  }

  // ---- sorting ----

  ghost predicate TotalPreorder<T(!new)>(le: (T, T) -> bool) {
    && (forall a, b :: le(a, b) || le(b, a))
    && (forall a, b, c :: le(a, b) && le(b, c) ==> le(a, c))
  }

  ghost predicate SortedBy<T>(s: seq<T>, le: (T, T) -> bool) {
    forall i, j :: 0 <= i < j < |s| ==> le(s[i], s[j])
  }

  /** Inserts `x` before the first element it may precede: inserting the
      elements of a list from the back keeps equal elements in input order,
      as the stable `Array.prototype.sort` does. */
  function Insert<T>(x: T, s: seq<T>, le: (T, T) -> bool): (r: seq<T>)
    ensures multiset(r) == multiset(s) + multiset{x}
    ensures |r| == |s| + 1
  {
    if s == [] || le(x, s[0]) then [x] + s
    else
      assert s == [s[0]] + s[1..];
      [s[0]] + Insert(x, s[1..], le)
  }

  lemma InsertMember<T>(x: T, s: seq<T>, le: (T, T) -> bool, y: T)
    requires y in Insert(x, s, le)
    ensures y == x || y in s
  {
    assert y in multiset(Insert(x, s, le));
  }

  lemma {:induction false} InsertSorted<T(!new)>(x: T, s: seq<T>, le: (T, T) -> bool)
    requires TotalPreorder(le)
    requires SortedBy(s, le)
    ensures SortedBy(Insert(x, s, le), le)
  {
    var r := Insert(x, s, le);
    if s == [] || le(x, s[0]) {
      forall j | 0 < j < |r| ensures le(r[0], r[j]) {
        if j > 1 { assert le(s[0], s[j - 1]); }
      }
    } else {
      var tail := s[1..];
      var t := Insert(x, tail, le);
      assert SortedBy(tail, le) by {
        forall i, j | 0 <= i < j < |tail| ensures le(tail[i], tail[j]) {
          assert tail[i] == s[i + 1] && tail[j] == s[j + 1];
        }
      }
      InsertSorted(x, tail, le);
      forall k | 0 <= k < |t| ensures le(s[0], t[k]) {
        InsertMember(x, tail, le, t[k]);
        if t[k] != x {
          var n :| 0 <= n < |tail| && tail[n] == t[k];
          assert s[n + 1] == t[k];
        }
      }
      assert r == [s[0]] + t;
      forall i, j | 0 <= i < j < |r| ensures le(r[i], r[j]) {
        if i == 0 { assert r[j] == t[j - 1]; }
        else { assert r[i] == t[i - 1] && r[j] == t[j - 1]; }
      }
    }
  }

  /** `s.sort(cmp)` for a comparator whose "may precede" relation is `le`. */
  function SortBy<T(!new)>(s: seq<T>, le: (T, T) -> bool): (r: seq<T>)
    requires TotalPreorder(le)
    ensures multiset(r) == multiset(s)
    ensures |r| == |s|
    ensures SortedBy(r, le)
  {
    if s == [] then []
    else
      assert s == [s[0]] + s[1..];
      var rest := SortBy(s[1..], le);
      InsertSorted(s[0], rest, le);
      Insert(s[0], rest, le)
  }

  /** Sorting keeps the elements. */
  lemma SortByMember<T(!new)>(s: seq<T>, le: (T, T) -> bool, x: T)
    requires TotalPreorder(le)
    ensures x in SortBy(s, le) <==> x in s
  {
    assert x in SortBy(s, le) <==> x in multiset(SortBy(s, le));
    assert x in s <==> x in multiset(s);
  }

  /** `Array.from(new Set(s)).sort(cmp)`: each element of `s` once, in order. */
  lemma SortDedup<T(!new)>(s: seq<T>, le: (T, T) -> bool)
    requires TotalPreorder(le)
    ensures Distinct(SortBy(Dedup(s), le))
    ensures forall x :: x in SortBy(Dedup(s), le) <==> x in s
  {
    DedupSpec(s);
    DistinctPermutation(Dedup(s), SortBy(Dedup(s), le));
    forall x ensures x in SortBy(Dedup(s), le) <==> x in s {
      SortByMember(Dedup(s), le, x);
    }
  }

  /** The comparator `(a, b) => key(a) - key(b)` (ascending) or its reverse. */
  function ByKey<T>(key: T -> int, ascending: bool): (T, T) -> bool {
    (a, b) => if ascending then key(a) <= key(b) else key(a) >= key(b)
  }

  lemma ByKeyTotal<T(!new)>(key: T -> int, ascending: bool)
    ensures TotalPreorder(ByKey(key, ascending))
  {
  }

  /** `b.localeCompare(a)` given the order of `a.localeCompare(b)`. */
  function Reversed<T>(le: (T, T) -> bool): (T, T) -> bool {
    (a, b) => le(b, a)
  }

  lemma ReversedTotal<T(!new)>(le: (T, T) -> bool)
    requires TotalPreorder(le)
    ensures TotalPreorder(Reversed(le))
  {
  }

  /** Compares two rows through a projection of each. */
  function On<T, K>(le: (K, K) -> bool, f: T -> K): (T, T) -> bool {
    (a, b) => le(f(a), f(b))
  }

  lemma OnTotal<T(!new), K(!new)>(le: (K, K) -> bool, f: T -> K)
    requires TotalPreorder(le)
    ensures TotalPreorder(On(le, f))
  {
    var r := On(le, f);
    forall a, b ensures r(a, b) || r(b, a) {
      assert le(f(a), f(b)) || le(f(b), f(a));
    }
    forall a, b, c | r(a, b) && r(b, c) ensures r(a, c) {
      assert le(f(a), f(b)) && le(f(b), f(c));
    }
  }

  // ---- concatenating folds ----

  /** `s.flatMap(f)`: the pieces `f` gives for each element, in order. */
  function Concat<T, U>(s: seq<T>, f: T -> seq<U>): seq<U> {
    if s == [] then [] else Concat(s[..|s| - 1], f) + f(s[|s| - 1])
  }

  lemma {:induction false} ConcatAppend<T, U>(a: seq<T>, b: seq<T>, f: T -> seq<U>)
    ensures Concat(a + b, f) == Concat(a, f) + Concat(b, f)
  {
    if b == [] {
      assert a + b == a;
    } else {
      var b0, last := b[..|b| - 1], b[|b| - 1];
      var ab := a + b;
      assert ab[..|ab| - 1] == a + b0;
      assert ab[|ab| - 1] == last;
      ConcatAppend(a, b0, f);
      assert Concat(ab, f) == Concat(a + b0, f) + f(last);
      assert Concat(b, f) == Concat(b0, f) + f(last);
      var x, y, z := Concat(a, f), Concat(b0, f), f(last);
      assert (x + y) + z == x + (y + z);
    }
  }

  lemma ConcatStep<T, U>(s: seq<T>, i: nat, f: T -> seq<U>)
    requires i < |s|
    ensures Concat(s[..i + 1], f) == Concat(s[..i], f) + f(s[i])
  {
    assert s[..i + 1][..i] == s[..i];
  }

  lemma ConcatOne<T, U>(x: T, f: T -> seq<U>)
    ensures Concat([x], f) == f(x)
  {
    assert [x][..0] == [];
  }

  /** An element of the fold is an element of some piece, and every element
      of every piece is one. */
  lemma {:induction false} ConcatMember<T, U>(s: seq<T>, f: T -> seq<U>, d: U)
    ensures d in Concat(s, f) <==> exists i :: 0 <= i < |s| && d in f(s[i])
  {
    if s != [] {
      var init := s[..|s| - 1];
      ConcatMember(init, f, d);
      assert forall i :: 0 <= i < |init| ==> init[i] == s[i];
    }
  }

  // ---- sums ----

  function SumBy<T>(s: seq<T>, f: T -> int): int {
    if s == [] then 0 else f(s[0]) + SumBy(s[1..], f)
  }

  lemma {:induction false} SumByAppend<T>(s: seq<T>, x: T, f: T -> int)
    ensures SumBy(s + [x], f) == SumBy(s, f) + f(x)
  {
    if s != [] {
      assert (s + [x])[1..] == s[1..] + [x];
      SumByAppend(s[1..], x, f);
    }
  }

  /** Two sequences whose elements agree pointwise under `f` and `g` have
      equal sums. */
  lemma {:induction false} SumByPointwise<T, U>(s: seq<T>, f: T -> int, t: seq<U>, g: U -> int)
    requires |s| == |t|
    requires forall i :: 0 <= i < |s| ==> f(s[i]) == g(t[i])
    ensures SumBy(s, f) == SumBy(t, g)
  {
    if s != [] {
      assert forall i :: 0 <= i < |s| - 1 ==> s[1..][i] == s[i + 1] && t[1..][i] == t[i + 1];
      SumByPointwise(s[1..], f, t[1..], g);
    }
  }

  lemma {:induction false} SumByInsert<T>(x: T, s: seq<T>, le: (T, T) -> bool, f: T -> int)
    ensures SumBy(Insert(x, s, le), f) == f(x) + SumBy(s, f)
  {
    if s != [] && !le(x, s[0]) {
      SumByInsert(x, s[1..], le, f);
      assert Insert(x, s, le)[1..] == Insert(x, s[1..], le);
    }
  }

  /** Sorting never changes a sum over the rows. */
  lemma {:induction false} SumBySort<T(!new)>(s: seq<T>, le: (T, T) -> bool, f: T -> int)
    requires TotalPreorder(le)
    ensures SumBy(SortBy(s, le), f) == SumBy(s, f)
  {
    if s != [] {
      SumBySort(s[1..], le, f);
      SumByInsert(s[0], SortBy(s[1..], le), le, f);
    }
  }

  // ---- slicing ----

  /** `s.slice(0, n)`. */
  function Take<T>(s: seq<T>, n: nat): (r: seq<T>)
    ensures |r| <= n && |r| <= |s|
    ensures |s| >= n ==> |r| == n
    ensures forall i :: 0 <= i < |r| ==> r[i] == s[i]
  {
    if |s| <= n then s else s[..n]
  }

  /** The index `Array.prototype.slice` uses for a relative position. */
  function SliceIndex(len: nat, k: int): (r: nat)
    ensures r <= len
    ensures 0 <= k <= len ==> r == k
  {
    if k < 0 then (if len + k < 0 then 0 else len + k) else if k > len then len else k
  }

  /** `s.slice(start, end)` with JavaScript's rules for negative and
      out-of-range positions. */
  function JsSlice<T>(s: seq<T>, start: int, end: int): (r: seq<T>)
    ensures |r| <= |s|
    ensures 0 <= start <= end <= |s| ==> r == s[start..end]
  {
    var from := SliceIndex(|s|, start);
    var to := SliceIndex(|s|, end);
    if to <= from then [] else s[from..to]
  }
}
