/** The coin categories tab (`CoinCategoriesTab`): the coin rows whose name
    or some category contains the search, sorted by name, category count or
    r-points. */
module CoinCategoriesTab {
  import opened Collections
  import opened Text
  import opened Tallies
  import ChannelAnalytics

  type CoinRow = ChannelAnalytics.CoinCategories

  /** `"name" | "categories" | "rpoints"`. */
  datatype SortKey = ByName | ByCategories | ByRPoints

  datatype Order = Asc | Desc

  /** The case-insensitive search on the coin name or any category. */
  predicate Matches(c: CoinRow, search: string) {
    || Contains(ToLower(c.coin), ToLower(search))
    || exists k :: 0 <= k < |c.categories| && Contains(ToLower(c.categories[k]), ToLower(search))
  }

  function MatchesSearch(search: string): CoinRow -> bool {
    (c: CoinRow) => Matches(c, search)
  }

  /** The `find(...)?.value || 0` r-points of a row. */
  function RowRPoints(distribution: seq<Entry>): CoinRow -> int {
    (c: CoinRow) => FindValue(distribution, c.coin)
  }

  function CategoryCount(): CoinRow -> int {
    (c: CoinRow) => |c.categories|
  }

  function CoinName(): CoinRow -> string {
    (c: CoinRow) => c.coin
  }

  /** The comparator of the sort; `le` is the order `localeCompare` gives. */
  function Comparator(sortBy: SortKey, order: Order, distribution: seq<Entry>, le: (string, string) -> bool): (CoinRow, CoinRow) -> bool {
    match sortBy
    case ByName => if order == Asc then On(le, CoinName()) else Reversed(On(le, CoinName()))
    case ByCategories => ByKey(CategoryCount(), order == Asc)
    case ByRPoints => ByKey(RowRPoints(distribution), order == Asc)
  }

  lemma ComparatorTotal(sortBy: SortKey, order: Order, distribution: seq<Entry>, le: (string, string) -> bool)
    requires TotalPreorder(le)
    ensures TotalPreorder(Comparator(sortBy, order, distribution, le))
  {
    match sortBy
    case ByName =>
      OnTotal(le, CoinName());
      ReversedTotal(On(le, CoinName()));
    case ByCategories =>
      ByKeyTotal(CategoryCount(), order == Asc);
    case ByRPoints =>
      ByKeyTotal(RowRPoints(distribution), order == Asc);
  }

  /** `filteredAndSortedData`: a sorted copy of the passing rows. */
  function FilteredAndSorted(rows: seq<CoinRow>, distribution: seq<Entry>, search: string, sortBy: SortKey, order: Order,
                             le: (string, string) -> bool): seq<CoinRow>
    requires TotalPreorder(le)
  {
    ComparatorTotal(sortBy, order, distribution, le);
    SortBy(Filter(rows, MatchesSearch(search)), Comparator(sortBy, order, distribution, le))
  }

  /** The result holds each passing row as often as the input does, and no
      other row. */
  lemma TabRows(rows: seq<CoinRow>, distribution: seq<Entry>, search: string, sortBy: SortKey, order: Order,
                le: (string, string) -> bool)
    requires TotalPreorder(le)
    ensures var r := FilteredAndSorted(rows, distribution, search, sortBy, order, le);
      && multiset(r) == multiset(Filter(rows, MatchesSearch(search)))
      && forall c :: c in r <==> c in rows && Matches(c, search)
  {
    var r := FilteredAndSorted(rows, distribution, search, sortBy, order, le);
    var passed := Filter(rows, MatchesSearch(search));
    forall c ensures c in r <==> c in rows && Matches(c, search) {
      assert c in r <==> c in multiset(r);
      assert c in passed <==> c in multiset(passed);
      assert MatchesSearch(search)(c) == Matches(c, search);
    }
  }

  /** An empty search keeps every row, so the result is a reordering of the
      whole input. */
  lemma EmptySearchKeepsAll(rows: seq<CoinRow>, distribution: seq<Entry>, sortBy: SortKey, order: Order,
                            le: (string, string) -> bool)
    requires TotalPreorder(le)
    ensures multiset(FilteredAndSorted(rows, distribution, "", sortBy, order, le)) == multiset(rows)
  {
    forall c | c in rows ensures MatchesSearch("")(c) {
      assert ToLower("") == "";
      ContainsEmpty(ToLower(c.coin));
    }
    FilterAllPass(rows, MatchesSearch(""));
  }

  /** Sorted by name: ascending or descending under the locale order. */
  lemma SortedByName(rows: seq<CoinRow>, distribution: seq<Entry>, search: string, order: Order, le: (string, string) -> bool)
    requires TotalPreorder(le)
    ensures var r := FilteredAndSorted(rows, distribution, search, ByName, order, le);
      forall i, j :: 0 <= i < j < |r| ==> if order == Asc then le(r[i].coin, r[j].coin) else le(r[j].coin, r[i].coin)
  {
    var r := FilteredAndSorted(rows, distribution, search, ByName, order, le);
    var cmp := Comparator(ByName, order, distribution, le);
    ComparatorTotal(ByName, order, distribution, le);
    assert SortedBy(r, cmp);
    forall i, j | 0 <= i < j < |r| ensures if order == Asc then le(r[i].coin, r[j].coin) else le(r[j].coin, r[i].coin) {
      assert cmp(r[i], r[j]);
    }
  }

  /** Sorted by the number of categories. */
  lemma SortedByCategories(rows: seq<CoinRow>, distribution: seq<Entry>, search: string, order: Order, le: (string, string) -> bool)
    requires TotalPreorder(le)
    ensures var r := FilteredAndSorted(rows, distribution, search, ByCategories, order, le);
      forall i, j :: 0 <= i < j < |r| ==>
        if order == Asc then |r[i].categories| <= |r[j].categories| else |r[i].categories| >= |r[j].categories|
  {
    var r := FilteredAndSorted(rows, distribution, search, ByCategories, order, le);
    var cmp := Comparator(ByCategories, order, distribution, le);
    ComparatorTotal(ByCategories, order, distribution, le);
    assert SortedBy(r, cmp);
    forall i, j | 0 <= i < j < |r|
      ensures if order == Asc then |r[i].categories| <= |r[j].categories| else |r[i].categories| >= |r[j].categories|
    {
      assert cmp(r[i], r[j]);
    }
  }

  /** Sorted by the r-points key. */
  lemma SortedByRPoints(rows: seq<CoinRow>, distribution: seq<Entry>, search: string, order: Order, le: (string, string) -> bool)
    requires TotalPreorder(le)
    ensures var r := FilteredAndSorted(rows, distribution, search, ByRPoints, order, le);
      forall i, j :: 0 <= i < j < |r| ==>
        if order == Asc then FindValue(distribution, r[i].coin) <= FindValue(distribution, r[j].coin)
        else FindValue(distribution, r[i].coin) >= FindValue(distribution, r[j].coin)
  {
    var r := FilteredAndSorted(rows, distribution, search, ByRPoints, order, le);
    var cmp := Comparator(ByRPoints, order, distribution, le);
    ComparatorTotal(ByRPoints, order, distribution, le);
    assert SortedBy(r, cmp);
    forall i, j | 0 <= i < j < |r|
      ensures if order == Asc then FindValue(distribution, r[i].coin) <= FindValue(distribution, r[j].coin)
        else FindValue(distribution, r[i].coin) >= FindValue(distribution, r[j].coin)
    {
      assert cmp(r[i], r[j]);
    }
  }

  /** A row's r-points sort key is the first distribution value under its
      coin name, or 0 when the name is absent. */
  lemma RowRPointsSpec(distribution: seq<Entry>, c: CoinRow)
    ensures (forall i :: 0 <= i < |distribution| ==> distribution[i].name != c.coin) ==> RowRPoints(distribution)(c) == 0
    ensures forall i ::
      (0 <= i < |distribution| && distribution[i].name == c.coin && forall j :: 0 <= j < i ==> distribution[j].name != c.coin)
      ==> RowRPoints(distribution)(c) == distribution[i].value
  {
    FindValueSpec(distribution, c.coin);
  }
}
