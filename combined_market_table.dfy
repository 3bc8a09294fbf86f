/** The market table (`CombinedMarketTable`): coin rows joined with market
    data, filtered by channel, search, tab and category, sorted by a column;
    the two-stage column menu, the header sort toggle, the market data
    replacement rule and the most frequent categories. */
module CombinedMarketTable {
  import opened Collections
  import opened Text
  import opened Tallies

  /** One element of `processedData.coinCategories` as this table declares it. */
  datatype TableCoin = TableCoin(coin: string, categories: seq<string>, channel: string)

  /** `CoinMarketData`; the numbers are kept as integers. */
  datatype CoinMarketData = CoinMarketData(
    id: string,
    name: string,
    symbol: string,
    price: int,
    marketCap: int,
    volume24h: int,
    percentChange24h: int,
    circulatingSupply: int)

  /** `"all" | "nfts" | "categories"`. */
  datatype TableTab = AllTab | NftsTab | CategoriesTab

  /** `"price" | "24h" | "market_cap" | "volume" | "rpoints" | "categories" | "supply"`. */
  datatype Column = Price | Change24h | MarketCap | Volume | RPoints | Categories | Supply

  datatype Order = Asc | Desc

  /** A row of `combinedData`. */
  datatype Row = Row(coin: string, categories: seq<string>, channel: string, rpoints: int, market: CoinMarketData)

  const DefaultColumns: seq<Column> := [Price, Change24h, MarketCap, Volume, RPoints, Categories]

  const AllColumns: seq<Column> := [Price, Change24h, MarketCap, Volume, RPoints, Categories, Supply]

  // ---- the market data replacement rule ----

  /** Some incoming coin is new or differs in price or 24h change. */
  predicate HasChanges(prev: map<string, CoinMarketData>, updated: map<string, CoinMarketData>) {
    exists coin :: coin in updated &&
      (coin !in prev || prev[coin].price != updated[coin].price || prev[coin].percentChange24h != updated[coin].percentChange24h)
  }

  /** The updater passed to `setMarketData`. */
  function Merged(prev: map<string, CoinMarketData>, updated: map<string, CoinMarketData>): (r: map<string, CoinMarketData>)
    ensures r == updated || r == prev
  {
    if HasChanges(prev, updated) then updated else prev
  }

  /** The prior data is kept exactly when every incoming coin is already
      known with the same price and 24h change. */
  lemma MergedKeeps(prev: map<string, CoinMarketData>, updated: map<string, CoinMarketData>)
    ensures Merged(prev, updated) == prev <==>
      prev == updated || forall coin :: coin in updated ==>
        coin in prev && prev[coin].price == updated[coin].price && prev[coin].percentChange24h == updated[coin].percentChange24h
  {
  }

  /** Receiving the same data again changes nothing. */
  lemma MergedIdempotent(prev: map<string, CoinMarketData>, updated: map<string, CoinMarketData>)
    ensures Merged(Merged(prev, updated), updated) == Merged(prev, updated)
  {
    if HasChanges(prev, updated) {
      assert !HasChanges(updated, updated);
    }
  }

  // ---- the table state ----

  class MarketTable {
    var search: string
    var activeTab: TableTab
    var selectedCategory: Option<string>
    var sortBy: Column
    var sortOrder: Order
    var marketData: map<string, CoinMarketData>
    var showColumnMenu: bool
    var tempVisibleColumns: seq<Column>
    var visibleColumns: seq<Column>

    /** Both column lists name each column at most once. */
    predicate ColumnsValid()
      reads this
    {
      Distinct(tempVisibleColumns) && Distinct(visibleColumns)
    }

    /** The initial state: no search, the "all" tab, highest r-points first,
        no market data, six of the seven columns shown. */
    constructor ()
      ensures search == "" && activeTab == AllTab && selectedCategory == None
      ensures sortBy == RPoints && sortOrder == Desc && marketData == map[]
      ensures !showColumnMenu && tempVisibleColumns == DefaultColumns && visibleColumns == DefaultColumns
      ensures ColumnsValid()
    {
      search := "";
      activeTab := AllTab;
      selectedCategory := None;
      sortBy := RPoints;
      sortOrder := Desc;
      marketData := map[];
      showColumnMenu := false;
      tempVisibleColumns := DefaultColumns;
      visibleColumns := DefaultColumns;
    }

    /** A market response: `Some` data replaces the map by the updater's
        rule; `None` (no data, or the request failed) leaves it. */
    method ReceiveMarketData(response: Option<map<string, CoinMarketData>>)
      modifies this
      ensures marketData == match response
        case Some(updated) => Merged(old(marketData), updated)
        case None => old(marketData)
      ensures search == old(search) && activeTab == old(activeTab) && selectedCategory == old(selectedCategory)
      ensures sortBy == old(sortBy) && sortOrder == old(sortOrder) && showColumnMenu == old(showColumnMenu)
      ensures tempVisibleColumns == old(tempVisibleColumns) && visibleColumns == old(visibleColumns)
    {
      if response.Some? {
        var updated := response.value;
        var hasChanges := HasChanges(marketData, updated);
        if hasChanges {
          marketData := updated;
        }
      }
    }

    /** `handleSelectAllColumns`: all seven columns, in the pending list only. */
    method SelectAllColumns()
      modifies this
      requires ColumnsValid()
      ensures tempVisibleColumns == AllColumns
      ensures visibleColumns == old(visibleColumns) && showColumnMenu == old(showColumnMenu)
      ensures sortBy == old(sortBy) && sortOrder == old(sortOrder) && marketData == old(marketData)
      ensures ColumnsValid()
    {
      tempVisibleColumns := AllColumns;
    }

    /** `handleDeselectAllColumns`. */
    method DeselectAllColumns()
      modifies this
      requires ColumnsValid()
      ensures tempVisibleColumns == []
      ensures visibleColumns == old(visibleColumns) && showColumnMenu == old(showColumnMenu)
      ensures sortBy == old(sortBy) && sortOrder == old(sortOrder) && marketData == old(marketData)
      ensures ColumnsValid()
    {
      tempVisibleColumns := [];
    }

    /** `toggleColumn`: the pending list gains or loses the column. */
    method ToggleColumn(column: Column)
      modifies this
      requires ColumnsValid()
      ensures tempVisibleColumns == Toggled(old(tempVisibleColumns), column)
      ensures visibleColumns == old(visibleColumns) && showColumnMenu == old(showColumnMenu)
      ensures sortBy == old(sortBy) && sortOrder == old(sortOrder) && marketData == old(marketData)
      ensures ColumnsValid()
    {
      ToggledDistinct(tempVisibleColumns, column);
      if column in tempVisibleColumns {
        tempVisibleColumns := Filter(tempVisibleColumns, NotEqualTo(column));
      } else {
        tempVisibleColumns := tempVisibleColumns + [column];
      }
    }

    /** `handleSaveColumns`: the pending list becomes the shown list and the
        menu closes. */
    method SaveColumns()
      modifies this
      requires ColumnsValid()
      ensures visibleColumns == old(tempVisibleColumns) && tempVisibleColumns == old(tempVisibleColumns)
      ensures !showColumnMenu
      ensures sortBy == old(sortBy) && sortOrder == old(sortOrder) && marketData == old(marketData)
      ensures ColumnsValid()
    {
      visibleColumns := tempVisibleColumns;
      showColumnMenu := false;
    }

    /** The "Columns" button: flips the menu and resets the pending list to
        the shown one. */
    method ClickColumnsButton()
      modifies this
      requires ColumnsValid()
      ensures showColumnMenu == !old(showColumnMenu)
      ensures tempVisibleColumns == old(visibleColumns) && visibleColumns == old(visibleColumns)
      ensures sortBy == old(sortBy) && sortOrder == old(sortOrder) && marketData == old(marketData)
      ensures ColumnsValid()
    {
      showColumnMenu := !showColumnMenu;
      tempVisibleColumns := visibleColumns;
    }

    /** A header click: that column becomes the sort column; descending,
        unless it already was the column sorted descending. */
    method ClickHeader(column: Column)
      modifies this
      ensures sortBy == column
      ensures sortOrder == if old(sortBy) == column && old(sortOrder) == Desc then Asc else Desc
      ensures search == old(search) && activeTab == old(activeTab) && selectedCategory == old(selectedCategory)
      ensures marketData == old(marketData) && showColumnMenu == old(showColumnMenu)
      ensures tempVisibleColumns == old(tempVisibleColumns) && visibleColumns == old(visibleColumns)
    {
      sortOrder := if sortBy == column && sortOrder == Desc then Asc else Desc;
      sortBy := column;
    }
  }

  /** Clicking the header of the sort column twice restores the order. */
  method ClickHeaderTwice(t: MarketTable, column: Column)
    requires t.sortBy == column
    modifies t
    ensures t.sortBy == old(t.sortBy) && t.sortOrder == old(t.sortOrder)
  {
    t.ClickHeader(column);
    t.ClickHeader(column);
  }

  /** Toggling a column twice without saving restores the pending list, and
      the shown columns never change until saved. */
  method ToggleColumnTwice(t: MarketTable, column: Column)
    requires t.ColumnsValid() && column !in t.tempVisibleColumns
    modifies t
    ensures t.tempVisibleColumns == old(t.tempVisibleColumns) && t.visibleColumns == old(t.visibleColumns)
  {
    ghost var before := t.tempVisibleColumns;
    t.ToggleColumn(column);
    t.ToggleColumn(column);
    ToggleTwiceAbsent(before, column);
  }

  // ---- the most frequent categories ----

  /** Every category of every coin, one per occurrence. */
  function AllCategories(coins: seq<TableCoin>): seq<string> {
    if coins == [] then [] else AllCategories(coins[..|coins| - 1]) + coins[|coins| - 1].categories
  }

  /** `topCategories` for the coins. */
  function TopCategoriesOf(coins: seq<TableCoin>): seq<string> {
    Names(Top(Ones(AllCategories(coins)), 10))
  }

  /** `topCategories`: the counting loop, then the ten most frequent names. */
  method TopCategories(coins: seq<TableCoin>) returns (r: seq<string>)
    ensures r == TopCategoriesOf(coins)
  {
    var count := NewCounter;
    CountStart(coins);
    var i := 0;
    while i < |coins|
      invariant 0 <= i <= |coins|
      invariant Holds(count, Ones(AllCategories(coins[..i])))
    {
      var cats := coins[i].categories;
      ghost var done := AllCategories(coins[..i]);
      CountCoinStart(done, cats);
      var j := 0;
      while j < |cats|
        invariant 0 <= j <= |cats|
        invariant Holds(count, Ones(done + cats[..j]))
      {
        CountStep(count, done, cats, j);
        count := Add(count, cats[j], 1);
        j := j + 1;
      }
      CountCoinEnd(coins, i, count);
      i := i + 1;
    }
    assert coins[..i] == coins;
    EntriesHold(count, Ones(AllCategories(coins)));
    ByKeyTotal(Value, false);
    r := Names(Take(SortBy(Entries(count), ByValueDesc()), 10));
  }

  lemma CountStart(coins: seq<TableCoin>)
    ensures Holds(NewCounter, Ones(AllCategories(coins[..0])))
  {
    assert coins[..0] == [];
  }

  lemma CountCoinStart(done: seq<string>, cats: seq<string>)
    ensures done + cats[..0] == done
  {
    assert cats[..0] == [];
  }

  lemma CountStep(count: Counter, done: seq<string>, cats: seq<string>, j: nat)
    requires j < |cats| && Holds(count, Ones(done + cats[..j]))
    ensures Holds(Add(count, cats[j], 1), Ones(done + cats[..j + 1]))
  {
    AddHolds(count, Ones(done + cats[..j]), cats[j], 1);
    assert done + cats[..j + 1] == (done + cats[..j]) + [cats[j]];
    OnesAppend(done + cats[..j], [cats[j]]);
    assert Ones([cats[j]]) == [(cats[j], 1)];
  }

  lemma CountCoinEnd(coins: seq<TableCoin>, i: nat, count: Counter)
    requires i < |coins|
    requires Holds(count, Ones(AllCategories(coins[..i]) + coins[i].categories[..|coins[i].categories|]))
    ensures Holds(count, Ones(AllCategories(coins[..i + 1])))
  {
    assert coins[i].categories[..|coins[i].categories|] == coins[i].categories;
    assert coins[..i + 1][..i] == coins[..i];
  }

  /** At most ten categories, each named once, each a category of some
      coin, from the most frequent; a category left out is no more frequent
      than any shown. */
  lemma TopCategoriesSpec(coins: seq<TableCoin>)
    ensures var t := TopCategoriesOf(coins);
      && |t| <= 10
      && Distinct(t)
      && (forall x :: x in t ==> x in AllCategories(coins))
      && (forall i, j :: 0 <= i < j < |t| ==>
            multiset(AllCategories(coins))[t[i]] >= multiset(AllCategories(coins))[t[j]])
  {
    var cs := AllCategories(coins);
    var top := Top(Ones(cs), 10);
    var t := TopCategoriesOf(coins);
    TopSpec(Ones(cs), 10);
    forall i | 0 <= i < |top| ensures top[i].name in cs && top[i].value == multiset(cs)[top[i].name] {
      OnesMember(cs, top[i]);
    }
    forall i, j | 0 <= i < j < |t| ensures t[i] != t[j] {
      assert t[i] == top[i].name && t[j] == top[j].name;
    }
    forall x | x in t ensures x in cs {
      var i :| 0 <= i < |t| && t[i] == x;
      assert top[i].name == x;
    }
  }

  lemma TopCategoriesAreTop(coins: seq<TableCoin>, x: string)
    requires x in AllCategories(coins) && x !in TopCategoriesOf(coins)
    ensures forall i :: 0 <= i < |TopCategoriesOf(coins)| ==>
      multiset(AllCategories(coins))[TopCategoriesOf(coins)[i]] >= multiset(AllCategories(coins))[x]
  {
    var cs := AllCategories(coins);
    var top := Top(Ones(cs), 10);
    var t := TopCategoriesOf(coins);
    var e := Entry(x, multiset(cs)[x]);
    OnesMember(cs, e);
    assert e !in top by {
      forall i | 0 <= i < |top| ensures top[i] != e {
        assert t[i] == top[i].name;
      }
    }
    TopIsTop(Ones(cs), 10, e);
    forall i | 0 <= i < |t| ensures multiset(cs)[t[i]] >= multiset(cs)[x] {
      TopSpec(Ones(cs), 10);
      OnesMember(cs, top[i]);
    }
  }

  // ---- the rows ----

  /** The channel filter: no selected channel passes every coin. */
  function InSelectedChannels(selected: seq<string>): TableCoin -> bool {
    (c: TableCoin) => |selected| == 0 || c.channel in selected
  }

  /** The zero-valued market data of a coin without any. */
  function Placeholder(coin: string): CoinMarketData {
    CoinMarketData(coin, coin, coin, 0, 0, 0, 0, 0)
  }

  /** The `.map(...)` step: the coin's r-points from the distribution and
      its market data or the placeholder. */
  function Join(c: TableCoin, distribution: seq<Entry>, market: map<string, CoinMarketData>): Row {
    Row(c.coin, c.categories, c.channel, FindValue(distribution, c.coin),
        if c.coin in market then market[c.coin] else Placeholder(c.coin))
  }

  function JoinAll(cs: seq<TableCoin>, distribution: seq<Entry>, market: map<string, CoinMarketData>): (r: seq<Row>)
    ensures |r| == |cs|
  {
    seq(|cs|, i requires 0 <= i < |cs| => Join(cs[i], distribution, market))
  }

  /** Some category contains `needle`, case-insensitively on the category. */
  predicate SomeCategoryContains(categories: seq<string>, needle: string) {
    exists k :: 0 <= k < |categories| && Contains(ToLower(categories[k]), needle)
  }

  /** `matchesSearch`: the coin name, and outside the "all" tab also any
      category, contains the lower-cased search. */
  predicate MatchesSearch(r: Row, search: string, tab: TableTab) {
    || Contains(ToLower(r.coin), ToLower(search))
    || (tab != AllTab && SomeCategoryContains(r.categories, ToLower(search)))
  }

  /** A selected category that is not the empty string. */
  predicate CategoryChosen(selected: Option<string>) {
    selected.Some? && selected.value != ""
  }

  /** `matchesTab` as written: the parenthesised conditional makes its last
      disjunct true whenever the tab is not "categories". */
  predicate MatchesTabAsWritten(r: Row, tab: TableTab, selected: Option<string>) {
    || tab == AllTab
    || (tab == NftsTab && SomeCategoryContains(r.categories, "nft"))
    || (if tab == CategoriesTab && CategoryChosen(selected) then selected.value in r.categories else true)
  }

  /** `matchesTab` as evidently intended: the "nfts" tab keeps only coins
      with an NFT category, the "categories" tab only coins with the chosen
      category. */
  predicate MatchesTab(r: Row, tab: TableTab, selected: Option<string>) {
    || tab == AllTab
    || (tab == NftsTab && SomeCategoryContains(r.categories, "nft"))
    || (tab == CategoriesTab && (CategoryChosen(selected) ==> selected.value in r.categories))
  }

  /** As written, the "nfts" tab keeps every row. */
  lemma NftsTabAsWrittenKeepsAll(r: Row, selected: Option<string>)
    ensures MatchesTabAsWritten(r, NftsTab, selected)
  {
  }

  /** A coin without categories is kept by the "nfts" tab as written but
      not by the intended test. */
  lemma NftsTabCounterexample(selected: Option<string>)
    ensures var r := Row("BTC", [], "", 0, Placeholder("BTC"));
      MatchesTabAsWritten(r, NftsTab, selected) && !MatchesTab(r, NftsTab, selected)
  {
  }

  /** The two readings agree on every other tab. */
  lemma MatchesTabAgrees(r: Row, tab: TableTab, selected: Option<string>)
    requires tab != NftsTab
    ensures MatchesTab(r, tab, selected) == MatchesTabAsWritten(r, tab, selected)
  {
  }

  /** The intended "nfts" tab keeps exactly the coins with an NFT category. */
  lemma NftsTabKeepsNfts(r: Row, selected: Option<string>)
    ensures MatchesTab(r, NftsTab, selected) <==> exists k :: 0 <= k < |r.categories| && Contains(ToLower(r.categories[k]), "nft")
  {
  }

  /** The row filter of `combinedData` as written. */
  function Shown(search: string, tab: TableTab, selected: Option<string>): Row -> bool {
    (r: Row) => MatchesSearch(r, search, tab) && MatchesTabAsWritten(r, tab, selected)
  }

  /** The row filter with the tab test as evidently intended. */
  function ShownIntended(search: string, tab: TableTab, selected: Option<string>): Row -> bool {
    (r: Row) => MatchesSearch(r, search, tab) && MatchesTab(r, tab, selected)
  }

  /** The value a column sorts by; "rpoints" and the unsortable
      "categories" both sort by r-points. */
  function ColumnKey(column: Column): Row -> int {
    match column
    case Price => (r: Row) => r.market.price
    case Change24h => (r: Row) => r.market.percentChange24h
    case MarketCap => (r: Row) => r.market.marketCap
    case Volume => (r: Row) => r.market.volume24h
    case Supply => (r: Row) => r.market.circulatingSupply
    case RPoints => (r: Row) => r.rpoints
    case Categories => (r: Row) => r.rpoints
  }

  function Comparator(column: Column, order: Order): (Row, Row) -> bool {
    ByKey(ColumnKey(column), order == Asc)
  }

  /** The joined rows of the coins of the selected channels that `keep`
      passes, sorted by the column. */
  function Pipeline(coins: seq<TableCoin>, distribution: seq<Entry>, market: map<string, CoinMarketData>,
                    selectedChannels: seq<string>, keep: Row -> bool, column: Column, order: Order): seq<Row>
  {
    ByKeyTotal(ColumnKey(column), order == Asc);
    SortBy(Filter(JoinAll(Filter(coins, InSelectedChannels(selectedChannels)), distribution, market), keep),
           Comparator(column, order))
  }

  /** `combinedData`, as written. */
  function CombinedData(coins: seq<TableCoin>, distribution: seq<Entry>, market: map<string, CoinMarketData>,
                        selectedChannels: seq<string>, search: string, tab: TableTab, selected: Option<string>,
                        column: Column, order: Order): seq<Row>
  {
    Pipeline(coins, distribution, market, selectedChannels, Shown(search, tab, selected), column, order)
  }

  /** `combinedData` with the tab test as evidently intended. */
  function CombinedDataIntended(coins: seq<TableCoin>, distribution: seq<Entry>, market: map<string, CoinMarketData>,
                                selectedChannels: seq<string>, search: string, tab: TableTab, selected: Option<string>,
                                column: Column, order: Order): seq<Row>
  {
    Pipeline(coins, distribution, market, selectedChannels, ShownIntended(search, tab, selected), column, order)
  }

  /** A coin's row: its r-points are the first distribution value under its
      name, or 0; its market data is the fetched data, or a placeholder named
      after the coin with every number 0. */
  lemma JoinSpec(c: TableCoin, distribution: seq<Entry>, market: map<string, CoinMarketData>)
    ensures var r := Join(c, distribution, market);
      && r.coin == c.coin && r.categories == c.categories && r.channel == c.channel
      && (c.coin in market ==> r.market == market[c.coin])
      && (c.coin !in market ==>
            && r.market.id == c.coin && r.market.name == c.coin && r.market.symbol == c.coin
            && r.market.price == 0 && r.market.marketCap == 0 && r.market.volume24h == 0
            && r.market.percentChange24h == 0 && r.market.circulatingSupply == 0)
      && ((forall i :: 0 <= i < |distribution| ==> distribution[i].name != c.coin) ==> r.rpoints == 0)
      && (forall i ::
            (0 <= i < |distribution| && distribution[i].name == c.coin && forall j :: 0 <= j < i ==> distribution[j].name != c.coin)
            ==> r.rpoints == distribution[i].value)
  {
    FindValueSpec(distribution, c.coin);
  }

  /** The rows are the joined rows of the coins that pass the channel filter
      and the search and tab tests as written, each as often as its coin: on
      the "nfts" tab every coin matching the search is shown. */
  lemma CombinedRows(coins: seq<TableCoin>, distribution: seq<Entry>, market: map<string, CoinMarketData>,
                     selectedChannels: seq<string>, search: string, tab: TableTab, selected: Option<string>,
                     column: Column, order: Order)
    ensures forall r :: r in CombinedData(coins, distribution, market, selectedChannels, search, tab, selected, column, order) <==>
      (exists k :: 0 <= k < |coins| && InSelectedChannels(selectedChannels)(coins[k]) && r == Join(coins[k], distribution, market))
      && MatchesSearch(r, search, tab) && MatchesTabAsWritten(r, tab, selected)
  {
    var keep := Shown(search, tab, selected);
    PipelineMembers(coins, distribution, market, selectedChannels, keep, column, order);
    forall r ensures keep(r) == (MatchesSearch(r, search, tab) && MatchesTabAsWritten(r, tab, selected)) {
    }
  }

  /** The intended table: the same rows, but the "nfts" tab keeps only coins
      with an NFT category. */
  lemma CombinedIntendedRows(coins: seq<TableCoin>, distribution: seq<Entry>, market: map<string, CoinMarketData>,
                             selectedChannels: seq<string>, search: string, tab: TableTab, selected: Option<string>,
                             column: Column, order: Order)
    ensures forall r :: r in CombinedDataIntended(coins, distribution, market, selectedChannels, search, tab, selected, column, order) <==>
      (exists k :: 0 <= k < |coins| && InSelectedChannels(selectedChannels)(coins[k]) && r == Join(coins[k], distribution, market))
      && MatchesSearch(r, search, tab) && MatchesTab(r, tab, selected)
  {
    var keep := ShownIntended(search, tab, selected);
    PipelineMembers(coins, distribution, market, selectedChannels, keep, column, order);
    forall r ensures keep(r) == (MatchesSearch(r, search, tab) && MatchesTab(r, tab, selected)) {
    }
  }

  /** On every tab but "nfts" the intended table is the table as written. */
  lemma IntendedAgreesOffNfts(coins: seq<TableCoin>, distribution: seq<Entry>, market: map<string, CoinMarketData>,
                              selectedChannels: seq<string>, search: string, tab: TableTab, selected: Option<string>,
                              column: Column, order: Order)
    requires tab != NftsTab
    ensures CombinedDataIntended(coins, distribution, market, selectedChannels, search, tab, selected, column, order)
         == CombinedData(coins, distribution, market, selectedChannels, search, tab, selected, column, order)
  {
    var joined := JoinAll(Filter(coins, InSelectedChannels(selectedChannels)), distribution, market);
    forall r | r in joined ensures ShownIntended(search, tab, selected)(r) == Shown(search, tab, selected)(r) {
      MatchesTabAgrees(r, tab, selected);
    }
    FilterSame(joined, ShownIntended(search, tab, selected), Shown(search, tab, selected));
  }

  /** The rows of the pipeline are exactly the joined rows that `keep`
      passes. */
  lemma PipelineMembers(coins: seq<TableCoin>, distribution: seq<Entry>, market: map<string, CoinMarketData>,
                        selectedChannels: seq<string>, keep: Row -> bool, column: Column, order: Order)
    ensures forall r :: r in Pipeline(coins, distribution, market, selectedChannels, keep, column, order) <==>
      (exists k :: 0 <= k < |coins| && InSelectedChannels(selectedChannels)(coins[k]) && r == Join(coins[k], distribution, market))
      && keep(r)
  {
    var joined := JoinAll(Filter(coins, InSelectedChannels(selectedChannels)), distribution, market);
    var shown := Filter(joined, keep);
    var out := Pipeline(coins, distribution, market, selectedChannels, keep, column, order);
    JoinedMembers(coins, distribution, market, selectedChannels);
    assert multiset(out) == multiset(shown);
    forall r ensures r in out <==> r in joined && keep(r) {
      assert r in out <==> r in multiset(out);
      assert r in shown <==> r in multiset(shown);
    }
  }

  lemma JoinedMembers(coins: seq<TableCoin>, distribution: seq<Entry>, market: map<string, CoinMarketData>, selectedChannels: seq<string>)
    ensures forall r :: r in JoinAll(Filter(coins, InSelectedChannels(selectedChannels)), distribution, market) <==>
      exists k :: 0 <= k < |coins| && InSelectedChannels(selectedChannels)(coins[k]) && r == Join(coins[k], distribution, market)
  {
    var passed := Filter(coins, InSelectedChannels(selectedChannels));
    var joined := JoinAll(passed, distribution, market);
    forall r ensures r in joined <==> exists k :: 0 <= k < |coins| && InSelectedChannels(selectedChannels)(coins[k]) && r == Join(coins[k], distribution, market) {
      if r in joined {
        var i :| 0 <= i < |joined| && joined[i] == r;
        assert passed[i] in passed;
        var k :| 0 <= k < |coins| && coins[k] == passed[i];
      }
      if exists k :: 0 <= k < |coins| && InSelectedChannels(selectedChannels)(coins[k]) && r == Join(coins[k], distribution, market) {
        var k :| 0 <= k < |coins| && InSelectedChannels(selectedChannels)(coins[k]) && r == Join(coins[k], distribution, market);
        assert coins[k] in passed;
        var i :| 0 <= i < |passed| && passed[i] == coins[k];
        assert joined[i] == r;
      }
    }
  }

  /** With no channel selected, no coin is dropped before the search. */
  lemma NoChannelSelected(coins: seq<TableCoin>, distribution: seq<Entry>, market: map<string, CoinMarketData>)
    ensures Filter(coins, InSelectedChannels([])) == coins
    ensures |JoinAll(Filter(coins, InSelectedChannels([])), distribution, market)| == |coins|
  {
    FilterAllPass(coins, InSelectedChannels([]));
  }

  /** The rows are ordered by the chosen column in the chosen direction. */
  lemma CombinedSorted(coins: seq<TableCoin>, distribution: seq<Entry>, market: map<string, CoinMarketData>,
                       selectedChannels: seq<string>, search: string, tab: TableTab, selected: Option<string>,
                       column: Column, order: Order)
    ensures var out := CombinedData(coins, distribution, market, selectedChannels, search, tab, selected, column, order);
      forall i, j :: 0 <= i < j < |out| ==>
        if order == Asc then ColumnKey(column)(out[i]) <= ColumnKey(column)(out[j])
        else ColumnKey(column)(out[i]) >= ColumnKey(column)(out[j])
  {
    var out := CombinedData(coins, distribution, market, selectedChannels, search, tab, selected, column, order);
    ByKeyTotal(ColumnKey(column), order == Asc);
    assert SortedBy(out, Comparator(column, order));
    forall i, j | 0 <= i < j < |out|
      ensures if order == Asc then ColumnKey(column)(out[i]) <= ColumnKey(column)(out[j])
        else ColumnKey(column)(out[i]) >= ColumnKey(column)(out[j])
    {
      assert Comparator(column, order)(out[i], out[j]);
    }
  }

  /** In the "all" tab only the coin name is searched. */
  lemma AllTabSearchesName(r: Row, search: string, selected: Option<string>)
    ensures Shown(search, AllTab, selected)(r) <==> Contains(ToLower(r.coin), ToLower(search))
  {
  }
}
