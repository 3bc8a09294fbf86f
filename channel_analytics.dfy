/** The per-channel analytics fold of `ChannelAnalytics`: one pass over the
    selected records that accumulates totals, distributions, trends and the
    coin-to-categories table, then turns the maps into sorted lists. */
module ChannelAnalytics {
  import opened Collections
  import opened Knowledge
  import opened Tallies

  datatype TrendPoint = TrendPoint(date: string, rpoints: int)

  datatype CoinCategories = CoinCategories(coin: string, categories: seq<string>)

  datatype Analytics = Analytics(
    totalRPoints: int,
    totalMentions: int,
    uniqueCoins: seq<string>,
    uniqueCategories: seq<string>,
    categoryDistribution: seq<Entry>,
    coinDistribution: seq<Entry>,
    timelineData: seq<Entry>,
    projectDistribution: seq<Entry>,
    projectTrends: map<string, seq<TrendPoint>>,
    coinCategories: seq<CoinCategories>)

  // ---- what the fold computes, stated over the mentions ----

  /** The mentions of the records with each date replaced by its UTC day,
      `new Date(item.date).toISOString().split("T")[0]`. */
  function DayMentions(ms: seq<Mention>, dayOf: string -> string): (r: seq<Mention>)
    ensures |r| == |ms|
  {
    if ms == [] then []
    else
      var m := ms[|ms| - 1];
      DayMentions(ms[..|ms| - 1], dayOf) + [Mention(dayOf(m.date), m.project)]
  }

  lemma {:induction false} DayMentionsIndex(ms: seq<Mention>, dayOf: string -> string, k: nat)
    requires k < |ms|
    ensures DayMentions(ms, dayOf)[k] == Mention(dayOf(ms[k].date), ms[k].project)
  {
    if k < |ms| - 1 {
      DayMentionsIndex(ms[..|ms| - 1], dayOf, k);
    }
  }

  function Seen(items: seq<KnowledgeItem>, dayOf: string -> string): seq<Mention> {
    DayMentions(Mentions(items), dayOf)
  }

  function RPointsSum(ms: seq<Mention>): int {
    if ms == [] then 0 else RPointsSum(ms[..|ms| - 1]) + RPoints(ms[|ms| - 1].project)
  }

  function Coins(ms: seq<Mention>): (r: seq<string>)
    ensures |r| == |ms|
  {
    if ms == [] then [] else Coins(ms[..|ms| - 1]) + [ms[|ms| - 1].project.coin]
  }

  /** The category tags of all mentions, one per occurrence. */
  function CategoryTags(ms: seq<Mention>): seq<string> {
    Concat(ms, EachCategories())
  }

  function EachCategories(): Mention -> seq<string> {
    (m: Mention) => Categories(m.project)
  }

  function CoinDeltas(ms: seq<Mention>): (r: seq<(string, int)>)
    ensures |r| == |ms|
  {
    if ms == [] then [] else CoinDeltas(ms[..|ms| - 1]) + [(ms[|ms| - 1].project.coin, RPoints(ms[|ms| - 1].project))]
  }

  function DayDeltas(ms: seq<Mention>): (r: seq<(string, int)>)
    ensures |r| == |ms|
  {
    if ms == [] then [] else DayDeltas(ms[..|ms| - 1]) + [(ms[|ms| - 1].date, RPoints(ms[|ms| - 1].project))]
  }

  function CategoryDeltas(ms: seq<Mention>): seq<(string, int)> {
    Ones(CategoryTags(ms))
  }

  /** The trend points of one coin: one per mention of it, in mention order. */
  function TrendOf(ms: seq<Mention>, coin: string): seq<TrendPoint> {
    if ms == [] then []
    else
      var m := ms[|ms| - 1];
      TrendOf(ms[..|ms| - 1], coin) + if m.project.coin == coin then [TrendPoint(m.date, RPoints(m.project))] else []
  }

  function Trends(ms: seq<Mention>): map<string, seq<TrendPoint>> {
    map c | c in Coins(ms) :: TrendOf(ms, c)
  }

  /** The coins of the mentions that carry at least one category. */
  function CategorisedCoins(ms: seq<Mention>): seq<string> {
    if ms == [] then []
    else
      var m := ms[|ms| - 1];
      CategorisedCoins(ms[..|ms| - 1]) + if Categories(m.project) != [] then [m.project.coin] else []
  }

  /** The concatenated category lists of the mentions of `coin`. */
  function CategoriesOf(ms: seq<Mention>, coin: string): seq<string> {
    if ms == [] then []
    else
      var m := ms[|ms| - 1];
      CategoriesOf(ms[..|ms| - 1], coin) + if m.project.coin == coin then Categories(m.project) else []
  }

  /** How many mentions of `coin` carry at least one category. */
  function CategorisedCount(ms: seq<Mention>, coin: string): nat {
    if ms == [] then 0
    else
      var m := ms[|ms| - 1];
      CategorisedCount(ms[..|ms| - 1], coin) + if m.project.coin == coin && Categories(m.project) != [] then 1 else 0
  }

  /** A coin's categories: its first categorised mention's list as it is,
      and from the second such mention on, the duplicate-free union. */
  function MergedCategories(ms: seq<Mention>, coin: string): seq<string> {
    if CategorisedCount(ms, coin) <= 1 then CategoriesOf(ms, coin) else Dedup(CategoriesOf(ms, coin))
  }

  /** `data.coinCategories`: one entry per categorised coin, in the order of
      each coin's first categorised mention, holding its merged categories. */
  function CoinCategoriesTable(ms: seq<Mention>): seq<CoinCategories> {
    TableFor(Dedup(CategorisedCoins(ms)), ms)
  }

  function TableFor(ks: seq<string>, ms: seq<Mention>): (r: seq<CoinCategories>)
    ensures |r| == |ks|
  {
    if ks == [] then []
    else
      var k := ks[|ks| - 1];
      TableFor(ks[..|ks| - 1], ms) + [CoinCategories(k, MergedCategories(ms, k))]
  }

  lemma {:induction false} TableForIndex(ks: seq<string>, ms: seq<Mention>, i: nat)
    requires i < |ks|
    ensures TableFor(ks, ms)[i] == CoinCategories(ks[i], MergedCategories(ms, ks[i]))
  {
    if i < |ks| - 1 {
      TableForIndex(ks[..|ks| - 1], ms, i);
    }
  }

  lemma TableIndex(ms: seq<Mention>)
    ensures |CoinCategoriesTable(ms)| == |Dedup(CategorisedCoins(ms))|
    ensures forall i :: 0 <= i < |CoinCategoriesTable(ms)| ==>
      CoinCategoriesTable(ms)[i] == CoinCategories(Dedup(CategorisedCoins(ms))[i], MergedCategories(ms, Dedup(CategorisedCoins(ms))[i]))
  {
    forall i | 0 <= i < |CoinCategoriesTable(ms)|
      ensures CoinCategoriesTable(ms)[i] == CoinCategories(Dedup(CategorisedCoins(ms))[i], MergedCategories(ms, Dedup(CategorisedCoins(ms))[i]))
    {
      TableForIndex(Dedup(CategorisedCoins(ms)), ms, i);
    }
  }

  function EntryTime(dayTime: string -> int): Entry -> int {
    (e: Entry) => dayTime(e.name)
  }

  /** The comparator `(a, b) => new Date(a.date).getTime() - new Date(b.date).getTime()`. */
  function ByDayAsc(dayTime: string -> int): (Entry, Entry) -> bool {
    ByKey(EntryTime(dayTime), true)
  }

  // ---- the fold ----

  /** `data.coinCategories.find((c) => c.coin === coin)`, as a position. */
  function IndexOfCoin(cc: seq<CoinCategories>, coin: string): (r: Option<nat>)
    ensures r.Some? ==> r.value < |cc| && cc[r.value].coin == coin
    ensures r.None? ==> forall i :: 0 <= i < |cc| ==> cc[i].coin != coin
  {
    if cc == [] then None
    else if cc[0].coin == coin then Some(0)
    else match IndexOfCoin(cc[1..], coin)
      case None => None
      case Some(i) => Some(i + 1)
  }

  /** The `data` object of the fold: plain values, each update of a field
      replacing it. */
  datatype Data = Data(
    totalRPoints: int,
    totalMentions: int,
    uniqueCoins: seq<string>,
    uniqueCategories: seq<string>,
    categoryDistribution: Counter,
    coinDistribution: Counter,
    timelineData: Counter,
    projectTrends: map<string, seq<TrendPoint>>,
    coinCategories: seq<CoinCategories>)

  /** The object literal the fold starts from. */
  const NewData := Data(0, 0, [], [], NewCounter, NewCounter, NewCounter, map[], [])

  /** The `data` object after folding in the mentions `ms`. */
  function FoldOf(ms: seq<Mention>): Data {
    Data(
      RPointsSum(ms),
      |ms|,
      Dedup(Coins(ms)),
      Dedup(CategoryTags(ms)),
      CounterOf(CategoryDeltas(ms)),
      CounterOf(CoinDeltas(ms)),
      CounterOf(DayDeltas(ms)),
      Trends(ms),
      CoinCategoriesTable(ms))
  }

  /** `data` holds what folding in the mentions `ms` puts in it. */
  ghost predicate Folded(data: Data, ms: seq<Mention>) {
    && data.totalRPoints == RPointsSum(ms)
    && data.totalMentions == |ms|
    && data.uniqueCoins == Dedup(Coins(ms))
    && data.uniqueCategories == Dedup(CategoryTags(ms))
    && data.categoryDistribution == CounterOf(CategoryDeltas(ms))
    && data.coinDistribution == CounterOf(CoinDeltas(ms))
    && data.timelineData == CounterOf(DayDeltas(ms))
    && data.projectTrends == Trends(ms)
    && data.coinCategories == CoinCategoriesTable(ms)
  }

  lemma FoldOfFolded(data: Data, ms: seq<Mention>)
    requires data == FoldOf(ms)
    ensures Folded(data, ms)
  {
  }

  lemma FoldedFoldOf(data: Data, ms: seq<Mention>)
    requires Folded(data, ms)
    ensures data == FoldOf(ms)
  {
  }

  lemma NewDataFolded()
    ensures Folded(NewData, [])
  {
  }

  /** The body of `projects.forEach` for one project, `m.date` being the
      record's day. */
  method AddMention(data: Data, ghost ms: seq<Mention>, m: Mention) returns (r: Data)
    requires Folded(data, ms)
    ensures Folded(r, ms + [m])
  {
    var rpoints := RPoints(m.project);
    var coins := AddCoin(data.uniqueCoins, ms, m);
    var coinDistribution := CountCoin(data.coinDistribution, ms, m);
    var timelineData := CountDay(data.timelineData, ms, m);
    var cats, tally, cc := AddCategoryFields(data.uniqueCategories, data.categoryDistribution, data.coinCategories, ms, m);
    var trends := AddTrendPoint(data.projectTrends, ms, m);
    assert data.totalRPoints + rpoints == RPointsSum(ms + [m]) by {
      StepFacts(ms, m);
    }
    r := Data(data.totalRPoints + rpoints, data.totalMentions + 1, coins, cats, tally, coinDistribution, timelineData, trends, cc);
  }

  /** `data.uniqueCoins.add(coin)`. */
  method AddCoin(coins: seq<string>, ghost ms: seq<Mention>, m: Mention) returns (coins': seq<string>)
    requires coins == Dedup(Coins(ms))
    ensures coins' == Dedup(Coins(ms + [m]))
  {
    coins' := coins;
    if m.project.coin !in coins' {
      coins' := coins' + [m.project.coin];
    }
    StepFacts(ms, m);
    DedupSnoc(Coins(ms), m.project.coin);
  }

  /** `data.coinDistribution.set(coin, (... || 0) + rpoints)`. */
  method CountCoin(tally: Counter, ghost ms: seq<Mention>, m: Mention) returns (tally': Counter)
    requires tally == CounterOf(CoinDeltas(ms))
    ensures tally' == CounterOf(CoinDeltas(ms + [m]))
  {
    tally' := Add(tally, m.project.coin, RPoints(m.project));
    StepFacts(ms, m);
    CounterOfSnoc(CoinDeltas(ms), m.project.coin, RPoints(m.project));
  }

  /** `data.timelineData.set(date, (... || 0) + rpoints)`. */
  method CountDay(tally: Counter, ghost ms: seq<Mention>, m: Mention) returns (tally': Counter)
    requires tally == CounterOf(DayDeltas(ms))
    ensures tally' == CounterOf(DayDeltas(ms + [m]))
  {
    tally' := Add(tally, m.date, RPoints(m.project));
    StepFacts(ms, m);
    CounterOfSnoc(DayDeltas(ms), m.date, RPoints(m.project));
  }

  /** `if (categories.length > 0) { ... }`: the tags join the category set
      and distribution, and the coin's entry of `coinCategories` takes them
      in; a project without categories changes none of them. */
  method AddCategoryFields(cats: seq<string>, tally: Counter, cc: seq<CoinCategories>, ghost ms: seq<Mention>, m: Mention)
    returns (cats': seq<string>, tally': Counter, cc': seq<CoinCategories>)
    requires cats == Dedup(CategoryTags(ms)) && tally == CounterOf(CategoryDeltas(ms)) && cc == CoinCategoriesTable(ms)
    ensures cats' == Dedup(CategoryTags(ms + [m]))
    ensures tally' == CounterOf(CategoryDeltas(ms + [m]))
    ensures cc' == CoinCategoriesTable(ms + [m])
  {
    var categories := Categories(m.project);
    if |categories| > 0 {
      assert Distinct(cats) by {
        DedupSpec(CategoryTags(ms));
      }
      cats', tally' := AddCategories(cats, tally, CategoryDeltas(ms), categories);
      assert cats' == Dedup(CategoryTags(ms + [m])) && tally' == CounterOf(CategoryDeltas(ms + [m])) by {
        StepFacts(ms, m);
        DedupAppend(CategoryTags(ms), categories);
        OnesAppend(CategoryTags(ms), categories);
      }
      cc' := MergeCoinCategories(cc, ms, m);
    } else {
      cats', tally', cc' := cats, tally, cc;
      StepFacts(ms, m);
      assert CategoryTags(ms) + categories == CategoryTags(ms);
      UncategorisedStep(ms, m);
    }
  }

  /** `categories.forEach`: each tag joins the set `unique` and counts once in `tally`. */
  method AddCategories(unique: seq<string>, tally: Counter, ghost added: seq<(string, int)>, categories: seq<string>)
    returns (unique': seq<string>, tally': Counter)
    requires Distinct(unique) && tally == CounterOf(added)
    ensures unique' == Dedup(unique + categories)
    ensures tally' == CounterOf(added + Ones(categories))
  {
    unique', tally' := unique, tally;
    CategoriesStart(unique, added, categories);
    ghost var applied := added;
    var k := 0;
    while k < |categories|
      invariant 0 <= k <= |categories|
      invariant unique' == Dedup(unique + categories[..k])
      invariant applied == added + Ones(categories[..k])
      invariant tally' == CounterOf(applied)
    {
      var category := categories[k];
      UniquePrefixStep(unique, categories, k);
      OnesPrefixStep(added, categories, k);
      CounterOfSnoc(applied, category, 1);
      if category !in unique' {
        unique' := unique' + [category];
      }
      tally' := Add(tally', category, 1);
      applied := applied + [(category, 1)];
      k := k + 1;
    }
    assert categories[..k] == categories;
  }

  lemma CategoriesStart(unique: seq<string>, added: seq<(string, int)>, categories: seq<string>)
    requires Distinct(unique)
    ensures unique == Dedup(unique + categories[..0])
    ensures added == added + Ones(categories[..0])
  {
    assert categories[..0] == [];
    assert unique + categories[..0] == unique;
    DedupOfDistinct(unique);
    assert added + Ones(categories[..0]) == added;
  }

  lemma UniquePrefixStep(unique: seq<string>, categories: seq<string>, k: nat)
    requires k < |categories|
    ensures var u := Dedup(unique + categories[..k]);
      Dedup(unique + categories[..k + 1]) == if categories[k] in u then u else u + [categories[k]]
  {
    assert unique + categories[..k + 1] == (unique + categories[..k]) + [categories[k]];
    DedupSnoc(unique + categories[..k], categories[k]);
  }

  lemma OnesPrefixStep(added: seq<(string, int)>, categories: seq<string>, k: nat)
    requires k < |categories|
    ensures added + Ones(categories[..k + 1]) == added + Ones(categories[..k]) + [(categories[k], 1)]
  {
    assert categories[..k + 1] == categories[..k] + [categories[k]];
    OnesAppend(categories[..k], [categories[k]]);
    assert Ones([categories[k]]) == [(categories[k], 1)];
  }

  /** Updates the coin's entry of `coinCategories` with the union of its
      categories and the new ones, or appends a new entry. */
  method MergeCoinCategories(cc: seq<CoinCategories>, ghost ms: seq<Mention>, m: Mention) returns (r: seq<CoinCategories>)
    requires cc == CoinCategoriesTable(ms) && Categories(m.project) != []
    ensures r == CoinCategoriesTable(ms + [m])
  {
    var coin, categories := m.project.coin, Categories(m.project);
    var existing := IndexOfCoin(cc, coin);
    match existing {
      case Some(i) =>
        KnownCoinStep(ms, m, i);
        r := cc[i := CoinCategories(coin, Dedup(cc[i].categories + categories))];
      case None =>
        NewCoinStep(ms, m);
        r := cc + [CoinCategories(coin, categories)];
    }
  }

  /** `if (!data.projectTrends.has(coin)) ...; data.projectTrends.get(coin).push(...)`. */
  method AddTrendPoint(trends: map<string, seq<TrendPoint>>, ghost ms: seq<Mention>, m: Mention) returns (r: map<string, seq<TrendPoint>>)
    requires trends == Trends(ms)
    ensures r == Trends(ms + [m])
  {
    var coin := m.project.coin;
    TrendsStep(ms, m);
    r := trends;
    if coin !in r {
      r := r[coin := []];
    }
    r := r[coin := r[coin] + [TrendPoint(m.date, RPoints(m.project))]];
  }

  /** A counter's entries sorted by the time of their day, earliest first. */
  function Timeline(a: seq<(string, int)>, dayTime: string -> int): seq<Entry> {
    ByKeyTotal(EntryTime(dayTime), true);
    SortBy(Tabulate(a), ByDayAsc(dayTime))
  }

  /** The result of `processedData` for the mentions `ms`, in record order,
      each dated by its day. */
  function Summarise(ms: seq<Mention>, dayTime: string -> int): Analytics {
    Analytics(
      RPointsSum(ms),
      |ms|,
      Dedup(Coins(ms)),
      Dedup(CategoryTags(ms)),
      Distribution(CategoryDeltas(ms)),
      Distribution(CoinDeltas(ms)),
      Timeline(DayDeltas(ms), dayTime),
      Distribution(CoinDeltas(ms)),
      Trends(ms),
      CoinCategoriesTable(ms))
  }

  /** The result of `processedData` for the records `knowledge`. */
  function Analyse(knowledge: seq<KnowledgeItem>, dayOf: string -> string, dayTime: string -> int): Analytics {
    Summarise(Seen(knowledge, dayOf), dayTime)
  }

  /** `processedData`: the fold over the records, then each map becomes a
      list of entries, the distributions sorted by value from highest, the
      timeline by day from earliest. */
  method ProcessedData(knowledge: seq<KnowledgeItem>, dayOf: string -> string, dayTime: string -> int) returns (r: Analytics)
    ensures r == Analyse(knowledge, dayOf, dayTime)
  {
    var data := FoldRecords(knowledge, dayOf);
    ByKeyTotal(Value, false);
    ByKeyTotal(EntryTime(dayTime), true);
    ghost var ms := Seen(knowledge, dayOf);
    EntriesOfCounter(CoinDeltas(ms));
    EntriesOfCounter(CategoryDeltas(ms));
    EntriesOfCounter(DayDeltas(ms));
    var coinDistribution := SortBy(Entries(data.coinDistribution), ByValueDesc());
    r := Analytics(
      data.totalRPoints,
      data.totalMentions,
      data.uniqueCoins,
      data.uniqueCategories,
      SortBy(Entries(data.categoryDistribution), ByValueDesc()),
      coinDistribution,
      SortBy(Entries(data.timelineData), ByDayAsc(dayTime)),
      SortBy(Entries(data.coinDistribution), ByValueDesc()),
      data.projectTrends,
      data.coinCategories);
  }

  /** `knowledge.forEach`: each record with projects folds them in. */
  method FoldRecords(knowledge: seq<KnowledgeItem>, dayOf: string -> string) returns (data: Data)
    ensures data == FoldOf(Seen(knowledge, dayOf))
  {
    data := NewData;
    ghost var seen: seq<Mention> := [];
    FoldStart(knowledge, dayOf);
    var i := 0;
    while i < |knowledge|
      invariant 0 <= i <= |knowledge|
      invariant seen == Seen(knowledge[..i], dayOf)
      invariant data == FoldOf(seen)
    {
      var item := knowledge[i];
      if !item.projects.Absent? {
        SeenRecord(knowledge, i, dayOf);
        data := FoldProjects(data, seen, dayOf(item.date), ProjectList(item.projects));
        seen := seen + Dated(dayOf(item.date), ProjectList(item.projects));
      } else {
        SeenSkip(knowledge, i, dayOf);
      }
      i := i + 1;
    }
    assert knowledge[..i] == knowledge;
  }

  /** `projects.forEach` over the projects of one record, all dated by the
      record's day. */
  method FoldProjects(data: Data, ghost base: seq<Mention>, day: string, projects: seq<Project>) returns (data': Data)
    requires data == FoldOf(base)
    ensures data' == FoldOf(base + Dated(day, projects))
  {
    ghost var done := base;
    DatedPrefix(base, day, projects, 0);
    data' := data;
    var j := 0;
    while j < |projects|
      invariant 0 <= j <= |projects|
      invariant done == base + Dated(day, projects[..j])
      invariant data' == FoldOf(done)
    {
      var m := Mention(day, projects[j]);
      DatedPrefix(base, day, projects, j + 1);
      FoldOfFolded(data', done);
      data' := AddMention(data', done, m);
      FoldedFoldOf(data', done + [m]);
      done := done + [m];
      j := j + 1;
    }
    DatedPrefix(base, day, projects, j);
  }

  /** The mentions of a prefix of `projects` grow one project at a time. */
  lemma DatedPrefix(base: seq<Mention>, day: string, projects: seq<Project>, j: nat)
    requires j <= |projects|
    ensures j == 0 ==> base + Dated(day, projects[..j]) == base
    ensures 0 < j ==> base + Dated(day, projects[..j]) == base + Dated(day, projects[..j - 1]) + [Mention(day, projects[j - 1])]
    ensures j == |projects| ==> projects[..j] == projects
  {
    if 0 < j {
      assert projects[..j][..j - 1] == projects[..j - 1];
    } else {
      assert base + [] == base;
    }
  }

  /** The projects of one record as mentions on the day `day`. */
  function Dated(day: string, projects: seq<Project>): (r: seq<Mention>)
    ensures |r| == |projects|
  {
    if projects == [] then [] else Dated(day, projects[..|projects| - 1]) + [Mention(day, projects[|projects| - 1])]
  }

  lemma {:induction false} DatedItem(item: KnowledgeItem, dayOf: string -> string)
    ensures Dated(dayOf(item.date), ProjectList(item.projects)) == DayMentions(ItemMentions(item), dayOf)
  {
    var ps := ProjectList(item.projects);
    var l, r := Dated(dayOf(item.date), ps), DayMentions(ItemMentions(item), dayOf);
    forall k | 0 <= k < |ps| ensures l[k] == r[k] {
      DatedIndex(dayOf(item.date), ps, k);
      DayMentionsIndex(ItemMentions(item), dayOf, k);
    }
  }

  lemma {:induction false} DatedIndex(day: string, projects: seq<Project>, k: nat)
    requires k < |projects|
    ensures Dated(day, projects)[k] == Mention(day, projects[k])
  {
    if k < |projects| - 1 {
      DatedIndex(day, projects[..|projects| - 1], k);
    }
  }

  lemma {:induction false} DayMentionsAppend(a: seq<Mention>, b: seq<Mention>, dayOf: string -> string)
    ensures DayMentions(a + b, dayOf) == DayMentions(a, dayOf) + DayMentions(b, dayOf)
  {
    if b == [] {
      assert a + b == a;
    } else {
      var b0 := b[..|b| - 1];
      assert (a + b)[..|a + b| - 1] == a + b0;
      assert (a + b)[|a + b| - 1] == b[|b| - 1];
      DayMentionsAppend(a, b0, dayOf);
    }
  }

  lemma FoldStart(items: seq<KnowledgeItem>, dayOf: string -> string)
    ensures Seen(items[..0], dayOf) == [] && NewData == FoldOf([])
  {
    assert items[..0] == [];
    NewDataFolded();
    FoldedFoldOf(NewData, []);
  }

  /** A record with projects adds its projects, dated by its day. */
  lemma SeenRecord(items: seq<KnowledgeItem>, i: nat, dayOf: string -> string)
    requires i < |items| && !items[i].projects.Absent?
    ensures Seen(items[..i + 1], dayOf) == Seen(items[..i], dayOf) + Dated(dayOf(items[i].date), ProjectList(items[i].projects))
  {
    MentionsStep(items, i);
    DayMentionsAppend(Mentions(items[..i]), ItemMentions(items[i]), dayOf);
    DatedItem(items[i], dayOf);
  }

  /** A record without projects adds nothing. */
  lemma SeenSkip(items: seq<KnowledgeItem>, i: nat, dayOf: string -> string)
    requires i < |items| && items[i].projects.Absent?
    ensures Seen(items[..i + 1], dayOf) == Seen(items[..i], dayOf)
  {
    MentionsStep(items, i);
    DayMentionsAppend(Mentions(items[..i]), ItemMentions(items[i]), dayOf);
    assert Seen(items[..i], dayOf) + [] == Seen(items[..i], dayOf);
  }

  // ---- one step of the fold ----

  lemma {:induction false} StepFacts(ms: seq<Mention>, m: Mention)
    ensures RPointsSum(ms + [m]) == RPointsSum(ms) + RPoints(m.project)
    ensures Coins(ms + [m]) == Coins(ms) + [m.project.coin]
    ensures CategoryTags(ms + [m]) == CategoryTags(ms) + Categories(m.project)
    ensures CoinDeltas(ms + [m]) == CoinDeltas(ms) + [(m.project.coin, RPoints(m.project))]
    ensures DayDeltas(ms + [m]) == DayDeltas(ms) + [(m.date, RPoints(m.project))]
  {
    assert (ms + [m])[..|ms|] == ms;
  }

  lemma {:induction false} TrendsStep(ms: seq<Mention>, m: Mention)
    ensures Trends(ms + [m]) == Trends(ms)[m.project.coin := TrendOf(ms, m.project.coin) + [TrendPoint(m.date, RPoints(m.project))]]
    ensures m.project.coin !in Trends(ms) ==> TrendOf(ms, m.project.coin) == []
  {
    var ms' := ms + [m];
    var coin := m.project.coin;
    var v := TrendOf(ms, coin) + [TrendPoint(m.date, RPoints(m.project))];
    assert ms'[..|ms|] == ms;
    assert ms'[|ms|] == m;
    StepFacts(ms, m);
    var t, t' := Trends(ms), Trends(ms');
    assert TrendOf(ms', coin) == v;
    forall c | c != coin
      ensures TrendOf(ms', c) == TrendOf(ms, c)
    {
    }
    assert t'.Keys == t.Keys + {coin};
    assert t' == t[coin := v];
    if coin !in Coins(ms) {
      TrendOfAbsent(ms, coin);
    }
  }

  lemma {:induction false} TrendOfAbsent(ms: seq<Mention>, coin: string)
    requires coin !in Coins(ms)
    ensures TrendOf(ms, coin) == []
  {
    if ms != [] {
      var ms0 := ms[..|ms| - 1];
      assert Coins(ms) == Coins(ms0) + [ms[|ms| - 1].project.coin];
      TrendOfAbsent(ms0, coin);
    }
  }

  lemma {:induction false} CategorisedCountZero(ms: seq<Mention>, coin: string)
    ensures CategorisedCount(ms, coin) == 0 <==> coin !in CategorisedCoins(ms)
    ensures CategorisedCount(ms, coin) == 0 ==> CategoriesOf(ms, coin) == []
  {
    if ms != [] {
      CategorisedCountZero(ms[..|ms| - 1], coin);
    }
  }

  lemma {:induction false} CategorisedStep(ms: seq<Mention>, m: Mention, c: string)
    ensures CategorisedCoins(ms + [m]) == CategorisedCoins(ms) + if Categories(m.project) != [] then [m.project.coin] else []
    ensures CategoriesOf(ms + [m], c) == CategoriesOf(ms, c) + if m.project.coin == c then Categories(m.project) else []
    ensures CategorisedCount(ms + [m], c) == CategorisedCount(ms, c) + if m.project.coin == c && Categories(m.project) != [] then 1 else 0
  {
    assert (ms + [m])[..|ms|] == ms;
  }

  /** Merging leaves the categories of every other coin as they were, and
      gives this coin the union its existing entry and the new list make. */
  lemma {:induction false} MergedStep(ms: seq<Mention>, m: Mention, c: string)
    ensures c != m.project.coin || Categories(m.project) == [] ==> MergedCategories(ms + [m], c) == MergedCategories(ms, c)
    ensures c == m.project.coin && Categories(m.project) != [] ==>
      MergedCategories(ms + [m], c) == if CategorisedCount(ms, c) == 0 then Categories(m.project) else Dedup(MergedCategories(ms, c) + Categories(m.project))
  {
    var cats := Categories(m.project);
    CategorisedStep(ms, m, c);
    if c != m.project.coin || cats == [] {
      assert CategoriesOf(ms, c) + [] == CategoriesOf(ms, c);
    } else {
      CategorisedCountZero(ms, c);
      if CategorisedCount(ms, c) > 1 {
        DedupAppend(CategoriesOf(ms, c), cats);
      }
    }
  }

  lemma {:induction false} UncategorisedStep(ms: seq<Mention>, m: Mention)
    requires Categories(m.project) == []
    ensures CoinCategoriesTable(ms + [m]) == CoinCategoriesTable(ms)
  {
    var ms' := ms + [m];
    CategorisedStep(ms, m, m.project.coin);
    assert CategorisedCoins(ms') == CategorisedCoins(ms);
    var ks := Dedup(CategorisedCoins(ms));
    forall j | 0 <= j < |ks| ensures MergedCategories(ms', ks[j]) == MergedCategories(ms, ks[j]) {
      MergedStep(ms, m, ks[j]);
    }
    TableIndex(ms);
    TableIndex(ms');
  }

  /** A table over the same keys whose merged lists agree except at
      position `i` differs from the old one only there. */
  lemma TableForUpdate(ks: seq<string>, ms: seq<Mention>, ms': seq<Mention>, i: nat)
    requires i < |ks|
    requires forall j :: 0 <= j < |ks| && j != i ==> MergedCategories(ms', ks[j]) == MergedCategories(ms, ks[j])
    ensures TableFor(ks, ms') == TableFor(ks, ms)[i := CoinCategories(ks[i], MergedCategories(ms', ks[i]))]
  {
    var t, t' := TableFor(ks, ms), TableFor(ks, ms');
    var u := t[i := CoinCategories(ks[i], MergedCategories(ms', ks[i]))];
    forall j | 0 <= j < |ks| ensures t'[j] == u[j] {
      TableForIndex(ks, ms, j);
      TableForIndex(ks, ms', j);
    }
  }

  /** A table over the same keys whose merged lists all agree is the same. */
  lemma TableForSame(ks: seq<string>, ms: seq<Mention>, ms': seq<Mention>)
    requires forall j :: 0 <= j < |ks| ==> MergedCategories(ms', ks[j]) == MergedCategories(ms, ks[j])
    ensures TableFor(ks, ms') == TableFor(ks, ms)
  {
    var t, t' := TableFor(ks, ms), TableFor(ks, ms');
    forall j | 0 <= j < |ks| ensures t'[j] == t[j] {
      TableForIndex(ks, ms, j);
      TableForIndex(ks, ms', j);
    }
  }

  lemma OthersUnchanged(ms: seq<Mention>, m: Mention, ks: seq<string>)
    ensures forall j :: 0 <= j < |ks| && ks[j] != m.project.coin ==> MergedCategories(ms + [m], ks[j]) == MergedCategories(ms, ks[j])
  {
    forall j | 0 <= j < |ks| && ks[j] != m.project.coin
      ensures MergedCategories(ms + [m], ks[j]) == MergedCategories(ms, ks[j])
    {
      MergedStep(ms, m, ks[j]);
    }
  }

  /** A coin already in the table keeps the keys as they are. */
  lemma KnownKeys(ms: seq<Mention>, m: Mention, i: nat)
    requires Categories(m.project) != []
    requires i < |CoinCategoriesTable(ms)| && CoinCategoriesTable(ms)[i].coin == m.project.coin
    ensures Dedup(CategorisedCoins(ms + [m])) == Dedup(CategorisedCoins(ms))
    ensures Dedup(CategorisedCoins(ms))[i] == m.project.coin && Distinct(Dedup(CategorisedCoins(ms)))
    ensures CategorisedCount(ms, m.project.coin) != 0
    ensures CoinCategoriesTable(ms)[i].categories == MergedCategories(ms, m.project.coin)
  {
    var coin := m.project.coin;
    var ks := Dedup(CategorisedCoins(ms));
    TableIndex(ms);
    DedupSpec(CategorisedCoins(ms));
    assert ks[i] == coin;
    CategorisedStep(ms, m, coin);
    DedupSnoc(CategorisedCoins(ms), coin);
    CategorisedCountZero(ms, coin);
  }

  lemma KnownCoinStep(ms: seq<Mention>, m: Mention, i: nat)
    requires Categories(m.project) != []
    requires i < |CoinCategoriesTable(ms)| && CoinCategoriesTable(ms)[i].coin == m.project.coin
    ensures CoinCategoriesTable(ms + [m]) == CoinCategoriesTable(ms)[i := CoinCategories(m.project.coin, Dedup(CoinCategoriesTable(ms)[i].categories + Categories(m.project)))]
  {
    var ks := Dedup(CategorisedCoins(ms));
    KnownKeys(ms, m, i);
    MergedStep(ms, m, m.project.coin);
    OthersUnchanged(ms, m, ks);
    TableForUpdate(ks, ms, ms + [m], i);
  }

  /** A coin not yet in the table joins the keys at the end. */
  lemma NewKeys(ms: seq<Mention>, m: Mention)
    requires Categories(m.project) != []
    requires forall i :: 0 <= i < |CoinCategoriesTable(ms)| ==> CoinCategoriesTable(ms)[i].coin != m.project.coin
    ensures Dedup(CategorisedCoins(ms + [m])) == Dedup(CategorisedCoins(ms)) + [m.project.coin]
    ensures m.project.coin !in Dedup(CategorisedCoins(ms))
    ensures MergedCategories(ms + [m], m.project.coin) == Categories(m.project)
  {
    var coin := m.project.coin;
    var ks := Dedup(CategorisedCoins(ms));
    TableIndex(ms);
    assert coin !in ks by {
      forall j | 0 <= j < |ks| ensures ks[j] != coin {
        assert CoinCategoriesTable(ms)[j].coin == ks[j];
      }
    }
    CategorisedStep(ms, m, coin);
    DedupSnoc(CategorisedCoins(ms), coin);
    DedupSpec(CategorisedCoins(ms));
    CategorisedCountZero(ms, coin);
    MergedStep(ms, m, coin);
  }

  lemma NewCoinStep(ms: seq<Mention>, m: Mention)
    requires Categories(m.project) != []
    requires forall i :: 0 <= i < |CoinCategoriesTable(ms)| ==> CoinCategoriesTable(ms)[i].coin != m.project.coin
    ensures CoinCategoriesTable(ms + [m]) == CoinCategoriesTable(ms) + [CoinCategories(m.project.coin, Categories(m.project))]
  {
    var coin := m.project.coin;
    var ks := Dedup(CategorisedCoins(ms));
    NewKeys(ms, m);
    OthersUnchanged(ms, m, ks);
    TableForSame(ks, ms, ms + [m]);
    assert (ks + [coin])[..|ks|] == ks;
  }

  // ---- what the views read from the result ----

  /** `processedData.coinDistribution[0] || { name: "N/A", value: 0 }`. */
  function TopCoin(a: Analytics): (r: Entry)
    ensures a.coinDistribution == [] ==> r == Entry("N/A", 0)
    ensures a.coinDistribution != [] ==> r == a.coinDistribution[0]
  {
    if a.coinDistribution != [] then a.coinDistribution[0] else Entry("N/A", 0)
  }

  /** The effect on `processedData.coinDistribution`: the selection moves to
      the first coin when there is one and is kept otherwise. */
  function SelectedAfterUpdate(selected: string, a: Analytics): (r: string)
    ensures a.coinDistribution != [] ==> r == TopCoin(a).name
    ensures a.coinDistribution == [] ==> r == selected
  {
    if |a.coinDistribution| > 0 then a.coinDistribution[0].name else selected
  }

  /** `projectTrends.get(selectedProject) || []`. */
  function ProjectTrendData(a: Analytics, selected: string): seq<TrendPoint> {
    if selected in a.projectTrends then a.projectTrends[selected] else []
  }

  function PointRPoints(p: TrendPoint): int {
    p.rpoints
  }

  // ---- properties of the result ----

  /** A record without `llm_answer.projects` changes nothing. */
  lemma SkipsRecordWithoutProjects(knowledge: seq<KnowledgeItem>, item: KnowledgeItem, dayOf: string -> string, dayTime: string -> int)
    requires item.projects.Absent?
    ensures Analyse(knowledge + [item], dayOf, dayTime) == Analyse(knowledge, dayOf, dayTime)
  {
    MentionsAppend(knowledge, [item]);
    MentionsOfOne(item);
    assert Mentions(knowledge) + [] == Mentions(knowledge);
  }

  /** A single project object counts as a one-element list. */
  lemma SingleProjectAsList(knowledge: seq<KnowledgeItem>, item: KnowledgeItem, dayOf: string -> string, dayTime: string -> int)
    requires item.projects.Single?
    ensures Analyse(knowledge + [item], dayOf, dayTime) == Analyse(knowledge + [item.(projects := List([item.projects.project]))], dayOf, dayTime)
  {
    var item' := item.(projects := List([item.projects.project]));
    MentionsAppend(knowledge, [item]);
    MentionsOfOne(item);
    MentionsAppend(knowledge, [item']);
    MentionsOfOne(item');
    assert ItemMentions(item) == ItemMentions(item');
  }

  lemma {:induction false} CoinsIndex(ms: seq<Mention>)
    ensures forall i :: 0 <= i < |ms| ==> Coins(ms)[i] == ms[i].project.coin
  {
    if ms != [] {
      CoinsIndex(ms[..|ms| - 1]);
    }
  }

  lemma {:induction false} CoinDeltasFacts(ms: seq<Mention>)
    ensures KeysOf(CoinDeltas(ms)) == Coins(ms)
    ensures Total(CoinDeltas(ms)) == RPointsSum(ms)
  {
    if ms != [] {
      var ms0 := ms[..|ms| - 1];
      CoinDeltasFacts(ms0);
      assert CoinDeltas(ms)[..|ms| - 1] == CoinDeltas(ms0);
    }
  }

  lemma {:induction false} DayDeltasFacts(ms: seq<Mention>)
    ensures forall i :: 0 <= i < |ms| ==> DayDeltas(ms)[i].0 == ms[i].date
    ensures Total(DayDeltas(ms)) == RPointsSum(ms)
  {
    if ms != [] {
      var ms0 := ms[..|ms| - 1];
      DayDeltasFacts(ms0);
      assert DayDeltas(ms)[..|ms| - 1] == DayDeltas(ms0);
    }
  }

  lemma CategoryTagsMember(ms: seq<Mention>, c: string)
    ensures c in CategoryTags(ms) <==> exists i :: 0 <= i < |ms| && c in Categories(ms[i].project)
  {
    ConcatMember(ms, EachCategories(), c);
  }

  /** A coin's summed r-points are the sum of its trend points. */
  lemma {:induction false} CoinSumIsTrendSum(ms: seq<Mention>, c: string)
    ensures SumFor(CoinDeltas(ms), c) == SumBy(TrendOf(ms, c), PointRPoints)
  {
    if ms != [] {
      var ms0, m := ms[..|ms| - 1], ms[|ms| - 1];
      CoinSumIsTrendSum(ms0, c);
      assert CoinDeltas(ms)[..|ms| - 1] == CoinDeltas(ms0);
      if m.project.coin == c {
        SumByAppend(TrendOf(ms0, c), TrendPoint(m.date, RPoints(m.project)), PointRPoints);
      } else {
        assert TrendOf(ms, c) == TrendOf(ms0, c) + [] == TrendOf(ms0, c);
      }
    }
  }

  /** A coin's trend has one point per mention of the coin. */
  lemma {:induction false} TrendCount(ms: seq<Mention>, c: string)
    ensures |TrendOf(ms, c)| == multiset(Coins(ms))[c]
  {
    if ms != [] {
      var ms0 := ms[..|ms| - 1];
      TrendCount(ms0, c);
      assert Coins(ms) == Coins(ms0) + [ms[|ms| - 1].project.coin];
    }
  }

  lemma {:induction false} CategoriesOfMember(ms: seq<Mention>, c: string, x: string)
    ensures x in CategoriesOf(ms, c) <==> exists k :: 0 <= k < |ms| && ms[k].project.coin == c && x in Categories(ms[k].project)
  {
    if ms != [] {
      var ms0 := ms[..|ms| - 1];
      CategoriesOfMember(ms0, c, x);
      if exists k :: 0 <= k < |ms0| && ms0[k].project.coin == c && x in Categories(ms0[k].project) {
        var k :| 0 <= k < |ms0| && ms0[k].project.coin == c && x in Categories(ms0[k].project);
        assert ms[k] == ms0[k];
      }
      if exists k :: 0 <= k < |ms| && ms[k].project.coin == c && x in Categories(ms[k].project) {
        var k :| 0 <= k < |ms| && ms[k].project.coin == c && x in Categories(ms[k].project);
        if k < |ms0| {
          assert ms0[k] == ms[k];
        }
      }
    }
  }

  /** Merging keeps exactly the categories of the coin's mentions. */
  lemma MergedMember(ms: seq<Mention>, c: string, x: string)
    ensures x in MergedCategories(ms, c) <==> exists k :: 0 <= k < |ms| && ms[k].project.coin == c && x in Categories(ms[k].project)
  {
    CategoriesOfMember(ms, c, x);
    DedupSpec(CategoriesOf(ms, c));
  }

  lemma {:induction false} CategorisedCoinsMember(ms: seq<Mention>, c: string)
    ensures c in CategorisedCoins(ms) <==> exists k :: 0 <= k < |ms| && ms[k].project.coin == c && Categories(ms[k].project) != []
  {
    if ms != [] {
      var ms0 := ms[..|ms| - 1];
      CategorisedCoinsMember(ms0, c);
      if exists k :: 0 <= k < |ms0| && ms0[k].project.coin == c && Categories(ms0[k].project) != [] {
        var k :| 0 <= k < |ms0| && ms0[k].project.coin == c && Categories(ms0[k].project) != [];
        assert ms[k] == ms0[k];
      }
      if exists k :: 0 <= k < |ms| && ms[k].project.coin == c && Categories(ms[k].project) != [] {
        var k :| 0 <= k < |ms| && ms[k].project.coin == c && Categories(ms[k].project) != [];
        if k < |ms0| {
          assert ms0[k] == ms[k];
        }
      }
    }
  }

  lemma {:induction false} TrendOfAppend(a: seq<Mention>, b: seq<Mention>, c: string)
    ensures TrendOf(a + b, c) == TrendOf(a, c) + TrendOf(b, c)
  {
    if b == [] {
      assert a + b == a;
    } else {
      var b0 := b[..|b| - 1];
      assert (a + b)[..|a + b| - 1] == a + b0;
      assert (a + b)[|a + b| - 1] == b[|b| - 1];
      TrendOfAppend(a, b0, c);
    }
  }

  /** The coins, as keys of the coin counter and as mentioned coins. */
  lemma CoinKeys(ms: seq<Mention>, c: string)
    ensures (exists i :: 0 <= i < |CoinDeltas(ms)| && CoinDeltas(ms)[i].0 == c) <==> c in Coins(ms)
    ensures c in Coins(ms) <==> exists i :: 0 <= i < |ms| && ms[i].project.coin == c
  {
    CoinDeltasFacts(ms);
    KeysOfIndex(CoinDeltas(ms));
    CoinsIndex(ms);
    if c in Coins(ms) {
      var i :| 0 <= i < |Coins(ms)| && Coins(ms)[i] == c;
      assert KeysOf(CoinDeltas(ms))[i] == c;
    }
  }

  /** A day counter in day order: one entry per day holding the day's sum,
      adding up to the sum of the deltas. */
  lemma TimelineSpec(a: seq<(string, int)>, dayTime: string -> int)
    ensures var t := Timeline(a, dayTime);
      && UniqueNames(t)
      && (forall i, j :: 0 <= i < j < |t| ==> dayTime(t[i].name) <= dayTime(t[j].name))
      && (forall e :: e in t <==> (exists i :: 0 <= i < |a| && a[i].0 == e.name) && e.value == SumFor(a, e.name))
      && SumBy(t, Value) == Total(a)
  {
    ByKeyTotal(EntryTime(dayTime), true);
    SortedTabulation(a, ByDayAsc(dayTime));
    var t := Timeline(a, dayTime);
    forall i, j | 0 <= i < j < |t| ensures dayTime(t[i].name) <= dayTime(t[j].name) {
      assert ByDayAsc(dayTime)(t[i], t[j]);
    }
    forall e ensures e in t <==> (exists i :: 0 <= i < |a| && a[i].0 == e.name) && e.value == SumFor(a, e.name) {
      TabulateMember(a, e);
    }
  }

  /** The totals agree with the distributions: the coin and day
      distributions each add up to `totalRPoints`, the category counts to
      the number of category tags, and `projectDistribution` is the coin
      distribution. */
  lemma SummaryTotals(ms: seq<Mention>, dayTime: string -> int)
    ensures var a := Summarise(ms, dayTime);
      && SumBy(a.coinDistribution, Value) == a.totalRPoints
      && SumBy(a.timelineData, Value) == a.totalRPoints
      && SumBy(a.categoryDistribution, Value) == |CategoryTags(ms)|
      && a.projectDistribution == a.coinDistribution
  {
    DistributionSpec(CoinDeltas(ms));
    DistributionSpec(CategoryDeltas(ms));
    TimelineSpec(DayDeltas(ms), dayTime);
    CoinDeltasFacts(ms);
    DayDeltasFacts(ms);
    OnesFacts(CategoryTags(ms), "");
  }

  /** `coinDistribution`: one entry per mentioned coin, sorted by value from
      highest, each holding the sum of that coin's trend points. */
  lemma CoinDistributionContents(ms: seq<Mention>, dayTime: string -> int)
    ensures var a := Summarise(ms, dayTime);
      && UniqueNames(a.coinDistribution)
      && (forall i, j :: 0 <= i < j < |a.coinDistribution| ==> a.coinDistribution[i].value >= a.coinDistribution[j].value)
      && (forall e :: e in a.coinDistribution <==> e.name in a.projectTrends && e.value == SumBy(a.projectTrends[e.name], PointRPoints))
      && Distinct(a.uniqueCoins)
      && (forall c :: c in a.uniqueCoins <==> c in a.projectTrends)
      && (forall c :: c in a.projectTrends <==> exists i :: 0 <= i < |ms| && ms[i].project.coin == c)
  {
    var cd, trends := Distribution(CoinDeltas(ms)), Trends(ms);
    DistributionSpec(CoinDeltas(ms));
    DedupSpec(Coins(ms));
    forall e ensures e in cd <==> e.name in trends && e.value == SumBy(trends[e.name], PointRPoints) {
      CoinKeys(ms, e.name);
      CoinSumIsTrendSum(ms, e.name);
    }
    forall c ensures c in trends <==> exists i :: 0 <= i < |ms| && ms[i].project.coin == c {
      CoinKeys(ms, c);
    }
  }

  /** `categoryDistribution`: one entry per category tag, sorted by value
      from highest, each counting the tag's occurrences over all mentions. */
  lemma CategoryDistributionContents(ms: seq<Mention>, dayTime: string -> int)
    ensures var a := Summarise(ms, dayTime);
      && UniqueNames(a.categoryDistribution)
      && (forall i, j :: 0 <= i < j < |a.categoryDistribution| ==> a.categoryDistribution[i].value >= a.categoryDistribution[j].value)
      && (forall e :: e in a.categoryDistribution <==> e.name in a.uniqueCategories && e.value == multiset(CategoryTags(ms))[e.name])
      && Distinct(a.uniqueCategories)
      && (forall c :: c in a.uniqueCategories <==> exists i :: 0 <= i < |ms| && c in Categories(ms[i].project))
  {
    var tags := CategoryTags(ms);
    var cd := Distribution(Ones(tags));
    DistributionSpec(Ones(tags));
    DedupSpec(tags);
    forall e ensures e in cd <==> e.name in Dedup(tags) && e.value == multiset(tags)[e.name] {
      OnesMember(tags, e);
    }
    forall c ensures c in Dedup(tags) <==> exists i :: 0 <= i < |ms| && c in Categories(ms[i].project) {
      CategoryTagsMember(ms, c);
    }
  }

  /** `timelineData`: one entry per day, in day order, each holding the sum
      of the r-points of that day's mentions. */
  lemma TimelineContents(ms: seq<Mention>, dayTime: string -> int)
    ensures var a := Summarise(ms, dayTime);
      && UniqueNames(a.timelineData)
      && (forall i, j :: 0 <= i < j < |a.timelineData| ==> dayTime(a.timelineData[i].name) <= dayTime(a.timelineData[j].name))
      && (forall e :: e in a.timelineData <==> (exists i :: 0 <= i < |ms| && ms[i].date == e.name) && e.value == SumFor(DayDeltas(ms), e.name))
  {
    var t := Timeline(DayDeltas(ms), dayTime);
    TimelineSpec(DayDeltas(ms), dayTime);
    DayDeltasFacts(ms);
    forall e ensures e in t <==> (exists i :: 0 <= i < |ms| && ms[i].date == e.name) && e.value == SumFor(DayDeltas(ms), e.name) {
      if exists i :: 0 <= i < |ms| && ms[i].date == e.name {
        var i :| 0 <= i < |ms| && ms[i].date == e.name;
        assert DayDeltas(ms)[i].0 == e.name;
      }
    }
  }

  /** The trend shown for any selection is that coin's points, one per
      mention of it; an unknown selection shows none. */
  lemma ProjectTrendLookup(ms: seq<Mention>, dayTime: string -> int, selected: string)
    ensures var a := Summarise(ms, dayTime);
      && ProjectTrendData(a, selected) == TrendOf(ms, selected)
      && |ProjectTrendData(a, selected)| == multiset(Coins(ms))[selected]
  {
    if selected !in Coins(ms) {
      TrendOfAbsent(ms, selected);
    }
    TrendCount(ms, selected);
  }

  /** `coinCategories` holds at most one entry per coin. */
  lemma CoinCategoriesUnique(ms: seq<Mention>)
    ensures var cc := CoinCategoriesTable(ms);
      forall i, j :: 0 <= i < j < |cc| ==> cc[i].coin != cc[j].coin
  {
    var cc := CoinCategoriesTable(ms);
    var ks := Dedup(CategorisedCoins(ms));
    TableIndex(ms);
    DedupSpec(CategorisedCoins(ms));
    forall i, j | 0 <= i < j < |cc| ensures cc[i].coin != cc[j].coin {
      assert cc[i].coin == ks[i] && cc[j].coin == ks[j];
    }
  }

  /** Every coin in `coinCategories` has a mention with categories. */
  lemma CoinCategoriesCoins(ms: seq<Mention>)
    ensures var cc := CoinCategoriesTable(ms);
      forall i :: 0 <= i < |cc| ==>
        exists k :: 0 <= k < |ms| && ms[k].project.coin == cc[i].coin && Categories(ms[k].project) != []
  {
    var cc := CoinCategoriesTable(ms);
    var ks := Dedup(CategorisedCoins(ms));
    TableIndex(ms);
    DedupSpec(CategorisedCoins(ms));
    forall i | 0 <= i < |cc| ensures exists k :: 0 <= k < |ms| && ms[k].project.coin == cc[i].coin && Categories(ms[k].project) != [] {
      CategorisedCoinsMember(ms, ks[i]);
    }
  }

  /** Every coin with a categorised mention is in `coinCategories`. */
  lemma CoinCategoriesComplete(ms: seq<Mention>, k: nat)
    requires k < |ms| && Categories(ms[k].project) != []
    ensures var cc := CoinCategoriesTable(ms);
      exists i :: 0 <= i < |cc| && cc[i].coin == ms[k].project.coin
  {
    var cc := CoinCategoriesTable(ms);
    var ks := Dedup(CategorisedCoins(ms));
    var c := ms[k].project.coin;
    CategorisedCoinsMember(ms, c);
    DedupSpec(CategorisedCoins(ms));
    var i :| 0 <= i < |ks| && ks[i] == c;
    TableForIndex(ks, ms, i);
  }

  /** An entry of `coinCategories` holds every category of its coin's
      mentions and no other. */
  lemma CoinCategoriesUnion(ms: seq<Mention>)
    ensures var cc := CoinCategoriesTable(ms);
      forall i, x :: 0 <= i < |cc| ==> (x in cc[i].categories <==>
        exists k :: 0 <= k < |ms| && ms[k].project.coin == cc[i].coin && x in Categories(ms[k].project))
  {
    var cc := CoinCategoriesTable(ms);
    var ks := Dedup(CategorisedCoins(ms));
    TableIndex(ms);
    forall i, x | 0 <= i < |cc| ensures x in cc[i].categories <==>
        exists k :: 0 <= k < |ms| && ms[k].project.coin == cc[i].coin && x in Categories(ms[k].project) {
      MergedMember(ms, ks[i], x);
    }
  }

  /** The top coin is the coin with the highest value, or the placeholder
      when nothing was mentioned; the selection then follows it. */
  lemma TopCoinIsMaximum(ms: seq<Mention>, dayTime: string -> int, selected: string)
    ensures var a := Summarise(ms, dayTime);
      && (a.totalMentions == 0 <==> TopCoin(a) == Entry("N/A", 0) && a.coinDistribution == [])
      && (a.totalMentions > 0 ==> TopCoin(a) in a.coinDistribution && SelectedAfterUpdate(selected, a) == TopCoin(a).name)
      && (forall e :: e in a.coinDistribution ==> e.value <= TopCoin(a).value)
  {
    DistributionHead(CoinDeltas(ms));
    assert |CoinDeltas(ms)| == |ms|;
  }
}
