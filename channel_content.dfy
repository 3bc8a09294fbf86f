/** The channel view (`ChannelContent`): the channel list, the selection
    taken from the URL on first load, the URL written on each toggle, the
    records of the selected channels and the per-coin rollup shown in its
    table. */
module ChannelContent {
  import opened Collections
  import opened Text
  import opened Knowledge
  import opened Tallies
  import opened ChannelAnalytics
  import ChannelStore

  // ---- the channel list ----

  /** `item["channel name"]` of each record, in record order. */
  function ChannelNames(knowledge: seq<KnowledgeItem>): (r: seq<string>)
    ensures |r| == |knowledge|
  {
    if knowledge == [] then [] else ChannelNames(knowledge[..|knowledge| - 1]) + [knowledge[|knowledge| - 1].channelName]
  }

  lemma {:induction false} ChannelNamesIndex(knowledge: seq<KnowledgeItem>)
    ensures forall i :: 0 <= i < |knowledge| ==> ChannelNames(knowledge)[i] == knowledge[i].channelName
  {
    if knowledge != [] {
      ChannelNamesIndex(knowledge[..|knowledge| - 1]);
    }
  }

  /** `Array.from(new Set(knowledge.map((item) => item["channel name"]))).sort()`. */
  function Channels(knowledge: seq<KnowledgeItem>): seq<string> {
    CodeUnitLeTotal();
    SortBy(Dedup(ChannelNames(knowledge)), CodeUnitLe)
  }

  /** The channel list names every channel of the records once, in
      increasing order. */
  lemma ChannelsSpec(knowledge: seq<KnowledgeItem>)
    ensures var cs := Channels(knowledge);
      && (forall i, j :: 0 <= i < j < |cs| ==> CodeUnitLe(cs[i], cs[j]) && cs[i] != cs[j])
      && (forall c :: c in cs <==> exists i :: 0 <= i < |knowledge| && knowledge[i].channelName == c)
  {
    CodeUnitLeTotal();
    var names := ChannelNames(knowledge);
    SortDedup(names, CodeUnitLe);
    assert SortedBy(Channels(knowledge), CodeUnitLe);
    ChannelNamesIndex(knowledge);
    forall c | c in names ensures exists i :: 0 <= i < |knowledge| && knowledge[i].channelName == c {
      var i :| 0 <= i < |names| && names[i] == c;
    }
  }

  // ---- the URL ----

  /** `searchParams.get("channels")?.split(",") || []`. */
  function UrlChannels(param: Option<string>): seq<string> {
    match param
    case None => []
    case Some(p) => Split(p, ',')
  }

  predicate AllKnown(names: seq<string>, channels: seq<string>) {
    forall i :: 0 <= i < |names| ==> names[i] in channels
  }

  /** The selection the first run of the initialising effect sets, if any:
      the URL's channels when there are some and all are known, otherwise
      the first channel when nothing is selected yet. */
  function InitialSelection(fromUrl: seq<string>, channels: seq<string>, selected: seq<string>): (r: Option<seq<string>>)
    ensures r.Some? ==> r.value != []
    ensures r.Some? ==> AllKnown(r.value, channels)
    ensures r.None? ==> selected != [] || channels == []
  {
    if |fromUrl| > 0 && AllKnown(fromUrl, channels) then Some(fromUrl)
    else if |channels| > 0 && |selected| == 0 then Some([channels[0]])
    else None
  }

  /** `updateUrl`: the `channels` parameter holds the comma-joined
      selection, and is removed when nothing is selected. */
  function UpdateUrl(params: map<string, string>, selected: seq<string>): (r: map<string, string>)
    ensures forall k :: k != "channels" ==> (k in r <==> k in params) && (k in r ==> r[k] == params[k])
    ensures "channels" in r <==> selected != []
    ensures "channels" in r ==> r["channels"] == Join(selected, ',')
  {
    if |selected| > 0 then params["channels" := Join(selected, ',')] else params - {"channels"}
  }

  /** A URL written for a selection of known channels without commas gives
      that selection back on the next first load. */
  lemma UrlRoundTrip(params: map<string, string>, selected: seq<string>, channels: seq<string>, current: seq<string>)
    requires selected != [] && AllKnown(selected, channels)
    requires forall i :: 0 <= i < |selected| ==> ',' !in selected[i]
    ensures InitialSelection(UrlChannels(Some(UpdateUrl(params, selected)["channels"])), channels, current) == Some(selected)
  {
    SplitJoin(selected, ',');
  }

  /** `initialized.current` and the effect that reads the URL once. */
  class Initialiser {
    var initialized: bool

    constructor ()
      ensures !initialized
    {
      initialized := false;
    }

    /** One run of the effect; every run after the first changes nothing. */
    method Run(store: ChannelStore.Store, channelsParam: Option<string>, channels: seq<string>)
      modifies this, store
      ensures initialized
      ensures old(initialized) ==> store.selectedChannels == old(store.selectedChannels)
      ensures !old(initialized) ==>
        store.selectedChannels == match InitialSelection(UrlChannels(channelsParam), channels, old(store.selectedChannels))
          case Some(s) => s
          case None => old(store.selectedChannels)
    {
      if initialized {
        return;
      }
      var fromUrl := UrlChannels(channelsParam);
      if |fromUrl| > 0 && AllKnown(fromUrl, channels) {
        store.SetSelectedChannels(fromUrl);
      } else if |channels| > 0 && |store.selectedChannels| == 0 {
        store.SetSelectedChannels([channels[0]]);
      }
      initialized := true;
    }
  }

  /** `handleChannelToggle`: toggles the channel in the store and writes the
      URL for the new selection, computed from the selection before the
      toggle. */
  method HandleChannelToggle(store: ChannelStore.Store, params: map<string, string>, channel: string) returns (url: map<string, string>)
    modifies store
    ensures store.selectedChannels == Toggled(old(store.selectedChannels), channel)
    ensures url == UpdateUrl(params, store.selectedChannels)
  {
    var selected := store.selectedChannels;
    store.ToggleChannel(channel);
    var newChannels := if channel in selected then Filter(selected, NotEqualTo(channel)) else selected + [channel];
    url := UpdateUrl(params, newChannels);
  }

  // ---- the records of the selected channels ----

  function InChannels(selected: seq<string>): KnowledgeItem -> bool {
    (item: KnowledgeItem) => item.channelName in selected
  }

  /** `knowledge.filter((item) => selectedChannels.includes(item["channel name"]))`. */
  function ChannelKnowledge(knowledge: seq<KnowledgeItem>, selected: seq<string>): seq<KnowledgeItem> {
    Filter(knowledge, InChannels(selected))
  }

  /** Exactly the records of the selected channels, each as often as in the
      input and in input order; no selection gives no records. */
  lemma ChannelKnowledgeSpec(knowledge: seq<KnowledgeItem>, selected: seq<string>)
    ensures var r := ChannelKnowledge(knowledge, selected);
      && (forall item :: multiset(r)[item] == if item.channelName in selected then multiset(knowledge)[item] else 0)
      && (selected == [] ==> r == [])
  {
    FilterMultiset(knowledge, InChannels(selected));
    if selected == [] {
      FilterNonePass(knowledge, InChannels(selected));
    }
  }

  // ---- the per-coin rollup ----

  /** One value of the `data` map: running sums and the set of categories. */
  datatype CoinData = CoinData(rpoints: int, categories: seq<string>, mentions: int)

  /** One row of `aggregatedData`. */
  datatype CoinRow = CoinRow(coin: string, rpoints: int, categories: seq<string>, mentions: int)

  /** What the map holds for `coin` after the mentions `ms`. */
  function Summary(ms: seq<Mention>, coin: string): CoinData {
    CoinData(SumFor(CoinDeltas(ms), coin), Dedup(CategoriesOf(ms, coin)), multiset(Coins(ms))[coin])
  }

  /** The map holds one value per mentioned coin, keys in first-mention order. */
  ghost predicate Aggregates(keys: seq<string>, data: map<string, CoinData>, ms: seq<Mention>) {
    && keys == Dedup(Coins(ms))
    && (forall c :: c in data <==> c in Coins(ms))
    && (forall c :: c in data ==> data[c] == Summary(ms, c))
  }

  function RowRPoints(r: CoinRow): int {
    r.rpoints
  }

  function RowMentions(r: CoinRow): int {
    r.mentions
  }

  /** The comparator `(a, b) => b.rpoints - a.rpoints`. */
  function ByRPointsDesc(): (CoinRow, CoinRow) -> bool {
    ByKey(RowRPoints, false)
  }

  /** The row of `coin` after the mentions `ms`. */
  function Row(ms: seq<Mention>, coin: string): CoinRow {
    var d := Summary(ms, coin);
    CoinRow(coin, d.rpoints, d.categories, d.mentions)
  }

  /** The rows of `Array.from(data.entries())`, before sorting. */
  function RowsOf(keys: seq<string>, ms: seq<Mention>): (r: seq<CoinRow>)
    ensures |r| == |keys|
  {
    seq(|keys|, i requires 0 <= i < |keys| => Row(ms, keys[i]))
  }

  /** `aggregatedData` for the mentions `ms`. */
  function Aggregate(ms: seq<Mention>): seq<CoinRow> {
    ByKeyTotal(RowRPoints, false);
    SortBy(RowsOf(Dedup(Coins(ms)), ms), ByRPointsDesc())
  }

  /** `aggregatedData`: the fold over the selected records, then the map's
      entries as rows sorted by r-points from highest. */
  method AggregatedData(knowledge: seq<KnowledgeItem>, selected: seq<string>) returns (rows: seq<CoinRow>)
    ensures rows == Aggregate(Mentions(ChannelKnowledge(knowledge, selected)))
  {
    var items := ChannelKnowledge(knowledge, selected);
    var keys, data := FoldItems(items);
    ghost var ms := Mentions(items);
    DedupSpec(Coins(ms));
    assert forall i :: 0 <= i < |keys| ==> keys[i] in data;
    var unsorted := seq(|keys|, i requires 0 <= i < |keys| && keys[i] in data =>
      CoinRow(keys[i], data[keys[i]].rpoints, data[keys[i]].categories, data[keys[i]].mentions));
    assert unsorted == RowsOf(Dedup(Coins(ms)), ms);
    ByKeyTotal(RowRPoints, false);
    rows := SortBy(unsorted, ByRPointsDesc());
  }

  /** `channelKnowledge.forEach`: each record with projects folds them in. */
  method FoldItems(items: seq<KnowledgeItem>) returns (keys: seq<string>, data: map<string, CoinData>)
    ensures Aggregates(keys, data, Mentions(items))
  {
    keys, data := [], map[];
    RollupStart(items);
    var i := 0;
    while i < |items|
      invariant 0 <= i <= |items|
      invariant Aggregates(keys, data, Mentions(items[..i]))
    {
      var item := items[i];
      if !item.projects.Absent? {
        RecordStep(items, i);
        keys, data := FoldItemProjects(keys, data, Mentions(items[..i]), item.date, ProjectList(item.projects));
      } else {
        SkipStep(items, i);
      }
      i := i + 1;
    }
    assert items[..i] == items;
  }

  /** `projects.forEach` for one record. */
  method FoldItemProjects(keys: seq<string>, data: map<string, CoinData>, ghost base: seq<Mention>, date: string, projects: seq<Project>)
    returns (keys': seq<string>, data': map<string, CoinData>)
    requires Aggregates(keys, data, base)
    ensures Aggregates(keys', data', base + Dated(date, projects))
  {
    keys', data' := keys, data;
    ghost var done := base;
    DatedPrefix(base, date, projects, 0);
    var j := 0;
    while j < |projects|
      invariant 0 <= j <= |projects|
      invariant done == base + Dated(date, projects[..j])
      invariant Aggregates(keys', data', done)
    {
      var m := Mention(date, projects[j]);
      DatedPrefix(base, date, projects, j + 1);
      keys', data' := AddProject(keys', data', done, m);
      done := done + [m];
      j := j + 1;
    }
    DatedPrefix(base, date, projects, j);
  }

  /** The body of `projects.forEach` for one project: a new coin gets a
      zero entry at the end of the map, then the entry takes the project's
      r-points, categories and one mention. */
  method AddProject(keys: seq<string>, data: map<string, CoinData>, ghost ms: seq<Mention>, m: Mention)
    returns (keys': seq<string>, data': map<string, CoinData>)
    requires Aggregates(keys, data, ms)
    ensures Aggregates(keys', data', ms + [m])
  {
    keys' := NextKeys(keys, data, ms, m);
    var entry := NextEntry(data, ms, m);
    data' := SetEntry(data, ms, m, entry);
  }

  /** `data.set(coin, entry)`: the map after one more mention. */
  method SetEntry(data: map<string, CoinData>, ghost ms: seq<Mention>, m: Mention, entry: CoinData) returns (data': map<string, CoinData>)
    requires forall c :: c in data <==> c in Coins(ms)
    requires forall c :: c in data ==> data[c] == Summary(ms, c)
    requires entry == Summary(ms + [m], m.project.coin)
    ensures forall c :: c in data' <==> c in Coins(ms + [m])
    ensures forall c :: c in data' ==> data'[c] == Summary(ms + [m], c)
  {
    data' := data[m.project.coin := entry];
    StepFacts(ms, m);
    forall c | c in data' ensures data'[c] == Summary(ms + [m], c) {
      SummaryStep(ms, m, c);
    }
  }

  /** `if (!data.has(coin)) data.set(coin, ...)`: a new coin joins the keys
      at the end. */
  method NextKeys(keys: seq<string>, data: map<string, CoinData>, ghost ms: seq<Mention>, m: Mention) returns (keys': seq<string>)
    requires keys == Dedup(Coins(ms)) && forall c :: c in data <==> c in Coins(ms)
    ensures keys' == Dedup(Coins(ms + [m]))
  {
    keys' := keys;
    if m.project.coin !in data {
      keys' := keys + [m.project.coin];
    }
    StepFacts(ms, m);
    DedupSpec(Coins(ms));
    DedupSnoc(Coins(ms), m.project.coin);
  }

  /** The updated entry of the project's coin: the earlier one, or the zero
      entry, with the project's r-points, categories and one mention added. */
  method NextEntry(data: map<string, CoinData>, ghost ms: seq<Mention>, m: Mention) returns (entry: CoinData)
    requires forall c :: c in data <==> c in Coins(ms)
    requires forall c :: c in data ==> data[c] == Summary(ms, c)
    ensures entry == Summary(ms + [m], m.project.coin)
  {
    var coin := m.project.coin;
    var prev := CoinData(0, [], 0);
    if coin in data {
      prev := data[coin];
    } else {
      SummaryAbsent(ms, coin);
    }
    DedupSpec(CategoriesOf(ms, coin));
    var merged := AddAll(prev.categories, Categories(m.project));
    entry := CoinData(prev.rpoints + RPoints(m.project), merged, prev.mentions + 1);
    SummaryStep(ms, m, coin);
  }

  lemma SummaryAbsent(ms: seq<Mention>, coin: string)
    requires coin !in Coins(ms)
    ensures Summary(ms, coin) == CoinData(0, [], 0)
  {
    CoinDeltasFacts(ms);
    SumForAbsent(CoinDeltas(ms), coin);
    CategoriesOfAbsent(ms, coin);
  }

  /** One more mention changes the summary of its own coin only. */
  lemma SummaryStep(ms: seq<Mention>, m: Mention, c: string)
    ensures var s := Summary(ms, c);
      Summary(ms + [m], c) == if c == m.project.coin
        then CoinData(s.rpoints + RPoints(m.project), Dedup(s.categories + Categories(m.project)), s.mentions + 1)
        else s
  {
    PointsStep(ms, m, c);
    CategoriesStep(ms, m, c);
    MentionsCountStep(ms, m, c);
  }

  lemma PointsStep(ms: seq<Mention>, m: Mention, c: string)
    ensures SumFor(CoinDeltas(ms + [m]), c) == SumFor(CoinDeltas(ms), c) + if c == m.project.coin then RPoints(m.project) else 0
  {
    StepFacts(ms, m);
    SumForSnoc(CoinDeltas(ms), m.project.coin, RPoints(m.project), c);
  }

  lemma CategoriesStep(ms: seq<Mention>, m: Mention, c: string)
    ensures Dedup(CategoriesOf(ms + [m], c)) ==
      if c == m.project.coin then Dedup(Dedup(CategoriesOf(ms, c)) + Categories(m.project)) else Dedup(CategoriesOf(ms, c))
  {
    CategorisedStep(ms, m, c);
    if c == m.project.coin {
      DedupAppend(CategoriesOf(ms, c), Categories(m.project));
    } else {
      assert CategoriesOf(ms + [m], c) == CategoriesOf(ms, c) + [] == CategoriesOf(ms, c);
    }
  }

  lemma MentionsCountStep(ms: seq<Mention>, m: Mention, c: string)
    ensures multiset(Coins(ms + [m]))[c] == multiset(Coins(ms))[c] + if c == m.project.coin then 1 else 0
  {
    StepFacts(ms, m);
  }

  lemma {:induction false} CategoriesOfAbsent(ms: seq<Mention>, coin: string)
    requires coin !in Coins(ms)
    ensures CategoriesOf(ms, coin) == []
  {
    if ms != [] {
      var ms0 := ms[..|ms| - 1];
      assert Coins(ms) == Coins(ms0) + [ms[|ms| - 1].project.coin];
      CategoriesOfAbsent(ms0, coin);
    }
  }

  lemma RollupStart(items: seq<KnowledgeItem>)
    ensures Aggregates([], map[], Mentions(items[..0]))
  {
    assert items[..0] == [];
  }

  /** A record with projects adds its projects, dated by the record. */
  lemma RecordStep(items: seq<KnowledgeItem>, i: nat)
    requires i < |items| && !items[i].projects.Absent?
    ensures Mentions(items[..i + 1]) == Mentions(items[..i]) + Dated(items[i].date, ProjectList(items[i].projects))
  {
    MentionsStep(items, i);
    var ps := ProjectList(items[i].projects);
    forall k | 0 <= k < |ps| ensures Dated(items[i].date, ps)[k] == ItemMentions(items[i])[k] {
      DatedIndex(items[i].date, ps, k);
    }
  }

  /** A record without projects adds nothing. */
  lemma SkipStep(items: seq<KnowledgeItem>, i: nat)
    requires i < |items| && items[i].projects.Absent?
    ensures Mentions(items[..i + 1]) == Mentions(items[..i])
  {
    MentionsStep(items, i);
    assert Mentions(items[..i]) + [] == Mentions(items[..i]);
  }

  // ---- what the rollup promises ----

  /** A row of the rollup is the row of a mentioned coin, and every
      mentioned coin has its row. */
  lemma AggregateRows(ms: seq<Mention>)
    ensures forall r :: r in Aggregate(ms) <==> r.coin in Coins(ms) && r == Row(ms, r.coin)
  {
    var keys := Dedup(Coins(ms));
    var rows := RowsOf(keys, ms);
    ByKeyTotal(RowRPoints, false);
    DedupSpec(Coins(ms));
    forall r ensures r in Aggregate(ms) <==> r.coin in Coins(ms) && r == Row(ms, r.coin) {
      SortByMember(rows, ByRPointsDesc(), r);
      RowsOfMember(keys, ms, r);
    }
  }

  lemma RowsOfMember(keys: seq<string>, ms: seq<Mention>, r: CoinRow)
    ensures r in RowsOf(keys, ms) <==> r.coin in keys && r == Row(ms, r.coin)
  {
    var rows := RowsOf(keys, ms);
    if r.coin in keys && r == Row(ms, r.coin) {
      var i :| 0 <= i < |keys| && keys[i] == r.coin;
      assert rows[i] == r;
    }
  }

  /** Each coin has one row. */
  lemma AggregateUnique(ms: seq<Mention>)
    ensures forall i, j :: 0 <= i < j < |Aggregate(ms)| ==> Aggregate(ms)[i].coin != Aggregate(ms)[j].coin
  {
    var keys := Dedup(Coins(ms));
    var rows := RowsOf(keys, ms);
    var sorted := Aggregate(ms);
    DedupSpec(Coins(ms));
    assert Distinct(rows);
    ByKeyTotal(RowRPoints, false);
    DistinctPermutation(rows, sorted);
    forall i, j | 0 <= i < j < |sorted| ensures sorted[i].coin != sorted[j].coin {
      AggregateRows(ms);
      assert sorted[i] in sorted && sorted[j] in sorted;
    }
  }

  /** Rows come in order of r-points, highest first. */
  lemma AggregateSorted(ms: seq<Mention>)
    ensures forall i, j :: 0 <= i < j < |Aggregate(ms)| ==> Aggregate(ms)[i].rpoints >= Aggregate(ms)[j].rpoints
  {
    var d := Aggregate(ms);
    ByKeyTotal(RowRPoints, false);
    assert SortedBy(d, ByRPointsDesc());
    forall i, j | 0 <= i < j < |d| ensures d[i].rpoints >= d[j].rpoints {
      assert ByRPointsDesc()(d[i], d[j]);
      assert RowRPoints(d[i]) >= RowRPoints(d[j]);
    }
  }

  /** The rows' r-points add up to the r-points of all mentions. */
  lemma AggregateRPoints(ms: seq<Mention>)
    ensures SumBy(Aggregate(ms), RowRPoints) == RPointsSum(ms)
  {
    var keys := Dedup(Coins(ms));
    var rows := RowsOf(keys, ms);
    ByKeyTotal(RowRPoints, false);
    SumBySort(rows, ByRPointsDesc(), RowRPoints);
    CoinDeltasFacts(ms);
    var rp := Tabulate(CoinDeltas(ms));
    assert rp == TabulateKeys(keys, CoinDeltas(ms));
    forall i | 0 <= i < |rows| ensures RowRPoints(rows[i]) == Value(rp[i]) {
      assert rp[i] == Entry(keys[i], SumFor(CoinDeltas(ms), keys[i]));
    }
    SumByPointwise(rows, RowRPoints, rp, Value);
    TabulateTotal(CoinDeltas(ms));
  }

  /** The rows' mention counts add up to the number of mentions. */
  lemma AggregateMentions(ms: seq<Mention>)
    ensures SumBy(Aggregate(ms), RowMentions) == |ms|
  {
    var cs := Coins(ms);
    var keys := Dedup(cs);
    var rows := RowsOf(keys, ms);
    ByKeyTotal(RowRPoints, false);
    SumBySort(rows, ByRPointsDesc(), RowMentions);
    OnesFacts(cs, "");
    var ct := Tabulate(Ones(cs));
    forall i | 0 <= i < |rows| ensures RowMentions(rows[i]) == Value(ct[i]) {
      OnesFacts(cs, keys[i]);
    }
    SumByPointwise(rows, RowMentions, ct, Value);
    TabulateTotal(Ones(cs));
  }

  /** A row's categories are the categories of the coin's mentions, each
      once. */
  lemma AggregateCategories(ms: seq<Mention>, r: CoinRow, x: string)
    requires r in Aggregate(ms)
    ensures Distinct(r.categories)
    ensures x in r.categories <==> exists k :: 0 <= k < |ms| && ms[k].project.coin == r.coin && x in Categories(ms[k].project)
  {
    AggregateRows(ms);
    DedupSpec(CategoriesOf(ms, r.coin));
    CategoriesOfMember(ms, r.coin, x);
  }
}
