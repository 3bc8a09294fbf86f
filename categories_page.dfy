/** The category insight page (`CategoriesPage`): per category tag, the coins
    tagged with it, their r-points, the number of tag occurrences, a
    market-cap histogram and the recent activity; then the search and the
    category multi-select over the result. */
module CategoriesPage {
  import opened Collections
  import opened Text
  import opened Knowledge

  // ---- the tag occurrences the fold visits ----

  /** One non-empty tag of one project, with whether its record is recent
      (dated within the last seven days of the clock). */
  datatype Tag = Tag(category: string, project: Project, recent: bool)

  /** The tags of one project in `project.category?.forEach`, skipping the
      empty ones. */
  function TagsOf(cats: seq<string>, p: Project, recent: bool): (r: seq<Tag>)
    ensures |r| <= |cats|
  {
    if cats == [] then []
    else
      var c := cats[|cats| - 1];
      TagsOf(cats[..|cats| - 1], p, recent) + if c != "" then [Tag(c, p, recent)] else []
  }

  /** The tags of the projects of one record. */
  function ItemTags(projects: seq<Project>, recent: bool): seq<Tag> {
    if projects == [] then []
    else
      var p := projects[|projects| - 1];
      ItemTags(projects[..|projects| - 1], recent) + TagsOf(Categories(p), p, recent)
  }

  /** The tags of every record; `isRecent` is the seven-day test on a
      record's date. */
  function Tags(items: seq<KnowledgeItem>, isRecent: string -> bool): seq<Tag> {
    if items == [] then []
    else
      var item := items[|items| - 1];
      Tags(items[..|items| - 1], isRecent) + ItemTags(ProjectList(item.projects), isRecent(item.date))
  }

  function TagNames(ts: seq<Tag>): (r: seq<string>)
    ensures |r| == |ts|
  {
    if ts == [] then [] else TagNames(ts[..|ts| - 1]) + [ts[|ts| - 1].category]
  }

  /** The non-empty coin names of the tags, one per tag. */
  function TagCoins(ts: seq<Tag>): seq<string> {
    if ts == [] then []
    else
      var coin := ts[|ts| - 1].project.coin;
      TagCoins(ts[..|ts| - 1]) + if coin != "" then [coin] else []
  }

  function TagRPoints(t: Tag): int {
    RPoints(t.project)
  }

  /** `(project.marketcap || "").toLowerCase()`. */
  function MarketCap(p: Project): string {
    match p.marketcap
    case None => ToLower("")
    case Some(m) => ToLower(m)
  }

  function InCategory(c: string): Tag -> bool {
    (t: Tag) => t.category == c
  }

  function HasCap(cap: string): Tag -> bool {
    (t: Tag) => MarketCap(t.project) == cap
  }

  function IsRecent(): Tag -> bool {
    (t: Tag) => t.recent
  }

  /** The occurrences of one category. */
  function Of(ts: seq<Tag>, c: string): seq<Tag> {
    Filter(ts, InCategory(c))
  }

  // ---- the per-category record ----

  datatype MarketCaps = MarketCaps(large: int, medium: int, small: int)

  /** One value of the `categories` map. */
  datatype Info = Info(coins: seq<string>, totalRpoints: int, mentions: int, marketCapDistribution: MarketCaps, recentActivity: int)

  /** One element of `categoryData`. */
  datatype CategoryRow = CategoryRow(name: string, coins: seq<string>, totalRpoints: int, mentions: int,
                                     marketCapDistribution: MarketCaps, recentActivity: int)

  const Zero := Info([], 0, 0, MarketCaps(0, 0, 0), 0)

  /** What the map holds for category `c` after the tags `ts`, stated over
      the occurrences of `c`. */
  function Summary(ts: seq<Tag>, c: string): Info {
    Fields(Of(ts, c))
  }

  /** The value made by the occurrences `o` of one category: the distinct
      non-empty coins, the r-point sum, the number of occurrences, the
      number with each recognised market cap and the number of recent ones. */
  function Fields(o: seq<Tag>): Info {
    Info(Dedup(TagCoins(o)), SumBy(o, TagRPoints), |o|,
         MarketCaps(|Filter(o, HasCap("large"))|, |Filter(o, HasCap("medium"))|, |Filter(o, HasCap("small"))|),
         |Filter(o, IsRecent())|)
  }

  /** The map holds one value per category seen, keys in first-tag order. */
  ghost predicate Collected(keys: seq<string>, infos: map<string, Info>, ts: seq<Tag>) {
    && keys == Dedup(TagNames(ts))
    && (forall c :: c in infos <==> c in TagNames(ts))
    && (forall c :: c in infos ==> infos[c] == Summary(ts, c))
  }

  /** One tag added to an existing value. */
  function Bumped(i: Info, t: Tag): Info {
    var coin := t.project.coin;
    var cap := MarketCap(t.project);
    var m := i.marketCapDistribution;
    Info(if coin != "" && coin !in i.coins then i.coins + [coin] else i.coins,
         i.totalRpoints + TagRPoints(t),
         i.mentions + 1,
         MarketCaps(m.large + (if cap == "large" then 1 else 0), m.medium + (if cap == "medium" then 1 else 0),
                    m.small + (if cap == "small" then 1 else 0)),
         i.recentActivity + if t.recent then 1 else 0)
  }

  function RowFor(ts: seq<Tag>, c: string): CategoryRow {
    var i := Summary(ts, c);
    CategoryRow(c, i.coins, i.totalRpoints, i.mentions, i.marketCapDistribution, i.recentActivity)
  }

  function RowsFor(keys: seq<string>, ts: seq<Tag>): (r: seq<CategoryRow>)
    ensures |r| == |keys|
  {
    seq(|keys|, i requires 0 <= i < |keys| => RowFor(ts, keys[i]))
  }

  /** `category.name && category.coins.length > 0`. */
  function Kept(): CategoryRow -> bool {
    (r: CategoryRow) => r.name != "" && |r.coins| > 0
  }

  function RowTotal(r: CategoryRow): int {
    r.totalRpoints
  }

  function ByTotalDesc(): (CategoryRow, CategoryRow) -> bool {
    ByKey(RowTotal, false)
  }

  /** The rows for the tags `ts`: kept rows sorted by r-points, highest first. */
  function Insights(ts: seq<Tag>): seq<CategoryRow> {
    ByKeyTotal(RowTotal, false);
    SortBy(Filter(RowsFor(Dedup(TagNames(ts)), ts), Kept()), ByTotalDesc())
  }

  /** `llm_answer.projects` is an array in every record; otherwise the fold's
      `forEach` throws. */
  predicate AllListed(items: seq<KnowledgeItem>) {
    forall i :: 0 <= i < |items| ==> items[i].projects.List?
  }

  /** `categoryData`, or `None` when the fold throws. */
  function CategoryDataOf(knowledge: seq<KnowledgeItem>, isRecent: string -> bool): Option<seq<CategoryRow>> {
    if AllListed(knowledge) then Some(Insights(Tags(knowledge, isRecent))) else None
  }

  // ---- the fold ----

  /** `categoryData`: `knowledge.forEach` over the records, then the map's
      entries as rows, filtered and sorted. */
  method CategoryData(knowledge: seq<KnowledgeItem>, isRecent: string -> bool) returns (r: Option<seq<CategoryRow>>)
    ensures r == CategoryDataOf(knowledge, isRecent)
  {
    var listed, keys, infos := CollectTags(knowledge, isRecent);
    if !listed {
      return None;
    }
    var rows := InsightRows(keys, infos, Tags(knowledge, isRecent));
    r := Some(rows);
  }

  /** `knowledge.forEach` over the records, which throws at the first record
      whose projects are not an array. */
  method CollectTags(knowledge: seq<KnowledgeItem>, isRecent: string -> bool)
    returns (listed: bool, keys: seq<string>, infos: map<string, Info>)
    ensures listed == AllListed(knowledge)
    ensures listed ==> Collected(keys, infos, Tags(knowledge, isRecent))
  {
    keys, infos := [], map[];
    FoldStart(knowledge, isRecent);
    var i := 0;
    while i < |knowledge|
      invariant 0 <= i <= |knowledge|
      invariant AllListed(knowledge[..i])
      invariant Collected(keys, infos, Tags(knowledge[..i], isRecent))
    {
      var item := knowledge[i];
      if !item.projects.List? {
        assert !AllListed(knowledge);
        return false, keys, infos;
      }
      var recent := isRecent(item.date);
      TagsStep(knowledge, i, isRecent);
      keys, infos := FoldProjects(keys, infos, Tags(knowledge[..i], isRecent), item.projects.projects, recent);
      ListedStep(knowledge, i);
      i := i + 1;
    }
    assert knowledge[..i] == knowledge;
    listed := true;
  }

  /** `Array.from(categoryMap.entries())` as rows, then `.filter` and `.sort`. */
  method InsightRows(keys: seq<string>, infos: map<string, Info>, ghost ts: seq<Tag>) returns (rows: seq<CategoryRow>)
    requires Collected(keys, infos, ts)
    ensures rows == Insights(ts)
  {
    DedupSpec(TagNames(ts));
    assert forall k :: 0 <= k < |keys| ==> keys[k] in infos;
    var unsorted := seq(|keys|, k requires 0 <= k < |keys| && keys[k] in infos =>
      var v := infos[keys[k]];
      CategoryRow(keys[k], v.coins, v.totalRpoints, v.mentions, v.marketCapDistribution, v.recentActivity));
    assert unsorted == RowsFor(Dedup(TagNames(ts)), ts);
    ByKeyTotal(RowTotal, false);
    rows := SortBy(Filter(unsorted, Kept()), ByTotalDesc());
  }

  /** `item.llm_answer.projects.forEach` for one record. */
  method FoldProjects(keys: seq<string>, infos: map<string, Info>, ghost base: seq<Tag>, projects: seq<Project>, recent: bool)
    returns (keys': seq<string>, infos': map<string, Info>)
    requires Collected(keys, infos, base)
    ensures Collected(keys', infos', base + ItemTags(projects, recent))
  {
    keys', infos' := keys, infos;
    ghost var done := base;
    ItemTagsStart(base, projects, recent);
    var j := 0;
    while j < |projects|
      invariant 0 <= j <= |projects|
      invariant done == base + ItemTags(projects[..j], recent)
      invariant Collected(keys', infos', done)
    {
      var p := projects[j];
      ItemTagsNext(base, projects, recent, j, done);
      keys', infos' := FoldCategories(keys', infos', done, Categories(p), p, recent);
      done := done + TagsOf(Categories(p), p, recent);
      j := j + 1;
    }
    assert projects[..j] == projects;
  }

  /** `project.category?.forEach` for one project. */
  method FoldCategories(keys: seq<string>, infos: map<string, Info>, ghost base: seq<Tag>, cats: seq<string>, p: Project, recent: bool)
    returns (keys': seq<string>, infos': map<string, Info>)
    requires Collected(keys, infos, base)
    ensures Collected(keys', infos', base + TagsOf(cats, p, recent))
  {
    keys', infos' := keys, infos;
    ghost var done := base;
    TagsOfStart(base, cats, p, recent);
    var j := 0;
    while j < |cats|
      invariant 0 <= j <= |cats|
      invariant done == base + TagsOf(cats[..j], p, recent)
      invariant Collected(keys', infos', done)
    {
      var c := cats[j];
      TagsOfNext(base, cats, p, recent, j, done);
      if c != "" {
        keys', infos' := AddTag(keys', infos', done, Tag(c, p, recent));
        done := done + [Tag(c, p, recent)];
      }
      j := j + 1;
    }
    assert cats[..j] == cats;
  }

  /** The body of the innermost `forEach` for a non-empty tag. */
  method AddTag(keys: seq<string>, infos: map<string, Info>, ghost ts: seq<Tag>, t: Tag)
    returns (keys': seq<string>, infos': map<string, Info>)
    requires Collected(keys, infos, ts)
    ensures Collected(keys', infos', ts + [t])
  {
    var name, p := t.category, t.project;
    var info := Zero;
    keys' := keys;
    if name in infos {
      info := infos[name];
    } else {
      keys' := keys + [name];
    }
    PreviousInfo(keys, infos, ts, name);
    var entry := UpdateInfo(info, t);
    CollectedStep(keys, infos, ts, t, keys', entry);
    infos' := infos[name := entry];
  }

  /** The counters of one value bumped for one tag. */
  method UpdateInfo(info: Info, t: Tag) returns (entry: Info)
    ensures entry == Bumped(info, t)
  {
    var p := t.project;
    var coins := info.coins;
    if p.coin != "" && p.coin !in coins {
      coins := coins + [p.coin];
    }
    var m := info.marketCapDistribution;
    var cap := MarketCap(p);
    if cap == "large" {
      m := m.(large := m.large + 1);
    } else if cap == "medium" {
      m := m.(medium := m.medium + 1);
    } else if cap == "small" {
      m := m.(small := m.small + 1);
    }
    var recent := info.recentActivity;
    if t.recent {
      recent := recent + 1;
    }
    entry := Info(coins, info.totalRpoints + RPoints(p), info.mentions + 1, m, recent);
  }

  // ---- the fold's steps ----

  lemma FoldStart(items: seq<KnowledgeItem>, isRecent: string -> bool)
    ensures AllListed(items[..0])
    ensures Collected([], map[], Tags(items[..0], isRecent))
  {
    assert items[..0] == [];
  }

  lemma TagsStep(items: seq<KnowledgeItem>, i: nat, isRecent: string -> bool)
    requires i < |items| && items[i].projects.List?
    ensures Tags(items[..i + 1], isRecent) == Tags(items[..i], isRecent) + ItemTags(items[i].projects.projects, isRecent(items[i].date))
  {
    assert items[..i + 1][..i] == items[..i];
  }

  lemma ListedStep(items: seq<KnowledgeItem>, i: nat)
    requires i < |items| && items[i].projects.List? && AllListed(items[..i])
    ensures AllListed(items[..i + 1])
  {
    assert forall k :: 0 <= k < i ==> items[..i + 1][k] == items[..i][k];
  }

  lemma ItemTagsStart(base: seq<Tag>, projects: seq<Project>, recent: bool)
    ensures base + ItemTags(projects[..0], recent) == base
  {
    assert projects[..0] == [];
    assert base + [] == base;
  }

  lemma ItemTagsNext(base: seq<Tag>, projects: seq<Project>, recent: bool, j: nat, done: seq<Tag>)
    requires j < |projects|
    requires done == base + ItemTags(projects[..j], recent)
    ensures done + TagsOf(Categories(projects[j]), projects[j], recent) == base + ItemTags(projects[..j + 1], recent)
  {
    assert projects[..j + 1][..j] == projects[..j];
  }

  lemma TagsOfStart(base: seq<Tag>, cats: seq<string>, p: Project, recent: bool)
    ensures base + TagsOf(cats[..0], p, recent) == base
  {
    assert cats[..0] == [];
    assert base + [] == base;
  }

  lemma TagsOfNext(base: seq<Tag>, cats: seq<string>, p: Project, recent: bool, j: nat, done: seq<Tag>)
    requires j < |cats|
    requires done == base + TagsOf(cats[..j], p, recent)
    ensures cats[j] != "" ==> done + [Tag(cats[j], p, recent)] == base + TagsOf(cats[..j + 1], p, recent)
    ensures cats[j] == "" ==> done == base + TagsOf(cats[..j + 1], p, recent)
  {
    assert cats[..j + 1][..j] == cats[..j];
  }

  lemma {:induction false} TagCoinsAbsent(ts: seq<Tag>, c: string)
    requires c !in TagNames(ts)
    ensures Of(ts, c) == []
  {
    if ts != [] {
      assert ts == ts[..|ts| - 1] + [ts[|ts| - 1]];
      TagCoinsAbsent(ts[..|ts| - 1], c);
      FilterAppend(ts[..|ts| - 1], [ts[|ts| - 1]], InCategory(c));
    }
  }

  /** The value a tag updates is the one the earlier tags made, or zero. */
  lemma PreviousInfo(keys: seq<string>, infos: map<string, Info>, ts: seq<Tag>, c: string)
    requires Collected(keys, infos, ts)
    ensures Summary(ts, c) == if c in infos then infos[c] else Zero
  {
    if c !in infos {
      TagCoinsAbsent(ts, c);
    }
  }

  lemma FilterSnoc<T(!new)>(s: seq<T>, x: T, p: T -> bool)
    ensures Filter(s + [x], p) == Filter(s, p) + if p(x) then [x] else []
  {
    FilterAppend(s, [x], p);
    assert [x][1..] == [];
  }

  lemma {:induction false} TagCoinsSnoc(ts: seq<Tag>, t: Tag)
    ensures TagCoins(ts + [t]) == TagCoins(ts) + if t.project.coin != "" then [t.project.coin] else []
  {
    assert (ts + [t])[..|ts|] == ts;
  }

  /** One more tag changes the value of its own category only. */
  lemma SummaryStep(ts: seq<Tag>, t: Tag, c: string)
    ensures Summary(ts + [t], c) == if t.category == c then Bumped(Summary(ts, c), t) else Summary(ts, c)
  {
    var o := Of(ts, c);
    FilterSnoc(ts, t, InCategory(c));
    if t.category == c {
      assert Of(ts + [t], c) == o + [t];
      FieldsBump(o, t);
    } else {
      assert Of(ts + [t], c) == o + [] == o;
    }
  }

  lemma FieldsBump(o: seq<Tag>, t: Tag)
    ensures Fields(o + [t]) == Bumped(Fields(o), t)
  {
    CoinsField(o, t);
    RPointsField(o, t);
    CapsField(o, t);
    RecentField(o, t);
  }

  lemma CoinsField(o: seq<Tag>, t: Tag)
    ensures Fields(o + [t]).coins == Bumped(Fields(o), t).coins
  {
    CoinsBump(o, t);
  }

  lemma RPointsField(o: seq<Tag>, t: Tag)
    ensures Fields(o + [t]).totalRpoints == Bumped(Fields(o), t).totalRpoints
  {
    SumByAppend(o, t, TagRPoints);
  }

  lemma CapsField(o: seq<Tag>, t: Tag)
    ensures Fields(o + [t]).marketCapDistribution == Bumped(Fields(o), t).marketCapDistribution
  {
    CountSnoc(o, t, "large");
    CountSnoc(o, t, "medium");
    CountSnoc(o, t, "small");
  }

  lemma RecentField(o: seq<Tag>, t: Tag)
    ensures Fields(o + [t]).recentActivity == Bumped(Fields(o), t).recentActivity
  {
    RecentSnoc(o, t);
  }

  lemma CountSnoc(o: seq<Tag>, t: Tag, cap: string)
    ensures |Filter(o + [t], HasCap(cap))| == |Filter(o, HasCap(cap))| + if MarketCap(t.project) == cap then 1 else 0
  {
    FilterSnoc(o, t, HasCap(cap));
  }

  lemma RecentSnoc(o: seq<Tag>, t: Tag)
    ensures |Filter(o + [t], IsRecent())| == |Filter(o, IsRecent())| + if t.recent then 1 else 0
  {
    FilterSnoc(o, t, IsRecent());
  }

  lemma CoinsBump(o: seq<Tag>, t: Tag)
    ensures var coin := t.project.coin;
      Dedup(TagCoins(o + [t])) == if coin != "" && coin !in Dedup(TagCoins(o)) then Dedup(TagCoins(o)) + [coin] else Dedup(TagCoins(o))
  {
    TagCoinsSnoc(o, t);
    var coin := t.project.coin;
    if coin != "" {
      DedupSnoc(TagCoins(o), coin);
    } else {
      assert TagCoins(o + [t]) == TagCoins(o);
    }
  }

  lemma {:induction false} TagNamesSnoc(ts: seq<Tag>, t: Tag)
    ensures TagNames(ts + [t]) == TagNames(ts) + [t.category]
  {
    assert (ts + [t])[..|ts|] == ts;
  }

  lemma CollectedStep(keys: seq<string>, infos: map<string, Info>, ts: seq<Tag>, t: Tag, keys': seq<string>, entry: Info)
    requires Collected(keys, infos, ts)
    requires keys' == if t.category in infos then keys else keys + [t.category]
    requires entry == Bumped(if t.category in infos then infos[t.category] else Zero, t)
    ensures Collected(keys', infos[t.category := entry], ts + [t])
  {
    StepKeys(keys, infos, ts, t, keys');
    StepDomain(infos, ts, t, entry);
    PreviousInfo(keys, infos, ts, t.category);
    StepValues(keys, infos, ts, t, entry);
  }

  lemma StepKeys(keys: seq<string>, infos: map<string, Info>, ts: seq<Tag>, t: Tag, keys': seq<string>)
    requires Collected(keys, infos, ts)
    requires keys' == if t.category in infos then keys else keys + [t.category]
    ensures keys' == Dedup(TagNames(ts + [t]))
  {
    TagNamesSnoc(ts, t);
    DedupSnoc(TagNames(ts), t.category);
    DedupSpec(TagNames(ts));
  }

  lemma StepDomain(infos: map<string, Info>, ts: seq<Tag>, t: Tag, entry: Info)
    requires forall c :: c in infos <==> c in TagNames(ts)
    ensures forall c :: c in infos[t.category := entry] <==> c in TagNames(ts + [t])
  {
    TagNamesSnoc(ts, t);
  }

  lemma StepValues(keys: seq<string>, infos: map<string, Info>, ts: seq<Tag>, t: Tag, entry: Info)
    requires Collected(keys, infos, ts)
    requires entry == Bumped(Summary(ts, t.category), t)
    ensures forall c :: c in infos[t.category := entry] ==> infos[t.category := entry][c] == Summary(ts + [t], c)
  {
    var infos' := infos[t.category := entry];
    forall c | c in infos' ensures infos'[c] == Summary(ts + [t], c) {
      SummaryStep(ts, t, c);
    }
  }

  // ---- what the fold promises ----

  /** A project contributes its non-empty tags, in order, each with that
      project and its record's recency. */
  lemma {:induction false} TagsOfSpec(cats: seq<string>, p: Project, recent: bool)
    ensures TagNames(TagsOf(cats, p, recent)) == Filter(cats, NonEmpty)
    ensures forall t :: t in TagsOf(cats, p, recent) ==> t.project == p && t.recent == recent
  {
    if cats != [] {
      var init, c := cats[..|cats| - 1], cats[|cats| - 1];
      assert cats == init + [c];
      TagsOfSpec(init, p, recent);
      FilterSnoc(init, c, NonEmpty);
      TagNamesSnoc(TagsOf(init, p, recent), Tag(c, p, recent));
      if c == "" {
        assert TagsOf(cats, p, recent) == TagsOf(init, p, recent) + [] == TagsOf(init, p, recent);
      }
    }
  }

  /** The market-cap buckets and the recent count never exceed the number
      of occurrences. */
  lemma {:induction false} FieldsBounds(o: seq<Tag>)
    ensures var m := Fields(o).marketCapDistribution;
      m.large + m.medium + m.small <= Fields(o).mentions
    ensures 0 <= Fields(o).recentActivity <= Fields(o).mentions
  {
    if o != [] {
      FieldsBounds(o[1..]);
      assert o == [o[0]] + o[1..];
    }
  }

  /** A category counts one mention per occurrence of its tag. */
  lemma {:induction false} MentionsCount(ts: seq<Tag>, c: string)
    ensures Summary(ts, c).mentions == multiset(TagNames(ts))[c]
  {
    if ts != [] {
      var init, t := ts[..|ts| - 1], ts[|ts| - 1];
      assert ts == init + [t];
      MentionsCount(init, c);
      FilterSnoc(init, t, InCategory(c));
    }
  }

  lemma {:induction false} TagCoinsMember(o: seq<Tag>, x: string)
    ensures x in TagCoins(o) <==> x != "" && exists k :: 0 <= k < |o| && o[k].project.coin == x
  {
    if o != [] {
      var init, t := o[..|o| - 1], o[|o| - 1];
      TagCoinsMember(init, x);
      if x in TagCoins(init) {
        var k :| 0 <= k < |init| && init[k].project.coin == x;
        assert o[k] == init[k];
      }
      if x != "" && (exists k :: 0 <= k < |o| && o[k].project.coin == x) {
        var k :| 0 <= k < |o| && o[k].project.coin == x;
        if k < |init| {
          assert init[k] == o[k];
        }
      }
    }
  }

  /** A category's coins are the distinct non-empty coin names of the
      projects tagged with it. */
  lemma CoinsMember(ts: seq<Tag>, c: string, x: string)
    ensures Distinct(Summary(ts, c).coins)
    ensures x in Summary(ts, c).coins <==> x != "" && exists t :: t in ts && t.category == c && t.project.coin == x
  {
    var o := Of(ts, c);
    DedupSpec(TagCoins(o));
    TagCoinsMember(o, x);
    if x in TagCoins(o) {
      var k :| 0 <= k < |o| && o[k].project.coin == x;
      assert o[k] in o;
      assert InCategory(c)(o[k]);
    }
    if x != "" && exists t :: t in ts && t.category == c && t.project.coin == x {
      var t :| t in ts && t.category == c && t.project.coin == x;
      assert InCategory(c)(t);
      assert t in o;
      var k :| 0 <= k < |o| && o[k] == t;
    }
  }

  /** A row of the result is the row of a category seen, with a coin; and
      every such category has its row. */
  lemma InsightsRows(ts: seq<Tag>)
    ensures forall r :: r in Insights(ts) <==> r.name in TagNames(ts) && r == RowFor(ts, r.name) && r.name != "" && |r.coins| > 0
  {
    var rows := RowsFor(Dedup(TagNames(ts)), ts);
    InsightsKept(ts);
    RowsMembers(ts);
    forall r ensures r in Filter(rows, Kept()) <==> r in rows && r.name != "" && |r.coins| > 0 {
      assert Kept()(r) == (r.name != "" && |r.coins| > 0);
    }
  }

  lemma InsightsKept(ts: seq<Tag>)
    ensures forall r :: r in Insights(ts) <==> r in Filter(RowsFor(Dedup(TagNames(ts)), ts), Kept())
  {
    var kept := Filter(RowsFor(Dedup(TagNames(ts)), ts), Kept());
    forall r ensures r in Insights(ts) <==> r in kept {
      assert r in Insights(ts) <==> r in multiset(Insights(ts));
      assert r in kept <==> r in multiset(kept);
    }
  }

  lemma RowsMembers(ts: seq<Tag>)
    ensures forall r :: r in RowsFor(Dedup(TagNames(ts)), ts) <==> r.name in TagNames(ts) && r == RowFor(ts, r.name)
  {
    var keys := Dedup(TagNames(ts));
    var rows := RowsFor(keys, ts);
    DedupSpec(TagNames(ts));
    forall r ensures r in rows <==> r.name in TagNames(ts) && r == RowFor(ts, r.name) {
      if r.name in TagNames(ts) && r == RowFor(ts, r.name) {
        var i :| 0 <= i < |keys| && keys[i] == r.name;
        assert rows[i] == r;
      }
    }
  }

  /** Each category has at most one row. */
  lemma InsightsUnique(ts: seq<Tag>)
    ensures forall i, j :: 0 <= i < j < |Insights(ts)| ==> Insights(ts)[i].name != Insights(ts)[j].name
  {
    var keys := Dedup(TagNames(ts));
    var rows := RowsFor(keys, ts);
    var kept := Filter(rows, Kept());
    var sorted := Insights(ts);
    DedupSpec(TagNames(ts));
    assert Distinct(rows);
    FilterDistinct(rows, Kept());
    ByKeyTotal(RowTotal, false);
    DistinctPermutation(kept, sorted);
    forall i, j | 0 <= i < j < |sorted| ensures sorted[i].name != sorted[j].name {
      InsightsRows(ts);
      assert sorted[i] in sorted && sorted[j] in sorted;
    }
  }

  /** Rows come in order of r-points, highest first. */
  lemma InsightsSorted(ts: seq<Tag>)
    ensures forall i, j :: 0 <= i < j < |Insights(ts)| ==> Insights(ts)[i].totalRpoints >= Insights(ts)[j].totalRpoints
  {
    var d := Insights(ts);
    ByKeyTotal(RowTotal, false);
    assert SortedBy(d, ByTotalDesc());
    forall i, j | 0 <= i < j < |d| ensures d[i].totalRpoints >= d[j].totalRpoints {
      assert ByTotalDesc()(d[i], d[j]);
      assert RowTotal(d[i]) >= RowTotal(d[j]);
    }
  }

  /** The fold never records an empty tag. */
  lemma {:induction false} TagNamesNonEmpty(items: seq<KnowledgeItem>, isRecent: string -> bool)
    ensures "" !in TagNames(Tags(items, isRecent))
  {
    if items != [] {
      var init, item := items[..|items| - 1], items[|items| - 1];
      TagNamesNonEmpty(init, isRecent);
      ItemTagsNonEmpty(ProjectList(item.projects), isRecent(item.date));
      TagNamesAppend(Tags(init, isRecent), ItemTags(ProjectList(item.projects), isRecent(item.date)));
    }
  }

  lemma {:induction false} ItemTagsNonEmpty(projects: seq<Project>, recent: bool)
    ensures "" !in TagNames(ItemTags(projects, recent))
  {
    if projects != [] {
      var init, p := projects[..|projects| - 1], projects[|projects| - 1];
      ItemTagsNonEmpty(init, recent);
      TagsOfSpec(Categories(p), p, recent);
      TagNamesAppend(ItemTags(init, recent), TagsOf(Categories(p), p, recent));
    }
  }

  lemma {:induction false} TagNamesAppend(a: seq<Tag>, b: seq<Tag>)
    ensures TagNames(a + b) == TagNames(a) + TagNames(b)
  {
    if b != [] {
      var b0 := b[..|b| - 1];
      assert (a + b)[..|a + b| - 1] == a + b0;
      TagNamesAppend(a, b0);
    } else {
      assert a + b == a;
    }
  }

  /** A record whose projects are not an array makes the page fail. */
  lemma FailsOnUnlisted(knowledge: seq<KnowledgeItem>, isRecent: string -> bool, k: nat)
    requires k < |knowledge| && !knowledge[k].projects.List?
    ensures CategoryDataOf(knowledge, isRecent) == None
  {
  }

  // ---- the category list, the search and the multi-select ----

  function RowNames(rows: seq<CategoryRow>): (r: seq<string>)
    ensures |r| == |rows|
  {
    if rows == [] then [] else RowNames(rows[..|rows| - 1]) + [rows[|rows| - 1].name]
  }

  lemma {:induction false} RowNamesIndex(rows: seq<CategoryRow>)
    ensures forall i :: 0 <= i < |rows| ==> RowNames(rows)[i] == rows[i].name
  {
    if rows != [] {
      RowNamesIndex(rows[..|rows| - 1]);
    }
  }

  /** `categoryTypes`: the distinct names sorted by the locale order `le`. */
  function CategoryTypes(rows: seq<CategoryRow>, le: (string, string) -> bool): seq<string>
    requires TotalPreorder(le)
  {
    SortBy(Dedup(RowNames(rows)), le)
  }

  /** The category list names each row's category once, in order. */
  lemma CategoryTypesSpec(rows: seq<CategoryRow>, le: (string, string) -> bool)
    requires TotalPreorder(le)
    ensures var ts := CategoryTypes(rows, le);
      && Distinct(ts)
      && (forall i, j :: 0 <= i < j < |ts| ==> le(ts[i], ts[j]))
      && (forall n :: n in ts <==> exists i :: 0 <= i < |rows| && rows[i].name == n)
  {
    var names := RowNames(rows);
    var ts := CategoryTypes(rows, le);
    DedupSpec(names);
    DistinctPermutation(Dedup(names), ts);
    RowNamesIndex(rows);
    forall n ensures n in ts <==> exists i :: 0 <= i < |rows| && rows[i].name == n {
      assert n in ts <==> n in multiset(ts);
      assert n in Dedup(names) <==> n in multiset(Dedup(names));
      if n in names {
        var i :| 0 <= i < |names| && names[i] == n;
        assert rows[i].name == n;
      }
    }
  }

  /** `category.name.toLowerCase().includes(term) || category.coins.some(...)`. */
  predicate TermMatches(row: CategoryRow, term: string) {
    || Contains(ToLower(row.name), term)
    || exists k :: 0 <= k < |row.coins| && Contains(ToLower(row.coins[k]), term)
  }

  /** The search: no search term, or every word of the lower-cased term
      found in the name or in some coin. */
  predicate MatchesSearch(row: CategoryRow, searchTerm: string) {
    searchTerm == "" || forall w :: w in Words(ToLower(searchTerm)) ==> TermMatches(row, w)
  }

  /** The multi-select: nothing selected, or the name selected. */
  predicate MatchesSelection(row: CategoryRow, selected: seq<string>) {
    |selected| == 0 || row.name in selected
  }

  function Passes(selected: seq<string>, searchTerm: string): CategoryRow -> bool {
    (r: CategoryRow) => MatchesSelection(r, selected) && MatchesSearch(r, searchTerm)
  }

  /** `"rpoints" | "mentions" | "coins" | "recent"`. */
  datatype SortOption = ByRPoints | ByMentions | ByCoins | ByRecent

  function SortKey(option: SortOption): CategoryRow -> int {
    match option
    case ByRPoints => (r: CategoryRow) => r.totalRpoints
    case ByMentions => (r: CategoryRow) => r.mentions
    case ByCoins => (r: CategoryRow) => |r.coins|
    case ByRecent => (r: CategoryRow) => r.recentActivity
  }

  /** `filteredCategories`. */
  function FilteredCategories(rows: seq<CategoryRow>, selected: seq<string>, searchTerm: string, option: SortOption): seq<CategoryRow> {
    ByKeyTotal(SortKey(option), false);
    SortBy(Filter(rows, Passes(selected, searchTerm)), ByKey(SortKey(option), false))
  }

  /** The shown categories are the passing rows, each as often as in the
      input, ordered by the chosen key from highest. */
  lemma FilteredSpec(rows: seq<CategoryRow>, selected: seq<string>, searchTerm: string, option: SortOption)
    ensures var f := FilteredCategories(rows, selected, searchTerm, option);
      forall r :: multiset(f)[r] == if MatchesSelection(r, selected) && MatchesSearch(r, searchTerm) then multiset(rows)[r] else 0
    ensures var f := FilteredCategories(rows, selected, searchTerm, option);
      forall i, j :: 0 <= i < j < |f| ==> SortKey(option)(f[i]) >= SortKey(option)(f[j])
  {
    var p := Passes(selected, searchTerm);
    FilterMultiset(rows, p);
    var f := FilteredCategories(rows, selected, searchTerm, option);
    ByKeyTotal(SortKey(option), false);
    assert SortedBy(f, ByKey(SortKey(option), false));
    forall i, j | 0 <= i < j < |f| ensures SortKey(option)(f[i]) >= SortKey(option)(f[j]) {
      assert ByKey(SortKey(option), false)(f[i], f[j]);
    }
  }

  /** With nothing selected and a search of blanks only, every row is shown. */
  lemma NoRestriction(rows: seq<CategoryRow>, searchTerm: string, option: SortOption)
    requires Words(ToLower(searchTerm)) == []
    ensures multiset(FilteredCategories(rows, [], searchTerm, option)) == multiset(rows)
  {
    FilterAllPass(rows, Passes([], searchTerm));
  }

  /** Clicking a category button (`prev.includes(category) ? prev.filter(...)
      : [...prev, category]`): the clicked category's rows pass the
      multi-select exactly when it was not selected before, other rows keep
      their verdict, and deselecting the last category lifts the restriction. */
  lemma ToggleSelection(selected: seq<string>, category: string, row: CategoryRow)
    ensures var s := Toggled(selected, category);
      MatchesSelection(row, s) <==> s == [] || if row.name == category then category !in selected else row.name in selected
  {
    if category in selected {
      ToggledPresent(selected, category);
    }
  }
}
