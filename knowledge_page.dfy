/** The knowledge list page (`knowledge/page.tsx`): the filters read from
    and written back to the URL, the channel dropdown, the filtered and
    sorted records and their nine-per-page pagination. Dates are given as a
    parsing function and the date windows as their start times. */
module KnowledgePage {
  import opened Collections
  import opened Text
  import opened Knowledge
  import opened KnowledgeStore

  // ---- URL values ----

  function DateFilterName(d: DateFilter): string {
    match d
    case AllDates => "all"
    case Today => "today"
    case Week => "week"
    case Month => "month"
    case Year => "year"
  }

  /** A `date` parameter is adopted only if it is one of the five names. */
  function ParseDateFilter(s: string): Option<DateFilter> {
    if s == "all" then Some(AllDates)
    else if s == "today" then Some(Today)
    else if s == "week" then Some(Week)
    else if s == "month" then Some(Month)
    else if s == "year" then Some(Year)
    else None
  }

  lemma DateFilterRoundTrip(d: DateFilter, s: string)
    ensures ParseDateFilter(DateFilterName(d)) == Some(d)
    ensures ParseDateFilter(s) == Some(d) ==> s == DateFilterName(d)
  {
  }

  function SortName(k: SortKey): string {
    match k
    case ByDate => "date"
    case ByTitle => "title"
    case ByChannel => "channel"
  }

  /** A `sort` parameter is adopted only if it is one of the three names. */
  function ParseSort(s: string): Option<SortKey> {
    if s == "date" then Some(ByDate)
    else if s == "title" then Some(ByTitle)
    else if s == "channel" then Some(ByChannel)
    else None
  }

  lemma SortRoundTrip(k: SortKey, s: string)
    ensures ParseSort(SortName(k)) == Some(k)
    ensures ParseSort(s) == Some(k) ==> s == SortName(k)
  {
  }

  function DigitChar(d: nat): char
    requires d < 10
  {
    "0123456789"[d]
  }

  function Digits(n: nat): (r: string)
    ensures |r| > 0
  {
    if n < 10 then [DigitChar(n)] else Digits(n / 10) + [DigitChar(n % 10)]
  }

  /** `n.toString()` for an integer. */
  function Decimal(n: int): (r: string)
    ensures |r| > 0
  {
    if n < 0 then "-" + Digits(-n) else Digits(n)
  }

  /** The search parameters, one value per name. */
  type Params = map<string, string>

  /** `searchParams.get(key)` is truthy: present and not empty. */
  predicate Given(params: Params, key: string) {
    key in params && params[key] != ""
  }

  /** The initialising effect: each truthy parameter is adopted, `date` and
      `sort` only when valid, `page` through `Number`. */
  function Adopted(f: Filters, params: Params, toNumber: string -> int): (r: Filters)
    ensures !Given(params, "search") ==> r.searchTerm == f.searchTerm
    ensures !Given(params, "channel") ==> r.filterChannel == f.filterChannel
    ensures !Given(params, "page") ==> r.currentPage == f.currentPage
  {
    Filters(
      if Given(params, "search") then params["search"] else f.searchTerm,
      if Given(params, "channel") then params["channel"] else f.filterChannel,
      if Given(params, "date") && ParseDateFilter(params["date"]).Some? then ParseDateFilter(params["date"]).value else f.dateFilter,
      if Given(params, "sort") && ParseSort(params["sort"]).Some? then ParseSort(params["sort"]).value else f.sortBy,
      if Given(params, "page") then toNumber(params["page"]) else f.currentPage)
  }

  /** A date window or sort order changes only to the value a valid
      parameter names. */
  lemma AdoptedOnlyValid(f: Filters, params: Params, toNumber: string -> int)
    ensures var r := Adopted(f, params, toNumber);
      && (r.dateFilter != f.dateFilter ==> "date" in params && params["date"] == DateFilterName(r.dateFilter))
      && (r.sortBy != f.sortBy ==> "sort" in params && params["sort"] == SortName(r.sortBy))
      && ("date" in params && ParseDateFilter(params["date"]).None? ==> r.dateFilter == f.dateFilter)
      && ("sort" in params && ParseSort(params["sort"]).None? ==> r.sortBy == f.sortBy)
  {
    var r := Adopted(f, params, toNumber);
    if r.dateFilter != f.dateFilter {
      DateFilterRoundTrip(r.dateFilter, params["date"]);
    }
    if r.sortBy != f.sortBy {
      SortRoundTrip(r.sortBy, params["sort"]);
    }
  }

  /** The first-load effect on the store. */
  method InitFromUrl(store: Store, params: Params, toNumber: string -> int)
    modifies store
    ensures store.State() == Adopted(old(store.State()), params, toNumber)
  {
    if Given(params, "search") {
      store.SetSearchTerm(params["search"]);
    }
    if Given(params, "channel") {
      store.SetFilterChannel(params["channel"]);
    }
    if Given(params, "date") {
      var d := ParseDateFilter(params["date"]);
      if d.Some? {
        store.SetDateFilter(d.value);
      }
    }
    if Given(params, "sort") {
      var k := ParseSort(params["sort"]);
      if k.Some? {
        store.SetSortBy(k.value);
      }
    }
    if Given(params, "page") {
      store.SetCurrentPage(toNumber(params["page"]));
    }
  }

  /** Sets `key` to `value` when `present` holds and deletes it otherwise. */
  function SetOrDelete(params: Params, key: string, present: bool, value: string): Params {
    if present then params[key := value] else params - {key}
  }

  /** The URL the syncing effect writes for the filters `f`. */
  function Synced(params: Params, f: Filters): Params {
    var p1 := SetOrDelete(params, "search", f.searchTerm != "", f.searchTerm);
    var p2 := SetOrDelete(p1, "channel", f.filterChannel != "all", f.filterChannel);
    var p3 := SetOrDelete(p2, "date", f.dateFilter != AllDates, DateFilterName(f.dateFilter));
    var p4 := SetOrDelete(p3, "sort", f.sortBy != ByDate, SortName(f.sortBy));
    SetOrDelete(p4, "page", f.currentPage != 1, Decimal(f.currentPage))
  }

  /** The syncing effect: each of the five parameters set or deleted in turn. */
  method SyncUrl(params: Params, f: Filters) returns (url: Params)
    ensures url == Synced(params, f)
  {
    url := params;
    if f.searchTerm != "" {
      url := url["search" := f.searchTerm];
    } else {
      url := url - {"search"};
    }
    if f.filterChannel != "all" {
      url := url["channel" := f.filterChannel];
    } else {
      url := url - {"channel"};
    }
    if f.dateFilter != AllDates {
      url := url["date" := DateFilterName(f.dateFilter)];
    } else {
      url := url - {"date"};
    }
    if f.sortBy != ByDate {
      url := url["sort" := SortName(f.sortBy)];
    } else {
      url := url - {"sort"};
    }
    if f.currentPage != 1 {
      url := url["page" := Decimal(f.currentPage)];
    } else {
      url := url - {"page"};
    }
  }

  /** Each filter at its default is absent from the URL and any other is
      present with its value. */
  lemma SyncedSpec(params: Params, f: Filters)
    ensures var url := Synced(params, f);
      && ("search" in url <==> f.searchTerm != "") && ("search" in url ==> url["search"] == f.searchTerm)
      && ("channel" in url <==> f.filterChannel != "all") && ("channel" in url ==> url["channel"] == f.filterChannel)
      && ("date" in url <==> f.dateFilter != AllDates) && ("date" in url ==> url["date"] == DateFilterName(f.dateFilter))
      && ("sort" in url <==> f.sortBy != ByDate) && ("sort" in url ==> url["sort"] == SortName(f.sortBy))
      && ("page" in url <==> f.currentPage != 1) && ("page" in url ==> url["page"] == Decimal(f.currentPage))
  {
    SyncedSteps(params, f);
  }

  /** Every parameter other than the five filters is kept. */
  lemma SyncedKeeps(params: Params, f: Filters)
    ensures var url := Synced(params, f);
      forall k :: k !in {"search", "channel", "date", "sort", "page"} ==> (k in url <==> k in params) && (k in url ==> url[k] == params[k])
  {
    var url := Synced(params, f);
    SyncedSteps(params, f);
    forall k | k !in {"search", "channel", "date", "sort", "page"}
      ensures (k in url <==> k in params) && (k in url ==> url[k] == params[k])
    {
      assert k != "search" && k != "channel" && k != "date" && k != "sort" && k != "page";
    }
  }

  lemma SyncedSteps(params: Params, f: Filters)
    ensures var p1 := SetOrDelete(params, "search", f.searchTerm != "", f.searchTerm);
      var p2 := SetOrDelete(p1, "channel", f.filterChannel != "all", f.filterChannel);
      var p3 := SetOrDelete(p2, "date", f.dateFilter != AllDates, DateFilterName(f.dateFilter));
      var p4 := SetOrDelete(p3, "sort", f.sortBy != ByDate, SortName(f.sortBy));
      && SetOrDeleteFacts(params, "search", f.searchTerm != "", f.searchTerm)
      && SetOrDeleteFacts(p1, "channel", f.filterChannel != "all", f.filterChannel)
      && SetOrDeleteFacts(p2, "date", f.dateFilter != AllDates, DateFilterName(f.dateFilter))
      && SetOrDeleteFacts(p3, "sort", f.sortBy != ByDate, SortName(f.sortBy))
      && SetOrDeleteFacts(p4, "page", f.currentPage != 1, Decimal(f.currentPage))
  {
    var p1 := SetOrDelete(params, "search", f.searchTerm != "", f.searchTerm);
    var p2 := SetOrDelete(p1, "channel", f.filterChannel != "all", f.filterChannel);
    var p3 := SetOrDelete(p2, "date", f.dateFilter != AllDates, DateFilterName(f.dateFilter));
    var p4 := SetOrDelete(p3, "sort", f.sortBy != ByDate, SortName(f.sortBy));
    SetOrDeleteSpec(params, "search", f.searchTerm != "", f.searchTerm);
    SetOrDeleteSpec(p1, "channel", f.filterChannel != "all", f.filterChannel);
    SetOrDeleteSpec(p2, "date", f.dateFilter != AllDates, DateFilterName(f.dateFilter));
    SetOrDeleteSpec(p3, "sort", f.sortBy != ByDate, SortName(f.sortBy));
    SetOrDeleteSpec(p4, "page", f.currentPage != 1, Decimal(f.currentPage));
  }

  ghost predicate SetOrDeleteFacts(params: Params, key: string, present: bool, value: string) {
    var r := SetOrDelete(params, key, present, value);
    && (key in r <==> present) && (key in r ==> r[key] == value)
    && forall k :: k != key ==> (k in r <==> k in params) && (k in r ==> r[k] == params[k])
  }

  /** One step of the effect: the key is set or deleted, the rest kept. */
  lemma SetOrDeleteSpec(params: Params, key: string, present: bool, value: string)
    ensures SetOrDeleteFacts(params, key, present, value)
  {
  }

  /** A fresh page load of the URL the filters wrote restores those
      filters, provided the page number reads back and the channel is not
      empty (the dropdown never offers an empty one). */
  lemma UrlRoundTrip(params: Params, f: Filters, toNumber: string -> int)
    requires f.filterChannel != ""
    requires toNumber(Decimal(f.currentPage)) == f.currentPage
    ensures Adopted(Defaults, Synced(params, f), toNumber) == f
  {
    var url := Synced(params, f);
    SyncedSpec(params, f);
    SyncedKeeps(params, f);
    DateFilterRoundTrip(f.dateFilter, "");
    SortRoundTrip(f.sortBy, "");
    assert DateFilterName(f.dateFilter) != "" && SortName(f.sortBy) != "";
  }

  // ---- the channel dropdown ----

  /** `item["channel name"] || "Unknown"`. */
  function ChannelLabel(item: KnowledgeItem): string {
    if item.channelName == "" then "Unknown" else item.channelName
  }

  function Labels(knowledge: seq<KnowledgeItem>): (r: seq<string>)
    ensures |r| == |knowledge|
  {
    if knowledge == [] then [] else Labels(knowledge[..|knowledge| - 1]) + [ChannelLabel(knowledge[|knowledge| - 1])]
  }

  lemma {:induction false} LabelsIndex(knowledge: seq<KnowledgeItem>)
    ensures forall i :: 0 <= i < |knowledge| ==> Labels(knowledge)[i] == ChannelLabel(knowledge[i])
  {
    if knowledge != [] {
      LabelsIndex(knowledge[..|knowledge| - 1]);
    }
  }

  /** `channels`: the distinct labels, sorted. */
  function Channels(knowledge: seq<KnowledgeItem>): seq<string> {
    CodeUnitLeTotal();
    SortBy(Dedup(Labels(knowledge)), CodeUnitLe)
  }

  /** The dropdown names every label once, in increasing order, and never
      the empty string. */
  lemma ChannelsSpec(knowledge: seq<KnowledgeItem>)
    ensures var cs := Channels(knowledge);
      && (forall i, j :: 0 <= i < j < |cs| ==> CodeUnitLe(cs[i], cs[j]) && cs[i] != cs[j])
      && (forall c :: c in cs <==> exists i :: 0 <= i < |knowledge| && ChannelLabel(knowledge[i]) == c)
      && "" !in cs
  {
    CodeUnitLeTotal();
    var names := Labels(knowledge);
    SortDedup(names, CodeUnitLe);
    assert SortedBy(Channels(knowledge), CodeUnitLe);
    LabelsIndex(knowledge);
    forall c | c in names ensures exists i :: 0 <= i < |knowledge| && ChannelLabel(knowledge[i]) == c {
      var i :| 0 <= i < |names| && names[i] == c;
    }
  }

  // ---- filtering and sorting ----

  predicate MatchesSearch(item: KnowledgeItem, term: string) {
    Contains(ToLower(item.videoTitle), ToLower(term))
  }

  /** The channel test as written: the raw channel name, so the "Unknown"
      entry of the dropdown matches no record without a name. */
  predicate MatchesChannelAsWritten(item: KnowledgeItem, channel: string) {
    channel == "all" || item.channelName == channel
  }

  /** The channel test as evidently intended: the label the dropdown shows. */
  predicate MatchesChannel(item: KnowledgeItem, channel: string) {
    channel == "all" || ChannelLabel(item) == channel
  }

  /** The date window: `time` parses a record's date, `start` gives each
      window's start as of the current day. */
  predicate MatchesDate(item: KnowledgeItem, window: DateFilter, time: string -> int, start: DateFilter -> int) {
    window == AllDates || time(item.date) >= start(window)
  }

  /** The record filter as written. */
  function Passes(f: Filters, time: string -> int, start: DateFilter -> int): KnowledgeItem -> bool {
    (item: KnowledgeItem) =>
      MatchesSearch(item, f.searchTerm) && MatchesChannelAsWritten(item, f.filterChannel) && MatchesDate(item, f.dateFilter, time, start)
  }

  /** The record filter with the channel tested by its label. */
  function PassesIntended(f: Filters, time: string -> int, start: DateFilter -> int): KnowledgeItem -> bool {
    (item: KnowledgeItem) =>
      MatchesSearch(item, f.searchTerm) && MatchesChannel(item, f.filterChannel) && MatchesDate(item, f.dateFilter, time, start)
  }

  function ItemTime(time: string -> int): KnowledgeItem -> int {
    (item: KnowledgeItem) => time(item.date)
  }

  function ItemTitle(): KnowledgeItem -> string {
    (item: KnowledgeItem) => item.videoTitle
  }

  function ItemChannel(): KnowledgeItem -> string {
    (item: KnowledgeItem) => ChannelLabel(item)
  }

  /** Newest first, or by title or channel label under the locale order `le`. */
  function Comparator(sortBy: SortKey, time: string -> int, le: (string, string) -> bool): (KnowledgeItem, KnowledgeItem) -> bool {
    match sortBy
    case ByDate => ByKey(ItemTime(time), false)
    case ByTitle => On(le, ItemTitle())
    case ByChannel => On(le, ItemChannel())
  }

  lemma ComparatorTotal(sortBy: SortKey, time: string -> int, le: (string, string) -> bool)
    requires TotalPreorder(le)
    ensures TotalPreorder(Comparator(sortBy, time, le))
  {
    match sortBy
    case ByDate => ByKeyTotal(ItemTime(time), false);
    case ByTitle => OnTotal(le, ItemTitle());
    case ByChannel => OnTotal(le, ItemChannel());
  }

  /** `filteredAndSortedItems`, as written. */
  function FilteredAndSorted(knowledge: seq<KnowledgeItem>, f: Filters, time: string -> int, start: DateFilter -> int,
                             le: (string, string) -> bool): seq<KnowledgeItem>
    requires TotalPreorder(le)
  {
    ComparatorTotal(f.sortBy, time, le);
    SortBy(Filter(knowledge, Passes(f, time, start)), Comparator(f.sortBy, time, le))
  }

  /** `filteredAndSortedItems` with the channel tested by its label. */
  function FilteredAndSortedIntended(knowledge: seq<KnowledgeItem>, f: Filters, time: string -> int, start: DateFilter -> int,
                                     le: (string, string) -> bool): seq<KnowledgeItem>
    requires TotalPreorder(le)
  {
    ComparatorTotal(f.sortBy, time, le);
    SortBy(Filter(knowledge, PassesIntended(f, time, start)), Comparator(f.sortBy, time, le))
  }

  /** The list holds each passing record as often as the input does: one
      whose title contains the search, whose raw channel name is the chosen
      one and whose date is in the window. */
  lemma ItemsRows(knowledge: seq<KnowledgeItem>, f: Filters, time: string -> int, start: DateFilter -> int,
                  le: (string, string) -> bool)
    requires TotalPreorder(le)
    ensures var r := FilteredAndSorted(knowledge, f, time, start, le);
      && multiset(r) == multiset(Filter(knowledge, Passes(f, time, start)))
      && forall item :: item in r <==>
           item in knowledge && MatchesSearch(item, f.searchTerm) && MatchesChannelAsWritten(item, f.filterChannel)
           && MatchesDate(item, f.dateFilter, time, start)
  {
    var r := FilteredAndSorted(knowledge, f, time, start, le);
    var passed := Filter(knowledge, Passes(f, time, start));
    forall item ensures item in r <==> item in passed {
      assert item in r <==> item in multiset(r);
      assert item in passed <==> item in multiset(passed);
    }
  }

  /** The intended list holds the records whose channel label is the
      chosen one. */
  lemma IntendedItemsRows(knowledge: seq<KnowledgeItem>, f: Filters, time: string -> int, start: DateFilter -> int,
                          le: (string, string) -> bool)
    requires TotalPreorder(le)
    ensures var r := FilteredAndSortedIntended(knowledge, f, time, start, le);
      && multiset(r) == multiset(Filter(knowledge, PassesIntended(f, time, start)))
      && forall item :: item in r <==>
           item in knowledge && MatchesSearch(item, f.searchTerm) && MatchesChannel(item, f.filterChannel)
           && MatchesDate(item, f.dateFilter, time, start)
  {
    var r := FilteredAndSortedIntended(knowledge, f, time, start, le);
    var passed := Filter(knowledge, PassesIntended(f, time, start));
    forall item ensures item in r <==> item in passed {
      assert item in r <==> item in multiset(r);
      assert item in passed <==> item in multiset(passed);
    }
  }

  /** When every record has a channel name the two lists are the same. */
  lemma IntendedAgreesWhenNamed(knowledge: seq<KnowledgeItem>, f: Filters, time: string -> int, start: DateFilter -> int,
                                le: (string, string) -> bool)
    requires TotalPreorder(le)
    requires forall i :: 0 <= i < |knowledge| ==> knowledge[i].channelName != ""
    ensures FilteredAndSortedIntended(knowledge, f, time, start, le) == FilteredAndSorted(knowledge, f, time, start, le)
  {
    forall item | item in knowledge ensures PassesIntended(f, time, start)(item) == Passes(f, time, start)(item) {
      MatchesChannelAgrees(item, f.filterChannel);
    }
    FilterSame(knowledge, PassesIntended(f, time, start), Passes(f, time, start));
  }

  /** With the defaults every record is listed. */
  lemma DefaultsPassAll(knowledge: seq<KnowledgeItem>, time: string -> int, start: DateFilter -> int)
    ensures Filter(knowledge, Passes(Defaults, time, start)) == knowledge
  {
    forall item | item in knowledge ensures Passes(Defaults, time, start)(item) {
      assert ToLower("") == "";
      ContainsEmpty(ToLower(item.videoTitle));
    }
    FilterAllPass(knowledge, Passes(Defaults, time, start));
  }

  lemma SortedByDate(knowledge: seq<KnowledgeItem>, f: Filters, time: string -> int, start: DateFilter -> int,
                     le: (string, string) -> bool)
    requires TotalPreorder(le) && f.sortBy == ByDate
    ensures var r := FilteredAndSorted(knowledge, f, time, start, le);
      forall i, j :: 0 <= i < j < |r| ==> time(r[i].date) >= time(r[j].date)
  {
    var r := FilteredAndSorted(knowledge, f, time, start, le);
    var cmp := Comparator(f.sortBy, time, le);
    ComparatorTotal(f.sortBy, time, le);
    assert SortedBy(r, cmp);
    forall i, j | 0 <= i < j < |r| ensures time(r[i].date) >= time(r[j].date) {
      assert cmp(r[i], r[j]);
    }
  }

  lemma SortedByTitle(knowledge: seq<KnowledgeItem>, f: Filters, time: string -> int, start: DateFilter -> int,
                      le: (string, string) -> bool)
    requires TotalPreorder(le) && f.sortBy == ByTitle
    ensures var r := FilteredAndSorted(knowledge, f, time, start, le);
      forall i, j :: 0 <= i < j < |r| ==> le(r[i].videoTitle, r[j].videoTitle)
  {
    var r := FilteredAndSorted(knowledge, f, time, start, le);
    var cmp := Comparator(f.sortBy, time, le);
    ComparatorTotal(f.sortBy, time, le);
    assert SortedBy(r, cmp);
    forall i, j | 0 <= i < j < |r| ensures le(r[i].videoTitle, r[j].videoTitle) {
      assert cmp(r[i], r[j]);
    }
  }

  lemma SortedByChannel(knowledge: seq<KnowledgeItem>, f: Filters, time: string -> int, start: DateFilter -> int,
                        le: (string, string) -> bool)
    requires TotalPreorder(le) && f.sortBy == ByChannel
    ensures var r := FilteredAndSorted(knowledge, f, time, start, le);
      forall i, j :: 0 <= i < j < |r| ==> le(ChannelLabel(r[i]), ChannelLabel(r[j]))
  {
    var r := FilteredAndSorted(knowledge, f, time, start, le);
    var cmp := Comparator(f.sortBy, time, le);
    ComparatorTotal(f.sortBy, time, le);
    assert SortedBy(r, cmp);
    forall i, j | 0 <= i < j < |r| ensures le(ChannelLabel(r[i]), ChannelLabel(r[j])) {
      assert cmp(r[i], r[j]);
    }
  }

  /** A record without a channel name is listed in the dropdown as
      "Unknown", yet choosing "Unknown" drops it from the list as written;
      the intended list keeps it. */
  lemma UnknownChannelCounterexample(item: KnowledgeItem, f: Filters, time: string -> int, start: DateFilter -> int,
                                     le: (string, string) -> bool)
    requires TotalPreorder(le)
    requires item.channelName == "" && f.filterChannel == "Unknown"
    requires MatchesSearch(item, f.searchTerm) && MatchesDate(item, f.dateFilter, time, start)
    ensures "Unknown" in Channels([item])
    ensures FilteredAndSorted([item], f, time, start, le) == []
    ensures FilteredAndSortedIntended([item], f, time, start, le) == [item]
  {
    ChannelsSpec([item]);
    assert ChannelLabel([item][0]) == "Unknown";
    assert Filter([item], Passes(f, time, start)) == [];
    assert Filter([item], PassesIntended(f, time, start)) == [item];
  }

  /** The two tests agree on every record that has a channel name. */
  lemma MatchesChannelAgrees(item: KnowledgeItem, channel: string)
    requires item.channelName != ""
    ensures MatchesChannel(item, channel) == MatchesChannelAsWritten(item, channel)
  {
  }

  // ---- pagination ----

  const ItemsPerPage := 9

  /** `Math.ceil(n / itemsPerPage)`. */
  function PageCount(n: nat): (r: nat)
    ensures r * ItemsPerPage >= n
    ensures n > 0 ==> (r - 1) * ItemsPerPage < n
    ensures n == 0 ==> r == 0
  {
    (n + ItemsPerPage - 1) / ItemsPerPage
  }

  /** The records shown on page `page`. */
  function PageItems<T>(items: seq<T>, page: int): seq<T> {
    JsSlice(items, (page - 1) * ItemsPerPage, page * ItemsPerPage)
  }

  /** Page `page` (from 1) shows the records from position `(page-1)*9`, at
      most nine of them, and fewer only on the last page. */
  lemma PageItemsSpec<T>(items: seq<T>, page: int)
    requires page >= 1
    ensures var r := PageItems(items, page);
      var first := (page - 1) * ItemsPerPage;
      && |r| == (if first >= |items| then 0 else if |items| - first < ItemsPerPage then |items| - first else ItemsPerPage)
      && forall k :: 0 <= k < |r| ==> r[k] == items[first + k]
  {
  }

  /** Every record is on exactly the page its position says. */
  lemma OnItsPage<T>(items: seq<T>, i: nat)
    requires i < |items|
    ensures var page := i / ItemsPerPage + 1;
      && 1 <= page <= PageCount(|items|)
      && i % ItemsPerPage < |PageItems(items, page)|
      && PageItems(items, page)[i % ItemsPerPage] == items[i]
  {
    var page := i / ItemsPerPage + 1;
    PageItemsSpec(items, page);
    assert (page - 1) * ItemsPerPage + i % ItemsPerPage == i;
  }

  /** `Math.max(1, currentPage - 1)`. */
  function PrevPage(page: int): (r: int)
    ensures r >= 1
    ensures page > 1 ==> r == page - 1
    ensures page <= 1 ==> r == 1
  {
    if page - 1 < 1 then 1 else page - 1
  }

  /** `Math.min(Math.ceil(n / 9), currentPage + 1)`; with no records this
      is page 0. */
  function NextPage(page: int, n: nat): (r: int)
    ensures r <= PageCount(n)
    ensures page + 1 <= PageCount(n) ==> r == page + 1
    ensures page >= PageCount(n) ==> r == PageCount(n)
  {
    if PageCount(n) < page + 1 then PageCount(n) else page + 1
  }

  method HandlePrevPage(store: Store)
    modifies store
    ensures store.currentPage == PrevPage(old(store.currentPage))
    ensures store.searchTerm == old(store.searchTerm) && store.filterChannel == old(store.filterChannel)
    ensures store.dateFilter == old(store.dateFilter) && store.sortBy == old(store.sortBy)
  {
    store.SetCurrentPage(PrevPage(store.currentPage));
  }

  method HandleNextPage(store: Store, listed: nat)
    modifies store
    ensures store.currentPage == NextPage(old(store.currentPage), listed)
    ensures store.searchTerm == old(store.searchTerm) && store.filterChannel == old(store.filterChannel)
    ensures store.dateFilter == old(store.dateFilter) && store.sortBy == old(store.sortBy)
  {
    store.SetCurrentPage(NextPage(store.currentPage, listed));
  }
}
