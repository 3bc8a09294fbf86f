# cryptolev dashboard core, modelled in Dafny

cryptolev is a Next.js dashboard over a knowledge base of analysed YouTube
videos. Each knowledge record is one video: a title, a channel name, a date,
a transcript and an `llm_answer` whose `projects` list the coins the analysis
found, with their r-points ("relevance points"), total mention count, market
capitalisation class and categories. The dashboard folds these records into
per-coin, per-category, per-channel and per-day aggregates. It filters and
sorts them behind search boxes, tabs and URL query parameters. It also asks a
route handler to match coin names against the CoinGecko market list.

This project models that core and proves what the code promises about it:

- `Knowledge`: the record types. A missing `projects` field, a single object
  and an array are the three shapes the components distinguish.
- `Collections`, `Text`, `Tallies`: the JavaScript idioms the components are
  built from, each given a specification and proved against it.
  - `Collections`: `new Set`, `filter`, `find`, `sort` with a comparator,
    `flatMap`, `slice`, and the include-or-remove toggle.
  - `Text`: `toLowerCase`, `includes`, `split`/`join`, splitting on `\s+`,
    and the default string order of `sort()`.
  - `Tallies`: a `Map` used as a counter and `Object.entries(...).sort(...)`.
- `ChannelStore` and `KnowledgeStore`: the two Zustand stores. Each is a class
  whose setters update its fields.
- `ChannelContent` and `ChannelAnalytics`: the channels page.
  - URL synchronisation of the selected channels.
  - The per-coin roll-up table.
  - The big `forEach` fold behind the analytics cards, charts and coin/category
    table, written as loops over the records and their projects.
- `CategoriesPage`: the categories fold, its validation that every project
  carries categories, the type filters, the search and the sort.
- `AnalyticsPage`, `CombinedMarketTable`, `CoinCategoriesTab`: the analytics
  page.
  - The distributions fed to its charts.
  - The market table: column selection, sorting, tabs and search.
  - The coin/category tab.
- `CoingeckoRoute`: the market-data route.
  - The name normalisation and the alias, exact and fuzzy matching order.
  - The batch loop that fills one entry per requested name.
  - The fallback to the last data served.
- `KnowledgePage` and `KnowledgeBase`: the knowledge page.
  - URL parameters read into and written from the store.
  - Filtering, sorting and pagination.
  - The project cards, with their top-three highlight, and the modal.

Numbers the source keeps as JavaScript floats are modelled as mathematical
integers. Dates, `Date` arithmetic and `localeCompare` enter as parameters:
an abstract day count, and a total preorder on strings. Network calls enter
as values the caller passes in.

## Model

| member | source | states |
|---|---|---|
| Knowledge.ProjectList | src/app/channels/components/ChannelAnalytics.tsx:44-48 | a missing `projects` field gives no projects, a single object gives a one-element list, an array is taken as it is |
| Knowledge.ItemMentions | src/app/channels/components/ChannelAnalytics.tsx:45-50 | a record contributes one mention per project, in order, each carrying the record's date |
| Knowledge.MentionsAppend | src/app/channels/components/ChannelAnalytics.tsx:43-50 | the mentions of two runs of records are the mentions of the first followed by those of the second |
| Knowledge.MentionsOfOne | src/app/channels/components/ChannelAnalytics.tsx:44 | one record contributes exactly its own projects; one without `llm_answer.projects` contributes nothing |
| Knowledge.MentionsStep | src/app/channels/components/ChannelAnalytics.tsx:43-50 | the next record appends its mentions to those of the records already folded |
| Collections.Dedup | src/app/channels/components/ChannelContent.tsx:20-22 | `Array.from(new Set(s))` is no longer than `s` |
| Collections.DedupSpec | src/app/channels/components/ChannelContent.tsx:20-22 | the de-duplicated list has no repetition and holds exactly the elements of `s` |
| Collections.DedupSnoc | src/app/channels/components/ChannelAnalytics.tsx:57 | adding an element to a set appends it unless it is already present |
| Collections.DedupOfDistinct | src/app/channels/components/ChannelAnalytics.tsx:105 | a list without repetition is its own de-duplication |
| Collections.DedupAppend | src/app/channels/components/ChannelAnalytics.tsx:80-82 | merging a list into a de-duplicated prefix yields the same as de-duplicating the whole concatenation |
| Collections.AddAll | src/app/channels/components/ChannelContent.tsx:98 | `forEach(x => set.add(x))` on a set holding `s` leaves the insertion-ordered set of `s + xs` |
| Collections.DistinctByMultiset | src/app/channels/components/ChannelContent.tsx:20-22 | a list has no repetition exactly when no element occurs twice in its multiset |
| Collections.DistinctPermutation | src/app/channels/components/ChannelContent.tsx:20-22 | a permutation of a list without repetition has no repetition |
| Collections.Filter | src/app/channels/components/ChannelContent.tsx:62-64 | `filter` keeps exactly the elements that pass, and is no longer than its input |
| Collections.FilterAppend | src/app/channels/components/ChannelContent.tsx:62-64 | filtering distributes over concatenation |
| Collections.FilterSame | src/app/channels/components/ChannelContent.tsx:62-64 | two tests that agree on every element keep the same elements |
| Collections.FilterMultiset | src/app/channels/components/ChannelContent.tsx:62-64 | filtering keeps each passing element with its full multiplicity and drops every other |
| Collections.FilterDistinct | src/app/categories/page.tsx:97 | filtering a list without repetition gives a list without repetition |
| Collections.FilterAllPass | src/app/categories/page.tsx:111-135 | a filter every element passes returns the list unchanged |
| Collections.FilterNonePass | src/app/categories/page.tsx:111-135 | a filter no element passes returns the empty list |
| Collections.FindSpec | src/components/KnowledgeBase.tsx:237 | `find` fails exactly when no element passes, and otherwise yields a passing element with none passing before it |
| Collections.FindNone | src/components/KnowledgeBase.tsx:237 | `find` fails exactly when no element passes |
| Collections.FindSome | src/components/KnowledgeBase.tsx:237 | a found element passes and no element before it does |
| Collections.FindFirst | src/components/KnowledgeBase.tsx:237 | the first passing element is the one `find` yields |
| Collections.Toggled | src/stores/channelStore.ts:17-19 | toggling removes a present element and adds an absent one |
| Collections.ToggledPresent | src/stores/channelStore.ts:17-18 | toggling a present element removes all its occurrences and no other element |
| Collections.ToggledDistinct | src/stores/channelStore.ts:17-19 | toggling keeps a list without repetition free of repetition |
| Collections.ToggledAbsent | src/stores/channelStore.ts:19 | toggling an absent element appends it at the end |
| Collections.ToggleTwiceAbsent | src/stores/channelStore.ts:17-19 | toggling an absent element twice gives the original list back |
| Collections.Insert | src/app/channels/components/ChannelContent.tsx:111 | one insertion step of the sort adds exactly one element |
| Collections.InsertMember | src/app/channels/components/ChannelContent.tsx:111 | an inserted list holds only the new element and the old ones |
| Collections.InsertSorted | src/app/channels/components/ChannelContent.tsx:111 | inserting into a sorted list under a total preorder keeps it sorted |
| Collections.SortBy | src/app/channels/components/ChannelContent.tsx:111 | `sort(cmp)` returns a permutation of its input, ordered by the comparator's "may precede" relation |
| Collections.SortByMember | src/app/channels/components/ChannelAnalytics.tsx:99-101 | sorting neither adds nor drops an element |
| Collections.SortDedup | src/app/channels/components/ChannelContent.tsx:20-22 | `Array.from(new Set(s)).sort()` holds each element of `s` exactly once |
| Collections.ByKeyTotal | src/app/channels/components/ChannelAnalytics.tsx:101 | the comparators `(a, b) => key(a) - key(b)` and `(a, b) => key(b) - key(a)` order consistently (total and transitive) |
| Collections.ReversedTotal | src/app/analytics/components/CoinCategoriesTab.tsx:37-40 | reversing a consistent order (`b.localeCompare(a)`) gives a consistent order |
| Collections.OnTotal | src/app/knowledge/page.tsx:153-164 | comparing rows through a field keeps the order consistent |
| Collections.ConcatAppend | src/app/channels/components/ChannelAnalytics.tsx:43-50 | flattening two runs of elements is flattening each and concatenating the results |
| Collections.ConcatStep | src/app/channels/components/ChannelAnalytics.tsx:43-50 | the next element appends its pieces to the flattened prefix |
| Collections.ConcatOne | src/app/channels/components/ChannelAnalytics.tsx:50 | flattening one element gives its pieces |
| Collections.ConcatMember | src/app/channels/components/ChannelAnalytics.tsx:43-50 | an element of the flattened list comes from some element's pieces, and every piece occurs |
| Collections.SumByAppend | src/app/channels/components/ChannelAnalytics.tsx:55 | a running total grows by the next element's value |
| Collections.SumByPointwise | src/app/analytics/page.tsx:91-93 | sums over two lists agreeing element by element are equal |
| Collections.SumByInsert | src/app/channels/components/ChannelContent.tsx:111 | an insertion step of the sort adds the new element's value to the sum |
| Collections.SumBySort | src/app/channels/components/ChannelContent.tsx:111 | sorting never changes a sum over the rows |
| Collections.Take | src/components/KnowledgeBase.tsx:21 | `slice(0, n)` is a prefix, of length `n` when there are at least `n` elements |
| Collections.SliceIndex | src/app/knowledge/page.tsx:373-376 | a relative slice position is clamped to the list, and a position inside the list is kept |
| Collections.JsSlice | src/app/knowledge/page.tsx:373-376 | `slice(start, end)` never lengthens the list and, for in-range bounds, is exactly the sub-list |
| Text.ToLower | src/app/categories/page.tsx:76 | `toLowerCase` leaves only lowered characters and leaves an already lowered string unchanged |
| Text.ContainsEmpty | src/app/analytics/components/CombinedMarketTable.tsx:229-234 | every string includes the empty search |
| Text.ContainsSelf | src/app/api/coingecko/route.ts:125-132 | every string includes itself |
| Text.SplitWhere | src/app/categories/page.tsx:123 | a split has at least one piece and no piece holds a separator |
| Text.Split | src/app/channels/components/ChannelContent.tsx:28 | `split(",")` has at least one piece and no piece holds a comma |
| Text.SplitPrefix | src/app/channels/components/ChannelContent.tsx:28 | a run of non-separators before the rest extends the first piece of the rest's split |
| Text.SplitAtSep | src/app/channels/components/ChannelContent.tsx:28 | a leading separator ends an empty first piece |
| Text.SplitJoinStep | src/app/channels/components/ChannelContent.tsx:28 | a comma-free piece, a comma and a split tail split into that piece and the tail's pieces |
| Text.SplitJoin | src/app/channels/components/ChannelContent.tsx:28-45 | splitting a joined list gives the list back when no element holds the separator |
| Text.JoinCons | src/app/channels/components/ChannelContent.tsx:45 | joining puts the separator between the first piece and the join of the rest |
| Text.JoinPrepend | src/app/channels/components/ChannelContent.tsx:45 | a character in front of the first piece is in front of the joined string |
| Text.JoinSplit | src/app/channels/components/ChannelContent.tsx:28-45 | joining the pieces of a split gives the string back |
| Text.Words | src/app/categories/page.tsx:121-124 | `split(/\s+/).filter(Boolean)` yields non-empty words without white space; `Text.WordsSpec` states the whole split |
| Text.Gaps | src/app/categories/page.tsx:121-124 | the white-space runs around the words, at least the leading one |
| Text.WordsSpec | src/app/categories/page.tsx:121-124 | the string is its words, in order, interleaved with runs of white space, every run between two words non-empty, so the words are exactly the maximal runs of non-space characters |
| Text.WordsStep | src/app/categories/page.tsx:121-124 | one more leading character: a space leaves the words alone, a non-space before a space or the end starts a new word, a non-space before a non-space extends the first word |
| Text.SpaceStep | src/app/categories/page.tsx:121-124 | a leading space joins the leading white-space run and keeps the split valid |
| Text.SpaceText | src/app/categories/page.tsx:121-124 | a leading space in front of a split string is in front of its leading run |
| Text.SpaceGaps | src/app/categories/page.tsx:121-124 | adding a space to the leading run keeps every run blank and each inner run non-empty, and makes the leading run non-empty |
| Text.NewWordStep | src/app/categories/page.tsx:121-124 | a non-space before a space or the end becomes a one-character first word and keeps the split valid |
| Text.NewWordText | src/app/categories/page.tsx:121-124 | the new one-character word sits after an empty leading run |
| Text.NewWordParts | src/app/categories/page.tsx:121-124 | an empty leading run and a one-character word keep the runs blank, the inner runs non-empty and the words space-free |
| Text.LongerWordStep | src/app/categories/page.tsx:121-124 | a non-space before a non-space lengthens the first word and keeps the split valid |
| Text.LongerWordText | src/app/categories/page.tsx:121-124 | the lengthened first word still interleaves to the string |
| Text.LongerWordParts | src/app/categories/page.tsx:121-124 | a non-space in front of the first word keeps every word non-empty and space-free |
| Text.InterleaveGap | src/app/categories/page.tsx:121-124 | a character in front of an interleaving is in front of its leading run |
| Text.InterleaveNewWord | src/app/categories/page.tsx:121-124 | a character in front of an interleaving is a word after an empty run |
| Text.InterleaveLonger | src/app/categories/page.tsx:121-124 | a character in front of an interleaving with an empty leading run is in front of its first word |
| Text.WordsOfBlank | src/app/categories/page.tsx:121-124 | a search made only of blanks has no words |
| Text.BlankPieceChars | src/app/categories/page.tsx:121-124 | the pieces of a blank string hold no non-space character |
| Text.CodeUnitLeConnected | src/app/knowledge/page.tsx:109-111 | the default `sort()` order relates any two strings one way or the other |
| Text.CodeUnitLeTransitive | src/app/knowledge/page.tsx:109-111 | the default `sort()` order is transitive |
| Text.CodeUnitLeTotal | src/app/knowledge/page.tsx:109-111 | the default `sort()` order is a total preorder, so sorting by it is well defined |
| Text.CodeUnitLeAntisymmetric | src/app/knowledge/page.tsx:109-111 | two strings each not after the other are equal |
| Tallies.KeysOf | src/app/channels/components/ChannelAnalytics.tsx:60-61 | one key per counter update, in update order |
| Tallies.TabulateKeys | src/app/channels/components/ChannelAnalytics.tsx:99-100 | one entry per listed key, holding the sum of that key's deltas |
| Tallies.Names | src/app/channels/components/ChannelAnalytics.tsx:100 | the names of the entries, position by position |
| Tallies.Add | src/app/channels/components/ChannelAnalytics.tsx:60-61 | `m.set(k, (m.get(k) \|\| 0) + d)` adds `d` to `k` and changes no other key; a new key goes to the end of the insertion order |
| Tallies.Entries | src/app/channels/components/ChannelAnalytics.tsx:99 | `Array.from(m.entries())` lists each key in insertion order with its value |
| Tallies.CounterOfSnoc | src/app/channels/components/ChannelAnalytics.tsx:60-61 | the counter after one more update is that update applied to the previous counter |
| Tallies.CounterOfHolds | src/app/channels/components/ChannelAnalytics.tsx:60-61 | whatever the updates, the counter holds one key per distinct updated key, in first-update order, with that key's summed deltas |
| Tallies.CounterKeys | src/app/channels/components/ChannelAnalytics.tsx:60-61 | the counter's keys are the distinct updated keys, in first-update order |
| Tallies.CounterDomain | src/app/channels/components/ChannelAnalytics.tsx:60-61 | a key has a value exactly when it is one of the counter's keys |
| Tallies.CounterGets | src/app/channels/components/ChannelAnalytics.tsx:60-61 | each key reads back as the sum of its deltas, and an untouched key reads 0 |
| Tallies.EntriesOfCounter | src/app/channels/components/ChannelAnalytics.tsx:99-100 | the entries of the counter built by the updates are their tabulation |
| Tallies.AddHolds | src/app/channels/components/ChannelAnalytics.tsx:60-61 | each update keeps the counter in step with the updates applied so far |
| Tallies.AddKeys | src/app/channels/components/ChannelAnalytics.tsx:60-61 | an update keeps the keys equal to the distinct updated keys |
| Tallies.AddValues | src/app/channels/components/ChannelAnalytics.tsx:60-61 | an update keeps every value equal to its key's summed deltas |
| Tallies.EntriesHold | src/app/channels/components/ChannelAnalytics.tsx:99-100 | any counter in step with the updates lists their tabulation |
| Tallies.KeysOfIndex | src/app/channels/components/ChannelAnalytics.tsx:60-61 | the i-th key is the key of the i-th update |
| Tallies.KeysOfSnoc | src/app/channels/components/ChannelAnalytics.tsx:60-61 | one more update appends its key |
| Tallies.SumForSnoc | src/app/channels/components/ChannelAnalytics.tsx:60-61 | one more update adds its delta to its own key's sum only |
| Tallies.SumForAbsent | src/app/channels/components/ChannelAnalytics.tsx:60 | a key never updated sums to the `\|\| 0` default |
| Tallies.SumShift | src/app/channels/components/ChannelAnalytics.tsx:60-61 | one more update of a listed key raises the sum of the listed values by its delta |
| Tallies.TabulateTotal | src/app/channels/components/ChannelAnalytics.tsx:55-61 | the counter's values add up to the sum of all deltas |
| Tallies.TabulateNames | src/app/channels/components/ChannelAnalytics.tsx:99-100 | the counter has one entry per distinct key, in first-update order, without repetition |
| Tallies.TabulateMember | src/app/channels/components/ChannelAnalytics.tsx:99-100 | an entry is in the counter exactly when its name was updated and its value is that name's sum |
| Tallies.TabulateUnique | src/app/channels/components/ChannelAnalytics.tsx:99-100 | no two entries of the counter share a name |
| Tallies.SortedUnique | src/app/channels/components/ChannelAnalytics.tsx:99-101 | sorting entries with distinct names keeps the names distinct |
| Tallies.SortedTabulation | src/app/channels/components/ChannelAnalytics.tsx:99-101 | sorting the counter's entries keeps the same entries, distinct names and total |
| Tallies.Ones | src/app/channels/components/ChannelAnalytics.tsx:69-72 | one `+1` update per category tag |
| Tallies.OnesAppend | src/app/channels/components/ChannelAnalytics.tsx:69-72 | the updates of two runs of tags are those of each, concatenated |
| Tallies.OnesFacts | src/app/channels/components/ChannelAnalytics.tsx:69-72 | a tag counter's keys are the tags, its total is their number and each tag counts its occurrences |
| Tallies.OnesKeys | src/app/channels/components/ChannelAnalytics.tsx:69-72 | the keys of the tag updates are the tags |
| Tallies.OnesTotal | src/app/channels/components/ChannelAnalytics.tsx:69-72 | the tag updates add up to the number of tags |
| Tallies.OnesSum | src/app/channels/components/ChannelAnalytics.tsx:69-72 | each tag's sum is its number of occurrences |
| Tallies.OnesMember | src/app/channels/components/ChannelAnalytics.tsx:107-109 | a tag counter holds each tag once, with its number of occurrences |
| Tallies.DistributionSpec | src/app/channels/components/ChannelAnalytics.tsx:110-112 | the sorted counter has one entry per key holding the key's sum, values from highest to lowest, names distinct, the same total |
| Tallies.DistributionHead | src/app/channels/components/ChannelAnalytics.tsx:122-125 | the sorted counter is empty exactly when there were no updates, and its first entry has the largest value |
| Tallies.TopSpec | src/app/analytics/page.tsx:91-94 | `.sort(...).slice(0, n)` keeps at most `n` entries, `n` when there are that many keys, each an entry of the counter, values from highest |
| Tallies.TopIsTop | src/app/analytics/page.tsx:91-94 | an entry left out of the first `n` has a value no greater than any entry kept |
| Tallies.FindValueSpec | src/app/analytics/components/CoinCategoriesTab.tsx:29-34 | `find(p => p.name === name)?.value \|\| 0` gives the first entry with that name, or 0 when none has it |
| Tallies.FindValueUnique | src/app/analytics/components/CoinCategoriesTab.tsx:29-34 | in a counter with distinct names, the lookup finds the value of that name's entry |
| ChannelStore.Store.constructor | src/stores/channelStore.ts:13 | the store starts with no channel selected |
| ChannelStore.Store.SetSelectedChannels | src/stores/channelStore.ts:14 | the selection becomes the given list, as given |
| ChannelStore.Store.ToggleChannel | src/stores/channelStore.ts:15-20 | a selected channel loses every occurrence and nothing else; an unselected one is appended at the end |
| ChannelStore.ToggleTwice | src/stores/channelStore.ts:15-20 | toggling an unselected channel twice restores the selection |
| KnowledgeStore.Store.constructor | src/stores/knowledgeStore.ts:23-27 | the filters start at no search, every channel, every date, sorted by date, page 1 |
| KnowledgeStore.Store.SetSearchTerm | src/stores/knowledgeStore.ts:28 | sets the search term and leaves the other four fields alone |
| KnowledgeStore.Store.SetFilterChannel | src/stores/knowledgeStore.ts:29 | sets the channel filter and leaves the other four fields alone |
| KnowledgeStore.Store.SetDateFilter | src/stores/knowledgeStore.ts:30 | sets the date filter and leaves the other four fields alone |
| KnowledgeStore.Store.SetSortBy | src/stores/knowledgeStore.ts:31 | sets the sort key and leaves the other four fields alone |
| KnowledgeStore.Store.SetCurrentPage | src/stores/knowledgeStore.ts:32 | sets the page and leaves the other four fields alone |
| ChannelContent.ChannelNames | src/app/channels/components/ChannelContent.tsx:21 | one channel name per record |
| ChannelContent.ChannelNamesIndex | src/app/channels/components/ChannelContent.tsx:21 | the i-th name is the i-th record's `channel name` |
| ChannelContent.ChannelsSpec | src/app/channels/components/ChannelContent.tsx:20-22 | the channel list names every channel of the records, each once, in increasing default string order, and nothing else |
| ChannelContent.InitialSelection | src/app/channels/components/ChannelContent.tsx:28-36 | on first load the store is set only to a non-empty list of known channels; it is left alone only when something is already selected or there are no channels |
| ChannelContent.UpdateUrl | src/app/channels/components/ChannelContent.tsx:42-50 | the `channels` parameter is present exactly when the selection is non-empty and then holds the comma-joined selection; every other parameter is kept |
| ChannelContent.UrlRoundTrip | src/app/channels/components/ChannelContent.tsx:28-45 | a URL written for a non-empty selection of known, comma-free channels reads back as that selection on the next load |
| ChannelContent.Initialiser.constructor | src/app/channels/components/ChannelContent.tsx:17 | the effect has not run yet |
| ChannelContent.Initialiser.Run | src/app/channels/components/ChannelContent.tsx:25-39 | the first run sets the store to the initial selection when there is one; every later run changes nothing |
| ChannelContent.HandleChannelToggle | src/app/channels/components/ChannelContent.tsx:53-59 | the store's selection is toggled and the URL pushed is the one for that new selection |
| ChannelContent.ChannelKnowledgeSpec | src/app/channels/components/ChannelContent.tsx:62-64 | exactly the records of the selected channels remain, each as often as in the input; no selection leaves no records |
| ChannelContent.RowsOf | src/app/channels/components/ChannelContent.tsx:104-110 | one row per key of the map |
| ChannelContent.AggregatedData | src/app/channels/components/ChannelContent.tsx:67-112 | the fold over the selected records, then the map's entries sorted, gives the roll-up of their mentions |
| ChannelContent.FoldItems | src/app/channels/components/ChannelContent.tsx:77-102 | after the loop over the records the map holds one summary per mentioned coin, keys in first-mention order |
| ChannelContent.FoldItemProjects | src/app/channels/components/ChannelContent.tsx:83-100 | one record's projects, dated by the record, extend the map's summaries |
| ChannelContent.AddProject | src/app/channels/components/ChannelContent.tsx:84-99 | one project keeps the map in step with the mentions folded so far |
| ChannelContent.SetEntry | src/app/channels/components/ChannelContent.tsx:96-99 | writing the coin's updated entry leaves the map holding the summary of every coin after one more mention |
| ChannelContent.NextKeys | src/app/channels/components/ChannelContent.tsx:88-94 | a new coin joins the keys at the end; a known coin leaves them unchanged |
| ChannelContent.NextEntry | src/app/channels/components/ChannelContent.tsx:88-99 | the coin's entry, the earlier one or the zero entry, grows by the project's r-points, categories and one mention |
| ChannelContent.SummaryAbsent | src/app/channels/components/ChannelContent.tsx:88-94 | a coin not yet mentioned has the zero entry |
| ChannelContent.SummaryStep | src/app/channels/components/ChannelContent.tsx:96-99 | one more mention adds its r-points, merges its categories and counts one more mention for its own coin, and changes no other coin |
| ChannelContent.PointsStep | src/app/channels/components/ChannelContent.tsx:97 | one more mention adds its r-points to its own coin only |
| ChannelContent.CategoriesStep | src/app/channels/components/ChannelContent.tsx:98 | one more mention merges its categories into its own coin's set only |
| ChannelContent.MentionsCountStep | src/app/channels/components/ChannelContent.tsx:99 | one more mention counts once for its own coin only |
| ChannelContent.CategoriesOfAbsent | src/app/channels/components/ChannelContent.tsx:91 | a coin not yet mentioned has no categories |
| ChannelContent.RollupStart | src/app/channels/components/ChannelContent.tsx:68-75 | the empty map is the roll-up of no records |
| ChannelContent.RecordStep | src/app/channels/components/ChannelContent.tsx:78-83 | a record with projects adds its projects, dated by the record |
| ChannelContent.SkipStep | src/app/channels/components/ChannelContent.tsx:78 | a record without projects adds nothing |
| ChannelContent.AggregateRows | src/app/channels/components/ChannelContent.tsx:104-111 | a row is in the roll-up exactly when its coin was mentioned and it is that coin's summary |
| ChannelContent.RowsOfMember | src/app/channels/components/ChannelContent.tsx:104-110 | a row is among the unsorted rows exactly when its coin is a key and it is that coin's summary |
| ChannelContent.AggregateUnique | src/app/channels/components/ChannelContent.tsx:104-111 | each coin has one row |
| ChannelContent.AggregateSorted | src/app/channels/components/ChannelContent.tsx:111 | rows come in order of r-points, highest first |
| ChannelContent.AggregateRPoints | src/app/channels/components/ChannelContent.tsx:85-97 | the rows' r-points add up to the r-points of all mentions |
| ChannelContent.AggregateMentions | src/app/channels/components/ChannelContent.tsx:99 | the rows' mention counts add up to the number of mentions |
| ChannelContent.AggregateCategories | src/app/channels/components/ChannelContent.tsx:86-108 | a row's categories are without repetition and are exactly the categories of that coin's mentions |
| ChannelAnalytics.DayMentions | src/app/channels/components/ChannelAnalytics.tsx:45 | each mention keeps its project and takes its record's UTC day as its date |
| ChannelAnalytics.DayMentionsIndex | src/app/channels/components/ChannelAnalytics.tsx:45 | the k-th mention is dated by the day of the k-th record date |
| ChannelAnalytics.Coins | src/app/channels/components/ChannelAnalytics.tsx:51 | one coin name per mention |
| ChannelAnalytics.CoinDeltas | src/app/channels/components/ChannelAnalytics.tsx:60-61 | one coin counter update per mention |
| ChannelAnalytics.DayDeltas | src/app/channels/components/ChannelAnalytics.tsx:64-65 | one day counter update per mention |
| ChannelAnalytics.TableFor | src/app/channels/components/ChannelAnalytics.tsx:76-85 | one `coinCategories` entry per listed coin |
| ChannelAnalytics.TableForIndex | src/app/channels/components/ChannelAnalytics.tsx:76-85 | the i-th entry is the i-th coin with its merged categories |
| ChannelAnalytics.TableIndex | src/app/channels/components/ChannelAnalytics.tsx:76-85 | `coinCategories` lists the categorised coins in first-categorised order, each with its merged categories |
| ChannelAnalytics.IndexOfCoin | src/app/channels/components/ChannelAnalytics.tsx:76-78 | the lookup finds a position holding the coin, or fails exactly when no entry holds it |
| ChannelAnalytics.FoldOfFolded | src/app/channels/components/ChannelAnalytics.tsx:30-94 | the object the fold reaches for some mentions holds each field those mentions determine |
| ChannelAnalytics.FoldedFoldOf | src/app/channels/components/ChannelAnalytics.tsx:30-94 | an object holding each field the mentions determine is the one the fold reaches |
| ChannelAnalytics.NewDataFolded | src/app/channels/components/ChannelAnalytics.tsx:30-41 | the starting object is the fold of no mentions |
| ChannelAnalytics.AddMention | src/app/channels/components/ChannelAnalytics.tsx:50-94 | the body for one project moves every field from its value for the mentions so far to its value with one more mention |
| ChannelAnalytics.AddCoin | src/app/channels/components/ChannelAnalytics.tsx:57 | the coin set stays the distinct coins, in first-mention order |
| ChannelAnalytics.CountCoin | src/app/channels/components/ChannelAnalytics.tsx:60-61 | the coin counter stays the counter of every mention's r-points by coin |
| ChannelAnalytics.CountDay | src/app/channels/components/ChannelAnalytics.tsx:64-65 | the day counter stays the counter of every mention's r-points by day |
| ChannelAnalytics.AddCategoryFields | src/app/channels/components/ChannelAnalytics.tsx:68-86 | the category set, the category counter and `coinCategories` each stay what the mentions determine |
| ChannelAnalytics.AddCategories | src/app/channels/components/ChannelAnalytics.tsx:69-73 | each tag joins the category set and counts once more in the category counter |
| ChannelAnalytics.CategoriesStart | src/app/channels/components/ChannelAnalytics.tsx:69 | before the first tag the set and the counter are unchanged |
| ChannelAnalytics.UniquePrefixStep | src/app/channels/components/ChannelAnalytics.tsx:70 | one more tag joins the set unless it is already there |
| ChannelAnalytics.OnesPrefixStep | src/app/channels/components/ChannelAnalytics.tsx:71-72 | one more tag adds one `+1` update |
| ChannelAnalytics.MergeCoinCategories | src/app/channels/components/ChannelAnalytics.tsx:76-85 | a known coin's entry becomes the duplicate-free union of its categories and the new ones; an unknown coin is appended with a copy of the project's categories |
| ChannelAnalytics.AddTrendPoint | src/app/channels/components/ChannelAnalytics.tsx:89-93 | the coin's trend gains one point for this mention, created empty first when absent |
| ChannelAnalytics.ProcessedData | src/app/channels/components/ChannelAnalytics.tsx:29-119 | the fold and its conversions give the analytics of the records' mentions |
| ChannelAnalytics.FoldRecords | src/app/channels/components/ChannelAnalytics.tsx:43-96 | the loop over the records reaches the fold of every project of every record with projects, dated by its record's day |
| ChannelAnalytics.FoldProjects | src/app/channels/components/ChannelAnalytics.tsx:50-94 | the loop over one record's projects folds them in as mentions on that record's day |
| ChannelAnalytics.DatedPrefix | src/app/channels/components/ChannelAnalytics.tsx:50 | the mentions of a prefix of the projects grow one project at a time |
| ChannelAnalytics.Dated | src/app/channels/components/ChannelAnalytics.tsx:45-50 | one mention per project of the record |
| ChannelAnalytics.DatedItem | src/app/channels/components/ChannelAnalytics.tsx:45-50 | a record's projects dated by its day are its mentions with their dates turned into days |
| ChannelAnalytics.DatedIndex | src/app/channels/components/ChannelAnalytics.tsx:50 | the k-th mention is the k-th project on that day |
| ChannelAnalytics.DayMentionsAppend | src/app/channels/components/ChannelAnalytics.tsx:43-45 | turning dates into days distributes over concatenation |
| ChannelAnalytics.FoldStart | src/app/channels/components/ChannelAnalytics.tsx:30-43 | no records give no mentions, and the starting object is their fold |
| ChannelAnalytics.SeenRecord | src/app/channels/components/ChannelAnalytics.tsx:44-50 | a record with projects adds its projects, dated by its day |
| ChannelAnalytics.SeenSkip | src/app/channels/components/ChannelAnalytics.tsx:44 | a record without projects adds nothing |
| ChannelAnalytics.StepFacts | src/app/channels/components/ChannelAnalytics.tsx:51-65 | one more mention adds its r-points to the total and appends its coin, its tags, its coin update and its day update |
| ChannelAnalytics.TrendsStep | src/app/channels/components/ChannelAnalytics.tsx:89-93 | one more mention appends one point to its own coin's trend and leaves the other trends as they were |
| ChannelAnalytics.TrendOfAbsent | src/app/channels/components/ChannelAnalytics.tsx:89-90 | a coin not mentioned has an empty trend |
| ChannelAnalytics.CategorisedCountZero | src/app/channels/components/ChannelAnalytics.tsx:68 | a coin has no categorised mention exactly when it is not among the categorised coins, and then has no categories |
| ChannelAnalytics.CategorisedStep | src/app/channels/components/ChannelAnalytics.tsx:68-85 | one more mention extends the categorised coins, the coin's categories and its categorised count only when it carries categories |
| ChannelAnalytics.MergedStep | src/app/channels/components/ChannelAnalytics.tsx:76-85 | merging leaves every other coin's categories as they were and gives this coin its first list, or the union of its entry and the new list |
| ChannelAnalytics.UncategorisedStep | src/app/channels/components/ChannelAnalytics.tsx:68 | a project without categories leaves `coinCategories` unchanged |
| ChannelAnalytics.TableForUpdate | src/app/channels/components/ChannelAnalytics.tsx:80-82 | a table whose merged lists change at one key only changes that entry |
| ChannelAnalytics.TableForSame | src/app/channels/components/ChannelAnalytics.tsx:80-82 | a table whose merged lists all agree is unchanged |
| ChannelAnalytics.OthersUnchanged | src/app/channels/components/ChannelAnalytics.tsx:76-85 | one more mention leaves every other coin's merged categories as they were |
| ChannelAnalytics.KnownKeys | src/app/channels/components/ChannelAnalytics.tsx:79-82 | a coin already in `coinCategories` keeps the list of coins as it is |
| ChannelAnalytics.KnownCoinStep | src/app/channels/components/ChannelAnalytics.tsx:79-82 | a known coin's entry, and only it, becomes the union of its categories and the new ones |
| ChannelAnalytics.NewKeys | src/app/channels/components/ChannelAnalytics.tsx:83-85 | a coin not yet in `coinCategories` joins the list of coins at the end |
| ChannelAnalytics.NewCoinStep | src/app/channels/components/ChannelAnalytics.tsx:83-85 | a new coin is appended with the project's categories as they are |
| ChannelAnalytics.TopCoin | src/app/channels/components/ChannelAnalytics.tsx:122-125 | the first coin of the distribution, or `N/A` with value 0 when there is none |
| ChannelAnalytics.SelectedAfterUpdate | src/app/channels/components/ChannelAnalytics.tsx:137-141 | a non-empty distribution moves the selection to its top coin; an empty one keeps it |
| ChannelAnalytics.SkipsRecordWithoutProjects | src/app/channels/components/ChannelAnalytics.tsx:44 | a record without `llm_answer.projects` changes no figure |
| ChannelAnalytics.SingleProjectAsList | src/app/channels/components/ChannelAnalytics.tsx:46-48 | a single project object gives the same figures as a one-element array |
| ChannelAnalytics.CoinsIndex | src/app/channels/components/ChannelAnalytics.tsx:51 | the i-th coin is the i-th mention's coin |
| ChannelAnalytics.CoinDeltasFacts | src/app/channels/components/ChannelAnalytics.tsx:55-61 | the coin updates name the mentioned coins and add up to the total r-points |
| ChannelAnalytics.DayDeltasFacts | src/app/channels/components/ChannelAnalytics.tsx:55-65 | the day updates name each mention's day and add up to the total r-points |
| ChannelAnalytics.CategoryTagsMember | src/app/channels/components/ChannelAnalytics.tsx:69-70 | a tag occurs exactly when some mention carries it |
| ChannelAnalytics.CoinSumIsTrendSum | src/app/channels/components/ChannelAnalytics.tsx:60-61 | a coin's summed r-points are the sum of its trend points |
| ChannelAnalytics.TrendCount | src/app/channels/components/ChannelAnalytics.tsx:92-93 | a coin's trend has one point per mention of the coin |
| ChannelAnalytics.CategoriesOfMember | src/app/channels/components/ChannelAnalytics.tsx:80-84 | a category is among a coin's categories exactly when a mention of that coin carries it |
| ChannelAnalytics.MergedMember | src/app/channels/components/ChannelAnalytics.tsx:80-84 | merging keeps exactly the categories of the coin's mentions |
| ChannelAnalytics.CategorisedCoinsMember | src/app/channels/components/ChannelAnalytics.tsx:68-85 | a coin is categorised exactly when one of its mentions carries categories |
| ChannelAnalytics.TrendOfAppend | src/app/channels/components/ChannelAnalytics.tsx:89-93 | a coin's trend over two runs of mentions is the trend of each, concatenated |
| ChannelAnalytics.CoinKeys | src/app/channels/components/ChannelAnalytics.tsx:60-61 | a coin is a key of the coin counter exactly when it was mentioned |
| ChannelAnalytics.TimelineSpec | src/app/channels/components/ChannelAnalytics.tsx:113-117 | the timeline has one entry per day, earliest day first, each holding that day's sum, adding up to the total |
| ChannelAnalytics.SummaryTotals | src/app/channels/components/ChannelAnalytics.tsx:99-117 | the coin and day distributions each add up to `totalRPoints`, the category counts add up to the number of tags, and `projectDistribution` is the coin distribution |
| ChannelAnalytics.CoinDistributionContents | src/app/channels/components/ChannelAnalytics.tsx:110-112 | one entry per mentioned coin, highest value first, each value the sum of that coin's trend points |
| ChannelAnalytics.CategoryDistributionContents | src/app/channels/components/ChannelAnalytics.tsx:107-109 | one entry per category tag, highest count first, each counting the tag's occurrences |
| ChannelAnalytics.TimelineContents | src/app/channels/components/ChannelAnalytics.tsx:113-117 | one entry per mentioned day, in day order, each holding the r-points of that day |
| ChannelAnalytics.ProjectTrendLookup | src/app/channels/components/ChannelAnalytics.tsx:143-145 | the trend shown for a selection is that coin's points, one per mention; an unknown selection shows none |
| ChannelAnalytics.CoinCategoriesUnique | src/app/channels/components/ChannelAnalytics.tsx:76-85 | `coinCategories` holds at most one entry per coin |
| ChannelAnalytics.CoinCategoriesCoins | src/app/channels/components/ChannelAnalytics.tsx:68-85 | every coin in `coinCategories` has a mention with categories |
| ChannelAnalytics.CoinCategoriesComplete | src/app/channels/components/ChannelAnalytics.tsx:68-85 | every coin with a categorised mention is in `coinCategories` |
| ChannelAnalytics.CoinCategoriesUnion | src/app/channels/components/ChannelAnalytics.tsx:76-85 | an entry holds every category of its coin's mentions and no other |
| ChannelAnalytics.TopCoinIsMaximum | src/app/channels/components/ChannelAnalytics.tsx:122-141 | the top coin is `N/A` exactly when nothing was mentioned; otherwise it is an entry with the highest value and the selection follows it |
| CategoriesPage.TagsOf | src/app/categories/page.tsx:55-56 | a project contributes at most one occurrence per category entry; empty tags are skipped |
| CategoriesPage.TagNames | src/app/categories/page.tsx:55 | one category name per occurrence |
| CategoriesPage.RowsFor | src/app/categories/page.tsx:88-96 | one row per key of the map |
| CategoriesPage.CategoryData | src/app/categories/page.tsx:32-99 | the fold and its conversion give the sorted insight rows, or fail when some record's projects are not an array |
| CategoriesPage.CollectTags | src/app/categories/page.tsx:48-86 | the loop over the records fails exactly when some record's projects are not an array, and otherwise leaves one value per category seen, keys in first-tag order |
| CategoriesPage.InsightRows | src/app/categories/page.tsx:88-98 | the map's entries as rows, filtered and sorted, are the insights of the tags |
| CategoriesPage.FoldProjects | src/app/categories/page.tsx:54-85 | the loop over one record's projects folds in their tags, each marked with the record's recency |
| CategoriesPage.FoldCategories | src/app/categories/page.tsx:55-84 | the loop over one project's categories folds in its non-empty tags |
| CategoriesPage.AddTag | src/app/categories/page.tsx:58-83 | one non-empty tag keeps the map in step with the tags folded so far; a new tag starts from the zero value |
| CategoriesPage.UpdateInfo | src/app/categories/page.tsx:68-83 | one tag adds its coin to the coin set when non-empty, its r-points to the total, one mention, one to its recognised market-cap bucket and one to the recent count when recent |
| CategoriesPage.FoldStart | src/app/categories/page.tsx:33-48 | before any record every record seen has an array of projects and the map is empty |
| CategoriesPage.TagsStep | src/app/categories/page.tsx:48-54 | a record with an array of projects adds the tags of its projects |
| CategoriesPage.ListedStep | src/app/categories/page.tsx:54 | one more record with an array of projects keeps every record seen valid |
| CategoriesPage.ItemTagsStart | src/app/categories/page.tsx:54 | no projects yet add no tags |
| CategoriesPage.ItemTagsNext | src/app/categories/page.tsx:54-55 | the next project adds its own tags |
| CategoriesPage.TagsOfStart | src/app/categories/page.tsx:55 | no categories yet add no tags |
| CategoriesPage.TagsOfNext | src/app/categories/page.tsx:55-56 | the next category adds one tag when it is non-empty and nothing when it is empty |
| CategoriesPage.TagCoinsAbsent | src/app/categories/page.tsx:58-66 | a category not seen has no occurrences |
| CategoriesPage.PreviousInfo | src/app/categories/page.tsx:58-68 | the value a tag updates is the one the earlier tags made for its category, or the zero value |
| CategoriesPage.FilterSnoc | src/app/categories/page.tsx:76-83 | one more element is kept by a filter exactly when it passes |
| CategoriesPage.TagCoinsSnoc | src/app/categories/page.tsx:69-71 | one more tag adds its coin name only when that name is non-empty |
| CategoriesPage.SummaryStep | src/app/categories/page.tsx:68-83 | one more tag updates the value of its own category only |
| CategoriesPage.FieldsBump | src/app/categories/page.tsx:68-83 | the value of one more occurrence is the previous value bumped by it |
| CategoriesPage.CoinsField | src/app/categories/page.tsx:69-71 | one more occurrence bumps the coin set |
| CategoriesPage.RPointsField | src/app/categories/page.tsx:72-73 | one more occurrence bumps the r-point total |
| CategoriesPage.CapsField | src/app/categories/page.tsx:76-81 | one more occurrence bumps the market-cap buckets |
| CategoriesPage.RecentField | src/app/categories/page.tsx:83 | one more occurrence bumps the recent count |
| CategoriesPage.CountSnoc | src/app/categories/page.tsx:76-81 | a bucket counts one more occurrence exactly when its market cap lowers to that bucket |
| CategoriesPage.RecentSnoc | src/app/categories/page.tsx:83 | the recent count grows by one exactly for a recent occurrence |
| CategoriesPage.CoinsBump | src/app/categories/page.tsx:69-71 | adding a coin name to a set keeps it, as a list, the de-duplicated coin names |
| CategoriesPage.TagNamesSnoc | src/app/categories/page.tsx:55 | one more tag appends its category name |
| CategoriesPage.CollectedStep | src/app/categories/page.tsx:58-83 | writing the bumped value back keeps the map in step with one more tag |
| CategoriesPage.StepKeys | src/app/categories/page.tsx:58-66 | a new category joins the keys at the end; a known one leaves them unchanged |
| CategoriesPage.StepDomain | src/app/categories/page.tsx:58-66 | after the update the map has a value for exactly the categories seen |
| CategoriesPage.StepValues | src/app/categories/page.tsx:68-83 | after the update every value is the summary of its category's occurrences |
| CategoriesPage.TagsOfSpec | src/app/categories/page.tsx:55-56 | a project contributes its non-empty tags, in order, each carrying the project and its record's recency |
| CategoriesPage.FieldsBounds | src/app/categories/page.tsx:76-83 | large + medium + small never exceed the mentions, nor does the recent count |
| CategoriesPage.MentionsCount | src/app/categories/page.tsx:74 | a category counts one mention per occurrence of its tag |
| CategoriesPage.TagCoinsMember | src/app/categories/page.tsx:69-71 | a coin is listed exactly when it is a non-empty coin name of some occurrence |
| CategoriesPage.CoinsMember | src/app/categories/page.tsx:69-71 | a category's coins have no repetition and are exactly the non-empty coin names tagged with it |
| CategoriesPage.InsightsRows | src/app/categories/page.tsx:88-98 | a row is in the result exactly when it is the row of a category seen, with a non-empty name and at least one coin |
| CategoriesPage.InsightsKept | src/app/categories/page.tsx:97-98 | sorting keeps exactly the rows the filter kept |
| CategoriesPage.RowsMembers | src/app/categories/page.tsx:88-96 | the unsorted rows are exactly the rows of the categories seen |
| CategoriesPage.InsightsUnique | src/app/categories/page.tsx:88-98 | each category has at most one row |
| CategoriesPage.InsightsSorted | src/app/categories/page.tsx:98 | rows come in order of total r-points, highest first |
| CategoriesPage.TagNamesNonEmpty | src/app/categories/page.tsx:56 | the fold never records an empty tag |
| CategoriesPage.ItemTagsNonEmpty | src/app/categories/page.tsx:56 | no project of a record contributes an empty tag |
| CategoriesPage.TagNamesAppend | src/app/categories/page.tsx:55 | the names of two runs of tags are those of each, concatenated |
| CategoriesPage.FailsOnUnlisted | src/app/categories/page.tsx:54 | a record whose projects are missing or a single object makes the page fail |
| CategoriesPage.RowNames | src/app/categories/page.tsx:103 | one name per row |
| CategoriesPage.RowNamesIndex | src/app/categories/page.tsx:103 | the i-th name is the i-th row's name |
| CategoriesPage.CategoryTypesSpec | src/app/categories/page.tsx:102-106 | the category list has no repetition, is in locale order and names exactly the rows' categories |
| CategoriesPage.FilteredSpec | src/app/categories/page.tsx:109-151 | the shown categories are exactly the rows passing the multi-select and the search, each as often as before, ordered by the chosen key from highest |
| CategoriesPage.NoRestriction | src/app/categories/page.tsx:113-124 | with nothing selected and a search of blanks only, every row is shown |
| CategoriesPage.ToggleSelection | src/app/categories/page.tsx:224-228 | the clicked category's rows pass the multi-select exactly when it was unselected before, other rows keep their verdict, and deselecting the last category lifts the restriction |
| AnalyticsPage.UntilMissing | src/app/analytics/page.tsx:137-138 | the position of the first project without `Rpoints`, where `toString` throws; every project before it has one |
| AnalyticsPage.ProcessedData | src/app/analytics/page.tsx:63-169 | the coin chart is the ten largest `"Total count"` totals; the r-points trend and the top projects are both the five largest r-point totals |
| AnalyticsPage.CoinDistribution | src/app/analytics/page.tsx:65-94 | the `coinMap` loop over the records, then sort and `slice(0, 10)`, gives the ten largest coin totals |
| AnalyticsPage.SameAfterEmpty | src/app/analytics/page.tsx:78 | an element that is not counted adds no update |
| AnalyticsPage.HoldsSnoc | src/app/analytics/page.tsx:79-80 | one more counter update keeps the counter in step with the updates so far |
| AnalyticsPage.CountElements | src/app/analytics/page.tsx:77-82 | the inner loop adds the count of every element with a truthy coin and count, in order |
| AnalyticsPage.ElementStep | src/app/analytics/page.tsx:78-81 | the next element updates the counter exactly when it is counted |
| AnalyticsPage.RPointsTop | src/app/analytics/page.tsx:131-160 | the `rPointsMap` loop over the records, then sort and `slice(0, 5)`, gives the five largest r-point totals |
| AnalyticsPage.CountPoints | src/app/analytics/page.tsx:137-145 | the inner `forEach` adds every numeric `Rpoints` up to the first project without one, where it throws |
| AnalyticsPage.PointStep | src/app/analytics/page.tsx:138-144 | the next project updates the counter exactly when its `Rpoints` is a number |
| AnalyticsPage.ElementDeltasMember | src/app/analytics/page.tsx:77-81 | a coin update is the coin and count of an element with a truthy coin and count, and every such element gives one |
| AnalyticsPage.PointDeltasMember | src/app/analytics/page.tsx:137-144 | an r-point update is the coin and value of a numeric `Rpoints`, and every such project gives one |
| AnalyticsPage.CoinDeltasAppend | src/app/analytics/page.tsx:67-86 | the coin updates of two runs of records are those of each, concatenated |
| AnalyticsPage.RPointsDeltasAppend | src/app/analytics/page.tsx:132-151 | the r-point updates of two runs of records are those of each, concatenated |
| AnalyticsPage.SkippedRecord | src/app/analytics/page.tsx:68-85 | a record without `sorted`, with text that does not parse or with another value changes neither total |
| AnalyticsPage.SkippedCoins | src/app/analytics/page.tsx:75 | a payload that is not an array changes no coin total |
| AnalyticsPage.SkippedPoints | src/app/analytics/page.tsx:136 | a payload without a `projects` list changes no r-point total |
| AnalyticsPage.NeverBoth | src/app/analytics/page.tsx:75-136 | no payload feeds both maps: the first loop reads arrays, the other reads objects with `projects` |
| AnalyticsPage.PayloadCoinDeltasMember | src/app/analytics/page.tsx:75-81 | a record's coin update comes from a counted element of its array |
| AnalyticsPage.CoinDeltasMember | src/app/analytics/page.tsx:67-86 | an update of `coinMap` comes from a counted array element of some record |
| AnalyticsPage.CategoryDistributionSpec | src/app/analytics/page.tsx:91-94 | at most ten coins, names distinct, totals from highest, each total the sum of that coin's counted elements |
| AnalyticsPage.RPointsTrendSpec | src/app/analytics/page.tsx:154-160 | at most five coins, names distinct, totals from highest, each total the sum of that coin's numeric r-points |
| AnalyticsPage.LeftOutIsSmaller | src/app/analytics/page.tsx:91-94 | a coin left out of the ten totals no more than any coin kept |
| CombinedMarketTable.Merged | src/app/analytics/components/CombinedMarketTable.tsx:96-123 | the updater returns either the incoming data or the prior data, never a mixture |
| CombinedMarketTable.MergedKeeps | src/app/analytics/components/CombinedMarketTable.tsx:97-122 | the prior data is kept exactly when every incoming coin is already known with the same price and 24h change, or when the incoming data equals it |
| CombinedMarketTable.MergedIdempotent | src/app/analytics/components/CombinedMarketTable.tsx:96-123 | receiving the same data again changes nothing |
| CombinedMarketTable.MarketTable.constructor | src/app/analytics/components/CombinedMarketTable.tsx:39-63 | no search, the "all" tab, no category, r-points descending, no market data, the menu closed, and the six default columns both pending and shown |
| CombinedMarketTable.MarketTable.ReceiveMarketData | src/app/analytics/components/CombinedMarketTable.tsx:92-124 | a response with data replaces the map through the updater; a response without data leaves it; nothing else changes |
| CombinedMarketTable.MarketTable.SelectAllColumns | src/app/analytics/components/CombinedMarketTable.tsx:165-175 | the pending list becomes all seven columns; the shown list is untouched |
| CombinedMarketTable.MarketTable.DeselectAllColumns | src/app/analytics/components/CombinedMarketTable.tsx:177-179 | the pending list becomes empty; the shown list is untouched |
| CombinedMarketTable.MarketTable.ToggleColumn | src/app/analytics/components/CombinedMarketTable.tsx:186-192 | the pending list gains or loses the column and stays free of repetition; the shown list is untouched |
| CombinedMarketTable.MarketTable.SaveColumns | src/app/analytics/components/CombinedMarketTable.tsx:181-184 | the pending list becomes the shown list and the menu closes |
| CombinedMarketTable.MarketTable.ClickColumnsButton | src/app/analytics/components/CombinedMarketTable.tsx:395-398 | the menu flips and the pending list is reset to the shown list |
| CombinedMarketTable.MarketTable.ClickHeader | src/app/analytics/components/CombinedMarketTable.tsx:472-478 | the clicked column becomes the sort column, ascending only when it already was the sort column in descending order |
| CombinedMarketTable.ClickHeaderTwice | src/app/analytics/components/CombinedMarketTable.tsx:472-478 | clicking the header of the sort column twice restores the order |
| CombinedMarketTable.ToggleColumnTwice | src/app/analytics/components/CombinedMarketTable.tsx:186-192 | toggling an unchecked column twice without saving restores the pending list, and the shown columns do not change |
| CombinedMarketTable.TopCategories | src/app/analytics/components/CombinedMarketTable.tsx:152-163 | the counting loop over the coins' categories, then sort and `slice(0, 10)`, gives the ten most frequent names |
| CombinedMarketTable.CountStart | src/app/analytics/components/CombinedMarketTable.tsx:153 | the new counter holds the counts of no categories |
| CombinedMarketTable.CountCoinStart | src/app/analytics/components/CombinedMarketTable.tsx:155 | before a coin's first category nothing is added |
| CombinedMarketTable.CountStep | src/app/analytics/components/CombinedMarketTable.tsx:156 | one more category counts once more |
| CombinedMarketTable.CountCoinEnd | src/app/analytics/components/CombinedMarketTable.tsx:154-157 | after a coin's categories the counter holds the counts of every coin so far |
| CombinedMarketTable.TopCategoriesSpec | src/app/analytics/components/CombinedMarketTable.tsx:152-163 | at most ten categories, each named once, each a category of some coin, from the most frequent |
| CombinedMarketTable.TopCategoriesAreTop | src/app/analytics/components/CombinedMarketTable.tsx:159-162 | a category left out is no more frequent than any category shown |
| CombinedMarketTable.JoinAll | src/app/analytics/components/CombinedMarketTable.tsx:203-226 | the join makes one row per coin |
| CombinedMarketTable.NftsTabAsWrittenKeepsAll | src/app/analytics/components/CombinedMarketTable.tsx:237-243 | as written, the "nfts" tab keeps every row |
| CombinedMarketTable.NftsTabCounterexample | src/app/analytics/components/CombinedMarketTable.tsx:237-243 | a coin without categories passes the "nfts" tab as written, but not the intended test |
| CombinedMarketTable.MatchesTabAgrees | src/app/analytics/components/CombinedMarketTable.tsx:237-243 | the written and the intended tab tests agree on the "all" and "categories" tabs |
| CombinedMarketTable.NftsTabKeepsNfts | src/app/analytics/components/CombinedMarketTable.tsx:239-240 | the intended "nfts" tab keeps exactly the coins with a category containing "nft" |
| CombinedMarketTable.JoinSpec | src/app/analytics/components/CombinedMarketTable.tsx:203-226 | a row keeps its coin's name, categories and channel; its r-points are the first distribution value under its name, or 0; its market data is the fetched data or the zero placeholder named after the coin |
| CombinedMarketTable.CombinedRows | src/app/analytics/components/CombinedMarketTable.tsx:195-283 | a row is shown exactly when it is the joined row of a coin passing the channel filter and it passes the search and the tab test as written, so on the "nfts" tab every search match is shown |
| CombinedMarketTable.CombinedIntendedRows | src/app/analytics/components/CombinedMarketTable.tsx:195-283 | with the intended tab test, a row is shown exactly when it is a joined row passing the search and that test |
| CombinedMarketTable.IntendedAgreesOffNfts | src/app/analytics/components/CombinedMarketTable.tsx:237-243 | on every tab but "nfts" the intended table is the table as written |
| CombinedMarketTable.PipelineMembers | src/app/analytics/components/CombinedMarketTable.tsx:195-283 | whatever the row test, the table holds exactly the joined rows of the selected coins that pass it |
| CombinedMarketTable.JoinedMembers | src/app/analytics/components/CombinedMarketTable.tsx:197-226 | the joined rows are exactly the joins of the coins passing the channel filter |
| CombinedMarketTable.NoChannelSelected | src/app/analytics/components/CombinedMarketTable.tsx:197-202 | with no channel selected, no coin is dropped before the search |
| CombinedMarketTable.CombinedSorted | src/app/analytics/components/CombinedMarketTable.tsx:247-283 | the rows are ordered by the chosen column in the chosen direction; "rpoints" and "categories" order by r-points |
| CombinedMarketTable.AllTabSearchesName | src/app/analytics/components/CombinedMarketTable.tsx:229-238 | in the "all" tab a row is shown exactly when its coin name contains the search, case-insensitively |
| CoinCategoriesTab.ComparatorTotal | src/app/analytics/components/CoinCategoriesTab.tsx:28-50 | each of the six sort choices orders rows consistently, given a consistent locale order |
| CoinCategoriesTab.TabRows | src/app/analytics/components/CoinCategoriesTab.tsx:19-51 | the tab shows each row passing the search as often as the input holds it, and no other row |
| CoinCategoriesTab.EmptySearchKeepsAll | src/app/analytics/components/CoinCategoriesTab.tsx:20-27 | an empty search keeps every row, so the result is a reordering of the whole input |
| CoinCategoriesTab.SortedByName | src/app/analytics/components/CoinCategoriesTab.tsx:37-40 | sorted by name, ascending or descending under the locale order |
| CoinCategoriesTab.SortedByCategories | src/app/analytics/components/CoinCategoriesTab.tsx:41-44 | sorted by the number of categories, in the chosen direction |
| CoinCategoriesTab.SortedByRPoints | src/app/analytics/components/CoinCategoriesTab.tsx:45-46 | sorted by the r-points looked up in the distribution, in the chosen direction |
| CoinCategoriesTab.RowRPointsSpec | src/app/analytics/components/CoinCategoriesTab.tsx:29-34 | a row's r-points are the first distribution value under its coin name, or 0 when the name is absent |
| CoingeckoRoute.NormaliseSpec | src/app/api/coingecko/route.ts:85 | the normalised name holds only lower-case letters and digits, normalising is idempotent, and such a name is its own normalisation |
| CoingeckoRoute.AlnumIsNormal | src/app/api/coingecko/route.ts:85 | a name made of lower-case letters and digits is left unchanged |
| CoingeckoRoute.ExactIsFuzzy | src/app/api/coingecko/route.ts:116-132 | an exact match (id, ticker or hyphen-free id) is also a substring match |
| CoingeckoRoute.AliasWins | src/app/api/coingecko/route.ts:107-113 | an aliased name whose mapped id is listed resolves to the first coin with that id |
| CoingeckoRoute.ExactWins | src/app/api/coingecko/route.ts:115-122 | without an alias hit, the first exact match wins over any earlier substring match |
| CoingeckoRoute.FuzzyWins | src/app/api/coingecko/route.ts:124-132 | without an alias hit or exact match, the first substring match wins |
| CoingeckoRoute.NoMatch | src/app/api/coingecko/route.ts:81-133 | a name resolves to nothing exactly when no coin has its alias id and no coin matches it as a substring |
| CoingeckoRoute.MatchListed | src/app/api/coingecko/route.ts:81-133 | any match is a coin of the market list |
| CoingeckoRoute.EmptyNameMatchesFirst | src/app/api/coingecko/route.ts:85-132 | a name with no letter or digit always resolves when coins are listed, to the first coin when none has an empty id or ticker |
| CoingeckoRoute.CollectCoinData | src/app/api/coingecko/route.ts:141-155 | the response has an entry exactly for the requested symbols that resolve, each built from that symbol's match and named after the symbol |
| CoingeckoRoute.AnswersStep | src/app/api/coingecko/route.ts:141-155 | one loop step keeps the response map equal to the answers for the symbols seen so far |
| CoingeckoRoute.ToCoinDataSpec | src/app/api/coingecko/route.ts:144-153 | an entry carries the match's id, ticker and prices, is named after the query, and reads a missing supply as 0 |
| CoingeckoRoute.MarketRoute.constructor | src/app/api/coingecko/route.ts:37 | the server starts with no cached market list |
| CoingeckoRoute.MarketRoute.FetchAllMarketData | src/app/api/coingecko/route.ts:39-79 | a good response replaces the cache and is served fresh; a failure leaves the cache alone and serves it stale, or fails when it is empty |
| CoingeckoRoute.MarketRoute.Post | src/app/api/coingecko/route.ts:135-166 | the route answers exactly when a list could be had, marks freshness, and its map covers exactly the symbols that resolve against the list used, each entry built from that symbol's match |
| CoingeckoRoute.FallbackAfterSuccess | src/app/api/coingecko/route.ts:66-76 | after a good response, a failed request serves the same list marked stale and keeps the cache |
| KnowledgeBase.RenderCases | src/components/KnowledgeBase.tsx:14-52 | the table is shown exactly when `projects` is an array, with one row per project; otherwise the error message (lines 122-124) |
| KnowledgeBase.Top3Spec | src/components/KnowledgeBase.tsx:18-21 | at most three projects, all when fewer, drawn from the list, by non-increasing r-points, none left out above one kept |
| KnowledgeBase.Top3Kept | src/components/KnowledgeBase.tsx:19-21 | the top three are a sub-multiset of the projects |
| KnowledgeBase.Top3Ordered | src/components/KnowledgeBase.tsx:19-21 | the top three are by non-increasing r-points |
| KnowledgeBase.LeftOutBelow | src/components/KnowledgeBase.tsx:19-21 | a project left out of the top three has no more r-points than any project kept |
| KnowledgeBase.RowsSpec | src/components/KnowledgeBase.tsx:47-52 | the table rows are a reordering of the projects by non-increasing r-points, each highlighted exactly when its coin name is a top-three name |
| KnowledgeBase.RowsOrdered | src/components/KnowledgeBase.tsx:47-48 | the rows are by non-increasing r-points |
| KnowledgeBase.LeadingRowsHighlighted | src/components/KnowledgeBase.tsx:47-52 | the first three rows are highlighted |
| KnowledgeBase.PlainRowsAfterTop | src/components/KnowledgeBase.tsx:47-60 | a row that is not highlighted lies past the first three |
| KnowledgeBase.PlaceholderShown | src/components/KnowledgeBase.tsx:234-257 | an opened id no record has shows the placeholder record, rendered as one highlighted empty row |
| KnowledgeBase.MatchShown | src/components/KnowledgeBase.tsx:236-237 | an opened id some record has shows the first record with that id |
| KnowledgeBase.NoModal | src/components/KnowledgeBase.tsx:234 | no modal is shown exactly when no card is opened (null or empty id) |
| KnowledgePage.DateFilterRoundTrip | src/app/knowledge/page.tsx:43-45 | the five date-window names read back as their windows, and only those names are adopted |
| KnowledgePage.SortRoundTrip | src/app/knowledge/page.tsx:46-48 | the three sort names read back as their orders, and only those names are adopted |
| KnowledgePage.Digits | src/app/knowledge/page.tsx:88 | a natural number's decimal text is never empty |
| KnowledgePage.Decimal | src/app/knowledge/page.tsx:88 | a page number's text is never empty, so a page other than 1 is always written to the URL as a truthy value |
| KnowledgePage.Adopted | src/app/knowledge/page.tsx:34-49 | a search, channel or page parameter that is absent or empty leaves its filter as it was |
| KnowledgePage.AdoptedOnlyValid | src/app/knowledge/page.tsx:43-48 | the date window or sort order changes only to the value a valid parameter names; an invalid one is ignored |
| KnowledgePage.InitFromUrl | src/app/knowledge/page.tsx:34-49 | the first-load effect leaves the store holding the filters adopted from the URL |
| KnowledgePage.SyncUrl | src/app/knowledge/page.tsx:60-91 | the syncing effect writes the URL that sets or deletes each of the five parameters in turn |
| KnowledgePage.SyncedSpec | src/app/knowledge/page.tsx:63-91 | each filter at its default is absent from the URL and any other is present with its value |
| KnowledgePage.SyncedKeeps | src/app/knowledge/page.tsx:61-91 | every other URL parameter is kept unchanged |
| KnowledgePage.SyncedSteps | src/app/knowledge/page.tsx:63-91 | each of the five steps sets or deletes its own key and keeps every other |
| KnowledgePage.SetOrDeleteSpec | src/app/knowledge/page.tsx:63-67 | one set-or-delete step changes only its key: present with the value when set, absent when deleted |
| KnowledgePage.UrlRoundTrip | src/app/knowledge/page.tsx:34-91 | loading the URL the filters wrote, starting from the defaults, restores exactly those filters when the page number reads back and the channel is not empty |
| KnowledgePage.Labels | src/app/knowledge/page.tsx:110 | one channel label per record |
| KnowledgePage.LabelsIndex | src/app/knowledge/page.tsx:110 | each label is its record's channel name, or "Unknown" when that is empty |
| KnowledgePage.ChannelsSpec | src/app/knowledge/page.tsx:108-111 | the dropdown lists every record's label exactly once, in increasing order, and never the empty string |
| KnowledgePage.ComparatorTotal | src/app/knowledge/page.tsx:153-164 | each of the three sort orders is consistent, given a consistent locale order |
| KnowledgePage.ItemsRows | src/app/knowledge/page.tsx:114-164 | the list holds each record passing the search, the channel test on the raw channel name, and the date test, as often as the input does, and no other record |
| KnowledgePage.IntendedItemsRows | src/app/knowledge/page.tsx:114-164 | with the channel test on the label, the list holds each record passing the three tests as often as the input does, and no other |
| KnowledgePage.IntendedAgreesWhenNamed | src/app/knowledge/page.tsx:119-120 | when every record has a channel name, the list with the label test is the list as written |
| KnowledgePage.DefaultsPassAll | src/app/knowledge/page.tsx:114-152 | with the default filters every record passes |
| KnowledgePage.SortedByDate | src/app/knowledge/page.tsx:154-156 | sorted by date, newest first |
| KnowledgePage.SortedByTitle | src/app/knowledge/page.tsx:157-159 | sorted by title under the locale order |
| KnowledgePage.SortedByChannel | src/app/knowledge/page.tsx:160-163 | sorted by channel label under the locale order |
| KnowledgePage.UnknownChannelCounterexample | src/app/knowledge/page.tsx:109-120 | a record without a channel name is offered as "Unknown" in the dropdown, yet the list as written drops it when "Unknown" is chosen, while the list with the label test keeps it |
| KnowledgePage.MatchesChannelAgrees | src/app/knowledge/page.tsx:119-120 | the label test and the test as written agree on every record that has a channel name |
| KnowledgePage.PageCount | src/app/knowledge/page.tsx:171 | the page count is the least number of nine-record pages that hold all records |
| KnowledgePage.PageItemsSpec | src/app/knowledge/page.tsx:373-376 | page p shows the records from position 9(p-1) on, nine of them or the rest on the last page |
| KnowledgePage.OnItsPage | src/app/knowledge/page.tsx:373-376 | every record appears on exactly the page its position gives, which is a page of the count |
| KnowledgePage.PrevPage | src/app/knowledge/page.tsx:167 | the previous page is one less, but never below 1 |
| KnowledgePage.NextPage | src/app/knowledge/page.tsx:168-174 | the next page is one more, but never beyond the page count |
| KnowledgePage.HandlePrevPage | src/app/knowledge/page.tsx:167 | the store moves to the previous page and keeps its other filters |
| KnowledgePage.HandleNextPage | src/app/knowledge/page.tsx:168-174 | the store moves to the next page, capped by the count for the listed records, and keeps its other filters |

Where the code and its documented intent differ, the model follows the code.
A coin's entry in the channel analytics `coinCategories` table starts as a
copy of its first categorised mention's list, duplicates included; only the
later merges de-duplicate (`ChannelAnalytics.MergedCategories`). The next-page
handler of the knowledge list gives page 0 when no record is listed
(`KnowledgePage.NextPage`), as the code's `Math.min` does; the button is only
rendered for more than nine records. The combined market table
(`CombinedMarketTable.CombinedData`) and the knowledge list
(`KnowledgePage.FilteredAndSorted`) are modelled with the filters as written;
their corrected twins (`CombinedDataIntended`, `FilteredAndSortedIntended`)
belong to the findings below.

## Left out

- Network, persistence and HTTP: the CoinGecko request, `fetch` and axios calls, Supabase, and the request body of `POST`. Each enters as the outcome value it produces (`CoingeckoRoute.FetchOutcome`, the market map and the knowledge list).
- Timers and polling (`setInterval`, the staleness test), mount flags, localStorage, toasts, logging, rendering, layout, animation and charts. They are plumbing or presentation.
- Floating point. r-points, counts, prices and market figures are mathematical integers. `Math.round(x * 100) / 100` (categories page line 92, analytics page lines 159 and 168) is the identity on them, and `toFixed`/`formatNumber` formatting is not modelled.
- The market-cap chart of the legacy analytics page (`parseFloat` with B/M/K suffixes, analytics/page.tsx:104-115). It is float parsing feeding a chart only.
- `Date` parsing, `toISOString` day bucketing, `Date.now`, and the start of the today/week/month/year windows. These are function parameters (`time`, `dayOf`, `dayTime`, `start`, `isRecent`; the route timestamp `now`), so calendar arithmetic is not modelled.
- `localeCompare`. It is a parameter assumed to be a total preorder. The results of a comparator that is not one are not modelled.
- `JSON.parse` of `sorted`. It is abstracted to the `AnalyticsPage.Payload` shapes it can yield.
- `URLSearchParams` and `router.push`. The parameters are a map from name to value, so their order in the query string and a name repeated in the URL are not modelled.
- Sort stability. Every sort is proved to yield a permutation of its input in the requested order. That equal elements keep their input order is not stated.
- In-place updates of map entries (`existingCoin.categories = ...`, counters bumped on objects inside a `Map`). The model updates values, since no entry object is shared between two keys.
- `Text.ToLower`: exact on ASCII letters and on the two non-ASCII characters whose lower case contains ASCII letters. Other Unicode case mappings are not modelled.
- CategoriesPage: the `typeof category !== "string"` test (page.tsx:56) is not modelled, because tags are typed as strings. Only the empty-tag test is kept.
- CategoriesPage: `Number(project.rpoints) || 0` reads a missing or zero value as 0. A value that is a non-numeric string is not representable.
- KnowledgeBase: a project without r-points sorts as 0. In the source, `b.rpoints - a.rpoints` is then NaN and the order is left to the engine.
- KnowledgePage: `Number(page)` is the parameter `toNumber`. `UrlRoundTrip` therefore requires that it reads back the decimal text the sync wrote.
- KnowledgePage: `toNumber` yields an integer, so a `page` parameter that is not a number, which `Number` reads as NaN and stores as the current page, is not modelled.
- ChannelAnalytics: `new Date(item.date).toISOString()` (ChannelAnalytics.tsx:45) throws on an invalid date and aborts the analysis; the parameter `dayOf` is total, so that exception is not modelled.
- Text.CodeUnitLe: compares characters by Unicode scalar value, while the default `sort()` compares UTF-16 code units. The two orders differ only between a character above U+FFFF and one in U+E000-U+FFFF.
- The display-only pages, the FAQ and knowledge API routes, the autofetch webhook, zustand `persist`, and `cn`/`twMerge`. They are outside the dashboard's computing core.

## Findings

| source | as written | input that shows it | evidently intended | confidence | as-written member | corrected member |
|---|---|---|---|---|---|---|
| src/app/analytics/components/CombinedMarketTable.tsx:237-243 | the last disjunct of `matchesTab` is `(activeTab === "categories" && selectedCategory ? ... : true)`, which is true on every tab other than "categories", so the "nfts" tab keeps every row | on the "nfts" tab, a coin whose category list is empty | the "nfts" tab keeps only coins with a category containing "nft" | not executed | CombinedMarketTable.NftsTabCounterexample | CombinedMarketTable.CombinedIntendedRows |
| src/app/knowledge/page.tsx:109-120 | the dropdown lists a record without a channel name as "Unknown", but the filter compares the raw `item["channel name"]` with the chosen value | the only record has an empty channel name, and "Unknown" is chosen | choosing "Unknown" lists the records shown under that label | not executed | KnowledgePage.UnknownChannelCounterexample | KnowledgePage.IntendedItemsRows |
