/** The filter store of the knowledge page (`useKnowledgeStore`): five
    fields, each overwritten by its own setter. */
module KnowledgeStore {

  /** `"all" | "today" | "week" | "month" | "year"`. */
  datatype DateFilter = AllDates | Today | Week | Month | Year

  /** `"date" | "title" | "channel"`. */
  datatype SortKey = ByDate | ByTitle | ByChannel

  /** The five filter fields as one value. */
  datatype Filters = Filters(searchTerm: string, filterChannel: string, dateFilter: DateFilter, sortBy: SortKey, currentPage: int)

  const Defaults := Filters("", "all", AllDates, ByDate, 1)

  class Store {
    var searchTerm: string
    var filterChannel: string
    var dateFilter: DateFilter
    var sortBy: SortKey
    var currentPage: int

    function State(): Filters
      reads this
    {
      Filters(searchTerm, filterChannel, dateFilter, sortBy, currentPage)
    }

    /** The defaults: no search, every channel, every date, newest first,
        first page. */
    constructor ()
      ensures searchTerm == "" && filterChannel == "all" && dateFilter == AllDates
      ensures sortBy == ByDate && currentPage == 1
      ensures State() == Defaults
    {
      searchTerm := "";
      filterChannel := "all";
      dateFilter := AllDates;
      sortBy := ByDate;
      currentPage := 1;
    }

    method SetSearchTerm(term: string)
      modifies this
      ensures searchTerm == term
      ensures filterChannel == old(filterChannel) && dateFilter == old(dateFilter)
      ensures sortBy == old(sortBy) && currentPage == old(currentPage)
    {
      searchTerm := term;
    }

    method SetFilterChannel(channel: string)
      modifies this
      ensures filterChannel == channel
      ensures searchTerm == old(searchTerm) && dateFilter == old(dateFilter)
      ensures sortBy == old(sortBy) && currentPage == old(currentPage)
    {
      filterChannel := channel;
    }

    method SetDateFilter(filter: DateFilter)
      modifies this
      ensures dateFilter == filter
      ensures searchTerm == old(searchTerm) && filterChannel == old(filterChannel)
      ensures sortBy == old(sortBy) && currentPage == old(currentPage)
    {
      dateFilter := filter;
    }

    method SetSortBy(sort: SortKey)
      modifies this
      ensures sortBy == sort
      ensures searchTerm == old(searchTerm) && filterChannel == old(filterChannel)
      ensures dateFilter == old(dateFilter) && currentPage == old(currentPage)
    {
      sortBy := sort;
    }

    method SetCurrentPage(page: int)
      modifies this
      ensures currentPage == page
      ensures searchTerm == old(searchTerm) && filterChannel == old(filterChannel)
      ensures dateFilter == old(dateFilter) && sortBy == old(sortBy)
    {
      currentPage := page;
    }
  }
}
