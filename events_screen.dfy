/**
 * The event list screen (app/events/index.tsx): its state, the paged loads
 * that fill it, the category and search handlers, infinite scrolling and the
 * client-side filter effect. Each handler is one step; the server's answer to
 * the request it issues is a parameter, and the request itself is returned.
 */
module Events {
  import opened Wrappers
  import opened Text
  import opened Subsequences
  import opened EventFilter
  import Api

  /** The page size the screen asks for; a shorter page means the list is exhausted. */
  const PageSize: int := 10

  /** The body of a `GET /events` answer: `data.events`. */
  datatype EventPage = EventPage(events: seq<Event>)

  /** The `filters` object handed to `getAllEvents`. */
  datatype PageFilters = PageFilters(page: int, limit: int, category: Option<string>)

  /** The request a handler issues. */
  datatype EventRequest = GetAllEvents(filters: PageFilters) | SearchEvents(query: string)

  /** The list part of the screen's state, the part a load replaces. */
  datatype ListState = ListState(events: seq<Event>, filteredEvents: seq<Event>, hasMore: bool)

  /** The filters `loadEvents` builds: always page and limit, a category only when one is chosen. */
  function PageRequest(pageNum: int, category: string): (f: PageFilters)
    ensures f.page == pageNum && f.limit == PageSize
    ensures f.category.Some? <==> category != AllCategories
    ensures f.category.Some? ==> f.category.value == category
  {
    PageFilters(pageNum, PageSize, if category != AllCategories then Some(category) else None)
  }

  /** The list state once a load of page `pageNum` has settled with `response`. */
  function AfterLoad(s: ListState, pageNum: int, response: Result<EventPage, Api.HttpError>): ListState
  {
    match response
    case Failure(_) => s
    case Success(data) =>
      if pageNum == 1 then ListState(data.events, data.events, |data.events| == PageSize)
      else ListState(s.events + data.events, s.filteredEvents + data.events, |data.events| == PageSize)
  }

  /** A failed load changes nothing; a successful one sets `hasMore` exactly when the page was full. */
  lemma LoadSetsHasMore(s: ListState, pageNum: int, response: Result<EventPage, Api.HttpError>)
    ensures response.Failure? ==> AfterLoad(s, pageNum, response) == s
    ensures response.Success? ==>
      (AfterLoad(s, pageNum, response).hasMore <==> |response.value.events| == PageSize)
  {
  }

  /** Page 1 replaces the list; any other page keeps the old list as a prefix and adds the page after it. */
  lemma LoadReplacesOrAppends(s: ListState, pageNum: int, data: EventPage)
    ensures var t := AfterLoad(s, pageNum, Success(data));
      if pageNum == 1 then t.events == data.events && t.filteredEvents == data.events
      else
        && |t.events| == |s.events| + |data.events|
        && t.events[..|s.events|] == s.events && t.events[|s.events|..] == data.events
        && t.filteredEvents[..|s.filteredEvents|] == s.filteredEvents
        && t.filteredEvents[|s.filteredEvents|..] == data.events
  {
  }

  /** A load keeps the shown list an order-preserving subsequence of the loaded one. */
  lemma LoadKeepsFilteredInside(s: ListState, pageNum: int, response: Result<EventPage, Api.HttpError>)
    requires IsSubsequence(s.filteredEvents, s.events)
    ensures IsSubsequence(AfterLoad(s, pageNum, response).filteredEvents, AfterLoad(s, pageNum, response).events)
  {
    if response.Success? {
      if pageNum == 1 {
        SubsequenceReflexive(response.value.events);
      } else {
        SubsequenceAppend(s.filteredEvents, s.events, response.value.events);
      }
    }
  }

  class EventsScreen {
    var events: seq<Event>
    var filteredEvents: seq<Event>
    var loading: bool
    var searchQuery: string
    var selectedCategory: string
    var page: int
    var hasMore: bool

    /** The shown list is drawn from the loaded one, in order; pages count from 1. */
    ghost predicate Valid()
      reads this
    {
      page >= 1 && IsSubsequence(filteredEvents, events)
    }

    function List(): ListState
      reads this
    {
      ListState(events, filteredEvents, hasMore)
    }

    /** The initial `useState` values. */
    constructor ()
      ensures Valid()
      ensures events == [] && filteredEvents == [] && loading
      ensures searchQuery == "" && selectedCategory == AllCategories
      ensures page == 1 && hasMore
    {
      events, filteredEvents := [], [];
      loading := true;
      searchQuery, selectedCategory := "", AllCategories;
      page, hasMore := 1, true;
    }

    /** `loadEvents(pageNum, category)`: ask for one page, merge it, and clear `loading` on every path. */
    method LoadEvents(pageNum: int, category: string, response: Result<EventPage, Api.HttpError>)
      returns (request: EventRequest)
      requires Valid()
      modifies this`events, this`filteredEvents, this`hasMore, this`loading
      ensures Valid()
      ensures request == GetAllEvents(PageRequest(pageNum, category))
      ensures List() == AfterLoad(old(List()), pageNum, response)
      ensures !loading
    {
      request := GetAllEvents(PageRequest(pageNum, category));
      LoadKeepsFilteredInside(List(), pageNum, response);
      match response {
        case Success(data) =>
          if pageNum == 1 {
            events := data.events;
            filteredEvents := data.events;
          } else {
            events := events + data.events;
            filteredEvents := filteredEvents + data.events;
          }
          hasMore := |data.events| == PageSize;
        case Failure(_) =>
      }
      loading := false;
    }

    /** The mount effect: load the first page for the selected category. */
    method Mount(response: Result<EventPage, Api.HttpError>) returns (request: EventRequest)
      requires Valid()
      modifies this`events, this`filteredEvents, this`hasMore, this`loading
      ensures Valid()
      ensures request == GetAllEvents(PageRequest(1, selectedCategory))
      ensures List() == AfterLoad(old(List()), 1, response)
      ensures !loading
    {
      request := LoadEvents(1, selectedCategory, response);
    }

    /**
     * The filter effect, run whenever `searchQuery`, `selectedCategory` or
     * `events` has changed: the shown list becomes the matching events.
     */
    method ApplyFilter()
      requires Valid()
      modifies this`filteredEvents
      ensures Valid()
      ensures filteredEvents == FilterEvents(events, searchQuery, selectedCategory)
    {
      filteredEvents := FilterEvents(events, searchQuery, selectedCategory);
      FilterIsSubsequence(events, searchQuery, selectedCategory);
    }

    /** Typing in the search box: the query changes and the filter effect follows. */
    method ChangeSearchText(query: string)
      requires Valid()
      modifies this`searchQuery, this`filteredEvents
      ensures Valid()
      ensures searchQuery == query
      ensures filteredEvents == FilterEvents(events, query, selectedCategory)
    {
      searchQuery := query;
      ApplyFilter();
    }

    /** `handleCategoryChange`: select the category, restart at page 1 and reload it. */
    method HandleCategoryChange(category: string, response: Result<EventPage, Api.HttpError>)
      returns (request: EventRequest)
      requires Valid()
      modifies this
      ensures Valid()
      ensures selectedCategory == category && page == 1 && !loading
      ensures request == GetAllEvents(PageRequest(1, category))
      ensures List() == AfterLoad(old(List()), 1, response)
      ensures searchQuery == old(searchQuery)
    {
      selectedCategory := category;
      loading := true;
      page := 1;
      request := LoadEvents(1, category, response);
    }

    /**
     * `handleSearch`: a blank query reloads page 1; otherwise the query, as
     * typed, goes to the search endpoint and its answer replaces both lists.
     * The search path leaves `page`, `hasMore` and `loading` alone.
     */
    method HandleSearch(pageResponse: Result<EventPage, Api.HttpError>, searchResponse: Result<seq<Event>, Api.HttpError>)
      returns (request: EventRequest)
      requires Valid()
      modifies this`events, this`filteredEvents, this`hasMore, this`loading
      ensures Valid()
      ensures IsBlank(searchQuery) ==>
        && request == GetAllEvents(PageRequest(1, selectedCategory))
        && List() == AfterLoad(old(List()), 1, pageResponse)
        && !loading
      ensures !IsBlank(searchQuery) ==>
        && request == SearchEvents(searchQuery)
        && hasMore == old(hasMore) && loading == old(loading)
        && (searchResponse.Success? ==> events == searchResponse.value && filteredEvents == searchResponse.value)
        && (searchResponse.Failure? ==> events == old(events) && filteredEvents == old(filteredEvents))
    {
      var trimmed := Trim(searchQuery);
      TrimEmptyIffBlank(searchQuery);
      if trimmed == "" {
        request := LoadEvents(1, selectedCategory, pageResponse);
      } else {
        request := SearchEvents(searchQuery);
        ShowSearchResults(searchResponse);
      }
    }

    /** The search path of `handleSearch`: a successful answer replaces both lists, a failure keeps them. */
    method ShowSearchResults(searchResponse: Result<seq<Event>, Api.HttpError>)
      requires Valid()
      modifies this`events, this`filteredEvents
      ensures Valid()
      ensures searchResponse.Success? ==> events == searchResponse.value && filteredEvents == searchResponse.value
      ensures searchResponse.Failure? ==> events == old(events) && filteredEvents == old(filteredEvents)
    {
      if searchResponse.Success? {
        events := searchResponse.value;
        filteredEvents := searchResponse.value;
        SubsequenceReflexive(events);
      }
    }

    /** `loadMore`: only when more pages exist and nothing is loading, advance one page and load it. */
    method LoadMore(response: Result<EventPage, Api.HttpError>) returns (request: Option<EventRequest>)
      requires Valid()
      modifies this`page, this`events, this`filteredEvents, this`hasMore, this`loading
      ensures Valid()
      ensures !(old(hasMore) && !old(loading)) ==>
        request == None && page == old(page) && List() == old(List()) && loading == old(loading)
      ensures old(hasMore) && !old(loading) ==>
        && page == old(page) + 1
        && request == Some(GetAllEvents(PageRequest(old(page) + 1, selectedCategory)))
        && List() == AfterLoad(old(List()), old(page) + 1, response)
        && !loading
    {
      if hasMore && !loading {
        var nextPage := page + 1;
        page := nextPage;
        var issued := LoadEvents(nextPage, selectedCategory, response);
        request := Some(issued);
      } else {
        request := None;
      }
    }
  }
}
