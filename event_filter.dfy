/**
 * The event record (types/event.ts) and the client-side filter the event list
 * applies whenever the search text, the selected category or the loaded
 * events change (app/events/index.tsx).
 */
module EventFilter {
  import opened Text
  import opened Subsequences

  datatype Event = Event(
    id: string,
    title: string,
    description: string,
    date: string,
    time: string,
    location: string,
    venue: string,
    category: string,
    price: real,
    image: string,
    organizer: string,
    availableTickets: int,
    createdAt: string,
    updatedAt: string)

  /** The category that disables category filtering. */
  const AllCategories: string := "All"

  /** The title or the location contains the query, ignoring case. */
  predicate MatchesSearch(e: Event, query: string)
  {
    Includes(Lower(e.title), Lower(query)) || Includes(Lower(e.location), Lower(query))
  }

  predicate MatchesCategory(e: Event, category: string)
  {
    category == AllCategories || e.category == category
  }

  predicate Matches(e: Event, query: string, category: string)
  {
    MatchesSearch(e, query) && MatchesCategory(e, category)
  }

  /** `events.filter(...)`: the matching events, in their original order. */
  function FilterEvents(events: seq<Event>, query: string, category: string): (r: seq<Event>)
    ensures |r| <= |events|
  {
    if events == [] then []
    else if Matches(events[0], query, category) then [events[0]] + FilterEvents(events[1..], query, category)
    else FilterEvents(events[1..], query, category)
  }

  /** An event is kept iff it was loaded and matches both the search and the category. */
  lemma {:induction false} FilterKeepsExactlyMatches(events: seq<Event>, query: string, category: string, e: Event)
    ensures e in FilterEvents(events, query, category) <==> e in events && Matches(e, query, category)
    decreases |events|
  {
    if events != [] {
      FilterKeepsExactlyMatches(events[1..], query, category, e);
      assert e in events <==> e == events[0] || e in events[1..];
    }
  }

  /** The filtered list is an order-preserving subsequence of the loaded one. */
  lemma {:induction false} FilterIsSubsequence(events: seq<Event>, query: string, category: string)
    ensures IsSubsequence(FilterEvents(events, query, category), events)
    decreases |events|
  {
    if events != [] {
      FilterIsSubsequence(events[1..], query, category);
    }
  }

  /** The match on title and location, spelled out as occurrences of the lower-cased query. */
  lemma SearchMatchIff(e: Event, query: string)
    ensures MatchesSearch(e, query) <==>
      Occurs(Lower(e.title), Lower(query)) || Occurs(Lower(e.location), Lower(query))
  {
    var q, t, l := Lower(query), Lower(e.title), Lower(e.location);
    IncludesIff(t, q);
    IncludesIff(l, q);
    assert MatchesSearch(e, query) == (Includes(t, q) || Includes(l, q));
  }

  /** The search ignores the case of the query. */
  lemma SearchIgnoresQueryCase(e: Event, query: string, category: string)
    ensures Matches(e, query, category) <==> Matches(e, Lower(query), category)
  {
    LowerIdempotent(query);
  }

  /** With an empty query and category 'All', every event is kept, in order. */
  lemma {:induction false} UnfilteredKeepsAll(events: seq<Event>)
    ensures FilterEvents(events, "", AllCategories) == events
    decreases |events|
  {
    if events != [] {
      IncludesEmpty(Lower(events[0].title));
      assert Matches(events[0], "", AllCategories);
      UnfilteredKeepsAll(events[1..]);
      assert [events[0]] + events[1..] == events;
    }
  }

  /** Filtering a concatenation filters each part. */
  lemma {:induction false} FilterAppend(a: seq<Event>, b: seq<Event>, query: string, category: string)
    ensures FilterEvents(a + b, query, category) == FilterEvents(a, query, category) + FilterEvents(b, query, category)
    decreases |a|
  {
    if a == [] {
      assert a + b == b;
    } else {
      assert (a + b)[0] == a[0] && (a + b)[1..] == a[1..] + b;
      FilterAppend(a[1..], b, query, category);
    }
  }
}
