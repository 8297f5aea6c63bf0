/**
 * The attendee dashboard: the events the attendee has RSVP'd to ("My
 * Events"), the other events ("Discover Events"), the search box over the
 * latter, the status partition of the former and the card buttons.
 */
module AttendeeDashboard {
  import opened Seqs
  import opened Text
  import opened EventStatus
  import opened BrowserState

  datatype Event = Event(
    id: string,
    title: string,
    description: string,
    date: string,
    location: string,
    status: Status,
    isRSVPed: bool,
    isCheckedIn: bool)

  /** `events.some((e) => e._id === id)`. */
  predicate HasId(events: seq<Event>, id: string)
  {
    exists i :: 0 <= i < |events| && events[i].id == id
  }

  /** No event of `discover` shares an id with an event of `mine`: nothing is listed twice. */
  ghost predicate Separated(mine: seq<Event>, discover: seq<Event>)
  {
    forall i :: 0 <= i < |discover| ==> !HasId(mine, discover[i].id)
  }

  // ---------------------------------------------------------------- fetching

  /**
   * The "Discover" list built from the fetched list of all events: every
   * event whose id is already among the RSVP'd events is dropped, the rest
   * keep their order.
   */
  function Discover(fetched: seq<Event>, mine: seq<Event>): (r: seq<Event>)
    ensures Separated(mine, r)
    ensures forall e :: e in r <==> e in fetched && !HasId(mine, e.id)
    ensures forall e :: multiset(r)[e] == if HasId(mine, e.id) then 0 else multiset(fetched)[e]
    ensures IsSubseq(r, fetched)
  {
    Filter(fetched, (e: Event) => !HasId(mine, e.id))
  }

  // -------------------------------------------------------------------- RSVP

  /** `events.findIndex((e) => e._id === id)`: the first index holding `id`, or -1. */
  function FindIndex(events: seq<Event>, id: string): (k: int)
    ensures -1 <= k < |events|
    ensures k == -1 <==> !HasId(events, id)
    ensures k >= 0 ==> events[k].id == id && forall j :: 0 <= j < k ==> events[j].id != id
  {
    if events == [] then -1
    else if events[0].id == id then 0
    else
      var k := FindIndex(events[1..], id);
      assert forall j :: 0 < j < |events| ==> events[j] == events[1..][j - 1];
      if k == -1 then -1 else k + 1
  }

  /** `events.filter((e) => e._id !== id)`. */
  function WithoutId(events: seq<Event>, id: string): (r: seq<Event>)
    ensures !HasId(r, id)
    ensures forall e :: e in r <==> e in events && e.id != id
    ensures forall e :: multiset(r)[e] == if e.id == id then 0 else multiset(events)[e]
    ensures IsSubseq(r, events)
  {
    Filter(events, (e: Event) => e.id != id)
  }

  /** The two lists of the page. */
  datatype Lists = Lists(mine: seq<Event>, discover: seq<Event>)

  /**
   * What a successful RSVP does to the lists: the first discover event with
   * the id, marked RSVP'd, is appended once to `mine`, and every event with
   * that id leaves `discover`. An id that is not in `discover` changes
   * nothing.
   */
  function RsvpMove(mine: seq<Event>, discover: seq<Event>, id: string): (r: Lists)
    ensures !HasId(discover, id) ==> r == Lists(mine, discover)
    ensures HasId(discover, id) ==>
      && |r.mine| == |mine| + 1
      && r.mine[..|mine|] == mine
      && r.mine[|mine|].id == id
      && r.mine[|mine|].isRSVPed
      && r.mine[|mine|] == discover[FindIndex(discover, id)].(isRSVPed := true)
    ensures HasId(discover, id) ==>
      && !HasId(r.discover, id)
      && (forall e :: e in r.discover <==> e in discover && e.id != id)
      && (forall e :: multiset(r.discover)[e] == if e.id == id then 0 else multiset(discover)[e])
      && IsSubseq(r.discover, discover)
  {
    var k := FindIndex(discover, id);
    if k == -1 then Lists(mine, discover)
    else
      var moved := mine + [discover[k].(isRSVPed := true)];
      assert moved[..|mine|] == mine;
      Lists(moved, WithoutId(discover, id))
  }

  /** An RSVP keeps the two lists separated: the moved event cannot show up in both. */
  lemma RsvpKeepsSeparated(mine: seq<Event>, discover: seq<Event>, id: string)
    requires Separated(mine, discover)
    ensures Separated(RsvpMove(mine, discover, id).mine, RsvpMove(mine, discover, id).discover)
  {
    var r := RsvpMove(mine, discover, id);
    if HasId(discover, id) {
      forall i | 0 <= i < |r.discover|
        ensures !HasId(r.mine, r.discover[i].id)
      {
        var e := r.discover[i];
        assert e in discover && e.id != id;
        var j :| 0 <= j < |discover| && discover[j] == e;
        assert !HasId(mine, e.id);
        forall m | 0 <= m < |r.mine|
          ensures r.mine[m].id != e.id
        {
          if m < |mine| {
            assert r.mine[m] == r.mine[..|mine|][m] == mine[m];
          }
        }
      }
    }
  }

  // ------------------------------------------------------------------ search

  /** The search test: the lower-cased query occurs in the lower-cased title, description or location. */
  predicate Matches(e: Event, query: string, fold: char -> char)
  {
    var q := Lower(query, fold);
    Includes(Lower(e.title, fold), q)
    || Includes(Lower(e.description, fold), q)
    || Includes(Lower(e.location, fold), q)
  }

  /** The search test in terms of positions: the lower-cased query sits at some index of one of the three lower-cased fields. */
  lemma MatchesIffOccurs(e: Event, query: string, fold: char -> char)
    ensures Matches(e, query, fold) <==>
      (exists i :: OccursAt(Lower(e.title, fold), Lower(query, fold), i))
      || (exists j :: OccursAt(Lower(e.description, fold), Lower(query, fold), j))
      || (exists k :: OccursAt(Lower(e.location, fold), Lower(query, fold), k))
  {
    var q, title, description, location := Lower(query, fold), Lower(e.title, fold), Lower(e.description, fold), Lower(e.location, fold);
    IncludesIffOccurs(title, q);
    IncludesIffOccurs(description, q);
    IncludesIffOccurs(location, q);
    assert Matches(e, query, fold) <==> Includes(title, q) || Includes(description, q) || Includes(location, q);
    assert Includes(title, q) <==> exists i :: OccursAt(Lower(e.title, fold), Lower(query, fold), i);
    assert Includes(description, q) <==> exists i :: OccursAt(Lower(e.description, fold), Lower(query, fold), i);
    assert Includes(location, q) <==> exists i :: OccursAt(Lower(e.location, fold), Lower(query, fold), i);
  }

  /** `filteredAllEvents`: the discover events that match the search query, in their order. */
  function Search(events: seq<Event>, query: string, fold: char -> char): (r: seq<Event>)
    ensures forall e :: e in r <==> e in events && Matches(e, query, fold)
    ensures forall x :: multiset(r)[x] == if Matches(x, query, fold) then multiset(events)[x] else 0
    ensures IsSubseq(r, events)
  {
    Filter(events, (e: Event) => Matches(e, query, fold))
  }

  /** An empty search box shows every discover event. */
  lemma EmptyQueryKeepsAll(events: seq<Event>, fold: char -> char)
    ensures Search(events, "", fold) == events
  {
    forall i | 0 <= i < |events|
      ensures Matches(events[i], "", fold)
    {
    }
    FilterKeepsAll(events, (e: Event) => Matches(e, "", fold));
  }

  /** A query that occurs, once lower-cased, inside the lower-cased title always finds the event. */
  lemma TitleHitIsFound(events: seq<Event>, i: int, before: string, after: string, query: string, fold: char -> char)
    requires 0 <= i < |events|
    requires Lower(events[i].title, fold) == before + Lower(query, fold) + after
    ensures events[i] in Search(events, query, fold)
  {
    IncludesMiddle(before, Lower(query, fold), after);
  }

  // ---------------------------------------------------------- status partition

  /** The RSVP'd events with one status, in their order. */
  function WithStatus(events: seq<Event>, s: Status): (r: seq<Event>)
    ensures forall e :: e in r <==> e in events && e.status == s
    ensures forall e :: multiset(r)[e] == if e.status == s then multiset(events)[e] else 0
    ensures IsSubseq(r, events)
  {
    Filter(events, (e: Event) => e.status == s)
  }

  /** `myUpcomingEvents`: the RSVP'd events whose status is Scheduled, each as often as in `events`, in their order. */
  function Upcoming(events: seq<Event>): (r: seq<Event>)
    ensures forall e :: e in r <==> e in events && e.status == Scheduled
    ensures forall e :: multiset(r)[e] == if e.status == Scheduled then multiset(events)[e] else 0
    ensures IsSubseq(r, events)
  {
    WithStatus(events, Scheduled)
  }

  /** `myLiveEvents`: the RSVP'd events whose status is Live, each as often as in `events`, in their order. */
  function LiveNow(events: seq<Event>): (r: seq<Event>)
    ensures forall e :: e in r <==> e in events && e.status == Live
    ensures forall e :: multiset(r)[e] == if e.status == Live then multiset(events)[e] else 0
    ensures IsSubseq(r, events)
  {
    WithStatus(events, Live)
  }

  /** `myPastEvents`: the RSVP'd events whose status is Closed, each as often as in `events`, in their order. */
  function Past(events: seq<Event>): (r: seq<Event>)
    ensures forall e :: e in r <==> e in events && e.status == Closed
    ensures forall e :: multiset(r)[e] == if e.status == Closed then multiset(events)[e] else 0
    ensures IsSubseq(r, events)
  {
    WithStatus(events, Closed)
  }

  /**
   * The three lists partition the RSVP'd events: no event is in two of them,
   * every event is in one, and their lengths add up to the number of events.
   */
  lemma StatusPartition(events: seq<Event>)
    ensures forall e :: !(e in Upcoming(events) && e in LiveNow(events))
    ensures forall e :: !(e in Upcoming(events) && e in Past(events))
    ensures forall e :: !(e in LiveNow(events) && e in Past(events))
    ensures forall e :: e in events ==> e in Upcoming(events) || e in LiveNow(events) || e in Past(events)
    ensures |Upcoming(events)| + |LiveNow(events)| + |Past(events)| == |events|
  {
    FilterPartitionLength(events,
      (e: Event) => e.status == Scheduled,
      (e: Event) => e.status == Live,
      (e: Event) => e.status == Closed);
  }

  // ----------------------------------------------------------------- buttons

  datatype Button = RsvpNow | GiveFeedback | AddToCalendar | ThanksForAttending | RsvpedBadge

  /** The footer of a discover card: "RSVP Now" for a scheduled event, nothing otherwise. */
  function DiscoverButtons(e: Event): (r: seq<Button>)
    ensures RsvpNow in r <==> e.status == Scheduled
    ensures forall b :: b in r ==> b == RsvpNow
    ensures |r| <= 1
  {
    if e.status == Scheduled then [RsvpNow] else []
  }

  /**
   * The footer of a "My Events" card: "Give Feedback" only for a live event
   * the attendee is checked in to, "Add to Calendar" for a scheduled one,
   * "Thanks for Attending" for a closed one, and always the "RSVP'ed" badge
   * last.
   */
  function MyEventButtons(e: Event): (r: seq<Button>)
    ensures GiveFeedback in r <==> e.status == Live && e.isCheckedIn
    ensures AddToCalendar in r <==> e.status == Scheduled
    ensures ThanksForAttending in r <==> e.status == Closed
    ensures RsvpNow !in r
    ensures 1 <= |r| <= 2 && r[|r| - 1] == RsvpedBadge
    ensures RsvpedBadge !in r[..|r| - 1]
  {
    (if e.status == Live && e.isCheckedIn then [GiveFeedback] else [])
    + (if e.status == Scheduled then [AddToCalendar] else [])
    + (if e.status == Closed then [ThanksForAttending] else [])
    + [RsvpedBadge]
  }

  const AttendeeEventsBase := "/dashboard/attendee/events/"
  const FeedbackPage := "/feedback"

  /**
   * The feedback page of a "Give Feedback" button: the attendee events
   * route, then the event's id, then the feedback page.
   */
  function FeedbackLink(e: Event): (href: string)
    ensures |href| == |AttendeeEventsBase| + |e.id| + |FeedbackPage|
    ensures href[..|AttendeeEventsBase|] == AttendeeEventsBase
    ensures href[|AttendeeEventsBase|..|AttendeeEventsBase| + |e.id|] == e.id
    ensures href[|AttendeeEventsBase| + |e.id|..] == FeedbackPage
    ensures Includes(href, e.id)
  {
    IncludesMiddle(AttendeeEventsBase, e.id, FeedbackPage);
    AttendeeEventsBase + e.id + FeedbackPage
  }

  /** Different events get different feedback pages: the link determines the id. */
  lemma FeedbackLinkDeterminesId(a: Event, b: Event)
    requires FeedbackLink(a) == FeedbackLink(b)
    ensures a.id == b.id
  {
    var href := FeedbackLink(a);
    assert |a.id| == |b.id|;
    assert a.id == href[|AttendeeEventsBase|..|AttendeeEventsBase| + |a.id|] == b.id;
  }

  // ------------------------------------------------------------- page state

  /** The component state of the page. */
  class Dashboard {
    var myEvents: seq<Event>
    var allEvents: seq<Event>
    var searchQuery: string
    var isLoading: bool

    /** The state on first render: empty lists, empty query, loading. */
    constructor ()
      ensures myEvents == [] && allEvents == [] && searchQuery == "" && isLoading
    {
      myEvents, allEvents, searchQuery, isLoading := [], [], "", true;
    }

    /** The discover cards on screen: `allEvents` narrowed by the search box. */
    function FilteredAllEvents(fold: char -> char): (r: seq<Event>)
      reads this
      ensures forall e :: e in r <==> e in allEvents && Matches(e, searchQuery, fold)
      ensures forall e :: multiset(r)[e] == if Matches(e, searchQuery, fold) then multiset(allEvents)[e] else 0
      ensures searchQuery == "" ==> r == allEvents
      ensures r == Search(allEvents, searchQuery, fold)
    {
      EmptyQueryKeepsAll(allEvents, fold);
      Search(allEvents, searchQuery, fold)
    }

    /** The search box's `onChange`. */
    method SetSearchQuery(query: string)
      modifies this
      ensures searchQuery == query
      ensures myEvents == old(myEvents) && allEvents == old(allEvents) && isLoading == old(isLoading)
    {
      searchQuery := query;
    }

    /**
     * `fetchEvents`, run on mount. Without a token nothing is requested. The
     * RSVP'd events are fetched first and stored as soon as that request is
     * ok; only then are all events fetched, and on an ok answer the discover
     * list is the fetched list without the RSVP'd events. `isLoading` is false
     * afterwards on every path.
     */
    method FetchEvents(browser: Browser, mineResponse: Response<seq<Event>>, allResponse: Response<seq<Event>>)
      returns (outcome: Outcome)
      modifies this
      ensures !isLoading && searchQuery == old(searchQuery)
      ensures outcome == Unauthenticated <==> !HasToken(browser.token)
      ensures outcome == Succeeded <==> HasToken(browser.token) && mineResponse.Ok? && allResponse.Ok?
      ensures myEvents == if HasToken(browser.token) && mineResponse.Ok? then mineResponse.body else old(myEvents)
      ensures allEvents ==
        if outcome == Succeeded then Discover(allResponse.body, mineResponse.body) else old(allEvents)
      ensures old(allEvents) == [] ==> Separated(myEvents, allEvents)
    {
      isLoading := true;
      var token := browser.token;
      if !HasToken(token) {
        outcome := Unauthenticated;
      } else if mineResponse.NotOk? {
        outcome := Failed;
      } else {
        var mine := mineResponse.body;
        myEvents := mine;
        if allResponse.NotOk? {
          outcome := Failed;
        } else {
          allEvents := Discover(allResponse.body, mine);
          outcome := Succeeded;
        }
      }
      isLoading := false;
    }

    /**
     * `handleRSVP(eventId)`. Without a token nothing is requested; a not-ok
     * answer changes nothing; an ok answer moves the event as `RsvpMove`
     * says, which keeps the lists separated.
     */
    method HandleRsvp(browser: Browser, eventId: string, response: Response<()>) returns (outcome: Outcome)
      modifies this
      ensures outcome == Unauthenticated <==> !HasToken(browser.token)
      ensures outcome == Succeeded <==> HasToken(browser.token) && response.Ok?
      ensures Lists(myEvents, allEvents) ==
        if outcome == Succeeded then RsvpMove(old(myEvents), old(allEvents), eventId)
        else Lists(old(myEvents), old(allEvents))
      ensures searchQuery == old(searchQuery) && isLoading == old(isLoading)
      ensures old(Separated(myEvents, allEvents)) ==> Separated(myEvents, allEvents)
    {
      var token := browser.token;
      if !HasToken(token) {
        outcome := Unauthenticated;
        return;
      }
      if response.NotOk? {
        outcome := Failed;
        return;
      }
      ghost var before := Lists(myEvents, allEvents);
      var k := FindIndex(allEvents, eventId);
      if k != -1 {
        var updated := allEvents[k].(isRSVPed := true);
        myEvents := myEvents + [updated];
        allEvents := WithoutId(allEvents, eventId);
      }
      outcome := Succeeded;
      if Separated(before.mine, before.discover) {
        RsvpKeepsSeparated(before.mine, before.discover, eventId);
      }
    }
  }
}
