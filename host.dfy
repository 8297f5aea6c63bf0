/**
 * The host dashboard: the host's events, the status `<select>` on each card,
 * the overview figures and the status-dependent footer link.
 */
module HostDashboard {
  import opened Seqs
  import opened Text
  import opened EventStatus
  import opened BrowserState

  datatype Event = Event(
    id: string,
    title: string,
    description: string,
    date: string,
    timezone: string,
    locationPhysical: string,
    rsvpDeadline: string,
    maxAttendees: int,
    createdBy: string,
    status: Status,
    createdAt: string,
    updatedAt: string)

  // ------------------------------------------------------------ status change

  /**
   * The state update after a successful PATCH:
   * `events.map((e) => e._id === id ? { ...e, status } : e)`.
   * Every event with the id takes the new status whatever its old one was;
   * every other event, and the order, stay as they were.
   */
  function SetStatus(events: seq<Event>, id: string, newStatus: Status): (r: seq<Event>)
    ensures |r| == |events|
    ensures forall i :: 0 <= i < |events| && events[i].id == id ==> r[i] == events[i].(status := newStatus)
    ensures forall i :: 0 <= i < |events| && events[i].id != id ==> r[i] == events[i]
  {
    if events == [] then []
    else
      var head := if events[0].id == id then events[0].(status := newStatus) else events[0];
      var rest := SetStatus(events[1..], id, newStatus);
      assert forall i :: 0 < i < |events| ==> ([head] + rest)[i] == rest[i - 1] && events[i] == events[1..][i - 1];
      [head] + rest
  }

  /** A status change touches nothing but status: ids, and every other field, keep their places. */
  lemma SetStatusOnlyChangesStatus(events: seq<Event>, id: string, newStatus: Status)
    ensures forall i :: 0 <= i < |events| ==>
      SetStatus(events, id, newStatus)[i].(status := events[i].status) == events[i]
  {
  }

  /**
   * No transition order is enforced: setting a status twice is the same as
   * setting the later one directly, from any starting status.
   */
  lemma {:induction false} SetStatusLastWins(events: seq<Event>, id: string, first: Status, second: Status)
    ensures SetStatus(SetStatus(events, id, first), id, second) == SetStatus(events, id, second)
  {
    var a := SetStatus(SetStatus(events, id, first), id, second);
    var b := SetStatus(events, id, second);
    assert |a| == |b|;
    forall i | 0 <= i < |a|
      ensures a[i] == b[i]
    {
    }
  }

  // ---------------------------------------------------------------- overview

  /** `upcomingEvents`. */
  function Upcoming(events: seq<Event>): (r: seq<Event>)
    ensures forall e :: e in r <==> e in events && e.status == Scheduled
    ensures forall e :: multiset(r)[e] == if e.status == Scheduled then multiset(events)[e] else 0
    ensures IsSubseq(r, events)
  {
    Filter(events, (e: Event) => e.status == Scheduled)
  }

  /** `liveEvents`. */
  function LiveNow(events: seq<Event>): (r: seq<Event>)
    ensures forall e :: e in r <==> e in events && e.status == Live
    ensures forall e :: multiset(r)[e] == if e.status == Live then multiset(events)[e] else 0
    ensures IsSubseq(r, events)
  {
    Filter(events, (e: Event) => e.status == Live)
  }

  /** The "upcoming" and "live" figures count disjoint sets of events and together at most all of them. */
  lemma UpcomingAndLiveDisjoint(events: seq<Event>)
    ensures forall e :: !(e in Upcoming(events) && e in LiveNow(events))
    ensures |Upcoming(events)| + |LiveNow(events)| <= |events|
  {
    FilterDisjointLength(events, (e: Event) => e.status == Scheduled, (e: Event) => e.status == Live);
  }

  function MaxAttendeesOf(e: Event): int { e.maxAttendees }

  /**
   * The "Max Attendees" card: `events.reduce((acc, e) => acc + e.maxAttendees, 0)`,
   * which is the sum of `maxAttendees` over the events (0 for none).
   */
  function MaxAttendeesTotal(events: seq<Event>): (total: int)
    ensures total == SumOf(events, MaxAttendeesOf)
    ensures events == [] ==> total == 0
  {
    ReduceAddIsSum(0, events, MaxAttendeesOf);
    ReduceAdd(0, events, MaxAttendeesOf)
  }

  /** Changing a status leaves the attendee total as it was. */
  lemma {:induction false} SetStatusKeepsTotal(events: seq<Event>, id: string, newStatus: Status)
    ensures MaxAttendeesTotal(SetStatus(events, id, newStatus)) == MaxAttendeesTotal(events)
  {
    SumUnderSetStatus(events, id, newStatus);
  }

  lemma {:induction false} SumUnderSetStatus(events: seq<Event>, id: string, newStatus: Status)
    ensures SumOf(SetStatus(events, id, newStatus), MaxAttendeesOf) == SumOf(events, MaxAttendeesOf)
  {
    if events != [] {
      SumUnderSetStatus(events[1..], id, newStatus);
      var r := SetStatus(events, id, newStatus);
      assert r[1..] == SetStatus(events[1..], id, newStatus);
    }
  }

  // ------------------------------------------------------------ footer links

  datatype Link = Link(caption: string, href: string)

  const EventsBase := "/dashboard/host/events/"

  /**
   * The one footer link of an event card: "Manage Live" to the event's
   * feedback page while it is live, "Start Checkin's" to its RSVP list while
   * it is scheduled, "View Summary" to its analytics once closed.
   */
  function FooterLink(e: Event): (link: Link)
    ensures EventsBase <= link.href && Includes(link.href, e.id)
    ensures e.status == Live ==> link.caption == "Manage Live" && link.href == EventsBase + e.id + "/feedback"
    ensures e.status == Scheduled ==> link.caption == "Start Checkin's" && link.href == EventsBase + e.id + "/rsvps"
    ensures e.status == Closed ==> link.caption == "View Summary" && link.href == EventsBase + e.id + "/analytics"
  {
    var page := match e.status
      case Live => "/feedback"
      case Scheduled => "/rsvps"
      case Closed => "/analytics";
    var caption := match e.status
      case Live => "Manage Live"
      case Scheduled => "Start Checkin's"
      case Closed => "View Summary";
    IncludesMiddle(EventsBase, e.id, page);
    assert (EventsBase + e.id + page)[..|EventsBase|] == EventsBase;
    Link(caption, EventsBase + e.id + page)
  }

  /** For one event id the three statuses lead to three different pages. */
  lemma FooterLinksDistinct(a: Event, b: Event)
    requires a.id == b.id && a.status != b.status
    ensures FooterLink(a).href != FooterLink(b).href
  {
  }

  // --------------------------------------------------------------- page state

  /** The component state of the page. */
  class Dashboard {
    var events: seq<Event>
    var isLoading: bool

    constructor ()
      ensures events == [] && isLoading
    {
      events, isLoading := [], true;
    }

    /** `fetchEvents` on mount: an ok answer replaces the list; `isLoading` ends false on every path. */
    method FetchEvents(browser: Browser, response: Response<seq<Event>>) returns (outcome: Outcome)
      modifies this
      ensures !isLoading
      ensures outcome == Unauthenticated <==> !HasToken(browser.token)
      ensures outcome == Succeeded <==> HasToken(browser.token) && response.Ok?
      ensures events == if outcome == Succeeded then response.body else old(events)
    {
      isLoading := true;
      var token := browser.token;
      if !HasToken(token) {
        outcome := Unauthenticated;
      } else if response.NotOk? {
        outcome := Failed;
      } else {
        events := response.body;
        outcome := Succeeded;
      }
      isLoading := false;
    }

    /**
     * `handleStatusChange(eventId, newStatus)`: without a token or on a
     * not-ok PATCH the list is unchanged; otherwise `SetStatus` is applied.
     */
    method HandleStatusChange(browser: Browser, eventId: string, newStatus: Status, response: Response<()>)
      returns (outcome: Outcome)
      modifies this
      ensures outcome == Unauthenticated <==> !HasToken(browser.token)
      ensures outcome == Succeeded <==> HasToken(browser.token) && response.Ok?
      ensures events == if outcome == Succeeded then SetStatus(old(events), eventId, newStatus) else old(events)
      ensures isLoading == old(isLoading)
    {
      var token := browser.token;
      if !HasToken(token) {
        outcome := Unauthenticated;
      } else if response.NotOk? {
        outcome := Failed;
      } else {
        events := SetStatus(events, eventId, newStatus);
        outcome := Succeeded;
      }
    }
  }
}
