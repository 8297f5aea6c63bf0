# EventPulse dashboards, modelled in Dafny

EventPulse is a Next.js front end for event hosting. Hosts create events,
move them through the statuses Scheduled, Live and Closed, and read their
analytics. Attendees discover events, RSVP, and give feedback. This project
models the logic in five of its pages and in the layout they share.

- **Attendee dashboard** (`attendee.dfy`):
  - the two event lists and the rule that keeps them disjoint;
  - the RSVP move, the search filter, and the split of the user's events by status;
  - the buttons each card shows.
- **Host dashboard** (`host.dfy`):
  - the status change after a successful PATCH;
  - the overview figures;
  - the footer link that depends on an event's status.
- **Host analytics** (`analytics.dfy`):
  - the fixed sample data;
  - the integer figures the page derives from it, and the numerators and denominators of its percentages;
  - the chart palette.
- **Event creation** (`create_event.dfy`):
  - the form schema, with one message per field;
  - how the "HH:MM" time is split;
  - the request body and the submit sequence.
- **Login** (`login.dfy`):
  - the form schema;
  - how the role is resolved and the redirect that follows;
  - the stored token.
- **Dashboard layout** (`layout.dfy`):
  - the token guard on mount;
  - the navigation items and which one is highlighted;
  - the avatar and heading, and logout.

Shared modules:

- `wrappers.dfy`: an `Option` for JavaScript's absent values.
- `seqs.dfy`: `filter` and the additive `reduce`.
- `text.dfy`: `includes`, per-character lower-casing, `split` on one character, and decimal digits.
- `status.dfy`: the status type and the badge colour. The two dashboards use identical colour switches.
- `browser.dfy`: the browser state the pages share. This is the `localStorage` token and the router history, as a class.

Every remote call is a parameter of type `Response<T>`: either a not-ok answer or an ok answer with its decoded body. A page operation reports an `Outcome`: Unauthenticated (no token, nothing sent), Failed (a toast is shown), or Succeeded. The guard `if (!token)` is `HasToken`: a missing entry and the empty string both fail it.

## Model

| member | source | states |
|---|---|---|
| Seqs.Filter | app/dashboard/attendee/page.tsx:149-151 | `filter` keeps exactly the elements that satisfy the test, each as often as it occurs (the multiset of the input restricted to the test) and in order (a subsequence) |
| Seqs.FilterAtMostOne | components/layout/dashboard-layout.tsx:141-147 | when no two elements both pass the test, `filter` keeps at most one |
| Seqs.ReduceAddIsSum | app/dashboard/host/page.tsx:161 | the left fold `reduce((acc, e) => acc + f(e), acc0)` equals `acc0` plus the sum of `f` over the list |
| Text.IncludesIffOccurs | app/dashboard/attendee/page.tsx:144-146 | `includes` holds exactly when the needle occurs at some position of the text |
| Text.Lower | app/dashboard/attendee/page.tsx:144-146 | lower-casing keeps the length and folds every character in place |
| Text.SplitJoin | app/dashboard/host/events/create/page.tsx:72 | joining the pieces of `split` gives back the string, and no piece holds the separator |
| Text.SplitAtSeparator | app/dashboard/host/events/create/page.tsx:72 | `a + ":" + b` with no ':' in either half splits into exactly `[a, b]` |
| Text.ParseNumber | app/dashboard/host/events/create/page.tsx:72 | `Number` of a time piece is defined exactly for a run of decimal digits, with its decimal value; the empty string is 0 |
| Text.TwoDigits | app/dashboard/host/events/create/page.tsx:72 | `Number` of a two-digit string is 10·first + second, at most 99 |
| EventStatus.NameInjective | app/dashboard/attendee/page.tsx:21 | the three status names are distinct |
| EventStatus.StatusColor | app/dashboard/attendee/page.tsx:86-97 | green and pulsing exactly for "Live", blue exactly for "Scheduled", gray for every other string |
| EventStatus.StatusColorsDistinct | app/dashboard/host/page.tsx:106-117 | the three statuses get three different badge colours |
| AttendeeDashboard.Discover | app/dashboard/attendee/page.tsx:66-70 | the discover list is the fetched list without any event whose id is RSVP'd: every other event with its full count, in order; it shares no id with the RSVP'd list |
| AttendeeDashboard.FindIndex | app/dashboard/attendee/page.tsx:120 | `findIndex` is -1 exactly when no event has the id, and otherwise the first index with it |
| AttendeeDashboard.WithoutId | app/dashboard/attendee/page.tsx:124 | `filter((e) => e._id !== id)` drops every event with the id and keeps every other one with its full count, in order |
| AttendeeDashboard.RsvpMove | app/dashboard/attendee/page.tsx:119-125 | an absent id changes nothing; otherwise the first event with the id is appended once to My Events, marked RSVP'd, and every event with the id leaves the discover list while every other one stays with its full count, in order |
| AttendeeDashboard.RsvpKeepsSeparated | app/dashboard/attendee/page.tsx:119-125 | if the two lists share no id before the move, they share none after it |
| AttendeeDashboard.MatchesIffOccurs | app/dashboard/attendee/page.tsx:144-146 | an event matches exactly when the lower-cased query occurs at some position of its lower-cased title, description or location |
| AttendeeDashboard.Search | app/dashboard/attendee/page.tsx:141-147 | the discover events whose lower-cased title, description or location contains the lower-cased query, in order and with their counts |
| AttendeeDashboard.EmptyQueryKeepsAll | app/dashboard/attendee/page.tsx:141-147 | an empty search box shows every discover event |
| AttendeeDashboard.TitleHitIsFound | app/dashboard/attendee/page.tsx:144 | an event whose lower-cased title contains the lower-cased query is always found |
| AttendeeDashboard.WithStatus | app/dashboard/attendee/page.tsx:149-151 | the RSVP'd events of one status, each with its full count, in order |
| AttendeeDashboard.Upcoming | app/dashboard/attendee/page.tsx:149 | `myUpcomingEvents`: exactly the scheduled RSVP'd events, each with its full count, in order |
| AttendeeDashboard.LiveNow | app/dashboard/attendee/page.tsx:150 | `myLiveEvents`: exactly the live RSVP'd events, each with its full count, in order |
| AttendeeDashboard.Past | app/dashboard/attendee/page.tsx:151 | `myPastEvents`: exactly the closed RSVP'd events, each with its full count, in order |
| AttendeeDashboard.StatusPartition | app/dashboard/attendee/page.tsx:149-151 | upcoming, live and past are pairwise disjoint, cover the RSVP'd events, and their counts add up to the total |
| AttendeeDashboard.DiscoverButtons | app/dashboard/attendee/page.tsx:379-383 | "RSVP Now" exactly for a scheduled event, at most once, and nothing else |
| AttendeeDashboard.MyEventButtons | app/dashboard/attendee/page.tsx:280-300 | "Give Feedback" exactly for a live event the attendee is checked in to; "Add to Calendar" exactly for a scheduled one; "Thanks for Attending" exactly for a closed one; the RSVP'ed badge is always last and appears once |
| AttendeeDashboard.FeedbackLink | app/dashboard/attendee/page.tsx:281 | the feedback link is `/dashboard/attendee/events/`, then the event's id, then `/feedback` |
| AttendeeDashboard.FeedbackLinkDeterminesId | app/dashboard/attendee/page.tsx:281 | two events with the same feedback link have the same id |
| AttendeeDashboard.Dashboard.constructor | app/dashboard/attendee/page.tsx:26-29 | the page starts with empty lists, an empty query, and loading on |
| AttendeeDashboard.Dashboard.FilteredAllEvents | app/dashboard/attendee/page.tsx:141-147 | the cards on screen are `Search` of the discover events by the current query: the matching ones, each with its full count; with an empty query, all of them |
| AttendeeDashboard.Dashboard.SetSearchQuery | app/dashboard/attendee/page.tsx:319 | typing sets the query and nothing else |
| AttendeeDashboard.Dashboard.FetchEvents | app/dashboard/attendee/page.tsx:33-84 | no token: nothing changes. My Events is stored once its request is ok, even if the second request then fails. On full success the discover list is `Discover` of the answers. Loading ends off. |
| AttendeeDashboard.Dashboard.HandleRsvp | app/dashboard/attendee/page.tsx:99-139 | no token or a not-ok answer: nothing changes. Otherwise the lists become `RsvpMove` of the old ones. Disjointness is preserved. |
| HostDashboard.SetStatus | app/dashboard/host/page.tsx:87-91 | every event with the id takes the new status; every other event, and the order, stay as they were |
| HostDashboard.SetStatusOnlyChangesStatus | app/dashboard/host/page.tsx:89 | a status change touches no field but status |
| HostDashboard.SetStatusLastWins | app/dashboard/host/page.tsx:68-104 | no transition order is enforced: two changes in a row equal the second alone, from any status |
| HostDashboard.Upcoming | app/dashboard/host/page.tsx:119 | exactly the scheduled events, each with its full count, in order |
| HostDashboard.LiveNow | app/dashboard/host/page.tsx:120 | exactly the live events, each with its full count, in order |
| HostDashboard.UpcomingAndLiveDisjoint | app/dashboard/host/page.tsx:119-120 | the upcoming and live figures count disjoint events, together at most all of them |
| HostDashboard.MaxAttendeesTotal | app/dashboard/host/page.tsx:161 | the "Max Attendees" card is the sum of `maxAttendees`, 0 for no events |
| HostDashboard.SetStatusKeepsTotal | app/dashboard/host/page.tsx:161 | changing a status leaves the attendee total unchanged |
| HostDashboard.FooterLink | app/dashboard/host/page.tsx:270-293 | Live gives "Manage Live" to `/dashboard/host/events/<id>/feedback`; Scheduled gives "Start Checkin's" to `/dashboard/host/events/<id>/rsvps`; Closed gives "View Summary" to `/dashboard/host/events/<id>/analytics` |
| HostDashboard.FooterLinksDistinct | app/dashboard/host/page.tsx:270-293 | for one id, different statuses lead to different pages |
| HostDashboard.Dashboard.constructor | app/dashboard/host/page.tsx:29-30 | the page starts with no events and loading on |
| HostDashboard.Dashboard.FetchEvents | app/dashboard/host/page.tsx:33-67 | the list is replaced only when a token exists and the answer is ok; loading ends off |
| HostDashboard.Dashboard.HandleStatusChange | app/dashboard/host/page.tsx:68-104 | no token or a not-ok PATCH: the list is unchanged. Otherwise it becomes `SetStatus` of the old list. |
| HostAnalytics.CellColor | app/dashboard/host/analytics/page.tsx:236 | a cell's colour always comes from the four-colour palette, and is the index-th entry for the first four cells |
| HostAnalytics.CellColorPeriodic | app/dashboard/host/analytics/page.tsx:236 | cell colours repeat every four cells |
| HostAnalytics.CellColors | app/dashboard/host/analytics/page.tsx:364-366 | one palette colour per slice |
| HostAnalytics.NoShows | app/dashboard/host/analytics/page.tsx:222 | the no-shows and the check-ins add up to the RSVPs |
| HostAnalytics.AttendanceSlices | app/dashboard/host/analytics/page.tsx:220-223 | the pie's checked-in and no-show slices add up to the RSVP count |
| HostAnalytics.Peak | app/dashboard/host/analytics/page.tsx:294 | `Math.max` of the counts is absent exactly for no counts; otherwise it is one of the counts and no count is larger |
| HostAnalytics.Counts | app/dashboard/host/analytics/page.tsx:294 | `map((item) => item.count)` keeps the length and takes each count in place |
| HostAnalytics.PeakAttendance | app/dashboard/host/analytics/page.tsx:294 | "Peak Attendance" is absent exactly for an empty series; otherwise some point of the series reaches it and none exceeds it |
| HostAnalytics.TotalParticipants | app/dashboard/host/analytics/page.tsx:539 | "Total Participants" is the sum of check-ins over all events |
| HostAnalytics.AverageAttendanceRate | app/dashboard/host/analytics/page.tsx:507-510 | the average attendance rate pools the counts: all check-ins over all RSVPs |
| HostAnalytics.AverageFeedbackRate | app/dashboard/host/analytics/page.tsx:523-526 | the average feedback rate pools all feedback over all check-ins |
| HostAnalytics.Rates | app/dashboard/host/analytics/page.tsx:143-170 | attendance is check-ins over RSVPs, no-shows are no-shows over RSVPs (the two numerators add up to the denominator), feedback is over check-ins, positive and negative sentiment are over feedback |
| HostAnalytics.MockReactionsAddUp | app/dashboard/host/analytics/page.tsx:15-62 | in the sample, the reactions and the breakdown both add up to the 45 feedbacks |
| HostAnalytics.MockBreakdownMatchesSentiment | app/dashboard/host/analytics/page.tsx:15-62 | the sample breakdown's slices match the positive, neutral and negative counts |
| HostAnalytics.MockPeakIsCheckIns | app/dashboard/host/analytics/page.tsx:15-62 | the sample's attendance peaks at its 72 check-ins, and its feedback series ends at the feedback count |
| HostAnalytics.MockNoShows | app/dashboard/host/analytics/page.tsx:220-223 | the sample has 13 no-shows |
| HostAnalytics.MockTotals | app/dashboard/host/analytics/page.tsx:63-83 | the sample comparison has 212 participants, an attendance of 212/250, and feedback of 135/212 |
| HostAnalytics.MockPooledRateIsNotMeanRate | app/dashboard/host/analytics/page.tsx:507-510 | the pooled attendance rate of the sample differs from the mean of its per-event rates |
| CreateEvent.NumberError | app/dashboard/host/events/create/page.tsx:37-39 | NaN is reported as not a number; otherwise a non-integer comes before a non-positive value; exactly the positive integers pass |
| CreateEvent.Check | app/dashboard/host/events/create/page.tsx:21-43 | each field shows its own message exactly when its rule is broken |
| CreateEvent.ValidIffMeetsRules | app/dashboard/host/events/create/page.tsx:21-43 | the schema accepts exactly the values that meet all seven field rules |
| CreateEvent.DefaultsErrors | app/dashboard/host/events/create/page.tsx:51-57 | the default attendee count (100) passes; every other field still needs input |
| CreateEvent.DatesUnordered | app/dashboard/host/events/create/page.tsx:28-42 | date and deadline are only required: any two picks are accepted, in either order |
| CreateEvent.ClockTime | app/dashboard/host/events/create/page.tsx:71-73 | a time exists exactly when `split(":")` yields at least two pieces and the first two are digit runs; it is their two decimal values; a time without ":" has none |
| CreateEvent.ClockTimeOfHhMm | app/dashboard/host/events/create/page.tsx:71-73 | a time input's "HH:MM" gives hours HH and minutes MM |
| CreateEvent.BuildPayload | app/dashboard/host/events/create/page.tsx:75-83 | the body copies title, description, location, attendee count and deadline, combines date and time, fixes the timezone to "India", and keeps the schema's text and number rules |
| CreateEvent.RequestBody | app/dashboard/host/events/create/page.tsx:70-83 | a body exists exactly when the time can be combined, and it is `BuildPayload` of the values with the picked day at those hours and minutes |
| CreateEvent.CreateEventPage.constructor | app/dashboard/host/events/create/page.tsx:48 | the form starts not loading |
| CreateEvent.CreateEventPage.OnSubmit | app/dashboard/host/events/create/page.tsx:60-115 | no token: nothing is sent. Otherwise the body of `RequestBody` is sent, and only an ok answer redirects to the host dashboard. Loading ends off. |
| Login.Check | app/auth/login/page.tsx:16-23 | an invalid email and an empty password are each reported exactly when they occur |
| Login.DefaultsNeedPassword | app/auth/login/page.tsx:32-35 | the default (empty) password must be filled in |
| Login.ResolveRole | app/auth/login/page.tsx:58 | a non-empty server role wins; otherwise the role is "host" exactly when the email contains "host", else "attendee" |
| Login.GhostAddressIsHost | app/auth/login/page.tsx:58 | the fallback makes "ghost@example.com" a host |
| Login.RedirectFor | app/auth/login/page.tsx:70 | the host dashboard exactly for the role "host", the attendee dashboard for every other role |
| Login.RedirectIsDashboardItem | app/auth/login/page.tsx:70 | the login redirect is the layout's first navigation item for that role |
| Login.OtherServerRoleIsAttendee | app/auth/login/page.tsx:58-70 | any other non-empty server role lands on the attendee dashboard, whatever the email |
| Login.StoredToken | app/auth/login/page.tsx:62 | a string token is stored as is; a missing one as "undefined" and a `null` one as "null" |
| Login.StoredTokenPassesGuard | app/auth/login/page.tsx:62 | whatever the login stores passes the dashboards' token guard, unless the token was the empty string |
| Login.LoginPage.constructor | app/auth/login/page.tsx:28 | the form starts not loading |
| Login.LoginPage.OnSubmit | app/auth/login/page.tsx:38-81 | a not-ok answer changes nothing; an ok answer stores the token and pushes the route for the resolved role; loading ends off |
| DashboardLayout.NavItems | components/layout/dashboard-layout.tsx:53-72 | the role's dashboard comes first; a host also gets analytics; the hrefs are distinct |
| DashboardLayout.AtMostOneActive | components/layout/dashboard-layout.tsx:141-147 | at most one navigation item is highlighted for any path |
| DashboardLayout.ActiveItems | components/layout/dashboard-layout.tsx:141-147 | the highlighted items are the items whose href equals the path: at most one, and none for a path that is no item's href |
| DashboardLayout.AvatarLetter | components/layout/dashboard-layout.tsx:123 | the avatar shows "H" for a host and "A" for an attendee |
| DashboardLayout.Heading | components/layout/dashboard-layout.tsx:138 | the heading is "Host Dashboard" for a host and "Attendee Dashboard" for an attendee |
| DashboardLayout.AvatarMatchesHeading | components/layout/dashboard-layout.tsx:121-139 | the heading starts with the avatar letter, and the two roles differ in both |
| DashboardLayout.Layout.constructor | components/layout/dashboard-layout.tsx:19-23 | the layout starts unmounted |
| DashboardLayout.Layout.Mount | components/layout/dashboard-layout.tsx:25-42 | mounting renders the layout; with no token the router goes to the login page; the token is not changed |
| DashboardLayout.Layout.Logout | components/layout/dashboard-layout.tsx:44-51 | the token is removed, so the guard fails afterwards, and the router goes to the login page |

## Left out

- Calendar arithmetic. `new Date`, `setHours` normalisation (hours 25 or minutes 75 roll over), `toISOString` and `format` are not modelled. A picked day is an opaque `Instant`, and the combined date is the triple (day, hours, minutes).
- `isEventToday` in the attendee dashboard. It compares the event's date with the clock, so it depends on time and the locale.
- Floating-point percentages. `Math.round(a / b * 100)` and the bar widths are not modelled; the model keeps their integer numerator and denominator (`Ratio`). The keyword font size clamp is presentation.
- `toLowerCase`. Unicode case mapping is the parameter `fold`, applied per character. The model therefore does not capture mappings that change the length (such as "ß").
- Login.Check: the schema library's email pattern is the parameter `isEmail`, not written out.
- `z.coerce.number()` on strings. Coercion forms other than a number or NaN (whitespace, hexadecimal, exponents) are not modelled.
- Text.ParseNumber: covers only the empty string and digit runs, which is what a time input produces. Every other form counts as NaN, whereas JavaScript's `Number` also accepts whitespace, signs and decimals.
- Status casts on the host dashboard. The `<select>` offers only the three statuses, so `newStatus` is a `Status`; the `as` cast of other strings is not modelled.
- JSON decoding. An ok `Response` always carries a decoded body of the expected shape. A body that fails `response.json()` is not modelled. Neither is a `null` login body, which makes `data.token` throw and ends in the failure toast with no token stored and no redirect.
- String lengths. The schema counts UTF-16 code units, and the model counts characters.
- React rendering. Toasts, console logging, icons, class names other than the status badge, and re-render timing are not modelled.
- The analytics page's loading timer (`setTimeout`) and its never-called state setters.
- Concurrency. Overlapping requests (two RSVPs, or a fetch racing a status change) are not modelled; each handler runs as one step from its response.
- app/page.tsx, components/ui/chart.tsx and components/ui/live-badge.tsx are not part of this model. They are presentational.
- The live, feedback, RSVP-list and per-event analytics pages are not part of this model.
