/**
 * The host analytics page: fixed sample data for one event and for the
 * comparison of all events, and the integer figures the page derives from
 * them (no-shows, peak attendance, totals, the numerators and denominators
 * of the rates) and the palette the charts cycle through.
 */
module HostAnalytics {
  import opened Wrappers
  import opened Seqs

  datatype TimeCount = TimeCount(time: string, count: int)
  datatype NamedValue = NamedValue(name: string, value: int)

  datatype EventAnalytics = EventAnalytics(
    id: string,
    title: string,
    date: string,
    rsvpCount: int,
    checkedInCount: int,
    feedbackCount: int,
    positiveReactions: int,
    negativeReactions: int,
    neutralReactions: int,
    attendanceByTime: seq<TimeCount>,
    feedbackByTime: seq<TimeCount>,
    reactionBreakdown: seq<NamedValue>,
    keywordCloud: seq<NamedValue>)

  /** One bar group of the "Event Comparison" chart. */
  datatype EventTotals = EventTotals(name: string, rsvp: int, checkedIn: int, feedback: int)

  const MockEventAnalytics := EventAnalytics(
    "2", "Product Launch Webinar", "2023-06-20T14:00:00",
    85, 72, 45, 32, 5, 8,
    [ TimeCount("13:45", 15), TimeCount("14:00", 35), TimeCount("14:15", 55), TimeCount("14:30", 65),
      TimeCount("14:45", 70), TimeCount("15:00", 72), TimeCount("15:15", 72), TimeCount("15:30", 70) ],
    [ TimeCount("14:00", 0), TimeCount("14:15", 8), TimeCount("14:30", 15), TimeCount("14:45", 25),
      TimeCount("15:00", 35), TimeCount("15:15", 42), TimeCount("15:30", 45) ],
    [ NamedValue("👍 Thumbs Up", 25), NamedValue("❤️ Heart", 7),
      NamedValue("🤔 Thinking", 8), NamedValue("👎 Thumbs Down", 5) ],
    [ NamedValue("innovative", 12), NamedValue("pricing", 8), NamedValue("features", 15),
      NamedValue("integration", 7), NamedValue("demo", 10), NamedValue("helpful", 9),
      NamedValue("questions", 6), NamedValue("excited", 5) ])

  const MockAllEventsData := [
    EventTotals("Tech Conference", 120, 95, 60),
    EventTotals("Product Launch", 85, 72, 45),
    EventTotals("Team Workshop", 45, 45, 30)
  ]

  const Colors := ["#0088FE", "#00C49F", "#FFBB28", "#FF8042"]

  // ------------------------------------------------------------------ palette

  /** `COLORS[index % COLORS.length]`: the colour of the index-th chart cell, always one of the palette. */
  function CellColor(index: nat): (color: string)
    ensures color in Colors
    ensures index < |Colors| ==> color == Colors[index]
  {
    Colors[index % |Colors|]
  }

  /** Cell colours repeat with the length of the palette. */
  lemma CellColorPeriodic(index: nat)
    ensures CellColor(index + |Colors|) == CellColor(index)
  {
  }

  /** The cell colours of an `n`-slice pie, one per slice. */
  function CellColors(n: nat): (r: seq<string>)
    ensures |r| == n
    ensures forall i :: 0 <= i < n ==> r[i] in Colors && r[i] == CellColor(i)
  {
    seq(n, (i: int) requires 0 <= i => CellColor(i))
  }

  // --------------------------------------------------------- attendance pie

  function ValueOf(v: NamedValue): int { v.value }

  /** `rsvpCount - checkedInCount`: the RSVPs that did not check in, so that the two add back up to the RSVPs. */
  function NoShows(d: EventAnalytics): (n: int)
    ensures n + d.checkedInCount == d.rsvpCount
  {
    d.rsvpCount - d.checkedInCount
  }

  /** The "RSVP vs Check-in" pie: the checked-in slice and the no-show slice, which together make up the RSVPs. */
  function AttendanceSlices(d: EventAnalytics): (r: seq<NamedValue>)
    ensures |r| == 2 && r[0].value == d.checkedInCount && r[1].value == NoShows(d)
    ensures SumOf(r, ValueOf) == d.rsvpCount
  {
    var r := [NamedValue("Checked In", d.checkedInCount), NamedValue("No-Shows", NoShows(d))];
    assert SumOf(r[1..], ValueOf) == NoShows(d) by {
      assert r[1..][1..] == [];
    }
    r
  }

  // ---------------------------------------------------------------- peak

  /**
   * `Math.max(...counts)`. The maximum of no numbers is `-Infinity` in
   * JavaScript; here it is `None`.
   */
  function Peak(counts: seq<int>): (r: Option<int>)
    ensures r.None? <==> counts == []
    ensures r.Some? ==> r.value in counts && forall i :: 0 <= i < |counts| ==> counts[i] <= r.value
  {
    if counts == [] then None
    else
      var rest := Peak(counts[1..]);
      assert forall i :: 0 < i < |counts| ==> counts[i] == counts[1..][i - 1];
      if rest.None? || counts[0] >= rest.value then Some(counts[0]) else rest
  }

  /** `series.map((item) => item.count)`. */
  function Counts(series: seq<TimeCount>): (r: seq<int>)
    ensures |r| == |series| && forall i :: 0 <= i < |series| ==> r[i] == series[i].count
  {
    seq(|series|, (i: int) requires 0 <= i < |series| => series[i].count)
  }

  /**
   * The "Peak Attendance" figure: the largest count of the attendance
   * series, reached at some point of it; none for an empty series.
   */
  function PeakAttendance(d: EventAnalytics): (r: Option<int>)
    ensures r.None? <==> d.attendanceByTime == []
    ensures r.Some? ==>
      && (exists i :: 0 <= i < |d.attendanceByTime| && d.attendanceByTime[i].count == r.value)
      && forall i :: 0 <= i < |d.attendanceByTime| ==> d.attendanceByTime[i].count <= r.value
  {
    var counts := Counts(d.attendanceByTime);
    Peak(counts)
  }

  // ---------------------------------------------------------------- totals

  function RsvpOf(e: EventTotals): int { e.rsvp }
  function CheckedInOf(e: EventTotals): int { e.checkedIn }
  function FeedbackOf(e: EventTotals): int { e.feedback }

  /** "Total Participants": `reduce((acc, e) => acc + e.checkedIn, 0)`, the number of check-ins over all events. */
  function TotalParticipants(events: seq<EventTotals>): (total: int)
    ensures total == SumOf(events, CheckedInOf)
  {
    ReduceAddIsSum(0, events, CheckedInOf);
    ReduceAdd(0, events, CheckedInOf)
  }

  /** The numerator and denominator a percentage is computed from. */
  datatype Ratio = Ratio(numerator: int, denominator: int)

  /**
   * "Average Attendance Rate": the check-ins of all events over the RSVPs of
   * all events, a pooled ratio and not the mean of the per-event rates.
   */
  function AverageAttendanceRate(events: seq<EventTotals>): (r: Ratio)
    ensures r.numerator == SumOf(events, CheckedInOf) && r.denominator == SumOf(events, RsvpOf)
  {
    ReduceAddIsSum(0, events, CheckedInOf);
    ReduceAddIsSum(0, events, RsvpOf);
    Ratio(ReduceAdd(0, events, CheckedInOf), ReduceAdd(0, events, RsvpOf))
  }

  /** "Average Feedback Rate": the feedback of all events over their check-ins, pooled likewise. */
  function AverageFeedbackRate(events: seq<EventTotals>): (r: Ratio)
    ensures r.numerator == SumOf(events, FeedbackOf) && r.denominator == SumOf(events, CheckedInOf)
  {
    ReduceAddIsSum(0, events, FeedbackOf);
    ReduceAddIsSum(0, events, CheckedInOf);
    Ratio(ReduceAdd(0, events, FeedbackOf), ReduceAdd(0, events, CheckedInOf))
  }

  /** The percentages shown for one event, each as the numerator and denominator the page divides. */
  datatype EventRates = EventRates(attendance: Ratio, noShow: Ratio, feedback: Ratio, positive: Ratio, negative: Ratio)

  /**
   * The rates of the summary cards and metric bars: attendance and no-shows
   * over the RSVPs, feedback over the check-ins, positive and negative
   * sentiment over the feedback. Attendance and no-show share a denominator
   * and their numerators add up to it (the two pie slices).
   */
  function Rates(d: EventAnalytics): (r: EventRates)
    ensures r.attendance == Ratio(d.checkedInCount, d.rsvpCount)
    ensures r.noShow == Ratio(NoShows(d), d.rsvpCount)
    ensures r.attendance.denominator == r.noShow.denominator == d.rsvpCount
    ensures r.attendance.numerator + r.noShow.numerator == d.rsvpCount
    ensures r.feedback == Ratio(d.feedbackCount, d.checkedInCount)
    ensures r.positive.denominator == r.negative.denominator == d.feedbackCount
    ensures r.positive.numerator == d.positiveReactions && r.negative.numerator == d.negativeReactions
  {
    EventRates(
      Ratio(d.checkedInCount, d.rsvpCount),
      Ratio(NoShows(d), d.rsvpCount),
      Ratio(d.feedbackCount, d.checkedInCount),
      Ratio(d.positiveReactions, d.feedbackCount),
      Ratio(d.negativeReactions, d.feedbackCount))
  }

  // --------------------------------------------------------- the sample data

  /** The sample reactions add up: positive + negative + neutral = feedback = the breakdown's total = 45. */
  lemma MockReactionsAddUp()
    ensures MockEventAnalytics.positiveReactions + MockEventAnalytics.negativeReactions
      + MockEventAnalytics.neutralReactions == MockEventAnalytics.feedbackCount == 45
    ensures SumOf(MockEventAnalytics.reactionBreakdown, ValueOf) == MockEventAnalytics.feedbackCount
  {
    var b := MockEventAnalytics.reactionBreakdown;
    assert SumOf(b[3..], ValueOf) == 5;
    assert SumOf(b[2..], ValueOf) == 13;
    assert SumOf(b[1..], ValueOf) == 20;
  }

  /** In the sample breakdown, thumbs-up and heart are the positives, thinking the neutrals, thumbs-down the negatives. */
  lemma MockBreakdownMatchesSentiment()
    ensures MockEventAnalytics.reactionBreakdown[0].value + MockEventAnalytics.reactionBreakdown[1].value
      == MockEventAnalytics.positiveReactions
    ensures MockEventAnalytics.reactionBreakdown[2].value == MockEventAnalytics.neutralReactions
    ensures MockEventAnalytics.reactionBreakdown[3].value == MockEventAnalytics.negativeReactions
  {
  }

  /** In the sample, attendance peaks at the number of check-ins (72) and the feedback series ends at the feedback count. */
  lemma MockPeakIsCheckIns()
    ensures PeakAttendance(MockEventAnalytics) == Some(MockEventAnalytics.checkedInCount)
    ensures var f := MockEventAnalytics.feedbackByTime; f[|f| - 1].count == MockEventAnalytics.feedbackCount
  {
    var c := Counts(MockEventAnalytics.attendanceByTime);
    assert c == [15, 35, 55, 65, 70, 72, 72, 70];
    assert Peak(c[7..]) == Some(70);
    assert Peak(c[6..]) == Some(72);
    assert Peak(c[5..]) == Some(72);
    assert Peak(c[4..]) == Some(72);
    assert Peak(c[3..]) == Some(72);
    assert Peak(c[2..]) == Some(72);
    assert Peak(c[1..]) == Some(72);
  }

  /** The sample has 13 no-shows, so its pie slices are 72 and 13. */
  lemma MockNoShows()
    ensures NoShows(MockEventAnalytics) == 13
    ensures AttendanceSlices(MockEventAnalytics)[1].value == 13
  {
  }

  /** Over the sample events: 212 participants, 212 of 250 RSVPs attended, 135 feedbacks from 212 check-ins. */
  lemma MockTotals()
    ensures TotalParticipants(MockAllEventsData) == 212
    ensures AverageAttendanceRate(MockAllEventsData) == Ratio(212, 250)
    ensures AverageFeedbackRate(MockAllEventsData) == Ratio(135, 212)
  {
    var s := MockAllEventsData;
    assert SumOf(s[2..], CheckedInOf) == 45 && SumOf(s[1..], CheckedInOf) == 117;
    assert SumOf(s[2..], RsvpOf) == 45 && SumOf(s[1..], RsvpOf) == 130;
    assert SumOf(s[2..], FeedbackOf) == 30 && SumOf(s[1..], FeedbackOf) == 75;
  }

  /**
   * The pooled attendance rate of the sample, 212/250, differs from the mean
   * of its per-event rates (95/120 + 72/85 + 45/45) / 3: the page pools.
   */
  lemma MockPooledRateIsNotMeanRate()
    ensures var r := AverageAttendanceRate(MockAllEventsData);
      r.numerator as real / r.denominator as real
      != (95.0 / 120.0 + 72.0 / 85.0 + 45.0 / 45.0) / 3.0
  {
    MockTotals();
  }
}
