/**
 * Day-bucketing of usage events for the analytics chart
 * (`processAnalyticsForChart` in src/admin/ViewAnalytics.js).
 *
 * Calendar dates are integer day numbers and "today" is a parameter.  The
 * chart has one bucket per day of the window that ends today: 1 day for the
 * period "day", 30 for "month" and 7 otherwise.  Each bucket counts the
 * window's events per event type and in total.
 */
module ViewAnalytics {
  import opened Wrappers

  /** A raw usage event: the day it was created and its type. */
  datatype Event = Event(day: int, eventType: string)

  /**
   * One day of the chart: a counter per event type and the total.  The
   * counters always include the five default event types.
   */
  datatype DayBucket = DayBucket(date: int, counts: map<string, nat>, total: nat)

  const DefaultEventTypes: seq<string> := ["virtual_try_on", "image_upload", "user_login", "store_visit", "credit_used"]

  /** The number of days in the window for `period`. */
  function WindowDays(period: string): nat {
    if period == "day" then 1 else if period == "month" then 30 else 7
  }

  /** The first day of the window that ends at `today`. */
  function WindowStart(period: string, today: int): int {
    today - WindowDays(period) + 1
  }

  function Get(counts: map<string, nat>, key: string): nat {
    if key in counts then counts[key] else 0
  }

  /** A bucket with every default counter and the total at 0. */
  function ZeroBucket(date: int): DayBucket {
    DayBucket(date, map t | t in DefaultEventTypes :: 0, 0)
  }

  /**
   * Counts one event of type `eventType` in the bucket: its counter (created
   * at 0 if new) and the total each grow by one; nothing else changes.
   */
  function AddEvent(bucket: DayBucket, eventType: string): (r: DayBucket)
    ensures r.date == bucket.date && r.total == bucket.total + 1
    ensures r.counts.Keys == bucket.counts.Keys + {eventType}
    ensures r.counts[eventType] == Get(bucket.counts, eventType) + 1
    ensures forall t :: t in bucket.counts && t != eventType ==> r.counts[t] == bucket.counts[t]
  {
    bucket.(counts := bucket.counts[eventType := Get(bucket.counts, eventType) + 1], total := bucket.total + 1)
  }

  // ---------------------------------------------------------------------
  // The chart, specified
  // ---------------------------------------------------------------------

  /** The bucket of day `d` after counting `events` in order. */
  function BucketAfter(events: seq<Event>, d: int): DayBucket {
    if events == [] then ZeroBucket(d)
    else
      var bucket := BucketAfter(events[..|events| - 1], d);
      var event := events[|events| - 1];
      if event.day == d then AddEvent(bucket, event.eventType) else bucket
  }

  /** The buckets of days from, from + 1, ..., from + n - 1. */
  function Buckets(events: seq<Event>, from: int, n: nat): (r: seq<DayBucket>)
    ensures |r| == n
    ensures forall j :: 0 <= j < n ==> r[j] == BucketAfter(events, from + j)
  {
    if n == 0 then [] else Buckets(events, from, n - 1) + [BucketAfter(events, from + n - 1)]
  }

  /** The chart for a non-empty list of events. */
  function Chart(events: seq<Event>, period: string, today: int): seq<DayBucket> {
    Buckets(events, WindowStart(period, today), WindowDays(period))
  }

  /** What `processAnalyticsForChart` returns; `None` stands for a missing `rawData`. */
  function ChartFor(rawData: Option<seq<Event>>, period: string, today: int): seq<DayBucket> {
    if rawData.None? || rawData.value == [] then [] else Chart(rawData.value, period, today)
  }

  // ---------------------------------------------------------------------
  // Reference counts
  // ---------------------------------------------------------------------

  /** The number of events on day `d`. */
  function CountOn(events: seq<Event>, d: int): nat {
    if events == [] then 0
    else CountOn(events[..|events| - 1], d) + if events[|events| - 1].day == d then 1 else 0
  }

  /** The number of events of type `t` on day `d`. */
  function CountTypeOn(events: seq<Event>, d: int, t: string): nat {
    if events == [] then 0
    else
      var event := events[|events| - 1];
      CountTypeOn(events[..|events| - 1], d, t) + if event.day == d && event.eventType == t then 1 else 0
  }

  /** The number of events on days from .. from + n - 1. */
  function CountInRange(events: seq<Event>, from: int, n: nat): nat {
    if events == [] then 0
    else
      var day := events[|events| - 1].day;
      CountInRange(events[..|events| - 1], from, n) + if from <= day < from + n then 1 else 0
  }

  function SumTotals(buckets: seq<DayBucket>): nat {
    if buckets == [] then 0 else SumTotals(buckets[..|buckets| - 1]) + buckets[|buckets| - 1].total
  }

  /**
   * The bucket of day `d` holds, for every event type seen that day and every
   * default type, the number of such events that day; its total is the
   * number of events that day.
   */
  lemma {:induction false} BucketCountsEvents(events: seq<Event>, d: int)
    ensures BucketAfter(events, d).date == d
    ensures BucketAfter(events, d).total == CountOn(events, d)
    ensures forall t :: t in BucketAfter(events, d).counts <==> t in DefaultEventTypes || CountTypeOn(events, d, t) > 0
    ensures forall t :: t in BucketAfter(events, d).counts ==> BucketAfter(events, d).counts[t] == CountTypeOn(events, d, t)
  {
    if events != [] {
      BucketCountsEvents(events[..|events| - 1], d);
    }
  }

  // ---------------------------------------------------------------------
  // Properties of the chart
  // ---------------------------------------------------------------------

  /**
   * The chart has one bucket per day of the window, today and the days
   * before it, in ascending date order.
   */
  lemma ChartIsWindow(events: seq<Event>, period: string, today: int)
    ensures var chart := Chart(events, period, today);
            |chart| == WindowDays(period)
            && chart[|chart| - 1].date == today
            && (forall j :: 0 <= j < |chart| ==> chart[j].date == WindowStart(period, today) + j)
            && (forall i, j :: 0 <= i < j < |chart| ==> chart[i].date < chart[j].date)
  {
    var chart := Chart(events, period, today);
    forall j | 0 <= j < |chart|
      ensures chart[j].date == WindowStart(period, today) + j
    {
      BucketCountsEvents(events, WindowStart(period, today) + j);
    }
  }

  /** One more event changes only its own day's bucket, and only by counting it. */
  lemma AppendEvent(events: seq<Event>, event: Event, from: int, n: nat)
    ensures forall j :: 0 <= j < n ==>
              Buckets(events + [event], from, n)[j]
              == if from + j == event.day then AddEvent(Buckets(events, from, n)[j], event.eventType)
                 else Buckets(events, from, n)[j]
    ensures !(from <= event.day < from + n) ==> Buckets(events + [event], from, n) == Buckets(events, from, n)
  {
    assert (events + [event])[..|events|] == events;
  }

  /** Counting the events of a day range one day at a time. */
  lemma {:induction false} CountInRangeSplit(events: seq<Event>, from: int, n: nat)
    ensures CountInRange(events, from, n + 1) == CountInRange(events, from, n) + CountOn(events, from + n)
  {
    if events != [] {
      CountInRangeSplit(events[..|events| - 1], from, n);
    }
  }

  /** The totals of the buckets of a day range add up to the number of events in the range. */
  lemma {:induction false} SumOfTotalsCountsRange(events: seq<Event>, from: int, n: nat)
    ensures SumTotals(Buckets(events, from, n)) == CountInRange(events, from, n)
  {
    if n == 0 {
      CountInRangeIsZero(events, from);
    } else {
      var buckets := Buckets(events, from, n);
      assert buckets[..n - 1] == Buckets(events, from, n - 1);
      SumOfTotalsCountsRange(events, from, n - 1);
      BucketCountsEvents(events, from + n - 1);
      CountInRangeSplit(events, from, n - 1);
    }
  }

  lemma {:induction false} CountInRangeIsZero(events: seq<Event>, from: int)
    ensures CountInRange(events, from, 0) == 0
  {
    if events != [] {
      CountInRangeIsZero(events[..|events| - 1], from);
    }
  }

  /**
   * The chart's totals add up to the number of events in the window: events
   * outside it are ignored and each one inside counts once.
   */
  lemma ChartTotalsCountWindowEvents(events: seq<Event>, period: string, today: int)
    ensures SumTotals(Chart(events, period, today)) == CountInRange(events, WindowStart(period, today), WindowDays(period))
  {
    SumOfTotalsCountsRange(events, WindowStart(period, today), WindowDays(period));
  }

  // ---------------------------------------------------------------------
  // The computation
  // ---------------------------------------------------------------------

  /**
   * Builds the chart: zeroed buckets for every day of the window, oldest
   * first; then each event in the window counted in its day's bucket; then
   * the buckets in the order they were created, which is ascending by date.
   */
  method ProcessAnalyticsForChart(rawData: Option<seq<Event>>, period: string, today: int)
    returns (chart: seq<DayBucket>)
    ensures chart == ChartFor(rawData, period, today)
  {
    if rawData.None? || rawData.value == [] {
      return [];
    }
    var events := rawData.value;
    var days := WindowDays(period);
    var start := today - days + 1;

    // zeroed buckets, keyed by day, and the days in the order they were added
    var grouped: map<int, DayBucket> := map[];
    var order: seq<int> := [];
    var i: int := days - 1;
    while i >= 0
      invariant -1 <= i <= days - 1
      invariant |order| == days - 1 - i
      invariant forall j :: 0 <= j < |order| ==> order[j] == start + j
      invariant forall d :: d in grouped <==> start <= d < today - i
      invariant forall d :: d in grouped ==> grouped[d] == ZeroBucket(d)
    {
      var date := today - i;
      grouped := grouped[date := ZeroBucket(date)];
      order := order + [date];
      i := i - 1;
    }

    var k := 0;
    while k < |events|
      invariant 0 <= k <= |events|
      invariant forall d :: d in grouped <==> start <= d <= today
      invariant forall d :: d in grouped ==> grouped[d] == BucketAfter(events[..k], d)
    {
      var event := events[k];
      if event.day in grouped {
        grouped := grouped[event.day := AddEvent(grouped[event.day], event.eventType)];
      }
      assert events[..k + 1][..k] == events[..k];
      k := k + 1;
    }
    assert events[..k] == events;

    chart := [];
    var j := 0;
    while j < |order|
      invariant 0 <= j <= |order|
      invariant chart == Buckets(events, start, j)
    {
      chart := chart + [grouped[order[j]]];
      j := j + 1;
    }
  }

  // ---------------------------------------------------------------------
  // The shared "total" field
  // ---------------------------------------------------------------------

  /** A bucket as the source stores it: the total is one more named counter. */
  function ZeroFieldsAsWritten(): map<string, nat> {
    map t | t in DefaultEventTypes + ["total"] :: 0
  }

  /**
   * Counting an event as the source does: bump the counter named by the
   * event type, then the "total" counter.  An event whose type is "total"
   * bumps the total twice.
   */
  function AddEventAsWritten(fields: map<string, nat>, eventType: string): (r: map<string, nat>)
    requires "total" in fields
    ensures "total" in r && eventType in r
    ensures eventType != "total" ==> r["total"] == fields["total"] + 1 && r[eventType] == Get(fields, eventType) + 1
    ensures eventType == "total" ==> r["total"] == fields["total"] + 2
  {
    var bumped := fields[eventType := Get(fields, eventType) + 1];
    bumped["total" := bumped["total"] + 1]
  }

  /** The bucket with its total stored as the "total" field, as the source lays it out. */
  function AsFields(bucket: DayBucket): map<string, nat> {
    bucket.counts["total" := bucket.total]
  }

  /** For every other event type the source's counting and `AddEvent` agree. */
  lemma AsWrittenAgreesOffTotal(bucket: DayBucket, eventType: string)
    requires "total" !in bucket.counts && eventType != "total"
    ensures AddEventAsWritten(AsFields(bucket), eventType) == AsFields(AddEvent(bucket, eventType))
  {
    assert Get(AsFields(bucket), eventType) == Get(bucket.counts, eventType);
  }

  /**
   * A single event of type "total" on a fresh day: the source's bucket
   * reports a total of 2, the model's a total of 1.
   */
  lemma TotalEventCountedTwice()
    ensures AddEventAsWritten(ZeroFieldsAsWritten(), "total")["total"] == 2
    ensures AddEvent(ZeroBucket(0), "total").total == 1
  {
    assert "total" in ZeroFieldsAsWritten();
  }
}
