/**
 * The interval splitter behind Ad.get_daily_spend: whole hours per
 * calendar date, from an ad's start up to its stop instant.
 *
 * `DailyBuckets` is the closed form of what the walk produces. The walk
 * charges the first date from the start instant to 23:59:59.999999, then
 * moves one second past that instant, so every later date is charged from
 * 00:00:00.999999 (`ResumePoint`): interior dates come to 24 hours, and the
 * last date is charged from its resume point to the stop instant. When the
 * start is not on an earlier date than the stop (a span within one date, or
 * an ad that has not started yet), the walk is skipped and the one bucket,
 * on the start's date, is the ceiling of `stop - start`, negative when the
 * start lies after the stop.
 */
module Buckets {

  import opened Time
  import opened SpendLists

  /** `min(end_time, now)`: an ad running into the future is charged only up to now. */
  function EffectiveEnd(endTime: Instant, now: Instant): (stop: Instant)
    ensures stop <= now && stop <= endTime
    ensures stop == now || stop == endTime
  {
    if endTime > now then now else endTime
  }

  /** Where the walk resumes on date `d`: one second after the previous date's last microsecond. */
  function ResumePoint(d: Date): (t: Instant)
    ensures t == LastMicrosecond(d - 1) + SecondUs
    ensures DateOf(t) == d
  {
    Midnight(d) + SecondUs - 1
  }

  /** Date-by-date hours from `start` to `stop`, one bucket per date from DateOf(start) on. */
  function DailyBuckets(start: Instant, stop: Instant): seq<Spend<Date>>
  {
    var first := DateOf(start);
    var last := DateOf(stop);
    if first < last then
      [Spend(first, CeilHours(LastMicrosecond(first) - start))]
      + seq(last - first - 1, i requires 0 <= i < last - first - 1 => Spend(first + 1 + i, 24))
      + [Spend(last, CeilHours(stop - ResumePoint(last)))]
    else
      [Spend(first, CeilHours(stop - start))]
  }

  /** The k-th bucket of a span that crosses midnight. */
  lemma BucketAt(start: Instant, stop: Instant, k: nat)
    requires DateOf(start) < DateOf(stop)
    requires k <= DateOf(stop) - DateOf(start)
    ensures |DailyBuckets(start, stop)| == DateOf(stop) - DateOf(start) + 1
    ensures DailyBuckets(start, stop)[k] ==
      if k == 0 then Spend(DateOf(start), CeilHours(LastMicrosecond(DateOf(start)) - start))
      else if k < DateOf(stop) - DateOf(start) then Spend(DateOf(start) + k, 24)
      else Spend(DateOf(stop), CeilHours(stop - ResumePoint(DateOf(stop))))
  {
  }

  /** A span within one date gives exactly one bucket: that date and the hours of the span, rounded up. */
  lemma SameDayBucket(start: Instant, stop: Instant)
    requires DateOf(start) == DateOf(stop)
    ensures DailyBuckets(start, stop) == [Spend(DateOf(start), CeilHours(stop - start))]
  {
  }

  /**
   * One bucket per date from the start's date to the stop's date, in
   * increasing and consecutive order; a single bucket when the stop's date
   * is not after the start's.
   */
  lemma BucketDates(start: Instant, stop: Instant)
    ensures |DailyBuckets(start, stop)| ==
      if DateOf(start) < DateOf(stop) then DateOf(stop) - DateOf(start) + 1 else 1
    ensures forall k :: 0 <= k < |DailyBuckets(start, stop)| ==> DailyBuckets(start, stop)[k].key == DateOf(start) + k
  {
    if DateOf(start) < DateOf(stop) {
      forall k | 0 <= k < |DailyBuckets(start, stop)| ensures DailyBuckets(start, stop)[k].key == DateOf(start) + k {
        BucketAt(start, stop, k);
      }
    }
  }

  /** When the span is not reversed, every bucket holds between 0 and 24 hours. */
  lemma BucketHoursWithinDay(start: Instant, stop: Instant)
    requires start <= stop
    ensures forall k :: 0 <= k < |DailyBuckets(start, stop)| ==> 0 <= DailyBuckets(start, stop)[k].duration <= 24
  {
    var first := DateOf(start);
    var last := DateOf(stop);
    if first < last {
      CeilHoursWithinDay(LastMicrosecond(first) - start);
      CeilHoursWithinDay(stop - ResumePoint(last));
      forall k | 0 <= k < |DailyBuckets(start, stop)| ensures 0 <= DailyBuckets(start, stop)[k].duration <= 24 {
        BucketAt(start, stop, k);
      }
    } else {
      CeilHoursWithinDay(stop - start);
    }
  }

}
