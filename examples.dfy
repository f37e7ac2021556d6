/**
 * The expected values of the repository's test suite, checked against the
 * model. Dates are day numbers: 19358 is 2023-01-01.
 */
module Examples {

  import opened Time
  import opened SpendLists
  import opened Buckets
  import opened Models

  const Jan1: Date := 19358

  /** An instant on a date, at a whole hour and minute. */
  function At(d: Date, hour: int, minute: int): Instant
  {
    Midnight(d) + hour * HourUs + minute * 60 * SecondUs
  }

  /** Every date from 2023-01-01 to 2023-01-31 lies in January 2023. */
  lemma January2023(d: Date)
    requires Jan1 <= d < Jan1 + 31
    ensures MonthOf(d) == YearMonth(2023, 1)
  {
    var shifted := d + 719468;
    var era := shifted / 146097;
    assert era == 5;
    var dayOfEra := shifted - era * 146097;
    assert dayOfEra / 1460 == 5 && dayOfEra / 36524 == 0 && dayOfEra / 146096 == 0;
    var yearOfEra := (dayOfEra - dayOfEra / 1460 + dayOfEra / 36524 - dayOfEra / 146096) / 365;
    assert yearOfEra == 22;
    var dayOfYear := dayOfEra - (365 * yearOfEra + yearOfEra / 4 - yearOfEra / 100);
    assert 306 <= dayOfYear < 337;
    var marchMonth := (5 * dayOfYear + 2) / 153;
    assert marchMonth == 10;
  }

  /** Every date from 2023-02-01 to 2023-02-28 lies in February 2023. */
  lemma February2023(d: Date)
    requires Jan1 + 31 <= d < Jan1 + 59
    ensures MonthOf(d) == YearMonth(2023, 2)
  {
    var shifted := d + 719468;
    var era := shifted / 146097;
    assert era == 5;
    var dayOfEra := shifted - era * 146097;
    assert dayOfEra / 1460 == 5 && dayOfEra / 36524 == 0 && dayOfEra / 146096 == 0;
    var yearOfEra := (dayOfEra - dayOfEra / 1460 + dayOfEra / 36524 - dayOfEra / 146096) / 365;
    assert yearOfEra == 22;
    var dayOfYear := dayOfEra - (365 * yearOfEra + yearOfEra / 4 - yearOfEra / 100);
    assert 337 <= dayOfYear < 365;
    var marchMonth := (5 * dayOfYear + 2) / 153;
    assert marchMonth == 11;
  }

  /** `n` consecutive full days from `d0`. */
  function FullDays(d0: Date, n: nat): (r: seq<Spend<Date>>)
    ensures |r| == n
  {
    seq(n, i requires 0 <= i < n => Spend(d0 + i, 24))
  }

  /** A run of full days inside one month adds 24 hours a day to it; a run outside it adds nothing. */
  lemma {:induction false} FullDaysInMonth(d0: Date, n: nat, month: Date -> YearMonth, m: YearMonth)
    ensures (forall d :: d0 <= d < d0 + n ==> month(d) == m) ==> SumFor(Rekey(FullDays(d0, n), month), m) == 24 * n
    ensures (forall d :: d0 <= d < d0 + n ==> month(d) != m) ==> SumFor(Rekey(FullDays(d0, n), month), m) == 0
  {
    if n > 0 {
      FullDaysInMonth(d0, n - 1, month, m);
      var ms := Rekey(FullDays(d0, n), month);
      assert ms[..n - 1] == Rekey(FullDays(d0, n - 1), month);
    }
  }

  /** An ad running 09:00 to 17:00 on one day is charged 8 hours on that day. */
  lemma AdOneDay(now: Instant)
    requires now >= At(Jan1, 17, 0)
    ensures DailyBuckets(At(Jan1, 9, 0), EffectiveEnd(At(Jan1, 17, 0), now)) == [Spend(Jan1, 8)]
  {
  }

  /** 2023-01-01 09:00 to 2023-01-03 08:00: 15, 24 and 8 hours. */
  lemma AdManyDays(now: Instant)
    requires now >= At(Jan1 + 2, 8, 0)
    ensures DailyBuckets(At(Jan1, 9, 0), EffectiveEnd(At(Jan1 + 2, 8, 0), now))
         == [Spend(Jan1, 15), Spend(Jan1 + 1, 24), Spend(Jan1 + 2, 8)]
  {
    BucketAt(At(Jan1, 9, 0), At(Jan1 + 2, 8, 0), 0);
    BucketAt(At(Jan1, 9, 0), At(Jan1 + 2, 8, 0), 1);
    BucketAt(At(Jan1, 9, 0), At(Jan1 + 2, 8, 0), 2);
  }

  /** An ad from two hours ago to two hours ahead is charged the two hours up to now. */
  lemma AdEndingInFuture()
    ensures DailyBuckets(At(Jan1 + 2, 10, 0), EffectiveEnd(At(Jan1 + 2, 14, 0), At(Jan1 + 2, 12, 0)))
         == [Spend(Jan1 + 2, 2)]
  {
  }

  /** A start at 00:59:59 is charged 24 hours for its first day: the walk counts to 23:59:59.999999. */
  lemma StartJustBeforeOneOClock()
    ensures DailyBuckets(Midnight(Jan1) + 3599 * SecondUs, At(Jan1 + 1, 8, 0))[0] == Spend(Jan1, 24)
  {
    BucketAt(Midnight(Jan1) + 3599 * SecondUs, At(Jan1 + 1, 8, 0), 0);
  }

  /**
   * The walk resumes at 00:00:00.999999, not at midnight: an ad from 23:00
   * to half a second after midnight is charged 1 hour on its first day and
   * 0 on the second.
   */
  lemma EndJustAfterMidnight()
    ensures DailyBuckets(At(Jan1, 23, 0), Midnight(Jan1 + 1) + SecondUs / 2) == [Spend(Jan1, 1), Spend(Jan1 + 1, 0)]
  {
    BucketAt(At(Jan1, 23, 0), Midnight(Jan1 + 1) + SecondUs / 2, 0);
    BucketAt(At(Jan1, 23, 0), Midnight(Jan1 + 1) + SecondUs / 2, 1);
  }

  /**
   * The last date is charged from 00:00:00.999999 too: an ad from 09:00 to
   * half a second past 08:00 the next day is charged 8 hours for that day,
   * not the 9 that rounding up from midnight would give.
   */
  lemma EndHalfSecondPastEight()
    ensures DailyBuckets(At(Jan1, 9, 0), At(Jan1 + 1, 8, 0) + SecondUs / 2) == [Spend(Jan1, 15), Spend(Jan1 + 1, 8)]
  {
    BucketAt(At(Jan1, 9, 0), At(Jan1 + 1, 8, 0) + SecondUs / 2, 0);
    BucketAt(At(Jan1, 9, 0), At(Jan1 + 1, 8, 0) + SecondUs / 2, 1);
  }

  /**
   * An ad that has not started yet (09:00-17:00 on 2023-01-03, looked at on
   * 2023-01-01 at noon) skips the walk and gets one bucket on its start date
   * holding the ceiling of a negative span: -45 hours.
   */
  lemma NotYetStarted()
    ensures DailyBuckets(At(Jan1 + 2, 9, 0), EffectiveEnd(At(Jan1 + 2, 17, 0), At(Jan1, 12, 0))) == [Spend(Jan1 + 2, -45)]
  {
    assert DateOf(At(Jan1, 12, 0)) == Jan1 && DateOf(At(Jan1 + 2, 9, 0)) == Jan1 + 2;
  }

  /** Two ads on one day, 8 and 11 hours: the brand's daily list is one entry of 19. */
  lemma BrandOneDay(now: Instant)
    requires now >= At(Jan1, 20, 0)
    ensures Merged(DailyBuckets(At(Jan1, 9, 0), EffectiveEnd(At(Jan1, 17, 0), now))
                 + DailyBuckets(At(Jan1, 9, 0), EffectiveEnd(At(Jan1, 20, 0), now)))
         == [Spend(Jan1, 19)]
  {
    var es := [Spend(Jan1, 8), Spend(Jan1, 11)];
    assert es[..1] == [Spend(Jan1, 8)] && es[..1][..0] == [];
    assert Merged(es[..1]) == [Spend(Jan1, 8)];
  }

  /** Merging an entry whose key first occurs at index `i` of the merged list adds to that entry. */
  lemma MergedInto<K>(es: seq<Spend<K>>, e: Spend<K>, i: nat)
    requires i < |Merged(es)| && Merged(es)[i].key == e.key
    requires forall j :: 0 <= j < i ==> Merged(es)[j].key != e.key
    ensures Merged(es + [e]) == Merged(es)[i := Spend(e.key, e.duration + Merged(es)[i].duration)]
  {
    MergedAppend(es, e);
    FirstIndexUnique(Merged(es), e.key, i);
  }

  /** Merging three entries with different keys keeps them as they are. */
  lemma MergedThreeNew<K>(a: Spend<K>, b: Spend<K>, c: Spend<K>)
    requires a.key != b.key && a.key != c.key && b.key != c.key
    ensures Merged([a, b, c]) == [a, b, c]
  {
    MergedAppend([], a);
    assert [] + [a] == [a];
    MergedAppend([a], b);
    assert [a] + [b] == [a, b];
    MergedAppend([a, b], c);
    assert [a, b] + [c] == [a, b, c];
  }

  /** Merging two ads' buckets over the same three dates gives one entry per date with the two amounts added. */
  lemma MergeTwoRuns<K>(x: K, y: K, z: K, a1: int, a2: int, a3: int, b1: int, b2: int, b3: int)
    requires x != y && x != z && y != z
    ensures Merged([Spend(x, a1), Spend(y, a2), Spend(z, a3), Spend(x, b1), Spend(y, b2), Spend(z, b3)])
         == [Spend(x, b1 + a1), Spend(y, b2 + a2), Spend(z, b3 + a3)]
  {
    var a, b, c := Spend(x, a1), Spend(y, a2), Spend(z, a3);
    var d, e, f := Spend(x, b1), Spend(y, b2), Spend(z, b3);
    MergedThreeNew(a, b, c);
    MergedInto([a, b, c], d, 0);
    assert [a, b, c] + [d] == [a, b, c, d];
    MergedInto([a, b, c, d], e, 1);
    assert [a, b, c, d] + [e] == [a, b, c, d, e];
    MergedInto([a, b, c, d, e], f, 2);
    assert [a, b, c, d, e] + [f] == [a, b, c, d, e, f];
  }

  /** Two ads over three days: 30, 48 and 20 hours. */
  lemma BrandManyDays(now: Instant)
    requires now >= At(Jan1 + 2, 12, 0)
    ensures Merged(DailyBuckets(At(Jan1, 9, 0), EffectiveEnd(At(Jan1 + 2, 12, 0), now))
                 + DailyBuckets(At(Jan1, 9, 0), EffectiveEnd(At(Jan1 + 2, 8, 0), now)))
         == [Spend(Jan1, 30), Spend(Jan1 + 1, 48), Spend(Jan1 + 2, 20)]
  {
    var one := DailyBuckets(At(Jan1, 9, 0), At(Jan1 + 2, 12, 0));
    BucketAt(At(Jan1, 9, 0), At(Jan1 + 2, 12, 0), 0);
    BucketAt(At(Jan1, 9, 0), At(Jan1 + 2, 12, 0), 1);
    BucketAt(At(Jan1, 9, 0), At(Jan1 + 2, 12, 0), 2);
    assert one == [Spend(Jan1, 15), Spend(Jan1 + 1, 24), Spend(Jan1 + 2, 12)];
    AdManyDays(now);
    MergeTwoRuns(Jan1, Jan1 + 1, Jan1 + 2, 15, 24, 12, 15, 24, 8);
    assert one + [Spend(Jan1, 15), Spend(Jan1 + 1, 24), Spend(Jan1 + 2, 8)]
        == [Spend(Jan1, 15), Spend(Jan1 + 1, 24), Spend(Jan1 + 2, 12),
            Spend(Jan1, 15), Spend(Jan1 + 1, 24), Spend(Jan1 + 2, 8)];
  }

  /** One entry's share of a key's sum. */
  lemma SumForOne(e: Spend<YearMonth>, m: YearMonth)
    ensures SumFor([e], m) == if e.key == m then e.duration else 0
  {
    assert [e][..0] == [];
  }

  /** Sum under key `m` of the re-keyed concatenation of four parts. */
  lemma SumOfFour(a: seq<Spend<Date>>, b: seq<Spend<Date>>, c: seq<Spend<Date>>, d: seq<Spend<Date>>,
                  f: Date -> YearMonth, m: YearMonth)
    ensures SumFor(Rekey(a + b + c + d, f), m)
         == SumFor(Rekey(a, f), m) + SumFor(Rekey(b, f), m) + SumFor(Rekey(c, f), m) + SumFor(Rekey(d, f), m)
  {
    RekeyAppend(a + b + c, d, f);
    RekeyAppend(a + b, c, f);
    RekeyAppend(a, b, f);
    SumForAppend(Rekey(a + b + c, f), Rekey(d, f), m);
    SumForAppend(Rekey(a + b, f), Rekey(c, f), m);
    SumForAppend(Rekey(a, f), Rekey(b, f), m);
  }

  /** 2023-01-01 09:00 to 2023-02-03 09:00, as its four parts. */
  lemma LongAdBuckets(now: Instant)
    requires now >= At(Jan1 + 33, 9, 0)
    ensures DailyBuckets(At(Jan1, 9, 0), EffectiveEnd(At(Jan1 + 33, 9, 0), now))
         == [Spend(Jan1, 15)] + FullDays(Jan1 + 1, 30) + FullDays(Jan1 + 31, 2) + [Spend(Jan1 + 33, 9)]
  {
    var start, stop := At(Jan1, 9, 0), At(Jan1 + 33, 9, 0);
    assert DateOf(start) == Jan1 && DateOf(stop) == Jan1 + 33;
    assert CeilHours(LastMicrosecond(Jan1) - start) == 15;
    assert CeilHours(stop - ResumePoint(Jan1 + 33)) == 9;
    assert seq(32, i requires 0 <= i < 32 => Spend(Jan1 + 1 + i, 24)) == FullDays(Jan1 + 1, 30) + FullDays(Jan1 + 31, 2);
  }

  /** The long ad's four parts, under any month function that agrees with the calendar on them. */
  lemma LongAdParts(f: Date -> YearMonth, jan: YearMonth, feb: YearMonth)
    requires jan != feb
    requires forall d :: Jan1 <= d < Jan1 + 31 ==> f(d) == jan
    requires forall d :: Jan1 + 31 <= d < Jan1 + 59 ==> f(d) == feb
    ensures SumFor(Rekey([Spend(Jan1, 15)] + FullDays(Jan1 + 1, 30) + FullDays(Jan1 + 31, 2) + [Spend(Jan1 + 33, 9)], f), jan) == 735
    ensures SumFor(Rekey([Spend(Jan1, 15)] + FullDays(Jan1 + 1, 30) + FullDays(Jan1 + 31, 2) + [Spend(Jan1 + 33, 9)], f), feb) == 57
  {
    var first, run1, run2, last := [Spend(Jan1, 15)], FullDays(Jan1 + 1, 30), FullDays(Jan1 + 31, 2), [Spend(Jan1 + 33, 9)];
    FullDaysInMonth(Jan1 + 1, 30, f, jan);
    FullDaysInMonth(Jan1 + 1, 30, f, feb);
    FullDaysInMonth(Jan1 + 31, 2, f, jan);
    FullDaysInMonth(Jan1 + 31, 2, f, feb);
    assert Rekey(first, f) == [Spend(jan, 15)];
    assert Rekey(last, f) == [Spend(feb, 9)];
    SumForOne(Spend(jan, 15), jan);
    SumForOne(Spend(jan, 15), feb);
    SumForOne(Spend(feb, 9), jan);
    SumForOne(Spend(feb, 9), feb);
    SumOfFour(first, run1, run2, last, f, jan);
    SumOfFour(first, run1, run2, last, f, feb);
  }

  /** The short ad's three days, under any month function that puts them in `jan`. */
  lemma ShortAdParts(f: Date -> YearMonth, jan: YearMonth, feb: YearMonth)
    requires jan != feb
    requires f(Jan1) == jan && f(Jan1 + 1) == jan && f(Jan1 + 2) == jan
    ensures SumFor(Rekey([Spend(Jan1, 15), Spend(Jan1 + 1, 24), Spend(Jan1 + 2, 8)], f), jan) == 47
    ensures SumFor(Rekey([Spend(Jan1, 15), Spend(Jan1 + 1, 24), Spend(Jan1 + 2, 8)], f), feb) == 0
  {
    var months := [Spend(jan, 15), Spend(jan, 24), Spend(jan, 8)];
    assert Rekey([Spend(Jan1, 15), Spend(Jan1 + 1, 24), Spend(Jan1 + 2, 8)], f) == months;
    assert months[..2] == [Spend(jan, 15), Spend(jan, 24)];
    assert months[..2][..1] == [Spend(jan, 15)];
    SumForOne(Spend(jan, 15), jan);
    SumForOne(Spend(jan, 15), feb);
  }

  /** The calendar month of every date from 2023-01-01 to 2023-02-28. */
  lemma EarlyMonths2023()
    ensures forall d :: Jan1 <= d < Jan1 + 31 ==> MonthOf(d) == YearMonth(2023, 1)
    ensures forall d :: Jan1 + 31 <= d < Jan1 + 59 ==> MonthOf(d) == YearMonth(2023, 2)
  {
    forall d | Jan1 <= d < Jan1 + 31 ensures MonthOf(d) == YearMonth(2023, 1) { January2023(d); }
    forall d | Jan1 + 31 <= d < Jan1 + 59 ensures MonthOf(d) == YearMonth(2023, 2) { February2023(d); }
  }

  /**
   * The brand's two ads, 2023-01-01 09:00 to 2023-02-03 09:00 and to
   * 2023-01-03 08:00: 782 hours in January and 57 in February, the values
   * Brand.MonthSpend gives.
   */
  lemma BrandManyMonths(now: Instant)
    requires now >= At(Jan1 + 33, 9, 0)
    ensures SumFor(MonthKeyed(DailyBuckets(At(Jan1, 9, 0), EffectiveEnd(At(Jan1 + 33, 9, 0), now))
                            + DailyBuckets(At(Jan1, 9, 0), EffectiveEnd(At(Jan1 + 2, 8, 0), now))), YearMonth(2023, 1)) == 782
    ensures SumFor(MonthKeyed(DailyBuckets(At(Jan1, 9, 0), EffectiveEnd(At(Jan1 + 33, 9, 0), now))
                            + DailyBuckets(At(Jan1, 9, 0), EffectiveEnd(At(Jan1 + 2, 8, 0), now))), YearMonth(2023, 2)) == 57
  {
    var jan, feb := YearMonth(2023, 1), YearMonth(2023, 2);
    var long := DailyBuckets(At(Jan1, 9, 0), EffectiveEnd(At(Jan1 + 33, 9, 0), now));
    var short := DailyBuckets(At(Jan1, 9, 0), EffectiveEnd(At(Jan1 + 2, 8, 0), now));
    LongAdBuckets(now);
    AdManyDays(now);
    EarlyMonths2023();
    LongAdParts(MonthOf, jan, feb);
    ShortAdParts(MonthOf, jan, feb);
    RekeyAppend(long, short, MonthOf);
    SumForAppend(Rekey(long, MonthOf), Rekey(short, MonthOf), jan);
    SumForAppend(Rekey(long, MonthOf), Rekey(short, MonthOf), feb);
  }

}
