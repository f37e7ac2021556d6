/**
 * The persistent entities of the ad manager (Brand, Ad, AdSpend) and the
 * reporting methods defined on them.
 *
 * Brand and Ad are classes: the periodic routines update their fields in
 * place. Fields that no routine writes (names, budgets, the time window,
 * the owning brand) are constants. Money is exact (`real`, for Decimal);
 * the nullable spend and checkpoint columns are `Option`s.
 */
module Models {

  import opened Wrappers
  import opened Time
  import opened SpendLists
  import opened Buckets

  class Brand {
    const name: string
    const dailyBudget: real
    const monthlyBudget: real
    var dailySpend: Option<real>
    var monthlySpend: Option<real>
    var lastSpendUpdate: Option<Instant>

    /** A new brand: both spends default to 0, no rollup has run yet. */
    constructor (name: string, dailyBudget: real, monthlyBudget: real)
      ensures this.name == name && this.dailyBudget == dailyBudget && this.monthlyBudget == monthlyBudget
      ensures dailySpend == Some(0.0) && monthlySpend == Some(0.0) && lastSpendUpdate == None
    {
      this.name := name;
      this.dailyBudget := dailyBudget;
      this.monthlyBudget := monthlyBudget;
      dailySpend := Some(0.0);
      monthlySpend := Some(0.0);
      lastSpendUpdate := None;
    }

    /**
     * Hours per date over all of this brand's ads (`ads`, in the order the
     * caller lists them): one entry per date, dates in the order they first
     * occur, each date's hours the sum of the ads' buckets for that date.
     */
    method DailySpend(ads: seq<Ad>, now: Instant) returns (list: seq<Spend<Date>>)
      requires forall a :: a in ads ==> a.brand == this
      ensures Keys(list) == FirstSeen(Keys(AllBuckets(ads, now)))
      ensures Distinct(Keys(list))
      ensures forall d :: Lookup(list, d) == SumFor(AllBuckets(ads, now), d)
      ensures Total(list) == Total(AllBuckets(ads, now))
    {
      list := [];
      for i := 0 to |ads|
        invariant list == Merged(AllBuckets(ads[..i], now))
      {
        var buckets := ads[i].DailySpend(now);
        ghost var before := AllBuckets(ads[..i], now);
        assert before + buckets[..0] == before;
        for j := 0 to |buckets|
          invariant list == Merged(before + buckets[..j])
        {
          MergedSnoc(before, buckets, j);
          list := Merge(list, buckets[j]);
        }
        assert buckets[..|buckets|] == buckets;
        AllBucketsSnoc(ads, i, now);
      }
      assert ads[..|ads|] == ads;
      MergedSpec(AllBuckets(ads, now));
    }

    /**
     * Hours per calendar month over all of this brand's ads: the same
     * merge as DailySpend with each date replaced by its year and month, so
     * the grand total is the daily list's grand total.
     */
    method MonthlySpend(ads: seq<Ad>, now: Instant) returns (list: seq<Spend<YearMonth>>)
      requires forall a :: a in ads ==> a.brand == this
      ensures Keys(list) == FirstSeen(Keys(MonthKeyed(AllBuckets(ads, now))))
      ensures Distinct(Keys(list))
      ensures forall m :: Lookup(list, m) == SumFor(MonthKeyed(AllBuckets(ads, now)), m)
      ensures Total(list) == Total(AllBuckets(ads, now))
    {
      list := [];
      for i := 0 to |ads|
        invariant list == Merged(MonthKeyed(AllBuckets(ads[..i], now)))
      {
        var buckets := ads[i].DailySpend(now);
        ghost var before := AllBuckets(ads[..i], now);
        assert before + buckets[..0] == before;
        for j := 0 to |buckets|
          invariant list == Merged(MonthKeyed(before + buckets[..j]))
        {
          RekeySnoc(before, buckets, j, MonthOf);
          list := Merge(list, Spend(MonthOf(buckets[j].key), buckets[j].duration));
        }
        assert buckets[..|buckets|] == buckets;
        AllBucketsSnoc(ads, i, now);
      }
      assert ads[..|ads|] == ads;
      MergedSpec(MonthKeyed(AllBuckets(ads, now)));
      RekeyTotal(AllBuckets(ads, now), MonthOf);
    }

    /** Hours charged on one date over this brand's ads; 0 for a date none of them ran on. */
    method DateSpend(ads: seq<Ad>, now: Instant, date: Date) returns (duration: int)
      requires forall a :: a in ads ==> a.brand == this
      ensures duration == SumFor(AllBuckets(ads, now), date)
    {
      var list := DailySpend(ads, now);
      duration := Lookup(list, date);
    }

    /** Hours charged in one month over this brand's ads; 0 for a month none of them ran in. */
    method MonthSpend(ads: seq<Ad>, now: Instant, month: YearMonth) returns (duration: int)
      requires forall a :: a in ads ==> a.brand == this
      ensures duration == SumFor(MonthKeyed(AllBuckets(ads, now)), month)
    {
      var list := MonthlySpend(ads, now);
      duration := Lookup(list, month);
    }
  }

  class Ad {
    const brand: Brand
    const name: string
    const startTime: Instant
    const endTime: Instant
    var active: bool
    var lastActiveTime: Option<Instant>

    /** A new ad: it has never been activated, so it has no checkpoint. */
    constructor (brand: Brand, name: string, startTime: Instant, endTime: Instant, active: bool)
      ensures this.brand == brand && this.name == name
      ensures this.startTime == startTime && this.endTime == endTime
      ensures this.active == active && lastActiveTime == None
    {
      this.brand := brand;
      this.name := name;
      this.startTime := startTime;
      this.endTime := endTime;
      this.active := active;
      lastActiveTime := None;
    }

    /**
     * The walk of Ad.get_daily_spend: whole hours per date from the start up
     * to the earlier of the end and `now`, each later date charged from
     * 00:00:00.999999, and a single negative bucket for an ad that has not
     * started yet (see `Buckets.DailyBuckets`).
     */
    method DailySpend(now: Instant) returns (list: seq<Spend<Date>>)
      ensures list == DailyBuckets(startTime, EffectiveEnd(endTime, now))
    {
      list := [];
      var current := startTime;
      var stop := endTime;
      if endTime > now {
        stop := now;
      }
      ghost var first := DateOf(startTime);
      ghost var spec := DailyBuckets(startTime, stop);
      while DateOf(current) < DateOf(stop)
        invariant DateOf(current) == first + |list|
        invariant DateOf(current) <= DateOf(stop) || list == []
        invariant current == if list == [] then startTime else ResumePoint(DateOf(current))
        invariant forall k :: 0 <= k < |list| ==> list[k] == spec[k]
        decreases DateOf(stop) - DateOf(current)
      {
        var dayEnd := LastMicrosecond(DateOf(current));
        BucketAt(startTime, stop, |list|);
        list := list + [Spend(DateOf(current), CeilHours(dayEnd - current))];
        current := dayEnd + SecondUs;
      }
      list := list + [Spend(DateOf(current), CeilHours(stop - current))];
      if first < DateOf(stop) {
        BucketAt(startTime, stop, |list| - 1);
      }
    }
  }

  /** One AdSpend row: the hours an ad was charged on one date. */
  datatype AdSpendRow = AdSpendRow(ad: Ad, date: Date, spent: real)

  /**
   * The three tables the routines work on. The brands and ads are fixed
   * for the lifetime of a pass (no routine creates or deletes them); the
   * AdSpend table grows by upserts.
   */
  class Database {
    const brands: seq<Brand>
    const ads: seq<Ad>
    var adSpend: seq<AdSpendRow>

    /** The integrity the tables keep (see `Tables`). */
    ghost predicate Valid()
      reads this
    {
      Tables(brands, ads, adSpend)
    }

    constructor (brands: seq<Brand>, ads: seq<Ad>, adSpend: seq<AdSpendRow>)
      requires Tables(brands, ads, adSpend)
      ensures this.brands == brands && this.ads == ads && this.adSpend == adSpend
      ensures Valid()
    {
      this.brands := brands;
      this.ads := ads;
      this.adSpend := adSpend;
    }
  }

  /**
   * Integrity of the three tables: each brand and ad listed once, every
   * ad's brand and every row's ad present, and at most one AdSpend row
   * per ad and date.
   */
  ghost predicate Tables(brands: seq<Brand>, ads: seq<Ad>, adSpend: seq<AdSpendRow>)
  {
    && (forall i, j :: 0 <= i < j < |brands| ==> brands[i] != brands[j])
    && (forall i, j :: 0 <= i < j < |ads| ==> ads[i] != ads[j])
    && (forall a :: a in ads ==> a.brand in brands)
    && (forall r :: r in adSpend ==> r.ad in ads)
    && UniqueRowKeys(adSpend)
  }

  /** At most one row per (ad, date). */
  predicate UniqueRowKeys(rows: seq<AdSpendRow>)
  {
    forall i, j :: 0 <= i < j < |rows| ==> (rows[i].ad, rows[i].date) != (rows[j].ad, rows[j].date)
  }

  /** The buckets of every ad in `ads`, one ad after another. */
  function AllBuckets(ads: seq<Ad>, now: Instant): seq<Spend<Date>>
  {
    if ads == [] then []
    else
      var a := ads[|ads| - 1];
      AllBuckets(ads[..|ads| - 1], now) + DailyBuckets(a.startTime, EffectiveEnd(a.endTime, now))
  }

  /** The same entries keyed by their date's year and month. */
  function MonthKeyed(es: seq<Spend<Date>>): seq<Spend<YearMonth>>
  {
    Rekey(es, MonthOf)
  }

  /** The buckets of one more ad follow those of the ads before it. */
  lemma AllBucketsSnoc(ads: seq<Ad>, i: nat, now: Instant)
    requires i < |ads|
    ensures AllBuckets(ads[..i + 1], now)
         == AllBuckets(ads[..i], now) + DailyBuckets(ads[i].startTime, EffectiveEnd(ads[i].endTime, now))
  {
    assert ads[..i + 1][..i] == ads[..i];
  }

}
