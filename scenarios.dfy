/**
 * The repository's task tests replayed on the model: a small database is
 * built, the periodic routines run at the frozen instants the tests use,
 * and the values the tests assert are the methods' results.
 */
module Scenarios {

  import opened Wrappers
  import opened Time
  import opened Models
  import opened Tasks
  import opened Examples

  /** One brand (daily budget 100, monthly 200, nothing spent) and one inactive ad. */
  method Setup(end: Instant) returns (db: Database, brand: Brand, ad: Ad)
    ensures fresh(db) && fresh(brand) && fresh(ad)
    ensures db.brands == [brand] && db.ads == [ad] && db.adSpend == []
    ensures db.Valid()
    ensures brand.dailyBudget == 100.0 && brand.monthlyBudget == 200.0
    ensures brand.dailySpend == Some(0.0) && brand.monthlySpend == Some(0.0)
    ensures ad.brand == brand && ad.startTime == At(Jan1, 9, 0) && ad.endTime == end
    ensures !ad.active && ad.lastActiveTime == None
  {
    brand := new Brand("Brand 1", 100.0, 200.0);
    ad := new Ad(brand, "Ad 1", At(Jan1, 9, 0), end, false);
    db := new Database([brand], [ad], []);
  }

  /** At 10:00, inside the 09:00-17:00 window and under budget, the ad is switched on. */
  method SchedulerActivates() returns (active: bool, lastActive: Option<Instant>)
    ensures active && lastActive == Some(At(Jan1, 10, 0))
  {
    var db, brand, ad := Setup(At(Jan1, 17, 0));
    ScheduleAds(db, At(Jan1, 10, 0));
    assert ad in db.ads;
    active, lastActive := ad.active, ad.lastActiveTime;
  }

  /** With 120 spent against a daily budget of 100, the ad stays off. */
  method SchedulerBudgetExceeded() returns (active: bool)
    ensures !active
  {
    var db, brand, ad := Setup(At(Jan1, 17, 0));
    brand.dailySpend := Some(120.0);
    ScheduleAds(db, At(Jan1, 10, 0));
    assert ad in db.ads;
    active := ad.active;
  }

  /** At 18:00, after the window closed, an active ad is switched off. */
  method SchedulerDeactivates() returns (active: bool)
    ensures !active
  {
    var db, brand, ad := Setup(At(Jan1, 17, 0));
    ad.active := true;
    ScheduleAds(db, At(Jan1, 18, 0));
    assert ad in db.ads;
    active := ad.active;
  }

  /** Switched on at 12:00 and accrued at 14:00 the same day: 2 hours for 2023-01-01. */
  method AccrualOneDay() returns (spent: Option<real>)
    ensures spent == Some(2.0)
  {
    var db, brand, ad := Setup(At(Jan1 + 1, 17, 0));
    ScheduleAds(db, At(Jan1, 12, 0));
    assert ad in db.ads;
    Clock();
    UpdateAdSpend(db, At(Jan1, 14, 0));
    spent := SpentOn(db.adSpend, ad, Jan1);
  }

  /** Switched on at 12:00 and accrued at 14:00 the next day: 14 hours for 2023-01-02, counted from midnight. */
  method AccrualNextDay() returns (spent: Option<real>)
    ensures spent == Some(14.0)
  {
    var db, brand, ad := Setup(At(Jan1 + 1, 17, 0));
    ScheduleAds(db, At(Jan1, 12, 0));
    assert ad in db.ads;
    Clock();
    UpdateAdSpend(db, At(Jan1 + 1, 14, 0));
    spent := SpentOn(db.adSpend, ad, Jan1 + 1);
  }

  /** A database of one brand and one ad of that brand. */
  ghost predicate OneAd(db: Database, brand: Brand, ad: Ad)
    reads db
  {
    db.Valid() && db.brands == [brand] && db.ads == [ad] && ad.brand == brand
  }

  /**
   * One tick of the tests' clock over a database of one brand and one
   * active ad: an accrual pass, then a rollup pass, both at `now`. The
   * accrual charges `hours` on `date` and leaves the table `rows`; the
   * brand's sums over `rows` are `daily` and `monthly`, both under budget.
   */
  method Tick(db: Database, brand: Brand, ad: Ad, now: Instant, date: Date, hours: real,
              rows: seq<AdSpendRow>, daily: real, monthly: real)
    requires OneAd(db, brand, ad) && ad.active && ad.lastActiveTime.Some?
    requires DateOf(now) == date && TodayHours(ad, now) == hours
    requires Upsert(db.adSpend, ad, date, hours) == rows
    requires SumSpent(rows, brand, TodayOf(now)) == Some(daily) && SumSpent(rows, brand, ThisMonthOf(now)) == Some(monthly)
    requires daily < brand.dailyBudget && monthly < brand.monthlyBudget
    modifies db, db.brands, db.ads
    ensures OneAd(db, brand, ad) && db.adSpend == rows
    ensures brand.dailySpend == Some(daily) && brand.monthlySpend == Some(monthly)
    ensures ad.active && ad.lastActiveTime == old(ad.lastActiveTime)
  {
    UpdateAdSpend(db, now);
    assert [ad][..0] == [];
    assert db.adSpend == rows;
    UpdateBrandSpend(db, now);
    assert brand in db.brands && ad in db.ads;
  }

  /** The dates and accrued hours at the tests' instants, for an ad switched on at noon on 2023-01-01. */
  lemma Clock()
    ensures DateOf(At(Jan1, 14, 0)) == Jan1 && AccruedHours(At(Jan1, 12, 0), At(Jan1, 14, 0)) == 2
    ensures DateOf(At(Jan1, 16, 0)) == Jan1 && AccruedHours(At(Jan1, 12, 0), At(Jan1, 16, 0)) == 4
    ensures DateOf(At(Jan1 + 1, 14, 0)) == Jan1 + 1 && AccruedHours(At(Jan1, 12, 0), At(Jan1 + 1, 14, 0)) == 14
    ensures DateOf(At(Jan1 + 31, 10, 0)) == Jan1 + 31 && AccruedHours(At(Jan1, 12, 0), At(Jan1 + 31, 10, 0)) == 10
  {
  }

  /** The sums over a table of one row of the brand, dated today. */
  lemma SumsOfOneRow(row: AdSpendRow, b: Brand, now: Instant)
    requires row.ad.brand == b && row.date == DateOf(now)
    ensures SumSpent([row], b, TodayOf(now)) == Some(row.spent)
    ensures SumSpent([row], b, ThisMonthOf(now)) == Some(row.spent)
  {
    assert [row][..0] == [];
  }

  /** The sum over a table with one more row. */
  lemma SumSpentSnoc(rows: seq<AdSpendRow>, row: AdSpendRow, b: Brand, p: Period)
    ensures SumSpent(rows + [row], b, p)
         == if row.ad.brand == b && InPeriod(row.date, p)
            then Some((if SumSpent(rows, b, p).Some? then SumSpent(rows, b, p).value else 0.0) + row.spent)
            else SumSpent(rows, b, p)
  {
    var all := rows + [row];
    assert all[..|all| - 1] == rows && all[|all| - 1] == row;
  }

  /** Two rows of the brand in one month, the second dated today: today's sum is the second, the month's both. */
  lemma SumsOfTwoRows(first: AdSpendRow, second: AdSpendRow, b: Brand, now: Instant)
    requires first.ad.brand == b && second.ad.brand == b
    requires second.date == DateOf(now) && first.date != second.date
    requires MonthOf(first.date) == MonthOf(second.date)
    ensures SumSpent([first, second], b, TodayOf(now)) == Some(second.spent)
    ensures SumSpent([first, second], b, ThisMonthOf(now)) == Some(first.spent + second.spent)
  {
    assert [first] + [second] == [first, second];
    assert [first][..0] == [];
    SumSpentSnoc([first], second, b, TodayOf(now));
    SumSpentSnoc([first], second, b, ThisMonthOf(now));
  }

  /** A third row of the brand, dated today in a later month than the other two: both sums are that row alone. */
  lemma SumsOfThreeRows(first: AdSpendRow, second: AdSpendRow, third: AdSpendRow, b: Brand, now: Instant)
    requires first.ad.brand == b && second.ad.brand == b && third.ad.brand == b
    requires third.date == DateOf(now) && first.date != third.date && second.date != third.date
    requires MonthOf(first.date) != MonthOf(third.date) && MonthOf(second.date) != MonthOf(third.date)
    ensures SumSpent([first, second, third], b, TodayOf(now)) == Some(third.spent)
    ensures SumSpent([first, second, third], b, ThisMonthOf(now)) == Some(third.spent)
  {
    assert [first] + [second] == [first, second];
    assert [first, second] + [third] == [first, second, third];
    assert [first][..0] == [];
    SumSpentSnoc([first], second, b, TodayOf(now));
    SumSpentSnoc([first], second, b, ThisMonthOf(now));
    SumSpentSnoc([first, second], third, b, TodayOf(now));
    SumSpentSnoc([first, second], third, b, ThisMonthOf(now));
  }

  /** Switched on at noon on 2023-01-01 by the scheduler; nothing accrued yet. */
  method StartedAtNoon() returns (db: Database, brand: Brand, ad: Ad)
    ensures fresh(db) && fresh(brand) && fresh(ad)
    ensures OneAd(db, brand, ad) && db.adSpend == []
    ensures brand.dailyBudget == 100.0 && brand.monthlyBudget == 200.0
    ensures ad.active && ad.lastActiveTime == Some(At(Jan1, 12, 0))
  {
    db, brand, ad := Setup(At(Jan1 + 1, 17, 0));
    ScheduleAds(db, At(Jan1, 12, 0));
    assert ad in db.ads;
  }

  /** Switched on at noon on 2023-01-01, then accrual and rollup at 14:00 and again at 16:00. */
  method ThroughFourPm() returns (db: Database, brand: Brand, ad: Ad)
    ensures fresh(db) && fresh(brand) && fresh(ad)
    ensures OneAd(db, brand, ad) && db.adSpend == [AdSpendRow(ad, Jan1, 4.0)]
    ensures brand.dailyBudget == 100.0 && brand.monthlyBudget == 200.0
    ensures brand.dailySpend == Some(4.0) && brand.monthlySpend == Some(4.0)
    ensures ad.active && ad.lastActiveTime == Some(At(Jan1, 12, 0))
  {
    db, brand, ad := StartedAtNoon();
    Clock();
    var early, late := AdSpendRow(ad, Jan1, 2.0), AdSpendRow(ad, Jan1, 4.0);
    SumsOfOneRow(early, brand, At(Jan1, 14, 0));
    Tick(db, brand, ad, At(Jan1, 14, 0), Jan1, 2.0, [early], 2.0, 2.0);
    assert FindRow([early], ad, Jan1) == Some(0);
    SumsOfOneRow(late, brand, At(Jan1, 16, 0));
    Tick(db, brand, ad, At(Jan1, 16, 0), Jan1, 4.0, [late], 4.0, 4.0);
  }

  /** After the ticks at 14:00 and 16:00 the brand has spent 4 hours today and 4 this month. */
  method RollupOneDay() returns (daily: Option<real>, monthly: Option<real>)
    ensures daily == Some(4.0) && monthly == Some(4.0)
  {
    var db, brand, ad := ThroughFourPm();
    daily, monthly := brand.dailySpend, brand.monthlySpend;
  }

  /**
   * The same ticks, then 14:00 on 2023-01-02 (14 hours that day, 18 in
   * January) and 10:00 on 2023-02-01 (10 hours that day and 10 in
   * February: a new month starts from zero).
   */
  method RollupManyDays() returns (daily: Option<real>, monthly: Option<real>, dailyFeb: Option<real>, monthlyFeb: Option<real>)
    ensures daily == Some(14.0) && monthly == Some(18.0)
    ensures dailyFeb == Some(10.0) && monthlyFeb == Some(10.0)
  {
    var db, brand, ad := ThroughFourPm();
    Clock();
    var first, second, third := AdSpendRow(ad, Jan1, 4.0), AdSpendRow(ad, Jan1 + 1, 14.0), AdSpendRow(ad, Jan1 + 31, 10.0);
    January2023(Jan1);
    January2023(Jan1 + 1);
    February2023(Jan1 + 31);
    assert FindRow([first], ad, Jan1 + 1) == None;
    SumsOfTwoRows(first, second, brand, At(Jan1 + 1, 14, 0));
    Tick(db, brand, ad, At(Jan1 + 1, 14, 0), Jan1 + 1, 14.0, [first, second], 14.0, 18.0);
    daily, monthly := brand.dailySpend, brand.monthlySpend;
    assert FindRow([first, second], ad, Jan1 + 31) == None;
    assert [first, second] + [third] == [first, second, third];
    SumsOfThreeRows(first, second, third, brand, At(Jan1 + 31, 10, 0));
    Tick(db, brand, ad, At(Jan1 + 31, 10, 0), Jan1 + 31, 10.0, [first, second, third], 10.0, 10.0);
    dailyFeb, monthlyFeb := brand.dailySpend, brand.monthlySpend;
  }

}
