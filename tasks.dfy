/**
 * The three periodic routines of the budget engine, each one pass over a
 * table: the ad scheduler (activation), the spend accrual (AdSpend upserts)
 * and the brand rollup (spend totals and forced deactivation).
 *
 * The clock is the parameter `now`. Comparisons the source makes against a
 * column that may be null would raise; the routines require that those
 * columns are set wherever they are compared.
 */
module Tasks {

  import opened Wrappers
  import opened Time
  import opened Models

  // ---------------------------------------------------------------------
  // Budget headroom and exhaustion

  /**
   * The budget comparisons can be evaluated: the monthly spend is set,
   * and so is the daily spend whenever the monthly comparison does not
   * already decide the outcome.
   */
  predicate Comparable(monthlyBudget: real, monthlySpend: Option<real>, dailySpend: Option<real>)
  {
    monthlySpend.Some? && (monthlyBudget > monthlySpend.value ==> dailySpend.Some?)
  }

  /** The scheduler's guard: strictly under both budgets. */
  predicate HasHeadroom(monthlyBudget: real, dailyBudget: real, monthlySpend: Option<real>, dailySpend: Option<real>)
    requires Comparable(monthlyBudget, monthlySpend, dailySpend)
  {
    monthlyBudget > monthlySpend.value && dailyBudget > dailySpend.value
  }

  /** The rollup's cutoff: at or over either budget. */
  predicate Exhausted(monthlyBudget: real, dailyBudget: real, monthlySpend: Option<real>, dailySpend: Option<real>)
    requires Comparable(monthlyBudget, monthlySpend, dailySpend)
  {
    monthlyBudget <= monthlySpend.value || dailyBudget <= dailySpend.value
  }

  /** The rollup's cutoff is exactly the negation of the scheduler's guard. */
  lemma ExhaustedIsNoHeadroom(monthlyBudget: real, dailyBudget: real, monthlySpend: Option<real>, dailySpend: Option<real>)
    requires Comparable(monthlyBudget, monthlySpend, dailySpend)
    ensures Exhausted(monthlyBudget, dailyBudget, monthlySpend, dailySpend)
        <==> !HasHeadroom(monthlyBudget, dailyBudget, monthlySpend, dailySpend)
  {
  }

  predicate BrandComparable(b: Brand)
    reads b
  {
    Comparable(b.monthlyBudget, b.monthlySpend, b.dailySpend)
  }

  predicate BrandHasHeadroom(b: Brand)
    reads b
    requires BrandComparable(b)
  {
    HasHeadroom(b.monthlyBudget, b.dailyBudget, b.monthlySpend, b.dailySpend)
  }

  // ---------------------------------------------------------------------
  // Ad scheduler

  /** The two fields of an ad the scheduler may write. */
  datatype AdState = AdState(active: bool, lastActiveTime: Option<Instant>)

  function StateOf(a: Ad): AdState
    reads a
  {
    AdState(a.active, a.lastActiveTime)
  }

  /** `start_time <= now <= end_time`. */
  predicate InWindow(start: Instant, end: Instant, now: Instant)
  {
    start <= now <= end
  }

  /**
   * One ad's scheduling decision. The ad is active afterwards exactly when
   * it is in its window and either its brand has headroom or it was
   * already active (an active ad of a brand without headroom is left as it
   * was); the checkpoint moves to `now` exactly when an inactive ad is
   * switched on.
   */
  function Scheduled(s: AdState, inWindow: bool, headroom: bool, now: Instant): (r: AdState)
    ensures r.active <==> inWindow && (headroom || s.active)
    ensures r.lastActiveTime == if inWindow && headroom && !s.active then Some(now) else s.lastActiveTime
  {
    if inWindow then
      if headroom then AdState(true, if s.active then s.lastActiveTime else Some(now))
      else s
    else AdState(false, s.lastActiveTime)
  }

  /** A second pass at the same instant, with the brand unchanged, changes nothing. */
  lemma ScheduledIdempotent(s: AdState, inWindow: bool, headroom: bool, now: Instant)
    ensures Scheduled(Scheduled(s, inWindow, headroom, now), inWindow, headroom, now)
         == Scheduled(s, inWindow, headroom, now)
  {
  }

  /** task_ad_scheduler: recompute every ad's `active` flag and checkpoint. */
  method ScheduleAds(db: Database, now: Instant)
    requires db.Valid()
    requires forall a :: a in db.ads && InWindow(a.startTime, a.endTime, now) ==> BrandComparable(a.brand)
    modifies db.ads
    ensures forall a :: a in db.ads ==>
      StateOf(a) == Scheduled(old(StateOf(a)), InWindow(a.startTime, a.endTime, now),
                              InWindow(a.startTime, a.endTime, now) && BrandHasHeadroom(a.brand), now)
  {
    for i := 0 to |db.ads|
      invariant forall k :: 0 <= k < i ==>
        StateOf(db.ads[k]) == Scheduled(old(StateOf(db.ads[k])), InWindow(db.ads[k].startTime, db.ads[k].endTime, now),
                                        InWindow(db.ads[k].startTime, db.ads[k].endTime, now) && BrandHasHeadroom(db.ads[k].brand), now)
      invariant forall k :: i <= k < |db.ads| ==> StateOf(db.ads[k]) == old(StateOf(db.ads[k]))
    {
      var ad := db.ads[i];
      var wasActive := ad.active;
      if ad.startTime <= now <= ad.endTime {
        if ad.brand.monthlyBudget > ad.brand.monthlySpend.value && ad.brand.dailyBudget > ad.brand.dailySpend.value {
          ad.active := true;
          if !wasActive {
            ad.lastActiveTime := Some(now);
          }
        }
      } else {
        ad.active := false;
      }
    }
  }

  // ---------------------------------------------------------------------
  // Spend accrual

  /**
   * Hours charged today to an ad active since `lastActive`: measured from
   * the checkpoint, but never from before today's midnight, and rounded up.
   */
  function AccruedHours(lastActive: Instant, now: Instant): (h: int)
    ensures lastActive <= now ==> 0 <= h <= 24
    ensures h <= CeilHours(now - Midnight(DateOf(now)))
    ensures lastActive > Midnight(DateOf(now)) ==> (h - 1) * HourUs < now - lastActive <= h * HourUs
    ensures lastActive <= Midnight(DateOf(now)) ==> (h - 1) * HourUs < now - Midnight(DateOf(now)) <= h * HourUs
  {
    var today := Midnight(DateOf(now));
    var from := if lastActive > today then lastActive else today;
    CeilHours(now - from)
  }

  /** Index of the row for (ad, date), if there is one. */
  function FindRow(rows: seq<AdSpendRow>, ad: Ad, date: Date): (r: Option<nat>)
    ensures r.None? <==> forall i :: 0 <= i < |rows| ==> (rows[i].ad, rows[i].date) != (ad, date)
    ensures r.Some? ==> r.value < |rows| && rows[r.value].ad == ad && rows[r.value].date == date
  {
    if rows == [] then None
    else if rows[0].ad == ad && rows[0].date == date then Some(0)
    else match FindRow(rows[1..], ad, date)
      case None => None
      case Some(i) => Some(i + 1)
  }

  /** The hours recorded for (ad, date), or None when there is no such row. */
  function SpentOn(rows: seq<AdSpendRow>, ad: Ad, date: Date): Option<real>
  {
    match FindRow(rows, ad, date)
    case None => None
    case Some(i) => Some(rows[i].spent)
  }

  /** `update_or_create`: overwrite the row for (ad, date), or append one. */
  function Upsert(rows: seq<AdSpendRow>, ad: Ad, date: Date, spent: real): seq<AdSpendRow>
  {
    match FindRow(rows, ad, date)
    case Some(i) => rows[i := AdSpendRow(ad, date, spent)]
    case None => rows + [AdSpendRow(ad, date, spent)]
  }

  /** With unique keys, the row found for a key is the only row with that key. */
  lemma SpentOnUnique(rows: seq<AdSpendRow>, i: nat)
    requires UniqueRowKeys(rows) && i < |rows|
    ensures SpentOn(rows, rows[i].ad, rows[i].date) == Some(rows[i].spent)
  {
    var found := FindRow(rows, rows[i].ad, rows[i].date);
    assert found.Some?;
    assert found.value == i;
  }

  /**
   * An upsert keeps the keys unique, sets the value under its own key,
   * leaves every other key's value alone, changes nothing when the value
   * is already there, and adds no row for another ad.
   */
  lemma UpsertSpec(rows: seq<AdSpendRow>, ad: Ad, date: Date, spent: real)
    requires UniqueRowKeys(rows)
    ensures UniqueRowKeys(Upsert(rows, ad, date, spent))
    ensures forall a, d :: SpentOn(Upsert(rows, ad, date, spent), a, d)
                        == if a == ad && d == date then Some(spent) else SpentOn(rows, a, d)
    ensures SpentOn(rows, ad, date) == Some(spent) ==> Upsert(rows, ad, date, spent) == rows
    ensures forall r :: r in Upsert(rows, ad, date, spent) ==> r in rows || r.ad == ad
  {
    var u := Upsert(rows, ad, date, spent);
    forall a, d ensures SpentOn(u, a, d) == if a == ad && d == date then Some(spent) else SpentOn(rows, a, d) {
      match FindRow(rows, a, d)
      case None =>
        if a == ad && d == date {
          SpentOnUnique(u, |u| - 1);
        } else {
          assert forall i :: 0 <= i < |u| ==> (u[i].ad, u[i].date) != (a, d);
        }
      case Some(j) =>
        SpentOnUnique(rows, j);
        SpentOnUnique(u, j);
    }
    match FindRow(rows, ad, date)
    case None =>
    case Some(i) =>
      SpentOnUnique(rows, i);
      assert rows[i] == AdSpendRow(ad, date, rows[i].spent);
  }

  /** The checkpoints accrual reads are set on every active ad. */
  predicate CheckpointsSet(ads: seq<Ad>)
    reads ads
  {
    forall a :: a in ads && a.active ==> a.lastActiveTime.Some?
  }

  /** The hours accrual charges an active ad today. */
  function TodayHours(a: Ad, now: Instant): real
    reads a
    requires a.lastActiveTime.Some?
  {
    AccruedHours(a.lastActiveTime.value, now) as real
  }

  /** The AdSpend table after upserting today's hours for each active ad of `ads`, in order. */
  function Accrued(rows: seq<AdSpendRow>, ads: seq<Ad>, now: Instant): seq<AdSpendRow>
    reads ads
    requires CheckpointsSet(ads)
  {
    if ads == [] then rows
    else
      var before := Accrued(rows, ads[..|ads| - 1], now);
      var a := ads[|ads| - 1];
      if a.active then Upsert(before, a, DateOf(now), TodayHours(a, now)) else before
  }

  /**
   * task_update_adspend: for every active ad, the row for (ad, today) holds
   * today's hours afterwards, overwritten rather than added to; rows of
   * inactive ads and of other dates keep their values; and when every
   * active ad's row already holds today's hours, the table is unchanged.
   */
  method UpdateAdSpend(db: Database, now: Instant)
    requires db.Valid()
    requires CheckpointsSet(db.ads)
    modifies db
    ensures db.adSpend == Accrued(old(db.adSpend), db.ads, now)
    ensures db.Valid()
    ensures forall a, d ::
              SpentOn(db.adSpend, a, d)
              == (if a in db.ads && a.active && d == DateOf(now) then Some(TodayHours(a, now)) else SpentOn(old(db.adSpend), a, d))
    ensures (forall a :: a in db.ads && a.active ==> SpentOn(old(db.adSpend), a, DateOf(now)) == Some(TodayHours(a, now)))
            ==> db.adSpend == old(db.adSpend)
  {
    var today := DateOf(now);
    for i := 0 to |db.ads|
      invariant db.adSpend == Accrued(old(db.adSpend), db.ads[..i], now)
    {
      var ad := db.ads[i];
      if ad.active {
        var spent := AccruedHours(ad.lastActiveTime.value, now) as real;
        db.adSpend := Upsert(db.adSpend, ad, today, spent);
      }
      assert db.ads[..i + 1][..i] == db.ads[..i];
    }
    assert db.ads[..|db.ads|] == db.ads;
    AccruedSpec(old(db.adSpend), db.ads, now);
  }

  /**
   * What the accrual's table means: keys stay unique and every row belongs
   * to a listed ad or was there before; each active ad's value for today
   * is its accrued hours and every other value is unchanged; and when all
   * those values are already in place, the table is unchanged.
   */
  lemma {:induction false} AccruedSpec(rows: seq<AdSpendRow>, ads: seq<Ad>, now: Instant)
    requires UniqueRowKeys(rows) && CheckpointsSet(ads)
    ensures UniqueRowKeys(Accrued(rows, ads, now))
    ensures forall r :: r in Accrued(rows, ads, now) ==> r in rows || r.ad in ads
    ensures forall a, d ::
              SpentOn(Accrued(rows, ads, now), a, d)
              == (if a in ads && a.active && d == DateOf(now) then Some(TodayHours(a, now)) else SpentOn(rows, a, d))
    ensures (forall a :: a in ads && a.active ==> SpentOn(rows, a, DateOf(now)) == Some(TodayHours(a, now)))
            ==> Accrued(rows, ads, now) == rows
  {
    if ads != [] {
      var init, ad := ads[..|ads| - 1], ads[|ads| - 1];
      assert forall a :: a in ads <==> a in init || a == ad;
      AccruedSpec(rows, init, now);
      var before := Accrued(rows, init, now);
      if ad.active {
        UpsertSpec(before, ad, DateOf(now), TodayHours(ad, now));
      }
    }
  }

  /** Running the accrual twice at the same instant leaves the table as the first run left it. */
  method UpdateAdSpendTwice(db: Database, now: Instant) returns (afterFirst: seq<AdSpendRow>)
    requires db.Valid()
    requires CheckpointsSet(db.ads)
    modifies db
    ensures db.adSpend == afterFirst
  {
    UpdateAdSpend(db, now);
    afterFirst := db.adSpend;
    UpdateAdSpend(db, now);
  }

  // ---------------------------------------------------------------------
  // Brand rollup

  /** The AdSpend dates a sum runs over: one date, or one year and month. */
  datatype Period = Day(date: Date) | Month(month: YearMonth)

  predicate InPeriod(d: Date, p: Period)
  {
    match p
    case Day(x) => d == x
    case Month(m) => MonthOf(d) == m
  }

  /** `aggregate(Sum('spent'))` over a brand's rows in a period; None for an empty sum. */
  function SumSpent(rows: seq<AdSpendRow>, b: Brand, p: Period): Option<real>
  {
    if rows == [] then None
    else
      var rest := SumSpent(rows[..|rows| - 1], b, p);
      var last := rows[|rows| - 1];
      if last.ad.brand == b && InPeriod(last.date, p) then
        Some((if rest.Some? then rest.value else 0.0) + last.spent)
      else rest
  }

  /** The sum is None exactly when no row of the brand falls in the period, as the database returns for an empty sum. */
  lemma {:induction false} SumSpentNone(rows: seq<AdSpendRow>, b: Brand, p: Period)
    ensures SumSpent(rows, b, p).None? <==> forall i :: 0 <= i < |rows| ==> !(rows[i].ad.brand == b && InPeriod(rows[i].date, p))
  {
    if rows != [] {
      var init := rows[..|rows| - 1];
      SumSpentNone(init, b, p);
      assert forall i :: 0 <= i < |init| ==> init[i] == rows[i];
    }
  }

  function TodayOf(now: Instant): Period { Day(DateOf(now)) }

  function ThisMonthOf(now: Instant): Period { Month(MonthOf(DateOf(now))) }

  /** The rollup's budget test can be evaluated on the sums it computes for `b`. */
  predicate RollupComparable(b: Brand, rows: seq<AdSpendRow>, now: Instant)
  {
    Comparable(b.monthlyBudget, SumSpent(rows, b, ThisMonthOf(now)), SumSpent(rows, b, TodayOf(now)))
  }

  /** The rollup finds `b` at or over a budget. */
  predicate Exhausts(b: Brand, rows: seq<AdSpendRow>, now: Instant)
    requires RollupComparable(b, rows, now)
  {
    Exhausted(b.monthlyBudget, b.dailyBudget, SumSpent(rows, b, ThisMonthOf(now)), SumSpent(rows, b, TodayOf(now)))
  }

  /** The spend fields a rollup at `now` leaves on a brand. */
  predicate RolledUp(b: Brand, rows: seq<AdSpendRow>, now: Instant)
    reads b
  {
    && b.dailySpend == SumSpent(rows, b, TodayOf(now))
    && b.monthlySpend == SumSpent(rows, b, ThisMonthOf(now))
    && b.lastSpendUpdate == Some(now)
  }

  /**
   * task_update_brand_spend: every brand's daily and monthly spend become
   * the sums of its AdSpend rows for today and for this month, whatever
   * they were before; every ad of a brand at or over a budget is switched
   * off, and no other ad field changes. Afterwards no active ad belongs to
   * a brand without headroom.
   */
  method UpdateBrandSpend(db: Database, now: Instant)
    requires db.Valid()
    requires forall b :: b in db.brands ==> RollupComparable(b, db.adSpend, now)
    modifies db.brands, db.ads
    ensures forall b :: b in db.brands ==> RolledUp(b, db.adSpend, now)
    ensures forall a :: a in db.ads ==>
      a.active == (old(a.active) && !Exhausts(a.brand, db.adSpend, now)) && a.lastActiveTime == old(a.lastActiveTime)
    ensures forall a :: a in db.ads && a.active ==> BrandComparable(a.brand) && BrandHasHeadroom(a.brand)
  {
    ghost var exhausted := set b | b in db.brands && Exhausts(b, db.adSpend, now);
    for i := 0 to |db.brands|
      invariant forall b :: b in db.brands[..i] ==> RolledUp(b, db.adSpend, now)
      invariant forall a :: a in db.ads ==>
        a.active == (old(a.active) && !(a.brand in db.brands[..i] && a.brand in exhausted))
        && a.lastActiveTime == old(a.lastActiveTime)
    {
      var brand := db.brands[i];
      RollUpBrand(db, brand, now);
      assert brand in exhausted <==> Exhausts(brand, db.adSpend, now);
      assert forall b :: b in db.brands[..i + 1] <==> b in db.brands[..i] || b == brand;
    }
    assert db.brands[..|db.brands|] == db.brands;
    forall a | a in db.ads && a.active
      ensures BrandComparable(a.brand) && BrandHasHeadroom(a.brand)
    {
      assert a.brand in db.brands;
      RolledUpHeadroom(a.brand, db.adSpend, now);
    }
  }

  /** A brand rolled up under both budgets has headroom for the scheduler. */
  lemma RolledUpHeadroom(b: Brand, rows: seq<AdSpendRow>, now: Instant)
    requires RolledUp(b, rows, now) && RollupComparable(b, rows, now) && !Exhausts(b, rows, now)
    ensures BrandComparable(b) && BrandHasHeadroom(b)
  {
  }

  /**
   * The body of the rollup for one brand: reset the spends on a new tick,
   * recompute them from the AdSpend rows, and switch off the brand's ads
   * when it is at or over a budget.
   */
  method RollUpBrand(db: Database, brand: Brand, now: Instant)
    requires RollupComparable(brand, db.adSpend, now)
    modifies brand, db.ads
    ensures RolledUp(brand, db.adSpend, now)
    ensures forall a :: a in db.ads ==>
      a.active == (old(a.active) && !(a.brand == brand && Exhausts(brand, db.adSpend, now)))
      && a.lastActiveTime == old(a.lastActiveTime)
  {
    ResetSpends(brand, now);
    var today := DateOf(now);
    brand.dailySpend := SumSpent(db.adSpend, brand, Day(today));
    brand.monthlySpend := SumSpent(db.adSpend, brand, Month(MonthOf(today)));
    brand.lastSpendUpdate := Some(now);
    if brand.monthlyBudget <= brand.monthlySpend.value || brand.dailyBudget <= brand.dailySpend.value {
      DeactivateAds(db, brand);
    }
  }

  /**
   * The reset on a new tick: the daily spend goes to 0, the monthly spend
   * too when the last update fell in another month number (the year is not
   * compared), and the checkpoint moves to `now`.
   */
  method ResetSpends(brand: Brand, now: Instant)
    modifies brand
    ensures old(brand.lastSpendUpdate) == Some(now) ==> unchanged(brand)
    ensures old(brand.lastSpendUpdate) != Some(now) ==>
      && brand.dailySpend == Some(0.0)
      && brand.monthlySpend
         == (if old(brand.lastSpendUpdate).Some? && MonthOf(DateOf(old(brand.lastSpendUpdate).value)).month != MonthOf(DateOf(now)).month
             then Some(0.0) else old(brand.monthlySpend))
      && brand.lastSpendUpdate == Some(now)
  {
    if brand.lastSpendUpdate != Some(now) {
      brand.dailySpend := Some(0.0);
      if brand.lastSpendUpdate.Some? && MonthOf(DateOf(brand.lastSpendUpdate.value)).month != MonthOf(DateOf(now)).month {
        brand.monthlySpend := Some(0.0);
      }
      brand.lastSpendUpdate := Some(now);
    }
  }

  /** `brand.ads.filter(active=True).update(active=False)`: every ad of `brand` ends inactive, no other ad changes. */
  method DeactivateAds(db: Database, brand: Brand)
    modifies db.ads
    ensures forall a :: a in db.ads ==>
      a.active == (old(a.active) && a.brand != brand) && a.lastActiveTime == old(a.lastActiveTime)
  {
    forall a | a in db.ads && a.brand == brand && a.active {
      a.active := false;
    }
  }

  /**
   * Running the rollup twice at the same instant, with no AdSpend change
   * in between, leaves every brand's spend and every ad's flag as the
   * first run left them.
   */
  method UpdateBrandSpendTwice(db: Database, now: Instant) returns (brandsAfterFirst: seq<(Option<real>, Option<real>)>, adsAfterFirst: seq<bool>)
    requires db.Valid()
    requires forall b :: b in db.brands ==> RollupComparable(b, db.adSpend, now)
    modifies db.brands, db.ads
    ensures |brandsAfterFirst| == |db.brands| && |adsAfterFirst| == |db.ads|
    ensures forall k :: 0 <= k < |db.brands| ==> (db.brands[k].dailySpend, db.brands[k].monthlySpend) == brandsAfterFirst[k]
    ensures forall k :: 0 <= k < |db.ads| ==> db.ads[k].active == adsAfterFirst[k]
  {
    UpdateBrandSpend(db, now);
    brandsAfterFirst, adsAfterFirst := Snapshot(db);
    ghost var activeAfterFirst := set a | a in db.ads && a.active;
    UpdateBrandSpend(db, now);
    forall k | 0 <= k < |db.ads|
      ensures db.ads[k].active == adsAfterFirst[k]
    {
      assert db.ads[k] in db.ads;
      assert db.ads[k].active <==> db.ads[k] in activeAfterFirst;
    }
    forall k | 0 <= k < |db.brands|
      ensures (db.brands[k].dailySpend, db.brands[k].monthlySpend) == brandsAfterFirst[k]
    {
      assert db.brands[k] in db.brands;
    }
  }

  /** The spends of every brand and the flag of every ad, in table order. */
  method Snapshot(db: Database) returns (spends: seq<(Option<real>, Option<real>)>, flags: seq<bool>)
    ensures |spends| == |db.brands| && |flags| == |db.ads|
    ensures forall k :: 0 <= k < |db.brands| ==> spends[k] == (db.brands[k].dailySpend, db.brands[k].monthlySpend)
    ensures forall k :: 0 <= k < |db.ads| ==> flags[k] == db.ads[k].active
  {
    spends := seq(|db.brands|, k requires 0 <= k < |db.brands| reads db.brands => (db.brands[k].dailySpend, db.brands[k].monthlySpend));
    flags := seq(|db.ads|, k requires 0 <= k < |db.ads| reads db.ads => db.ads[k].active);
  }

}
