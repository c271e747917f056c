/** Whom the shared pool of a month bills, and what becomes of a tenancy that was re-activated after its exit. */
module PoolBilling {
  import opened Allocation
  import opened Calendar
  import opened DateText
  import opened DueRules
  import opened ElectricityProofs
  import opened ElectricityRules
  import opened ElectricityUtils
  import opened Invariants
  import opened Numbers
  import opened Queries
  import opened Tables
  import opened TenancyRules
  import opened Text

  predicate IsPoolBill(a: Allocation, id: Id) {
    a.source == SharedPool && a.tenancyId == id
  }

  /** Some bill takes the tenancy's share of the pool. */
  ghost predicate NamedByPool(bills: seq<Allocation>, id: Id) {
    exists k :: 0 <= k < |bills| && IsPoolBill(bills[k], id)
  }

  /** The tenancy is in the list and has tenant-days in the month. */
  ghost predicate Carries(pool: Tenancies, id: Id, month: int, year: int) {
    exists i :: 0 <= i < |pool| && HasDays(pool[i], id, month, year)
  }

  predicate HasDays(t: ActiveTenancy, id: Id, month: int, year: int) {
    t.id == id && GetTenantDaysInMonth(t.joinedAt, t.leftAt, month, year) > 0
  }

  ghost predicate HasEntry(entries: seq<DayEntry>, id: Id) {
    exists k :: 0 <= k < |entries| && entries[k].tenancy.id == id
  }

  // -------------------------------------------------------------------- the engine

  lemma NamedStep(bills: seq<Allocation>, a: Allocation, id: Id)
    ensures NamedByPool(bills + [a], id) <==> NamedByPool(bills, id) || IsPoolBill(a, id)
  {
    hide IsPoolBill;
    var all := bills + [a];
    if NamedByPool(bills, id) {
      var k :| 0 <= k < |bills| && IsPoolBill(bills[k], id);
      assert all[k] == bills[k];
    }
    if IsPoolBill(a, id) {
      assert all[|bills|] == a;
    }
  }

  lemma {:induction false} NamedConcat(a: seq<Allocation>, b: seq<Allocation>, id: Id)
    ensures NamedByPool(a + b, id) <==> NamedByPool(a, id) || NamedByPool(b, id)
    decreases |b|
  {
    hide NamedByPool;
    if b == [] {
      assert a + b == a;
      NothingNamed(id);
    } else {
      var front, last := b[..|b| - 1], b[|b| - 1];
      NamedConcat(a, front, id);
      assert a + b == (a + front) + [last] && b == front + [last];
      NamedStep(a + front, last, id);
      NamedStep(front, last, id);
    }
  }

  lemma NothingNamed(id: Id)
    ensures !NamedByPool([], id)
  {
  }

  lemma {:induction false} RoomBillsNameNobody(tenants: Tenancies, units: real, unitPrice: real, n: nat, id: Id)
    requires n <= |tenants|
    ensures !NamedByPool(RoomBills(tenants, units, unitPrice, n), id)
  {
    hide NamedByPool, SplitAmountEqually, Per, Ceil;
    if n == 0 {
      NothingNamed(id);
    } else {
      RoomBillsNameNobody(tenants, units, unitPrice, n - 1, id);
      var shares := SplitAmountEqually(Ceil(Product(units, unitPrice)), |tenants|);
      NamedStep(RoomBills(tenants, units, unitPrice, n - 1),
          RoomShare(tenants[n - 1], shares[n - 1], units, |tenants|), id);
    }
  }

  lemma {:induction false} MeteredBillsNameNobody(rooms: seq<int>, ts: Tenancies, readings: map<int, real>,
          unitPrice: real, id: Id)
    ensures !NamedByPool(MeteredBills(rooms, ts, readings, unitPrice), id)
  {
    hide NamedByPool, RoomBills, TenantsOf;
    if rooms == [] {
      NothingNamed(id);
    } else {
      var before, roomId := rooms[..|rooms| - 1], rooms[|rooms| - 1];
      MeteredBillsNameNobody(before, ts, readings, unitPrice, id);
      if roomId in readings {
        var tenants := TenantsOf(ts, roomId);
        RoomBillsNameNobody(tenants, readings[roomId], unitPrice, |tenants|, id);
        NamedConcat(MeteredBills(before, ts, readings, unitPrice),
            RoomBills(tenants, readings[roomId], unitPrice, |tenants|), id);
      }
    }
  }

  /** With a positive rate and price every entry gets its bill. */
  lemma {:induction false} PoolBillsName(entries: seq<DayEntry>, rate: real, unitPrice: real, id: Id)
    requires rate > 0.0 && unitPrice > 0.0
    requires forall i :: 0 <= i < |entries| ==> entries[i].days > 0
    ensures NamedByPool(PoolBills(entries, rate, unitPrice), id) <==> HasEntry(entries, id)
  {
    hide NamedByPool, Ceil, Product, Times;
    if entries == [] {
      NothingNamed(id);
    } else {
      var before, e := entries[..|entries| - 1], entries[|entries| - 1];
      PoolBillsName(before, rate, unitPrice, id);
      TimesPositive(rate, e.days);
      ProductPositive(Times(rate, e.days), unitPrice);
      assert PoolShare(e, rate, unitPrice).amount > 0;
      NamedStep(PoolBills(before, rate, unitPrice), PoolShare(e, rate, unitPrice), id);
      EntryStep(entries, id);
    }
  }

  lemma EntryStep(entries: seq<DayEntry>, id: Id)
    requires entries != []
    ensures HasEntry(entries, id) <==> HasEntry(entries[..|entries| - 1], id) || entries[|entries| - 1].tenancy.id == id
  {
    var before := entries[..|entries| - 1];
    if HasEntry(before, id) {
      var k :| 0 <= k < |before| && before[k].tenancy.id == id;
      assert entries[k] == before[k];
    }
    if k :| 0 <= k < |entries| && entries[k].tenancy.id == id {
      if k < |before| {
        assert before[k] == entries[k];
      }
    }
  }

  lemma CarriesStep(pool: Tenancies, id: Id, month: int, year: int)
    requires pool != []
    ensures Carries(pool, id, month, year)
            <==> Carries(pool[..|pool| - 1], id, month, year) || HasDays(pool[|pool| - 1], id, month, year)
  {
    hide HasDays;
    var before := pool[..|pool| - 1];
    if Carries(before, id, month, year) {
      var k :| 0 <= k < |before| && HasDays(before[k], id, month, year);
      assert pool[k] == before[k];
    }
    if k :| 0 <= k < |pool| && HasDays(pool[k], id, month, year) {
      if k < |before| {
        assert before[k] == pool[k];
      }
    }
  }

  lemma {:induction false} EntriesName(pool: Tenancies, month: int, year: int, id: Id)
    ensures HasEntry(DayEntries(pool, month, year), id) <==> Carries(pool, id, month, year)
  {
    hide GetTenantDaysInMonth, HasEntry, Carries;
    if pool == [] {
      NoEntry(id, month, year);
    } else {
      var before, t := pool[..|pool| - 1], pool[|pool| - 1];
      var entries := DayEntries(pool, month, year);
      EntriesName(before, month, year, id);
      CarriesStep(pool, id, month, year);
      if GetTenantDaysInMonth(t.joinedAt, t.leftAt, month, year) > 0 {
        assert entries[..|entries| - 1] == DayEntries(before, month, year);
        EntryStep(entries, id);
      }
    }
  }

  lemma NoEntry(id: Id, month: int, year: int)
    ensures !HasEntry([], id) && !Carries([], id, month, year)
  {
  }

  /**
   Whom the pool bills: exactly the tenancies that carry it, that is, those with tenant-days among the tenancies
   outside metered rooms or, if there are none, among all; and nobody if the pool is not billed at all.
   */
  lemma PoolBillsItsCarriers(x: Inputs, id: Id)
    requires Sound(x)
    ensures NamedByPool(Allocations(x).allocations, id)
            <==> PoolIsBilled(x) && Carries(PoolTenancies(x.tenancies, x.meteredRooms), id, x.month, x.year)
  {
    hide NamedByPool, Carries, HasEntry, MeteredBills, PoolBills, OccupiedRooms, VacantUnits, DayEntries, DaysOf, Per,
         PoolTenancies;
    MeteredBillsNameNobody(Occupied(x), x.tenancies, x.readings, x.unitPrice, id);
    EntriesPositive(PoolTenancies(x.tenancies, x.meteredRooms), x.month, x.year);
    if PoolIsBilled(x) {
      var days := DaysOf(PoolEntries(x));
      var rate := Per(EffectivePool(x), days);
      RatePositive(EffectivePool(x), days);
      PoolBillsName(PoolEntries(x), rate, x.unitPrice, id);
      NamedConcat(Metered(x), PoolBills(PoolEntries(x), rate, x.unitPrice), id);
      EntriesName(PoolTenancies(x.tenancies, x.meteredRooms), x.month, x.year, id);
    }
  }

  lemma RatePositive(pool: real, days: int)
    requires pool > 0.0 && days > 0
    ensures Per(pool, days) > 0.0
  {
  }

  // ---------------------------------------------------------------------- a billing run

  /** The active tenancy is among those that carry the pool. */
  ghost predicate InPool(x: Inputs, id: Id) {
    exists i :: 0 <= i < |PoolTenancies(x.tenancies, x.meteredRooms)|
        && PoolTenancies(x.tenancies, x.meteredRooms)[i].id == id
  }

  lemma PoolIsActive(ts: Tenancies, metered: seq<int>, i: nat)
    requires i < |PoolTenancies(ts, metered)|
    ensures PoolTenancies(ts, metered)[i] in ts
  {
    hide NonMetered;
    NonMeteredSubset(ts, metered);
    assert |NonMetered(ts, metered)| > 0 ==> NonMetered(ts, metered)[i] in NonMetered(ts, metered);
  }

  /** The row of an active tenancy, as a run reads it. */
  lemma RowInRun(s: State, p: Id, month: Month, order: seq<Id>, roomOrder: seq<Id>, id: Id, row: ActiveTenancy)
    requires (p, month) in s.mainReadings && QueryOrders(s, p, order, roomOrder)
    requires row in RunInputs(s, p, month, order, roomOrder).tenancies && row.id == id
    ensures id in s.tenancies && row == ActiveRow(s, id)
  {
    hide ReadingByRoom, RawPool, MeteredRooms;
    var rows := ActiveRows(s, order);
    var i :| 0 <= i < |rows| && rows[i] == row;
    assert order[i] in order;
  }

  /** In a run, the pool bills a tenancy exactly if it carries the pool and has tenant-days in the month. */
  lemma RunBillsByDays(s: State, p: Id, month: Month, order: seq<Id>, roomOrder: seq<Id>, id: Id)
    requires Inv(s) && (p, month) in s.mainReadings && QueryOrders(s, p, order, roomOrder) && id in s.tenancies
    ensures var x, row := RunInputs(s, p, month, order, roomOrder), s.tenancies[id];
            NamedByPool(Allocations(x).allocations, id)
            <==> PoolIsBilled(x) && InPool(x, id)
                 && GetTenantDaysInMonth(row.joinedAt, row.leftAt, month.month, month.year) > 0
  {
    hide Inv, QueryOrders, RunInputs, PoolTenancies, PoolIsBilled, Allocations, NamedByPool, GetTenantDaysInMonth,
         Sound;
    var x := RunInputs(s, p, month, order, roomOrder);
    var pool := PoolTenancies(x.tenancies, x.meteredRooms);
    RunInputsAreSound(s, p, month, order, roomOrder);
    PoolBillsItsCarriers(x, id);
    MonthOfRun(s, p, month, order, roomOrder);
    forall i | 0 <= i < |pool| && pool[i].id == id
      ensures pool[i] == ActiveRow(s, id)
    {
      PoolIsActive(x.tenancies, x.meteredRooms, i);
      RowInRun(s, p, month, order, roomOrder, id, pool[i]);
    }
  }

  lemma MonthOfRun(s: State, p: Id, month: Month, order: seq<Id>, roomOrder: seq<Id>)
    requires (p, month) in s.mainReadings && QueryOrders(s, p, order, roomOrder)
    ensures RunInputs(s, p, month, order, roomOrder).month == month.month
    ensures RunInputs(s, p, month, order, roomOrder).year == month.year
  {
    hide ReadingByRoom, RawPool, QueryOrders, ActiveRows;
  }

  // -------------------------------------------------------------------- after a return

  /** The first day of the month on which the tenant may have been there. */
  function FirstDay(joinedAt: Time, am: AbsMonth): Day {
    if DayOf(joinedAt) < MonthStart(am) then MonthStart(am) else DayOf(joinedAt)
  }

  lemma DaysOfStay(joinedAt: Time, leftAt: Time, am: AbsMonth)
    requires am >= 1200 && ModernStay(joinedAt, Some(leftAt)) && DayOf(joinedAt) < MonthStart(am + 1)
    ensures TenantDays(joinedAt, Some(leftAt), am) == 0 <==> DayOf(leftAt) < FirstDay(joinedAt, am)
    ensures TenantDays(joinedAt, None, am) == MonthStart(am + 1) - FirstDay(joinedAt, am) > 0
    ensures TenantDays(joinedAt, Some(leftAt), am) == TenantDays(joinedAt, None, am)
        <==> DayOf(leftAt) >= MonthStart(am + 1) - 1
  {
    hide TenantDays, MonthStart, DaysInMonth, GetUTCFullYear;
    TenantDaysFormula(joinedAt, Some(leftAt), am);
    TenantDaysFormula(joinedAt, None, am);
    MonthLength(am);
  }

  /**
   The two ways back from an exit differ in the electricity they cause. Both make the tenancy active. Re-activation
   keeps leftAt: the tenancy has no tenant-days in a month exactly if it left before its first day there, and as many
   as after a revoked exit, which clears leftAt, exactly if it left on the month's last day or later.
   */
  lemma ReturnedDays(s: State, propertyId: Id, ownerId: Id, t: Id, am: AbsMonth)
    requires ReActiveTenancy(s, propertyId, ownerId, t).result.Ok? && s.tenancies[t].leftAt.Some?
    requires am >= 1200 && ModernStay(s.tenancies[t].joinedAt, s.tenancies[t].leftAt)
    requires DayOf(s.tenancies[t].joinedAt) < MonthStart(am + 1)
    ensures RevokeTenancyExit(s, t, ownerId).result.Ok?
    ensures var left := s.tenancies[t].leftAt.value;
            var kept, cleared := ReActiveTenancy(s, propertyId, ownerId, t).db.tenancies[t],
                RevokeTenancyExit(s, t, ownerId).db.tenancies[t];
            && kept.status == cleared.status == Active
            && (TenantDays(kept.joinedAt, kept.leftAt, am) == 0 <==> DayOf(left) < FirstDay(kept.joinedAt, am))
            && (TenantDays(kept.joinedAt, kept.leftAt, am) == TenantDays(cleared.joinedAt, cleared.leftAt, am)
                <==> DayOf(left) >= MonthStart(am + 1) - 1)
            && TenantDays(cleared.joinedAt, cleared.leftAt, am) > 0
  {
    hide TenantDays, MonthStart, ModernStay, FirstDay, AddBeds;
    DaysOfStay(s.tenancies[t].joinedAt, s.tenancies[t].leftAt.value, am);
  }

  /**
   A tenancy that is active again with the day it once left, in any later billing run: the shared pool bills it exactly
   if the pool is billed, the tenancy is one of those that carry it, and it left no earlier than its first day in the
   month. For every month after the one it left in, the pool therefore never bills it.
   */
  lemma ReactivatedInPool(s: State, p: Id, month: Month, order: seq<Id>, roomOrder: seq<Id>, t: Id)
    requires Inv(s) && (p, month) in s.mainReadings && QueryOrders(s, p, order, roomOrder)
    requires t in s.tenancies && s.tenancies[t].leftAt.Some?
    requires 1 <= month.month <= 12 && month.year >= 100 && ModernStay(s.tenancies[t].joinedAt, s.tenancies[t].leftAt)
    requires var am := 12 * month.year + month.month - 1; DayOf(s.tenancies[t].joinedAt) < MonthStart(am + 1)
    ensures var x, am := RunInputs(s, p, month, order, roomOrder), 12 * month.year + month.month - 1;
            var left := DayOf(s.tenancies[t].leftAt.value);
            && (NamedByPool(Allocations(x).allocations, t)
                <==> PoolIsBilled(x) && InPool(x, t) && left >= FirstDay(s.tenancies[t].joinedAt, am))
            && (left < MonthStart(am) ==> !NamedByPool(Allocations(x).allocations, t))
  {
    hide Inv, QueryOrders, RunInputs, InPool, PoolIsBilled, Allocations, NamedByPool, MonthStart, ModernStay,
         GetTenantDaysInMonth;
    var am := 12 * month.year + month.month - 1;
    var row := s.tenancies[t];
    RunBillsByDays(s, p, month, order, roomOrder, t);
    DaysOfStay(row.joinedAt, row.leftAt.value, am);
    assert am % 12 + 1 == month.month && am / 12 == month.year;
    DaysAreNonNegative(row.joinedAt, row.leftAt, month.month, month.year);
  }

  lemma DaysAreNonNegative(joinedAt: Time, leftAt: Option<Time>, month: int, year: int)
    ensures GetTenantDaysInMonth(joinedAt, leftAt, month, year) >= 0
  {
    hide ToDateOnly, DateUTC, Round;
    forall x: real | x >= 0.0
      ensures Round(x) >= 0
    {
      RoundNatural(x);
    }
  }

  lemma RoundNatural(x: real)
    requires x >= 0.0
    ensures Round(x) >= 0
  {
  }
}
