/**
 Who pays what: every bill of the allocation engine and of a billing run, told from the tenancies, the readings and the
 tenant-days alone.
 */
module BillShares {
  import opened Allocation
  import opened Calendar
  import opened ElectricityUtils
  import opened Numbers
  import opened Sums
  import opened Text

  // ---------------------------------------------------------------- tenants of a room

  /** How many of the first n tenancies live in the room. */
  function RoomCount(ts: Tenancies, room: int, n: nat): nat
    requires n <= |ts|
  {
    if n == 0 then 0 else RoomCount(ts, room, n - 1) + (if ts[n - 1].roomId == room then 1 else 0)
  }

  lemma {:induction false} CountOfPrefix(ts: Tenancies, room: int, k: nat, n: nat)
    requires n <= k <= |ts|
    ensures RoomCount(ts[..k], room, n) == RoomCount(ts, room, n)
  {
    if n > 0 {
      CountOfPrefix(ts, room, k, n - 1);
    }
  }

  lemma {:induction false} CountGrows(ts: Tenancies, room: int, i: nat, n: nat)
    requires i < n <= |ts| && ts[i].roomId == room
    ensures RoomCount(ts, room, i) < RoomCount(ts, room, n)
    decreases n
  {
    if i < n - 1 {
      CountGrows(ts, room, i, n - 1);
    }
  }

  lemma {:induction false} TenantsCounted(ts: Tenancies, room: int)
    ensures |TenantsOf(ts, room)| == RoomCount(ts, room, |ts|)
  {
    if ts != [] {
      TenantsCounted(ts[..|ts| - 1], room);
      CountOfPrefix(ts, room, |ts| - 1, |ts| - 1);
    }
  }

  /** A tenancy comes in its room's list after those of the room that come before it. */
  lemma {:induction false} TenantAt(ts: Tenancies, room: int, i: nat)
    requires i < |ts| && ts[i].roomId == room
    ensures RoomCount(ts, room, i) < |TenantsOf(ts, room)|
    ensures TenantsOf(ts, room)[RoomCount(ts, room, i)] == ts[i]
  {
    var front := ts[..|ts| - 1];
    TenantsCounted(front, room);
    CountOfPrefix(ts, room, |ts| - 1, |ts| - 1);
    CountOfPrefix(ts, room, |ts| - 1, i);
    if i < |ts| - 1 {
      assert front[i] == ts[i];
      TenantAt(front, room, i);
    }
  }

  lemma {:induction false} TenantFrom(ts: Tenancies, room: int, k: nat) returns (i: nat)
    requires k < |TenantsOf(ts, room)|
    ensures i < |ts| && ts[i].roomId == room && RoomCount(ts, room, i) == k
    ensures TenantsOf(ts, room)[k] == ts[i]
  {
    var front := ts[..|ts| - 1];
    if k < |TenantsOf(front, room)| {
      i := TenantFrom(front, room, k);
      CountOfPrefix(ts, room, |ts| - 1, i);
    } else {
      i := |ts| - 1;
      TenantsCounted(front, room);
      CountOfPrefix(ts, room, |ts| - 1, |ts| - 1);
    }
  }

  // ------------------------------------------------------------------- metered rooms

  /** The tenancy lives in a metered room whose reading is known. */
  predicate PaysRoom(x: Inputs, i: int) {
    0 <= i < |x.tenancies| && x.tenancies[i].roomId in x.meteredRooms && x.tenancies[i].roomId in x.readings
  }

  /** The k-th of count whole parts of a total. */
  function Portion(total: int, count: int, k: int): int
    requires count > 0
  {
    total / count + (if k < total % count then 1 else 0)
  }

  /** An equal part of the room's units, and of its rounded price; the first ones pay the odd rupees. */
  function RoomBill(x: Inputs, i: int): Allocation
    requires PaysRoom(x, i)
  {
    var t := x.tenancies[i];
    var count := RoomCount(x.tenancies, t.roomId, |x.tenancies|);
    CountGrows(x.tenancies, t.roomId, i, |x.tenancies|);
    var price := Ceil(Product(x.readings[t.roomId], x.unitPrice));
    Allocation(t.id, t.propertyId, t.tenantId, t.roomId, Portion(price, count, RoomCount(x.tenancies, t.roomId, i)),
               x.readings[t.roomId] / count as real, MeteredRoom)
  }

  ghost predicate IsRoomBill(x: Inputs, b: Allocation) {
    exists i :: PaysRoom(x, i) && b == RoomBill(x, i)
  }

  lemma {:induction false} RoomBillsAt(tenants: Tenancies, units: real, unitPrice: real, n: nat, k: nat)
    requires k < n <= |tenants|
    ensures |RoomBills(tenants, units, unitPrice, n)| == n
    ensures RoomBills(tenants, units, unitPrice, n)[k]
         == RoomShare(tenants[k], SplitAmountEqually(Ceil(Product(units, unitPrice)), |tenants|)[k], units, |tenants|)
  {
    hide SplitAmountEqually, Ceil, Product, RoomShare;
    RoomBillsSize(tenants, units, unitPrice, n);
    RoomBillsSize(tenants, units, unitPrice, n - 1);
    if k < n - 1 {
      RoomBillsAt(tenants, units, unitPrice, n - 1, k);
    }
  }

  lemma {:induction false} RoomBillsSize(tenants: Tenancies, units: real, unitPrice: real, n: nat)
    requires n <= |tenants|
    ensures |RoomBills(tenants, units, unitPrice, n)| == n
  {
    if n > 0 {
      RoomBillsSize(tenants, units, unitPrice, n - 1);
    }
  }

  /** The k-th share of a split. */
  lemma ShareAt(total: int, count: int, k: nat)
    requires k < count
    ensures SplitAmountEqually(total, count)[k] == Portion(total, count, k)
  {
  }

  /** The bill at a tenancy's place among its room's bills is its own. */
  lemma BillAtRank(x: Inputs, i: int)
    requires PaysRoom(x, i)
    ensures var room := x.tenancies[i].roomId;
            var tenants, k := TenantsOf(x.tenancies, room), RoomCount(x.tenancies, room, i);
            var bills := RoomBills(tenants, x.readings[room], x.unitPrice, |tenants|);
            k < |bills| == |tenants| && bills[k] == RoomBill(x, i)
  {
    hide TenantsOf, SplitAmountEqually, Ceil, RoomBills, Portion;
    var room := x.tenancies[i].roomId;
    var tenants, k := TenantsOf(x.tenancies, room), RoomCount(x.tenancies, room, i);
    TenantAt(x.tenancies, room, i);
    TenantsCounted(x.tenancies, room);
    RoomBillsAt(tenants, x.readings[room], x.unitPrice, |tenants|, k);
    var total, count := Ceil(Product(x.readings[room], x.unitPrice)), RoomCount(x.tenancies, room, |x.tenancies|);
    ShareAt(total, count, k);
  }

  /** The metered bills that belong to some rooms. */
  ghost predicate BillOfRooms(x: Inputs, rooms: seq<int>, b: Allocation) {
    exists i :: PaysRoom(x, i) && x.tenancies[i].roomId in rooms && b == RoomBill(x, i)
  }

  lemma BillsOfRoom(x: Inputs, room: int, b: Allocation)
    requires room in x.readings && room in x.meteredRooms
    ensures var tenants := TenantsOf(x.tenancies, room);
            b in RoomBills(tenants, x.readings[room], x.unitPrice, |tenants|)
            <==> exists i :: PaysRoom(x, i) && x.tenancies[i].roomId == room && b == RoomBill(x, i)
  {
    hide RoomCount, TenantsOf, RoomBills, RoomBill;
    var tenants := TenantsOf(x.tenancies, room);
    var bills := RoomBills(tenants, x.readings[room], x.unitPrice, |tenants|);
    RoomBillsSize(tenants, x.readings[room], x.unitPrice, |tenants|);
    if b in bills {
      var k :| 0 <= k < |bills| && bills[k] == b;
      var i := TenantFrom(x.tenancies, room, k);
      BillAtRank(x, i);
    }
    if i :| PaysRoom(x, i) && x.tenancies[i].roomId == room && b == RoomBill(x, i) {
      BillAtRank(x, i);
    }
  }

  lemma {:induction false} MeteredBillsAre(x: Inputs, rooms: seq<int>, b: Allocation)
    requires forall r :: r in rooms ==> r in x.meteredRooms
    ensures b in MeteredBills(rooms, x.tenancies, x.readings, x.unitPrice) <==> BillOfRooms(x, rooms, b)
  {
    hide TenantsOf, RoomBills, RoomBill, BillOfRooms;
    if rooms == [] {
      NoRooms(x, b);
    } else {
      var before, room := rooms[..|rooms| - 1], rooms[|rooms| - 1];
      MeteredBillsAre(x, before, b);
      OneMoreRoom(x, rooms, b);
      if room in x.readings {
        BillsOfRoom(x, room, b);
      }
    }
  }

  lemma NoRooms(x: Inputs, b: Allocation)
    ensures !BillOfRooms(x, [], b)
  {
  }

  lemma OneMoreRoom(x: Inputs, rooms: seq<int>, b: Allocation)
    requires rooms != []
    ensures var before, room := rooms[..|rooms| - 1], rooms[|rooms| - 1];
            BillOfRooms(x, rooms, b)
            <==> || BillOfRooms(x, before, b)
                 || exists i :: PaysRoom(x, i) && x.tenancies[i].roomId == room && b == RoomBill(x, i)
  {
    hide RoomBill;
    var before, room := rooms[..|rooms| - 1], rooms[|rooms| - 1];
    assert rooms == before + [room];
  }

  /** Occupied metered rooms are the metered rooms that some tenancy lives in. */
  lemma {:induction false} RoomsLivedIn(ts: Tenancies, metered: seq<int>, room: int)
    ensures room in OccupiedRooms(ts, metered) <==> room in metered && LivedIn(ts, room)
  {
    if ts != [] {
      var front := ts[..|ts| - 1];
      RoomsLivedIn(front, metered, room);
      assert ts == front + [ts[|ts| - 1]];
      if LivedIn(front, room) {
        var i :| 0 <= i < |front| && front[i].roomId == room;
        assert ts[i].roomId == room;
      }
    }
  }

  ghost predicate LivedIn(ts: Tenancies, room: int) {
    exists i :: 0 <= i < |ts| && ts[i].roomId == room
  }

  lemma MeteredAre(x: Inputs, b: Allocation)
    ensures b in Metered(x) <==> IsRoomBill(x, b)
  {
    hide OccupiedRooms, MeteredBills, RoomBill, LivedIn;
    OccupiedRoomsAre(x.tenancies, x.meteredRooms);
    MeteredBillsAre(x, Occupied(x), b);
    if i :| PaysRoom(x, i) && b == RoomBill(x, i) {
      TenancyLivesIn(x.tenancies, i);
      RoomsLivedIn(x.tenancies, x.meteredRooms, x.tenancies[i].roomId);
    }
  }

  lemma TenancyLivesIn(ts: Tenancies, i: int)
    requires 0 <= i < |ts|
    ensures LivedIn(ts, ts[i].roomId)
  {
  }

  // --------------------------------------------------------------------- shared pool

  function Days(x: Inputs, i: int): int
    requires 0 <= i < |x.tenancies|
  {
    GetTenantDaysInMonth(x.tenancies[i].joinedAt, x.tenancies[i].leftAt, x.month, x.year)
  }

  ghost predicate EverybodyMetered(x: Inputs) {
    forall j :: 0 <= j < |x.tenancies| ==> x.tenancies[j].roomId in x.meteredRooms
  }

  /** The tenancy lives outside the metered rooms, or everybody lives in them, and it has tenant-days in the month. */
  ghost predicate PaysPool(x: Inputs, i: int)
    ensures PaysPool(x, i) ==> 0 <= i < |x.tenancies| && Days(x, i) > 0
  {
    && 0 <= i < |x.tenancies| && Days(x, i) > 0
    && (x.tenancies[i].roomId !in x.meteredRooms || EverybodyMetered(x))
  }

  /** The tenant-days of those who pay the pool, among the first n tenancies. */
  ghost function PoolDays(x: Inputs, n: nat): nat
    requires n <= |x.tenancies|
  {
    if n == 0 then 0 else PoolDays(x, n - 1) + (if PaysPool(x, n - 1) then Days(x, n - 1) else 0)
  }

  ghost function AllPoolDays(x: Inputs): nat {
    PoolDays(x, |x.tenancies|)
  }

  /** What the main meter shows beyond the readings, and the readings of the metered rooms where nobody lives. */
  ghost function Pool(x: Inputs): real {
    x.rawSharedPoolUnits
    + Total(map r | r in x.readings && r in x.meteredRooms && !LivedIn(x.tenancies, r) :: x.readings[r])
  }

  ghost predicate PoolIsShared(x: Inputs) {
    Pool(x) > 0.0 && AllPoolDays(x) > 0
  }

  /** The part of the pool that the tenancy's days are of all days, and its price rounded up to whole rupees. */
  ghost function PoolBill(x: Inputs, i: int): Allocation
    requires PaysPool(x, i) && AllPoolDays(x) > 0
  {
    var t, units := x.tenancies[i], Pool(x) * Days(x, i) as real / AllPoolDays(x) as real;
    Allocation(t.id, t.propertyId, t.tenantId, t.roomId, Ceil(units * x.unitPrice), units, SharedPool)
  }

  ghost predicate IsPoolShare(x: Inputs, b: Allocation) {
    PoolIsShared(x) && exists i :: PaysPool(x, i) && b == PoolBill(x, i)
  }

  lemma PoolIs(x: Inputs)
    requires Sound(x)
    ensures EffectivePool(x) == Pool(x)
  {
    hide Total, VacantUnits, OccupiedRooms, LivedIn;
    VacantUnitsTotal(x.meteredRooms, Occupied(x), x.readings);
    forall r {
      RoomsLivedIn(x.tenancies, x.meteredRooms, r);
    }
    assert Restrict(x.readings, Elements(x.meteredRooms) - Elements(Occupied(x)))
        == map r | r in x.readings && r in x.meteredRooms && !LivedIn(x.tenancies, r) :: x.readings[r];
  }

  /** The entries of some list are those of the tenancies that pay the pool among the first n. */
  ghost predicate EntriesAre(x: Inputs, entries: seq<DayEntry>, n: nat)
    requires n <= |x.tenancies|
  {
    && DaysOf(entries) == PoolDays(x, n)
    && (forall e :: e in entries <==> EntryOf(x, e, n))
    && (DistinctIds(x) ==> OneEntryEach(entries))
  }

  ghost predicate DistinctIds(x: Inputs) {
    forall i, j :: 0 <= i < j < |x.tenancies| ==> x.tenancies[i].id != x.tenancies[j].id
  }

  ghost predicate OneEntryEach(entries: seq<DayEntry>) {
    forall k, l :: 0 <= k < l < |entries| ==> entries[k].tenancy.id != entries[l].tenancy.id
  }

  ghost predicate EntryOf(x: Inputs, e: DayEntry, n: nat)
    requires n <= |x.tenancies|
  {
    exists i :: 0 <= i < n && PaysPool(x, i) && e == DayEntry(x.tenancies[i], Days(x, i))
  }

  lemma EntriesGrow(x: Inputs, entries: seq<DayEntry>, n: nat)
    requires n < |x.tenancies| && EntriesAre(x, entries, n)
    ensures var more := if PaysPool(x, n) then entries + [DayEntry(x.tenancies[n], Days(x, n))] else entries;
            EntriesAre(x, more, n + 1)
  {
    hide Days, PaysPool, EntryOf, OneEntryEach, DistinctIds;
    forall f {
      OneMoreEntry(x, f, n);
    }
    if PaysPool(x, n) {
      var e := DayEntry(x.tenancies[n], Days(x, n));
      var more := entries + [e];
      assert more[..|more| - 1] == entries && more[|more| - 1] == e;
      assert DaysOf(more) == PoolDays(x, n + 1);
      forall f
        ensures f in more <==> EntryOf(x, f, n + 1)
      {
        assert f in more <==> f in entries || f == e;
      }
      if DistinctIds(x) {
        OneEntryMore(x, entries, e, n);
      }
    }
  }

  lemma OneMoreEntry(x: Inputs, e: DayEntry, n: nat)
    requires n < |x.tenancies|
    ensures EntryOf(x, e, n + 1)
            <==> EntryOf(x, e, n) || (PaysPool(x, n) && e == DayEntry(x.tenancies[n], Days(x, n)))
  {
    hide Days, PaysPool;
  }

  lemma OneEntryMore(x: Inputs, entries: seq<DayEntry>, e: DayEntry, n: nat)
    requires n < |x.tenancies| && DistinctIds(x) && OneEntryEach(entries) && e.tenancy == x.tenancies[n]
    requires forall f :: f in entries ==> EntryOf(x, f, n)
    ensures OneEntryEach(entries + [e])
  {
    hide Days, PaysPool;
    forall k | 0 <= k < |entries|
      ensures entries[k].tenancy.id != e.tenancy.id
    {
      assert entries[k] in entries && EntryOf(x, entries[k], n);
    }
  }

  /** If everybody lives in metered rooms the list is everybody. */
  lemma {:induction false} EverybodysEntries(x: Inputs, n: nat)
    requires n <= |x.tenancies| && EverybodyMetered(x)
    ensures EntriesAre(x, DayEntries(x.tenancies[..n], x.month, x.year), n)
  {
    hide EntriesAre, EverybodyMetered, GetTenantDaysInMonth;
    if n == 0 {
      NoEntriesYet(x);
    } else {
      EverybodysEntries(x, n - 1);
      assert x.tenancies[..n][..n - 1] == x.tenancies[..n - 1];
      EntriesGrow(x, DayEntries(x.tenancies[..n - 1], x.month, x.year), n - 1);
    }
  }

  lemma {:induction false} OthersEntries(x: Inputs, n: nat)
    requires n <= |x.tenancies| && !EverybodyMetered(x)
    ensures EntriesAre(x, DayEntries(NonMetered(x.tenancies[..n], x.meteredRooms), x.month, x.year), n)
  {
    hide EntriesAre, EverybodyMetered, GetTenantDaysInMonth;
    if n == 0 {
      NoEntriesYet(x);
    } else {
      OthersEntries(x, n - 1);
      assert x.tenancies[..n][..n - 1] == x.tenancies[..n - 1];
      var before, last := NonMetered(x.tenancies[..n - 1], x.meteredRooms), x.tenancies[n - 1];
      assert (before + [last])[..|before|] == before;
      EntriesGrow(x, DayEntries(before, x.month, x.year), n - 1);
    }
  }

  lemma NoEntriesYet(x: Inputs)
    ensures EntriesAre(x, [], 0)
  {
  }

  lemma {:induction false} NobodyOutside(ts: Tenancies, metered: seq<int>)
    ensures NonMetered(ts, metered) == [] <==> forall j :: 0 <= j < |ts| ==> ts[j].roomId in metered
  {
    if ts != [] {
      var front := ts[..|ts| - 1];
      NobodyOutside(front, metered);
      assert ts == front + [ts[|ts| - 1]];
      assert forall j :: 0 <= j < |front| ==> front[j] == ts[j];
    }
  }

  lemma PoolEntriesAre(x: Inputs)
    ensures EntriesAre(x, PoolEntries(x), |x.tenancies|)
  {
    hide EntriesAre, DayEntries, NonMetered;
    NobodyOutside(x.tenancies, x.meteredRooms);
    assert x.tenancies[..|x.tenancies|] == x.tenancies;
    if EverybodyMetered(x) {
      EverybodysEntries(x, |x.tenancies|);
    } else {
      OthersEntries(x, |x.tenancies|);
    }
  }

  /** With a positive rate and price every entry has its share among the bills, and nothing else has. */
  lemma {:induction false} PoolBillsAre(entries: seq<DayEntry>, rate: real, unitPrice: real, b: Allocation)
    requires rate > 0.0 && unitPrice > 0.0
    requires forall i :: 0 <= i < |entries| ==> entries[i].days > 0
    ensures b in PoolBills(entries, rate, unitPrice) <==> exists e :: e in entries && b == PoolShare(e, rate, unitPrice)
  {
    hide Ceil, Product, Times;
    if entries != [] {
      var before, e := entries[..|entries| - 1], entries[|entries| - 1];
      PoolBillsAre(before, rate, unitPrice, b);
      TimesPositive(rate, e.days);
      ProductPositive(Times(rate, e.days), unitPrice);
      assert PoolShare(e, rate, unitPrice).amount > 0;
      assert entries == before + [e];
    }
  }

  lemma ShareOfEntry(x: Inputs, i: int)
    requires PaysPool(x, i) && AllPoolDays(x) > 0
    ensures PoolShare(DayEntry(x.tenancies[i], Days(x, i)), Per(Pool(x), AllPoolDays(x)), x.unitPrice) == PoolBill(x, i)
  {
    hide Pool, AllPoolDays, Days, Ceil;
    var pool, days, all := Pool(x), Days(x, i), AllPoolDays(x);
    PartOfPool(pool, days, all);
    var share := PoolShare(DayEntry(x.tenancies[i], days), Per(pool, all), x.unitPrice);
    assert share.units == PoolBill(x, i).units;
    assert Product(share.units, x.unitPrice) == PoolBill(x, i).units * x.unitPrice;
  }

  lemma PartOfPool(pool: real, days: int, all: int)
    requires all > 0
    ensures Times(Per(pool, all), days) == pool * days as real / all as real
  {
  }

  /** The pool bills are the shares of those who pay the pool. */
  lemma PoolSharesAre(x: Inputs, b: Allocation)
    requires Sound(x) && PoolIsShared(x)
    ensures b in PoolBills(PoolEntries(x), Per(Pool(x), AllPoolDays(x)), x.unitPrice) <==> IsPoolShare(x, b)
  {
    hide Pool, DayEntries, PoolBills, PoolBill, PoolShare, PoolTenancies, PoolDays, Days, PaysPool, DaysOf;
    var rate, entries := Per(Pool(x), AllPoolDays(x)), PoolEntries(x);
    PerTimes(Pool(x), AllPoolDays(x));
    EntriesPositive(PoolTenancies(x.tenancies, x.meteredRooms), x.month, x.year);
    PoolBillsAre(entries, rate, x.unitPrice, b);
    PoolEntriesAre(x);
    forall i | PaysPool(x, i)
      ensures PoolShare(DayEntry(x.tenancies[i], Days(x, i)), rate, x.unitPrice) == PoolBill(x, i)
      ensures DayEntry(x.tenancies[i], Days(x, i)) in entries
    {
      ShareOfEntry(x, i);
      assert EntryOf(x, DayEntry(x.tenancies[i], Days(x, i)), |x.tenancies|);
    }
  }

  // ----------------------------------------------------------------------- all bills

  /**
   The bills of the engine are exactly these: each tenancy of a metered room pays its part of the room, and, if there is
   a pool and somebody has days, each payer of the pool pays the part that its days are of all days.
   */
  lemma BillsAreShares(x: Inputs)
    requires Sound(x)
    ensures var r := Allocations(x);
            && (forall b :: b in r.allocations <==> IsRoomBill(x, b) || IsPoolShare(x, b))
            && r.effectiveSharedPoolUnits == Pool(x)
            && r.poolTenancyDays == (if PoolIsShared(x) then AllPoolDays(x) else 0)
            && r.perDayRate == (if PoolIsShared(x) then Pool(x) / AllPoolDays(x) as real else 0.0)
  {
    hide Pool, EffectivePool, PoolEntries, Metered, PoolBills, IsRoomBill, AllPoolDays;
    PoolIs(x);
    PoolEntriesAre(x);
    DaysAgree(x);
    forall b
      ensures b in Allocations(x).allocations <==> IsRoomBill(x, b) || IsPoolShare(x, b)
    {
      MeteredAre(x, b);
      if PoolIsShared(x) {
        PoolSharesAre(x, b);
      }
    }
  }

  lemma DaysAgree(x: Inputs)
    ensures DaysOf(PoolEntries(x)) == AllPoolDays(x)
  {
    hide PoolEntries, DaysOf, PoolDays;
    PoolEntriesAre(x);
  }

  // ------------------------------------------------------------------ nobody pays twice

  /** No tenancy has two bills of one source. */
  ghost predicate OneBillEach(bills: seq<Allocation>) {
    forall k, l :: 0 <= k < l < |bills| ==>
      bills[k].source != bills[l].source || bills[k].tenancyId != bills[l].tenancyId
  }

  lemma RoomBilledOnce(x: Inputs, room: int)
    requires room in x.readings && room in x.meteredRooms && DistinctIds(x)
    ensures var tenants := TenantsOf(x.tenancies, room);
            OneBillEach(RoomBills(tenants, x.readings[room], x.unitPrice, |tenants|))
  {
    hide TenantsOf, RoomBills, SplitAmountEqually;
    var tenants := TenantsOf(x.tenancies, room);
    var bills := RoomBills(tenants, x.readings[room], x.unitPrice, |tenants|);
    RoomBillsSize(tenants, x.readings[room], x.unitPrice, |tenants|);
    forall k, l | 0 <= k < l < |bills|
      ensures bills[k].tenancyId != bills[l].tenancyId
    {
      RoomBillsAt(tenants, x.readings[room], x.unitPrice, |tenants|, k);
      RoomBillsAt(tenants, x.readings[room], x.unitPrice, |tenants|, l);
      var i := TenantFrom(x.tenancies, room, k);
      var j := TenantFrom(x.tenancies, room, l);
    }
  }

  lemma {:induction false} RoomsBilledOnce(x: Inputs, rooms: seq<int>)
    requires DistinctIds(x) && Distinct(rooms) && forall r :: r in rooms ==> r in x.meteredRooms
    ensures OneBillEach(MeteredBills(rooms, x.tenancies, x.readings, x.unitPrice))
  {
    hide TenantsOf, RoomBills, RoomBill;
    if rooms != [] {
      var before, room := rooms[..|rooms| - 1], rooms[|rooms| - 1];
      RoomsBilledOnce(x, before);
      if room in x.readings {
        var tenants := TenantsOf(x.tenancies, room);
        var others, own := MeteredBills(before, x.tenancies, x.readings, x.unitPrice),
            RoomBills(tenants, x.readings[room], x.unitPrice, |tenants|);
        RoomBilledOnce(x, room);
        forall a, b | a in others && b in own
          ensures a.tenancyId != b.tenancyId
        {
          MeteredBillsAre(x, before, a);
          BillsOfRoom(x, room, b);
          OtherTenancy(x, before, room, a, b);
        }
        OnceConcat(others, own);
      }
    }
  }

  lemma OtherTenancy(x: Inputs, rooms: seq<int>, room: int, a: Allocation, b: Allocation)
    requires DistinctIds(x) && room !in rooms && BillOfRooms(x, rooms, a)
    requires exists i :: PaysRoom(x, i) && x.tenancies[i].roomId == room && b == RoomBill(x, i)
    ensures a.tenancyId != b.tenancyId
  {
    var i :| PaysRoom(x, i) && x.tenancies[i].roomId in rooms && a == RoomBill(x, i);
    var j :| PaysRoom(x, j) && x.tenancies[j].roomId == room && b == RoomBill(x, j);
  }

  lemma OnceConcat(a: seq<Allocation>, b: seq<Allocation>)
    requires OneBillEach(a) && OneBillEach(b)
    requires forall p, q :: p in a && q in b ==> p.source != q.source || p.tenancyId != q.tenancyId
    ensures OneBillEach(a + b)
  {
    forall k, l | 0 <= k < l < |a + b|
      ensures (a + b)[k].source != (a + b)[l].source || (a + b)[k].tenancyId != (a + b)[l].tenancyId
    {
      if k < |a| <= l {
        assert a[k] in a && b[l - |a|] in b;
      }
    }
  }

  lemma {:induction false} PoolBilledOnce(entries: seq<DayEntry>, rate: real, unitPrice: real)
    requires OneEntryEach(entries)
    ensures OneBillEach(PoolBills(entries, rate, unitPrice))
    ensures forall b :: b in PoolBills(entries, rate, unitPrice) ==>
              b.source == SharedPool && exists e :: e in entries && b.tenancyId == e.tenancy.id
  {
    hide Ceil, Product, Times;
    if entries != [] {
      var before, e := entries[..|entries| - 1], entries[|entries| - 1];
      PoolBilledOnce(before, rate, unitPrice);
      var bill := PoolShare(e, rate, unitPrice);
      forall b | b in PoolBills(before, rate, unitPrice)
        ensures b.tenancyId != bill.tenancyId
      {
        var f :| f in before && b.tenancyId == f.tenancy.id;
        var k :| 0 <= k < |before| && before[k] == f;
        assert entries[k] == f;
      }
      OnceConcat(PoolBills(before, rate, unitPrice), [bill]);
      assert entries == before + [e];
    }
  }

  lemma MeteredSource(x: Inputs, b: Allocation)
    requires b in Metered(x)
    ensures b.source == MeteredRoom
  {
    hide OccupiedRooms, MeteredBills, RoomCount, Portion;
    MeteredAre(x, b);
  }

  /** Nobody pays twice for a room or twice for the pool. */
  lemma NobodyPaysTwice(x: Inputs)
    requires Sound(x) && DistinctIds(x)
    ensures OneBillEach(Allocations(x).allocations)
  {
    hide OneBillEach, OccupiedRooms, MeteredBills, PoolBills, PoolEntries, EffectivePool, DaysOf, Per, DistinctIds;
    OccupiedRoomsAre(x.tenancies, x.meteredRooms);
    RoomsBilledOnce(x, Occupied(x));
    PoolEntriesAre(x);
    if Allocations(x).allocations != Metered(x) {
      var rate := Per(EffectivePool(x), DaysOf(PoolEntries(x)));
      PoolBilledOnce(PoolEntries(x), rate, x.unitPrice);
      forall p | p in Metered(x)
        ensures p.source == MeteredRoom
      {
        MeteredSource(x, p);
      }
      OnceConcat(Metered(x), PoolBills(PoolEntries(x), rate, x.unitPrice));
    }
  }
}
