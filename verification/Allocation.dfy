/**
 The allocation engine of a billing run: occupied metered rooms pay for their own
 reading, everything else goes to a shared pool weighted by tenant-days.

 The functions are defined on prefixes of the tenancy list, the way the loops of
 CalculateAllocations advance through it.
 */
module Allocation {
  import opened Calendar
  import opened ElectricityUtils
  import opened Numbers
  import opened Sums
  import opened Text

  datatype ActiveTenancy = ActiveTenancy(
    id: int, tenantId: int, propertyId: int, roomId: int, joinedAt: Time, leftAt: Option<Time>)

  datatype Source = MeteredRoom | SharedPool

  datatype Allocation = Allocation(
    tenancyId: int, propertyId: int, tenantId: int, roomId: int, amount: int, units: real, source: Source)

  datatype AllocationResult = AllocationResult(
    allocations: seq<Allocation>, effectiveSharedPoolUnits: real, poolTenancyDays: int, perDayRate: real)

  type Tenancies = seq<ActiveTenancy>

  // ------------------------------------------------------------ metered rooms

  /** Metered rooms with a tenancy, in the order in which their first tenancy appears. */
  function OccupiedRooms(ts: Tenancies, metered: seq<int>): seq<int> {
    if ts == [] then []
    else
      var before, roomId := OccupiedRooms(ts[..|ts| - 1], metered), ts[|ts| - 1].roomId;
      if roomId in metered && roomId !in before then before + [roomId] else before
  }

  /** The tenancies of one room, in list order. */
  function TenantsOf(ts: Tenancies, roomId: int): Tenancies {
    if ts == [] then []
    else
      var before, last := TenantsOf(ts[..|ts| - 1], roomId), ts[|ts| - 1];
      if last.roomId == roomId then before + [last] else before
  }

  /** Units of the metered rooms without a tenancy. */
  function VacantUnits(rooms: seq<int>, occupied: seq<int>, readings: map<int, real>): real {
    if rooms == [] then 0.0
    else
      var before, roomId := VacantUnits(rooms[..|rooms| - 1], occupied, readings), rooms[|rooms| - 1];
      if roomId !in occupied && roomId in readings then before + readings[roomId] else before
  }

  /** The bill of one tenancy in a metered room. */
  function RoomShare(t: ActiveTenancy, share: int, units: real, count: int): Allocation
    requires count > 0
  {
    Allocation(t.id, t.propertyId, t.tenantId, t.roomId, share, Per(units, count), MeteredRoom)
  }

  /** The bills of the first n tenancies of a room, from its split total. */
  function RoomBills(tenants: Tenancies, units: real, unitPrice: real, n: nat): seq<Allocation>
    requires n <= |tenants|
  {
    if n == 0 then []
    else
      var shares := SplitAmountEqually(Ceil(Product(units, unitPrice)), |tenants|);
      RoomBills(tenants, units, unitPrice, n - 1) + [RoomShare(tenants[n - 1], shares[n - 1], units, |tenants|)]
  }

  function MeteredBills(rooms: seq<int>, ts: Tenancies, readings: map<int, real>, unitPrice: real): seq<Allocation> {
    if rooms == [] then []
    else
      var before, roomId := MeteredBills(rooms[..|rooms| - 1], ts, readings, unitPrice), rooms[|rooms| - 1];
      if roomId in readings then
        before + RoomBills(TenantsOf(ts, roomId), readings[roomId], unitPrice, |TenantsOf(ts, roomId)|)
      else before
  }

  // --------------------------------------------------------------- shared pool

  function NonMetered(ts: Tenancies, metered: seq<int>): Tenancies {
    if ts == [] then []
    else
      var before, last := NonMetered(ts[..|ts| - 1], metered), ts[|ts| - 1];
      if last.roomId !in metered then before + [last] else before
  }

  /** Tenants outside metered rooms carry the pool; when there are none, everybody does. */
  function PoolTenancies(ts: Tenancies, metered: seq<int>): Tenancies {
    var nonMetered := NonMetered(ts, metered);
    if |nonMetered| > 0 then nonMetered else ts
  }

  datatype DayEntry = DayEntry(tenancy: ActiveTenancy, days: int)

  function DayEntries(pool: Tenancies, month: int, year: int): seq<DayEntry> {
    if pool == [] then []
    else
      var before, t := DayEntries(pool[..|pool| - 1], month, year), pool[|pool| - 1];
      var days := GetTenantDaysInMonth(t.joinedAt, t.leftAt, month, year);
      if days > 0 then before + [DayEntry(t, days)] else before
  }

  function DaysOf(entries: seq<DayEntry>): int {
    if entries == [] then 0 else DaysOf(entries[..|entries| - 1]) + entries[|entries| - 1].days
  }

  function PoolShare(e: DayEntry, perDayRate: real, unitPrice: real): Allocation {
    var units := Times(perDayRate, e.days);
    Allocation(e.tenancy.id, e.tenancy.propertyId, e.tenancy.tenantId, e.tenancy.roomId,
               Ceil(Product(units, unitPrice)), units, SharedPool)
  }

  function PoolBills(entries: seq<DayEntry>, perDayRate: real, unitPrice: real): seq<Allocation> {
    if entries == [] then []
    else
      var before := PoolBills(entries[..|entries| - 1], perDayRate, unitPrice);
      var bill := PoolShare(entries[|entries| - 1], perDayRate, unitPrice);
      if bill.amount <= 0 then before else before + [bill]
  }

  // ------------------------------------------------------------------ the engine

  datatype Inputs = Inputs(
    tenancies: Tenancies, meteredRooms: seq<int>, readings: map<int, real>,
    rawSharedPoolUnits: real, unitPrice: real, month: int, year: int)

  function Occupied(x: Inputs): seq<int> {
    OccupiedRooms(x.tenancies, x.meteredRooms)
  }

  function EffectivePool(x: Inputs): real {
    x.rawSharedPoolUnits + VacantUnits(x.meteredRooms, Occupied(x), x.readings)
  }

  function PoolEntries(x: Inputs): seq<DayEntry> {
    DayEntries(PoolTenancies(x.tenancies, x.meteredRooms), x.month, x.year)
  }

  function Metered(x: Inputs): seq<Allocation> {
    MeteredBills(Occupied(x), x.tenancies, x.readings, x.unitPrice)
  }

  function Allocations(x: Inputs): AllocationResult {
    var pool, days := EffectivePool(x), DaysOf(PoolEntries(x));
    if pool <= 0.0 || days == 0 then AllocationResult(Metered(x), pool, 0, 0.0)
    else
      var rate := Per(pool, days);
      AllocationResult(Metered(x) + PoolBills(PoolEntries(x), rate, x.unitPrice), pool, days, rate)
  }

  /** Group the tenancies by metered room, remembering the order of insertion. */
  method GroupByMeteredRoom(ts: Tenancies, meteredRooms: seq<int>)
    returns (roomOrder: seq<int>, byRoom: map<int, Tenancies>)
    ensures roomOrder == OccupiedRooms(ts, meteredRooms)
    ensures forall roomId :: roomId in byRoom <==> roomId in roomOrder
    ensures forall roomId :: roomId in byRoom ==> byRoom[roomId] == TenantsOf(ts, roomId) != []
  {
    roomOrder, byRoom := [], map[];
    for i := 0 to |ts|
      invariant roomOrder == OccupiedRooms(ts[..i], meteredRooms)
      invariant forall roomId :: roomId in byRoom <==> roomId in roomOrder
      invariant forall roomId :: roomId in byRoom ==> roomId in meteredRooms
      invariant forall roomId :: roomId in byRoom ==> byRoom[roomId] == TenantsOf(ts[..i], roomId) != []
      invariant forall roomId :: roomId in meteredRooms && roomId !in byRoom ==> TenantsOf(ts[..i], roomId) == []
    {
      assert ts[..i + 1][..i] == ts[..i];
      var tenancy := ts[i];
      if tenancy.roomId !in meteredRooms {
        continue;
      }
      var list := if tenancy.roomId in byRoom then byRoom[tenancy.roomId] else [];
      if tenancy.roomId !in byRoom {
        roomOrder := roomOrder + [tenancy.roomId];
      }
      byRoom := byRoom[tenancy.roomId := list + [tenancy]];
    }
    assert ts[..|ts|] == ts;
  }

  /** Vacant metered rooms add their units to the shared pool. */
  method AbsorbVacantRooms(meteredRooms: seq<int>, occupied: seq<int>, byRoom: map<int, Tenancies>,
          readings: map<int, real>)
    returns (vacantMeteredUnits: real)
    requires forall roomId :: roomId in byRoom <==> roomId in occupied
    ensures vacantMeteredUnits == VacantUnits(meteredRooms, occupied, readings)
  {
    vacantMeteredUnits := 0.0;
    for i := 0 to |meteredRooms|
      invariant vacantMeteredUnits == VacantUnits(meteredRooms[..i], occupied, readings)
    {
      assert meteredRooms[..i + 1][..i] == meteredRooms[..i];
      var roomId := meteredRooms[i];
      if roomId !in byRoom {
        if roomId in readings {
          vacantMeteredUnits := vacantMeteredUnits + readings[roomId];
        }
      }
    }
    assert meteredRooms[..|meteredRooms|] == meteredRooms;
  }

  method BillMeteredRooms(roomOrder: seq<int>, ts: Tenancies, byRoom: map<int, Tenancies>, readings: map<int, real>,
          unitPrice: real)
    returns (allocations: seq<Allocation>)
    requires forall roomId :: roomId in roomOrder ==> roomId in byRoom && byRoom[roomId] == TenantsOf(ts, roomId) != []
    ensures allocations == MeteredBills(roomOrder, ts, readings, unitPrice)
  {
    hide TenantsOf, Ceil, Product, Per;
    allocations := [];
    for i := 0 to |roomOrder|
      invariant allocations == MeteredBills(roomOrder[..i], ts, readings, unitPrice)
    {
      assert roomOrder[..i + 1][..i] == roomOrder[..i];
      var roomId := roomOrder[i];
      var tenants := byRoom[roomId];
      if roomId !in readings {
        continue;
      }
      var units := readings[roomId];
      var roomTotal := Ceil(Product(units, unitPrice));
      var splitAmounts := SplitAmountEqually(roomTotal, |tenants|);
      ghost var before := allocations;
      for idx := 0 to |tenants|
        invariant allocations == before + RoomBills(tenants, units, unitPrice, idx)
      {
        allocations := allocations + [RoomShare(tenants[idx], splitAmounts[idx], units, |tenants|)];
      }
    }
    assert roomOrder[..|roomOrder|] == roomOrder;
  }

  method CalculateAllocations(x: Inputs) returns (r: AllocationResult)
    ensures r == Allocations(x)
  {
    hide OccupiedRooms, TenantsOf, VacantUnits, MeteredBills, NonMetered, DayEntries, DaysOf, PoolShare, Per;
    var Inputs(ts, meteredRooms, readings, rawSharedPoolUnits, unitPrice, month, year) := x;
    var roomOrder, byRoom := GroupByMeteredRoom(ts, meteredRooms);
    var vacantMeteredUnits := AbsorbVacantRooms(meteredRooms, roomOrder, byRoom, readings);
    var effectiveSharedPoolUnits := rawSharedPoolUnits + vacantMeteredUnits;
    var allocations := BillMeteredRooms(roomOrder, ts, byRoom, readings, unitPrice);

    if effectiveSharedPoolUnits <= 0.0 {
      return AllocationResult(allocations, effectiveSharedPoolUnits, 0, 0.0);
    }
    var poolTenancies := PoolTenancies(ts, meteredRooms);
    if |poolTenancies| == 0 {
      NoEntries(month, year);
      return AllocationResult(allocations, effectiveSharedPoolUnits, 0, 0.0);
    }
    var dayEntries := DayEntries(poolTenancies, month, year);
    var poolTenancyDays := DaysOf(dayEntries);
    if poolTenancyDays == 0 {
      return AllocationResult(allocations, effectiveSharedPoolUnits, 0, 0.0);
    }
    var perDayRate := Per(effectiveSharedPoolUnits, poolTenancyDays);
    for i := 0 to |dayEntries|
      invariant allocations == Metered(x) + PoolBills(dayEntries[..i], perDayRate, unitPrice)
    {
      assert dayEntries[..i + 1][..i] == dayEntries[..i];
      var bill := PoolShare(dayEntries[i], perDayRate, unitPrice);
      if bill.amount <= 0 {
        continue;
      }
      allocations := allocations + [bill];
    }
    assert dayEntries[..|dayEntries|] == dayEntries;
    r := AllocationResult(allocations, effectiveSharedPoolUnits, poolTenancyDays, perDayRate);
  }

  lemma NoEntries(month: int, year: int)
    ensures DaysOf(DayEntries([], month, year)) == 0
  {
  }

  // ---------------------------------------------------------------- conservation

  ghost function BilledUnits(bills: seq<Allocation>): real {
    if bills == [] then 0.0 else BilledUnits(bills[..|bills| - 1]) + bills[|bills| - 1].units
  }

  ghost function BilledAmount(bills: seq<Allocation>): int {
    if bills == [] then 0 else BilledAmount(bills[..|bills| - 1]) + bills[|bills| - 1].amount
  }

  lemma {:induction false} BilledConcat(a: seq<Allocation>, b: seq<Allocation>)
    ensures BilledUnits(a + b) == BilledUnits(a) + BilledUnits(b)
    ensures BilledAmount(a + b) == BilledAmount(a) + BilledAmount(b)
  {
    if b == [] {
      assert a + b == a;
    } else {
      BilledConcat(a, b[..|b| - 1]);
      assert (a + b)[..|a + b| - 1] == a + b[..|b| - 1];
    }
  }

  /** A tenancy is in the list of its room, so no occupied room is empty. */
  lemma {:induction false} OccupiedRoomsAre(ts: Tenancies, metered: seq<int>)
    ensures Distinct(OccupiedRooms(ts, metered))
    ensures forall r :: r in OccupiedRooms(ts, metered) ==> r in metered && TenantsOf(ts, r) != []
  {
    if ts != [] {
      OccupiedRoomsAre(ts[..|ts| - 1], metered);
    }
  }

  /** The bills of one room carry its reading and its rounded total, nothing more or less. */
  lemma {:induction false} RoomBillsTotal(tenants: Tenancies, units: real, unitPrice: real, n: nat)
    requires n <= |tenants| && tenants != []
    ensures BilledUnits(RoomBills(tenants, units, unitPrice, n)) == Times(Per(units, |tenants|), n)
    ensures BilledAmount(RoomBills(tenants, units, unitPrice, n))
            == Sum(SplitAmountEqually(Ceil(Product(units, unitPrice)), |tenants|)[..n])
  {
    hide Ceil, SplitAmountEqually, Times, Per, Product;
    var bills, shares := RoomBills(tenants, units, unitPrice, n),
        SplitAmountEqually(Ceil(Product(units, unitPrice)), |tenants|);
    if n == 0 {
      TimesAdd(Per(units, |tenants|), 0, 0);
    } else {
      RoomBillsTotal(tenants, units, unitPrice, n - 1);
      TimesAdd(Per(units, |tenants|), n - 1, 1);
      assert bills[..|bills| - 1] == RoomBills(tenants, units, unitPrice, n - 1);
      assert shares[..n][..n - 1] == shares[..n - 1];
    }
  }

  lemma RoomBillsWhole(tenants: Tenancies, units: real, unitPrice: real)
    requires tenants != []
    ensures BilledUnits(RoomBills(tenants, units, unitPrice, |tenants|)) == units
    ensures BilledAmount(RoomBills(tenants, units, unitPrice, |tenants|)) == Ceil(Product(units, unitPrice))
  {
    hide Ceil, SplitAmountEqually, RoomBills, BilledUnits, BilledAmount, Sum, Times, Per, Product;
    var total := Ceil(Product(units, unitPrice));
    RoomBillsTotal(tenants, units, unitPrice, |tenants|);
    PerTimes(units, |tenants|);
    SplitIsExactAndFair(total, |tenants|);
    assert SplitAmountEqually(total, |tenants|)[..|tenants|] == SplitAmountEqually(total, |tenants|);
  }

  /** The money of some bills covers their units, with fewer than k rupees of rounding on top. */
  ghost predicate RoundedUp(bills: seq<Allocation>, unitPrice: real, k: int) {
    var exact, billed := Product(BilledUnits(bills), unitPrice), BilledAmount(bills) as real;
    && exact <= billed <= exact + k as real
    && (k > 0 ==> billed < exact + k as real)
  }

  lemma NothingRoundedUp(unitPrice: real)
    ensures RoundedUp([], unitPrice, 0)
  {
    ProductAdd(0.0, 0.0, unitPrice);
  }

  lemma RoundedUpConcat(a: seq<Allocation>, j: nat, b: seq<Allocation>, k: nat, unitPrice: real)
    requires RoundedUp(a, unitPrice, j) && RoundedUp(b, unitPrice, k)
    ensures RoundedUp(a + b, unitPrice, j + k)
  {
    hide BilledUnits, BilledAmount, Product;
    BilledConcat(a, b);
    ProductAdd(BilledUnits(a), BilledUnits(b), unitPrice);
  }

  /** Occupied metered rooms are billed their readings. */
  lemma {:induction false} MeteredUnitsTotal(rooms: seq<int>, ts: Tenancies, readings: map<int, real>, unitPrice: real)
    requires Distinct(rooms)
    requires forall r :: r in rooms ==> TenantsOf(ts, r) != []
    ensures BilledUnits(MeteredBills(rooms, ts, readings, unitPrice)) == Total(Restrict(readings, Elements(rooms)))
  {
    hide TenantsOf, RoomBills, Total;
    if rooms == [] {
      assert Restrict(readings, Elements(rooms)) == map[];
      EmptyTotal<int>();
    } else {
      var before, roomId := rooms[..|rooms| - 1], rooms[|rooms| - 1];
      MeteredUnitsTotal(before, ts, readings, unitPrice);
      if roomId in readings {
        var tenants, units := TenantsOf(ts, roomId), readings[roomId];
        RoomBillsWhole(tenants, units, unitPrice);
        BilledConcat(MeteredBills(before, ts, readings, unitPrice), RoomBills(tenants, units, unitPrice, |tenants|));
        TotalInsert(Restrict(readings, Elements(before)), roomId, units);
        assert Restrict(readings, Elements(before))[roomId := units] == Restrict(readings, Elements(rooms));
      } else {
        assert Restrict(readings, Elements(before)) == Restrict(readings, Elements(rooms));
      }
    }
  }

  /** Each occupied metered room adds less than one rupee of rounding. */
  lemma {:induction false} MeteredBillsRoundUp(rooms: seq<int>, ts: Tenancies, readings: map<int, real>,
          unitPrice: real)
    requires forall r :: r in rooms ==> TenantsOf(ts, r) != []
    ensures RoundedUp(MeteredBills(rooms, ts, readings, unitPrice), unitPrice, |rooms|)
  {
    hide TenantsOf, RoomBills, RoundedUp, Product;
    if rooms == [] {
      NothingRoundedUp(unitPrice);
    } else {
      var before, roomId := rooms[..|rooms| - 1], rooms[|rooms| - 1];
      MeteredBillsRoundUp(before, ts, readings, unitPrice);
      var bills := MeteredBills(before, ts, readings, unitPrice);
      if roomId in readings {
        var tenants := TenantsOf(ts, roomId);
        RoomRoundsUp(tenants, readings[roomId], unitPrice);
        RoundedUpConcat(bills, |before|, RoomBills(tenants, readings[roomId], unitPrice, |tenants|), 1, unitPrice);
      } else {
        MoreRoom(bills, unitPrice, |before|);
      }
    }
  }

  lemma MoreRoom(bills: seq<Allocation>, unitPrice: real, k: nat)
    requires RoundedUp(bills, unitPrice, k)
    ensures RoundedUp(bills, unitPrice, k + 1)
  {
  }

  lemma RoomRoundsUp(tenants: Tenancies, units: real, unitPrice: real)
    requires tenants != []
    ensures RoundedUp(RoomBills(tenants, units, unitPrice, |tenants|), unitPrice, 1)
  {
    hide Product, Ceil, RoomBills, BilledUnits, BilledAmount;
    RoomBillsWhole(tenants, units, unitPrice);
  }

  /** The vacant metered rooms are the metered rooms that no bill covers. */
  lemma {:induction false} VacantUnitsTotal(rooms: seq<int>, occupied: seq<int>, readings: map<int, real>)
    requires Distinct(rooms)
    ensures VacantUnits(rooms, occupied, readings) == Total(Restrict(readings, Elements(rooms) - Elements(occupied)))
  {
    hide Total;
    if rooms == [] {
      assert Restrict(readings, Elements(rooms) - Elements(occupied)) == map[];
      EmptyTotal<int>();
    } else {
      var before, roomId := rooms[..|rooms| - 1], rooms[|rooms| - 1];
      VacantUnitsTotal(before, occupied, readings);
      var m := Restrict(readings, Elements(before) - Elements(occupied));
      if roomId !in occupied && roomId in readings {
        TotalInsert(m, roomId, readings[roomId]);
        assert m[roomId := readings[roomId]] == Restrict(readings, Elements(rooms) - Elements(occupied));
      } else {
        assert m == Restrict(readings, Elements(rooms) - Elements(occupied));
      }
    }
  }

  /** With a positive rate and price no pool entry is dropped, and all of the pool is billed. */
  lemma {:induction false} PoolBillsTotal(entries: seq<DayEntry>, rate: real, unitPrice: real)
    requires rate > 0.0 && unitPrice > 0.0
    requires forall i :: 0 <= i < |entries| ==> entries[i].days > 0
    ensures var bills := PoolBills(entries, rate, unitPrice);
            && |bills| == |entries|
            && BilledUnits(bills) == Times(rate, DaysOf(entries))
            && RoundedUp(bills, unitPrice, |entries|)
  {
    hide Ceil, Product, Times, RoundedUp, BilledUnits, BilledAmount;
    if entries == [] {
      TimesAdd(rate, 0, 0);
      NothingBilled();
      NothingRoundedUp(unitPrice);
    } else {
      var before, e := entries[..|entries| - 1], entries[|entries| - 1];
      PoolBillsTotal(before, rate, unitPrice);
      TimesAdd(rate, DaysOf(before), e.days);
      var bills, bill := PoolBills(before, rate, unitPrice), PoolShare(e, rate, unitPrice);
      TimesPositive(rate, e.days);
      ProductPositive(bill.units, unitPrice);
      BilledConcat(bills, [bill]);
      SingleBill(bill);
      PoolShareRoundsUp(bill, unitPrice);
      RoundedUpConcat(bills, |before|, [bill], 1, unitPrice);
    }
  }

  lemma NothingBilled()
    ensures BilledUnits([]) == 0.0 && BilledAmount([]) == 0
  {
  }

  lemma SingleBill(bill: Allocation)
    ensures BilledUnits([bill]) == bill.units && BilledAmount([bill]) == bill.amount
  {
    assert [bill][..0] == [];
  }

  lemma PoolShareRoundsUp(bill: Allocation, unitPrice: real)
    requires bill.amount == Ceil(Product(bill.units, unitPrice))
    ensures RoundedUp([bill], unitPrice, 1)
  {
    hide Product, Ceil;
    SingleBill(bill);
  }

  lemma {:induction false} EntriesPositive(pool: Tenancies, month: int, year: int)
    ensures forall i :: 0 <= i < |DayEntries(pool, month, year)| ==> DayEntries(pool, month, year)[i].days > 0
    ensures DaysOf(DayEntries(pool, month, year)) >= |DayEntries(pool, month, year)|
  {
    hide GetTenantDaysInMonth;
    if pool != [] {
      EntriesPositive(pool[..|pool| - 1], month, year);
      var before, all := DayEntries(pool[..|pool| - 1], month, year), DayEntries(pool, month, year);
      assert all != before ==> all[..|all| - 1] == before;
    }
  }

  /** What callers of the engine guarantee: rooms come from a set, the price was checked to be positive. */
  ghost predicate Sound(x: Inputs) {
    Distinct(x.meteredRooms) && x.unitPrice > 0.0
  }

  ghost predicate PoolIsBilled(x: Inputs) {
    EffectivePool(x) > 0.0 && DaysOf(PoolEntries(x)) > 0
  }

  /**
   Every unit has one place: the bills hold the readings of the metered rooms that are occupied,
   plus the whole pool (vacant metered rooms included) whenever the pool is billed at all.
   */
  lemma UnitsBilled(x: Inputs)
    requires Sound(x)
    ensures BilledUnits(Allocations(x).allocations) + (if PoolIsBilled(x) then 0.0 else EffectivePool(x))
            == x.rawSharedPoolUnits + Total(Restrict(x.readings, Elements(x.meteredRooms)))
  {
    hide Total, MeteredBills, PoolBills, OccupiedRooms, VacantUnits, DayEntries, DaysOf, BilledUnits, Times, Per,
         RoundedUp;
    var occupied := Occupied(x);
    OccupiedRoomsAre(x.tenancies, x.meteredRooms);
    MeteredUnitsTotal(occupied, x.tenancies, x.readings, x.unitPrice);
    VacantUnitsTotal(x.meteredRooms, occupied, x.readings);
    SplitReadings(x.readings, x.meteredRooms, occupied);
    EntriesPositive(PoolTenancies(x.tenancies, x.meteredRooms), x.month, x.year);
    if PoolIsBilled(x) {
      var days := DaysOf(PoolEntries(x));
      var rate := Per(EffectivePool(x), days);
      PerTimes(EffectivePool(x), days);
      PoolBillsTotal(PoolEntries(x), rate, x.unitPrice);
      BilledConcat(Metered(x), PoolBills(PoolEntries(x), rate, x.unitPrice));
    }
  }

  lemma SplitReadings(readings: map<int, real>, rooms: seq<int>, occupied: seq<int>)
    requires forall r :: r in occupied ==> r in rooms
    ensures Total(Restrict(readings, Elements(rooms)))
            == Total(Restrict(readings, Elements(occupied)))
               + Total(Restrict(readings, Elements(rooms) - Elements(occupied)))
  {
    hide Total;
    var m := Restrict(readings, Elements(rooms));
    forall r | r in Elements(occupied)
      ensures r in Elements(rooms)
    {
      assert r in occupied;
    }
    TotalSplit(m, Elements(occupied));
    assert Restrict(m, Elements(occupied)) == Restrict(readings, Elements(occupied));
    assert m - Elements(occupied) == Restrict(readings, Elements(rooms) - Elements(occupied));
  }

  /**
   Unit conservation. When the readings cover exactly the metered rooms and the raw pool is what the
   main meter shows beyond them, the billed units are the main-meter units if and only if the
   effective pool is empty or somebody has tenant-days to carry it.
   */
  lemma UnitConservation(x: Inputs, mainMeterUnits: real)
    requires Sound(x)
    requires x.readings.Keys == Elements(x.meteredRooms)
    requires x.rawSharedPoolUnits == mainMeterUnits - Total(x.readings)
    requires EffectivePool(x) >= 0.0
    ensures BilledUnits(Allocations(x).allocations) == mainMeterUnits
            <==> EffectivePool(x) == 0.0 || DaysOf(PoolEntries(x)) > 0
  {
    hide Allocations, EffectivePool, PoolEntries, Total;
    UnitsBilled(x);
    EntriesPositive(PoolTenancies(x.tenancies, x.meteredRooms), x.month, x.year);
    assert Restrict(x.readings, Elements(x.meteredRooms)) == x.readings;
  }

  /**
   Money bound. The billed total never falls below the price of the billed units and exceeds it by
   less than one rupee for each occupied metered room and each pool entry.
   */
  lemma MoneyBound(x: Inputs)
    requires Sound(x)
    ensures RoundedUp(Allocations(x).allocations, x.unitPrice,
                      |Occupied(x)| + (if PoolIsBilled(x) then |PoolEntries(x)| else 0))
  {
    hide MeteredBills, PoolBills, OccupiedRooms, VacantUnits, DayEntries, DaysOf, BilledUnits, Times, Per, RoundedUp;
    OccupiedRoomsAre(x.tenancies, x.meteredRooms);
    MeteredBillsRoundUp(Occupied(x), x.tenancies, x.readings, x.unitPrice);
    EntriesPositive(PoolTenancies(x.tenancies, x.meteredRooms), x.month, x.year);
    if PoolIsBilled(x) {
      var days := DaysOf(PoolEntries(x));
      var rate := Per(EffectivePool(x), days);
      PerTimes(EffectivePool(x), days);
      PoolBillsTotal(PoolEntries(x), rate, x.unitPrice);
      RoundedUpConcat(Metered(x), |Occupied(x)|, PoolBills(PoolEntries(x), rate, x.unitPrice), |PoolEntries(x)|,
          x.unitPrice);
    }
  }
}
