/** A billing run in a sound database, told from the rows: when it is accepted, whom it bills and how much. */
module RunShares {
  import opened Allocation
  import opened BillShares
  import opened BillingSafety
  import opened DueProofs
  import opened DueRules
  import opened ElectricityProofs
  import opened ElectricityRules
  import opened ElectricityUtils
  import opened Invariants
  import opened Numbers
  import opened Queries
  import opened Readings
  import opened Sums
  import opened Tables
  import opened Text

  // ------------------------------------------------------------------------- the rows

  /** The tenancy is active in the property; notice and pending tenancies are not billed. */
  predicate LivesIn(s: State, p: Id, t: Id)
    ensures LivesIn(s, p, t) ==> t in s.tenancies
  {
    && t in s.tenancies && s.tenancies[t].propertyId == p && s.tenancies[t].status == Active
    && s.tenancies[t].deletedAt.None?
  }

  /** The tenant-days of the tenancy in the month. */
  function DaysIn(s: State, m: Month, t: Id): int
    requires t in s.tenancies
  {
    GetTenantDaysInMonth(s.tenancies[t].joinedAt, s.tenancies[t].leftAt, m.month, m.year)
  }

  ghost predicate EverybodyHasMeter(s: State, p: Id) {
    forall t :: LivesIn(s, p, t) ==> HasMeter(s, p, s.tenancies[t].roomId)
  }

  /** The tenancy pays the pool: it has days, and its room has no meter or everybody's has. */
  ghost predicate SharesPool(s: State, p: Id, m: Month, t: Id)
    ensures SharesPool(s, p, m, t) ==> t in s.tenancies
  {
    && LivesIn(s, p, t) && DaysIn(s, m, t) > 0
    && (!HasMeter(s, p, s.tenancies[t].roomId) || EverybodyHasMeter(s, p))
  }

  /** The tenant-days of all who pay the pool. */
  ghost function RunDays(s: State, p: Id, m: Month): real {
    Total(map t | t in s.tenancies && SharesPool(s, p, m, t) :: DaysIn(s, m, t) as real)
  }

  ghost predicate Inhabited(s: State, p: Id, room: Id) {
    exists t :: LivesIn(s, p, t) && s.tenancies[t].roomId == room
  }

  /** The readings of the metered rooms that somebody lives in. */
  ghost function PrivateReadings(s: State, p: Id, m: Month): map<Id, real> {
    map r | r in s.rooms && HasMeter(s, p, r) && Inhabited(s, p, r) && (r, m) in s.roomReadings ::
      s.roomReadings[(r, m)].unitConsumed
  }

  /** What the main meter shows beyond them. */
  ghost function RunPool(s: State, p: Id, m: Month): real
    requires (p, m) in s.mainReadings
  {
    s.mainReadings[(p, m)].unitConsumed - Total(PrivateReadings(s, p, m))
  }

  ghost predicate PoolPaid(s: State, p: Id, m: Month)
    requires (p, m) in s.mainReadings
  {
    RunPool(s, p, m) > 0.0 && RunDays(s, p, m) > 0.0
  }

  /** Those who live in the room. */
  ghost function Roommates(s: State, p: Id, room: Id): set<Id> {
    set t | t in s.tenancies && LivesIn(s, p, t) && s.tenancies[t].roomId == room
  }

  // ----------------------------------------------------------- the inputs are these rows

  /** The i-th tenancy of the inputs is the row of the i-th tenancy that the query returned. */
  lemma InputRow(s: State, p: Id, m: Month, order: seq<Id>, roomOrder: seq<Id>, i: int)
    requires (p, m) in s.mainReadings && QueryOrders(s, p, order, roomOrder) && 0 <= i < |order|
    ensures var x := RunInputs(s, p, m, order, roomOrder);
            && |x.tenancies| == |order| && LivesIn(s, p, order[i])
            && var row, t := s.tenancies[order[i]], x.tenancies[i];
            && t.id == order[i] && t.tenantId == row.tenantId && t.propertyId == p && t.roomId == row.roomId
            && t.joinedAt == row.joinedAt && t.leftAt == row.leftAt
  {
    hide ReadingByRoom, RawPool, MeteredRooms;
    assert order[i] in order;
  }

  lemma InputScalars(s: State, p: Id, m: Month, order: seq<Id>, roomOrder: seq<Id>)
    requires (p, m) in s.mainReadings && QueryOrders(s, p, order, roomOrder)
    ensures var x := RunInputs(s, p, m, order, roomOrder);
            && |x.tenancies| == |order| && x.meteredRooms == roomOrder
            && x.unitPrice == s.mainReadings[(p, m)].unitPrice && x.month == m.month && x.year == m.year
            && x.readings == ReadingByRoom(s, p, m)
            && (forall r :: r in x.meteredRooms <==> HasMeter(s, p, r))
            && (forall t :: t in order <==> LivesIn(s, p, t))
  {
    hide ReadingByRoom, RawPool;
  }

  /** In a sound database every metered room of the property has its reading for the month. */
  lemma ReadingsAreComplete(s: State, p: Id, m: Month)
    requires Inv(s) && (p, m) in s.mainReadings
    ensures forall r :: r in ReadingByRoom(s, p, m) <==> HasMeter(s, p, r)
    ensures forall r :: HasMeter(s, p, r) ==>
              (r, m) in s.roomReadings && ReadingByRoom(s, p, m)[r] == s.roomReadings[(r, m)].unitConsumed
  {
    ReadingValues(s, p, m);
    KeysAreMetered(s, p, m);
  }

  lemma KeysAreMetered(s: State, p: Id, m: Month)
    requires Inv(s) && (p, m) in s.mainReadings
    ensures forall r :: r in ReadingByRoom(s, p, m) <==> HasMeter(s, p, r)
  {
    hide FreshIds, OccupancyOk, DebtOk, LedgerOk, TransactionsOk, SettledOk, PendingOk, ReadingByRoom, RawPool;
    assert ReadingByRoom(s, p, m).Keys == MeteredRooms(s, p);
  }

  lemma InputsMatch(s: State, p: Id, m: Month, order: seq<Id>, roomOrder: seq<Id>)
    requires (p, m) in s.mainReadings && QueryOrders(s, p, order, roomOrder)
    ensures var x := RunInputs(s, p, m, order, roomOrder);
            && |x.tenancies| == |order| && DistinctIds(x)
            && (EverybodyMetered(x) <==> EverybodyHasMeter(s, p))
            && (forall r :: LivedIn(x.tenancies, r) <==> Inhabited(s, p, r))
  {
    hide RunInputs, QueryOrders, HasMeter;
    var x := RunInputs(s, p, m, order, roomOrder);
    InputScalars(s, p, m, order, roomOrder);
    OrderIsDistinct(s, p, order, roomOrder);
    forall i | 0 <= i < |order| {
      InputRow(s, p, m, order, roomOrder, i);
    }
    forall t | LivesIn(s, p, t)
      ensures exists i :: 0 <= i < |order| && order[i] == t
    {
      assert t in order;
    }
  }

  lemma OrderIsDistinct(s: State, p: Id, order: seq<Id>, roomOrder: seq<Id>)
    requires QueryOrders(s, p, order, roomOrder)
    ensures forall i, j :: 0 <= i < j < |order| ==> order[i] != order[j]
  {
  }

  lemma PayersMatch(s: State, p: Id, m: Month, order: seq<Id>, roomOrder: seq<Id>, i: int)
    requires (p, m) in s.mainReadings && QueryOrders(s, p, order, roomOrder) && 0 <= i < |order|
    ensures var x := RunInputs(s, p, m, order, roomOrder);
            && |x.tenancies| == |order| && order[i] in s.tenancies
            && Days(x, i) == DaysIn(s, m, order[i]) && (PaysPool(x, i) <==> SharesPool(s, p, m, order[i]))
  {
    hide RunInputs, QueryOrders, HasMeter, LivesIn, EverybodyHasMeter, EverybodyMetered, GetTenantDaysInMonth;
    InputRow(s, p, m, order, roomOrder, i);
    InputScalars(s, p, m, order, roomOrder);
    InputsMatch(s, p, m, order, roomOrder);
    ListedExists(s, p, order[i]);
  }

  lemma ListedExists(s: State, p: Id, t: Id)
    requires LivesIn(s, p, t)
    ensures t in s.tenancies
  {
  }

  /** The payers among the first n of the order. */
  ghost function DaysUpTo(s: State, p: Id, m: Month, order: seq<Id>, n: nat): map<Id, real>
    requires n <= |order|
  {
    map t | t in s.tenancies && t in order[..n] && SharesPool(s, p, m, t) :: DaysIn(s, m, t) as real
  }

  lemma OnePayerMore(s: State, p: Id, m: Month, order: seq<Id>, n: nat)
    requires 0 < n <= |order| && forall i, j :: 0 <= i < j < |order| ==> order[i] != order[j]
    ensures Total(DaysUpTo(s, p, m, order, n))
         == Total(DaysUpTo(s, p, m, order, n - 1))
            + (if SharesPool(s, p, m, order[n - 1]) then DaysIn(s, m, order[n - 1]) as real else 0.0)
  {
    hide SharesPool, DaysIn, Total;
    var t, before := order[n - 1], DaysUpTo(s, p, m, order, n - 1);
    assert order[..n] == order[..n - 1] + [t];
    if SharesPool(s, p, m, t) {
      TotalInsert(before, t, DaysIn(s, m, t) as real);
      assert DaysUpTo(s, p, m, order, n) == before[t := DaysIn(s, m, t) as real];
    } else {
      assert DaysUpTo(s, p, m, order, n) == before;
    }
  }

  lemma NobodyYet(s: State, p: Id, m: Month, order: seq<Id>)
    ensures Total(DaysUpTo(s, p, m, order, 0)) == 0.0
  {
    EmptyTotal<Id>();
    assert DaysUpTo(s, p, m, order, 0) == map[];
  }

  lemma {:induction false} DaysMatch(s: State, p: Id, m: Month, order: seq<Id>, roomOrder: seq<Id>, n: nat)
    requires (p, m) in s.mainReadings && QueryOrders(s, p, order, roomOrder) && n <= |order|
    ensures var x := RunInputs(s, p, m, order, roomOrder);
            |x.tenancies| == |order| && PoolDays(x, n) as real == Total(DaysUpTo(s, p, m, order, n))
  {
    hide RunInputs, QueryOrders, SharesPool, PaysPool, DaysIn, Days, Total, DaysUpTo, LivesIn, HasMeter;
    InputScalars(s, p, m, order, roomOrder);
    if n == 0 {
      NobodyYet(s, p, m, order);
    } else {
      DaysMatch(s, p, m, order, roomOrder, n - 1);
      PayersMatch(s, p, m, order, roomOrder, n - 1);
      OrderIsDistinct(s, p, order, roomOrder);
      OnePayerMore(s, p, m, order, n);
    }
  }

  lemma AllDaysMatch(s: State, p: Id, m: Month, order: seq<Id>, roomOrder: seq<Id>)
    requires (p, m) in s.mainReadings && QueryOrders(s, p, order, roomOrder)
    ensures AllPoolDays(RunInputs(s, p, m, order, roomOrder)) as real == RunDays(s, p, m)
  {
    hide RunInputs, QueryOrders, Total, DaysIn, PoolDays;
    InputScalars(s, p, m, order, roomOrder);
    DaysMatch(s, p, m, order, roomOrder, |order|);
    assert order[..|order|] == order;
    assert DaysUpTo(s, p, m, order, |order|)
        == map t | t in s.tenancies && SharesPool(s, p, m, t) :: DaysIn(s, m, t) as real;
  }

  lemma PoolMatches(s: State, p: Id, m: Month, order: seq<Id>, roomOrder: seq<Id>)
    requires Inv(s) && (p, m) in s.mainReadings && QueryOrders(s, p, order, roomOrder)
    ensures Pool(RunInputs(s, p, m, order, roomOrder)) == RunPool(s, p, m)
  {
    hide Inv, RunInputs, QueryOrders, Total, ReadingByRoom, HasMeter, LivedIn, Inhabited;
    var x, readings := RunInputs(s, p, m, order, roomOrder), ReadingByRoom(s, p, m);
    InputScalars(s, p, m, order, roomOrder);
    InputsMatch(s, p, m, order, roomOrder);
    ReadingsAreComplete(s, p, m);
    RunInputsAreSound(s, p, m, order, roomOrder);
    var lived := set r | r in readings && Inhabited(s, p, r);
    TotalSplit(readings, lived);
    forall r | HasMeter(s, p, r)
      ensures r in s.rooms
    {
      MeterRoom(s, p, r);
    }
    assert Restrict(readings, lived) == PrivateReadings(s, p, m);
    assert readings - lived
        == map r | r in x.readings && r in x.meteredRooms && !LivedIn(x.tenancies, r) :: x.readings[r];
  }

  lemma MeterRoom(s: State, p: Id, r: Id)
    requires HasMeter(s, p, r)
    ensures r in s.rooms
  {
  }

  /** The roommates among the first n of the order. */
  ghost function RoommatesUpTo(s: State, p: Id, room: Id, order: seq<Id>, n: nat): set<Id>
    requires n <= |order|
  {
    set t | t in s.tenancies && t in order[..n] && LivesIn(s, p, t) && s.tenancies[t].roomId == room
  }

  lemma OneRoommateMore(s: State, p: Id, room: Id, order: seq<Id>, n: nat)
    requires 0 < n <= |order| && forall i, j :: 0 <= i < j < |order| ==> order[i] != order[j]
    requires LivesIn(s, p, order[n - 1])
    ensures |RoommatesUpTo(s, p, room, order, n)|
         == |RoommatesUpTo(s, p, room, order, n - 1)| + (if s.tenancies[order[n - 1]].roomId == room then 1 else 0)
  {
    var t, before, after := order[n - 1], RoommatesUpTo(s, p, room, order, n - 1), RoommatesUpTo(s, p, room, order, n);
    assert order[..n] == order[..n - 1] + [t];
    if s.tenancies[t].roomId == room {
      assert after == before + {t} && t !in before;
    } else {
      assert after == before;
    }
  }

  lemma {:induction false} RoommatesMatch(s: State, p: Id, m: Month, order: seq<Id>, roomOrder: seq<Id>, room: Id,
          n: nat)
    requires (p, m) in s.mainReadings && QueryOrders(s, p, order, roomOrder) && n <= |order|
    ensures var x := RunInputs(s, p, m, order, roomOrder);
            && |x.tenancies| == |order|
            && RoomCount(x.tenancies, room, n) == |RoommatesUpTo(s, p, room, order, n)|
  {
    hide RunInputs, QueryOrders, RoommatesUpTo, LivesIn, HasMeter;
    InputScalars(s, p, m, order, roomOrder);
    if n == 0 {
      NoRoommateYet(s, p, room, order);
    } else {
      RoommatesMatch(s, p, m, order, roomOrder, room, n - 1);
      InputRow(s, p, m, order, roomOrder, n - 1);
      OrderIsDistinct(s, p, order, roomOrder);
      OneRoommateMore(s, p, room, order, n);
    }
  }

  lemma NoRoommateYet(s: State, p: Id, room: Id, order: seq<Id>)
    ensures RoommatesUpTo(s, p, room, order, 0) == {}
  {
  }

  lemma AllRoommates(s: State, p: Id, m: Month, order: seq<Id>, roomOrder: seq<Id>, room: Id)
    requires (p, m) in s.mainReadings && QueryOrders(s, p, order, roomOrder)
    ensures var x := RunInputs(s, p, m, order, roomOrder);
            RoomCount(x.tenancies, room, |x.tenancies|) == |Roommates(s, p, room)|
  {
    hide RunInputs, QueryOrders, LivesIn, HasMeter;
    InputScalars(s, p, m, order, roomOrder);
    RoommatesMatch(s, p, m, order, roomOrder, room, |order|);
    assert order[..|order|] == order;
    assert RoommatesUpTo(s, p, room, order, |order|) == Roommates(s, p, room);
  }

  // ------------------------------------------------------------------ what a run bills

  /** The tenancy's part of the pool is the part that its days are of all days, at the month's price, rounded up. */
  ghost predicate IsPoolBillOf(s: State, p: Id, m: Month, t: Id, b: Allocation)
    requires (p, m) in s.mainReadings && SharesPool(s, p, m, t)
  {
    && RunDays(s, p, m) > 0.0
    && b.source == SharedPool && b.tenancyId == t && b.propertyId == p
    && b.tenantId == s.tenancies[t].tenantId && b.roomId == s.tenancies[t].roomId
    && b.units == RunPool(s, p, m) * DaysIn(s, m, t) as real / RunDays(s, p, m)
    && b.amount == Ceil(b.units * s.mainReadings[(p, m)].unitPrice)
  }

  /** The tenancy's part of its room: equal units, and the rounded price to within a rupee. */
  ghost predicate IsRoomBillOf(s: State, p: Id, m: Month, t: Id, b: Allocation)
    requires (p, m) in s.mainReadings && LivesIn(s, p, t) && (s.tenancies[t].roomId, m) in s.roomReadings
  {
    var room := s.tenancies[t].roomId;
    var units, price := s.roomReadings[(room, m)].unitConsumed, s.mainReadings[(p, m)].unitPrice;
    && b.source == MeteredRoom && b.tenancyId == t && b.propertyId == p && b.tenantId == s.tenancies[t].tenantId
    && b.roomId == room && |Roommates(s, p, room)| > 0
    && b.units == units / |Roommates(s, p, room)| as real
    && 0 <= b.amount - Ceil(Product(units, price)) / |Roommates(s, p, room)| <= 1
  }

  lemma PoolPaidMatches(s: State, p: Id, m: Month, order: seq<Id>, roomOrder: seq<Id>)
    requires Inv(s) && (p, m) in s.mainReadings && QueryOrders(s, p, order, roomOrder)
    ensures PoolIsShared(RunInputs(s, p, m, order, roomOrder)) <==> PoolPaid(s, p, m)
  {
    hide Inv, RunInputs, QueryOrders, Pool, RunPool, AllPoolDays, RunDays;
    PoolMatches(s, p, m, order, roomOrder);
    AllDaysMatch(s, p, m, order, roomOrder);
  }

  /** The bill of a payer of the pool is as the rows say. */
  lemma PoolBillMatches(s: State, p: Id, m: Month, order: seq<Id>, roomOrder: seq<Id>, i: int)
    requires Inv(s) && (p, m) in s.mainReadings && QueryOrders(s, p, order, roomOrder) && 0 <= i < |order|
    requires SharesPool(s, p, m, order[i]) && PoolPaid(s, p, m)
    ensures var x := RunInputs(s, p, m, order, roomOrder);
            && |x.tenancies| == |order| && PaysPool(x, i) && AllPoolDays(x) > 0
            && IsPoolBillOf(s, p, m, order[i], PoolBill(x, i))
  {
    hide Inv, RunInputs, QueryOrders, Pool, RunPool, AllPoolDays, RunDays, PaysPool, SharesPool, Days, DaysIn, Ceil,
         LivesIn, HasMeter;
    PoolMatches(s, p, m, order, roomOrder);
    AllDaysMatch(s, p, m, order, roomOrder);
    InputRow(s, p, m, order, roomOrder, i);
    InputScalars(s, p, m, order, roomOrder);
    PayersMatch(s, p, m, order, roomOrder, i);
  }

  lemma RoomBillMatches(s: State, p: Id, m: Month, order: seq<Id>, roomOrder: seq<Id>, i: int)
    requires Inv(s) && (p, m) in s.mainReadings && QueryOrders(s, p, order, roomOrder) && 0 <= i < |order|
    requires LivesIn(s, p, order[i]) && HasMeter(s, p, s.tenancies[order[i]].roomId)
    ensures var x := RunInputs(s, p, m, order, roomOrder);
            && PaysRoom(x, i) && (s.tenancies[order[i]].roomId, m) in s.roomReadings
            && IsRoomBillOf(s, p, m, order[i], RoomBill(x, i))
  {
    hide Inv, RunInputs, QueryOrders, Roommates, Ceil, Product, HasMeter;
    var x := RunInputs(s, p, m, order, roomOrder);
    InputRow(s, p, m, order, roomOrder, i);
    InputScalars(s, p, m, order, roomOrder);
    ReadingsAreComplete(s, p, m);
    AllRoommates(s, p, m, order, roomOrder, s.tenancies[order[i]].roomId);
    CountGrows(x.tenancies, s.tenancies[order[i]].roomId, i, |x.tenancies|);
  }

  /** Everybody who pays the pool has a bill over the part of the pool that its days are of all days. */
  ghost predicate PoolBilled(s: State, p: Id, m: Month, bills: seq<Allocation>)
    requires (p, m) in s.mainReadings
  {
    forall t :: PoolPaid(s, p, m) && SharesPool(s, p, m, t) ==> exists b :: b in bills && IsPoolBillOf(s, p, m, t, b)
  }

  /** Everybody in a metered room has a bill over its part of the room. */
  ghost predicate RoomsBilled(s: State, p: Id, m: Month, bills: seq<Allocation>)
    requires (p, m) in s.mainReadings
  {
    forall t :: LivesIn(s, p, t) && HasMeter(s, p, s.tenancies[t].roomId) ==>
      (s.tenancies[t].roomId, m) in s.roomReadings && exists b :: b in bills && IsRoomBillOf(s, p, m, t, b)
  }

  /** There are no other bills. */
  ghost predicate Owed(s: State, p: Id, m: Month, b: Allocation)
    requires (p, m) in s.mainReadings
  {
    match b.source
    case SharedPool => PoolPaid(s, p, m) && SharesPool(s, p, m, b.tenancyId)
    case MeteredRoom => LivesIn(s, p, b.tenancyId) && HasMeter(s, p, s.tenancies[b.tenancyId].roomId)
  }

  /** What a run bills, from the rows; and nobody has two bills of one kind. */
  lemma RunBillsShares(s: State, p: Id, m: Month, order: seq<Id>, roomOrder: seq<Id>)
    requires Inv(s) && (p, m) in s.mainReadings && QueryOrders(s, p, order, roomOrder)
    ensures var bills := Allocations(RunInputs(s, p, m, order, roomOrder)).allocations;
            && PoolBilled(s, p, m, bills) && RoomsBilled(s, p, m, bills) && OneBillEach(bills)
            && forall b :: b in bills ==> Owed(s, p, m, b)
  {
    hide Inv, RunInputs, QueryOrders, Allocations, PoolBilled, RoomsBilled, Owed, OneBillEach, DistinctIds, Sound;
    var x := RunInputs(s, p, m, order, roomOrder);
    RunInputsAreSound(s, p, m, order, roomOrder);
    InputsMatch(s, p, m, order, roomOrder);
    NobodyPaysTwice(x);
    PoolPayersBilled(s, p, m, order, roomOrder);
    RoomTenantsBilled(s, p, m, order, roomOrder);
    forall b | b in Allocations(x).allocations
      ensures Owed(s, p, m, b)
    {
      BillHasPayer(s, p, m, order, roomOrder, b);
    }
  }

  lemma PoolPayersBilled(s: State, p: Id, m: Month, order: seq<Id>, roomOrder: seq<Id>)
    requires Inv(s) && (p, m) in s.mainReadings && QueryOrders(s, p, order, roomOrder)
    ensures PoolBilled(s, p, m, Allocations(RunInputs(s, p, m, order, roomOrder)).allocations)
  {
    hide Inv, RunInputs, QueryOrders, Allocations, PoolPaid, SharesPool, PaysPool, PoolBill, IsPoolBillOf,
         PoolIsShared, AllPoolDays, Sound, LivesIn, IsRoomBill;
    var x := RunInputs(s, p, m, order, roomOrder);
    RunInputsAreSound(s, p, m, order, roomOrder);
    BillsAreShares(x);
    PoolPaidMatches(s, p, m, order, roomOrder);
    forall t | PoolPaid(s, p, m) && SharesPool(s, p, m, t)
      ensures exists b :: b in Allocations(x).allocations && IsPoolBillOf(s, p, m, t, b)
    {
      PayerIsListed(s, p, m, order, roomOrder, t);
      var i :| 0 <= i < |order| && order[i] == t;
      PoolBillMatches(s, p, m, order, roomOrder, i);
      assert IsPoolShare(x, PoolBill(x, i));
    }
  }

  lemma RoomTenantsBilled(s: State, p: Id, m: Month, order: seq<Id>, roomOrder: seq<Id>)
    requires Inv(s) && (p, m) in s.mainReadings && QueryOrders(s, p, order, roomOrder)
    ensures RoomsBilled(s, p, m, Allocations(RunInputs(s, p, m, order, roomOrder)).allocations)
  {
    hide Inv, RunInputs, QueryOrders, Allocations, HasMeter, PaysRoom, RoomBill, IsRoomBillOf, Sound, LivesIn,
         IsPoolShare;
    var x := RunInputs(s, p, m, order, roomOrder);
    RunInputsAreSound(s, p, m, order, roomOrder);
    InputScalars(s, p, m, order, roomOrder);
    BillsAreShares(x);
    forall t | LivesIn(s, p, t) && HasMeter(s, p, s.tenancies[t].roomId)
      ensures (s.tenancies[t].roomId, m) in s.roomReadings
      ensures exists b :: b in Allocations(x).allocations && IsRoomBillOf(s, p, m, t, b)
    {
      assert t in order;
      var i :| 0 <= i < |order| && order[i] == t;
      RoomBillMatches(s, p, m, order, roomOrder, i);
      assert IsRoomBill(x, RoomBill(x, i));
    }
  }

  lemma PayerIsListed(s: State, p: Id, m: Month, order: seq<Id>, roomOrder: seq<Id>, t: Id)
    requires QueryOrders(s, p, order, roomOrder) && SharesPool(s, p, m, t)
    ensures t in order
  {
    hide DaysIn;
  }

  lemma BillHasPayer(s: State, p: Id, m: Month, order: seq<Id>, roomOrder: seq<Id>, b: Allocation)
    requires Inv(s) && (p, m) in s.mainReadings && QueryOrders(s, p, order, roomOrder)
    requires b in Allocations(RunInputs(s, p, m, order, roomOrder)).allocations
    ensures Owed(s, p, m, b)
  {
    hide Inv, RunInputs, QueryOrders, Allocations, Sound, IsRoomBill, IsPoolShare, Owed;
    var x := RunInputs(s, p, m, order, roomOrder);
    RunInputsAreSound(s, p, m, order, roomOrder);
    BillsAreShares(x);
    if IsRoomBill(x, b) {
      RoomBillHasTenant(s, p, m, order, roomOrder, b);
    } else {
      PoolBillHasPayer(s, p, m, order, roomOrder, b);
    }
  }

  lemma RoomBillHasTenant(s: State, p: Id, m: Month, order: seq<Id>, roomOrder: seq<Id>, b: Allocation)
    requires (p, m) in s.mainReadings && QueryOrders(s, p, order, roomOrder)
    requires IsRoomBill(RunInputs(s, p, m, order, roomOrder), b)
    ensures Owed(s, p, m, b)
  {
    hide RunInputs, QueryOrders, HasMeter, RoomCount, Portion, Ceil, Product;
    var x := RunInputs(s, p, m, order, roomOrder);
    InputScalars(s, p, m, order, roomOrder);
    var i :| PaysRoom(x, i) && b == RoomBill(x, i);
    InputRow(s, p, m, order, roomOrder, i);
  }

  lemma PoolBillHasPayer(s: State, p: Id, m: Month, order: seq<Id>, roomOrder: seq<Id>, b: Allocation)
    requires Inv(s) && (p, m) in s.mainReadings && QueryOrders(s, p, order, roomOrder)
    requires IsPoolShare(RunInputs(s, p, m, order, roomOrder), b)
    ensures Owed(s, p, m, b)
  {
    hide Inv, RunInputs, QueryOrders, PoolPaid, SharesPool, PaysPool, AllPoolDays, Pool, Days, Ceil;
    var x := RunInputs(s, p, m, order, roomOrder);
    InputScalars(s, p, m, order, roomOrder);
    PoolPaidMatches(s, p, m, order, roomOrder);
    var i :| PaysPool(x, i) && b == PoolBill(x, i);
    InputRow(s, p, m, order, roomOrder, i);
    PayersMatch(s, p, m, order, roomOrder, i);
  }

  // ------------------------------------------------------------------- the run as a whole

  /** An electricity due of the month. */
  predicate BillsMonth(due: Due, p: Id, m: Month) {
    due.dueType == Electricity && due.propertyId == p && due.month == m
  }

  /** Nothing of the month was collected or is being paid online. */
  ghost predicate MonthIsOpen(s: State, p: Id, m: Month) {
    forall d :: d in s.dues && BillsMonth(s.dues[d], p, m) ==>
      s.dues[d].status == Unpaid && !OnPaymentLine(s, d)
  }

  /**
   A run is accepted exactly if the property exists and the month is completed already, or its readings are there and
   nothing of it was collected or is on a payment line.
   */
  lemma RunAcceptedExactly(s: State, p: Id, m: Month, order: seq<Id>, roomOrder: seq<Id>)
    requires Inv(s) && QueryOrders(s, p, order, roomOrder)
    ensures RunBilling(s, p, m, order, roomOrder).result.Ok?
        <==> && p in s.owners
             && (|| ((p, m) in s.runs && s.runs[(p, m)].status == Completed)
                 || ((p, m) in s.mainReadings && MonthIsOpen(s, p, m)))
  {
    hide Inv, QueryOrders, Allocations, Referenced, RemoveDues, InsertDues, RunnableReadings, RunInputs, ReplacedDues,
         ElectricityCollected, MonthIsOpen;
    ReadyExactly(s, p, m);
    OpenExactly(s, p, m);
  }

  lemma ReadyExactly(s: State, p: Id, m: Month)
    requires Inv(s)
    ensures RunnableReadings(s, p, m) <==> (p, m) in s.mainReadings
  {
    if (p, m) in s.mainReadings {
      ReadingsAreComplete(s, p, m);
      RawPoolIsSound(s, p, m);
    }
  }

  lemma RawPoolIsSound(s: State, p: Id, m: Month)
    requires Inv(s) && (p, m) in s.mainReadings
    ensures RawPool(s, p, m) >= 0.0
  {
    hide FreshIds, OccupancyOk, DebtOk, LedgerOk, TransactionsOk, SettledOk, PendingOk, ReadingByRoom, RawPool;
  }

  lemma OpenExactly(s: State, p: Id, m: Month)
    requires Inv(s)
    ensures MonthIsOpen(s, p, m)
        <==> !ElectricityCollected(s, p, m) && !exists d :: d in ReplacedDues(s, p, m) && Referenced(s, d)
  {
    hide Inv, Referenced, OnPaymentLine;
    forall d | d in s.dues
      ensures s.dues[d].status == Unpaid || s.dues[d].status == Partial || s.dues[d].status == Paid
      ensures s.dues[d].status == Unpaid ==> (Referenced(s, d) <==> OnPaymentLine(s, d))
    {
      DueStatuses(s, d);
    }
  }

  lemma DueStatuses(s: State, d: Id)
    requires Inv(s) && d in s.dues
    ensures s.dues[d].status == Unpaid || s.dues[d].status == Partial || s.dues[d].status == Paid
    ensures s.dues[d].status == Unpaid ==> (Referenced(s, d) <==> OnPaymentLine(s, d))
  {
    hide FreshIds, OccupancyOk, DebtOk, TransactionsOk, SettledOk, PendingOk, ReadingsOk, PaidInto;
    assert DueOk(s.dues[d], PaidInto(s.payments, d));
    if s.dues[d].status == Unpaid {
      UnpaidHasNoPayments(s, d);
    }
  }

  /** The readings of all metered rooms. */
  ghost function RoomReadings(s: State, p: Id, m: Month): map<Id, real> {
    map r | r in s.rooms && HasMeter(s, p, r) && (r, m) in s.roomReadings :: s.roomReadings[(r, m)].unitConsumed
  }

  lemma ReadingsByRoomAre(s: State, p: Id, m: Month)
    requires Inv(s) && (p, m) in s.mainReadings
    ensures ReadingByRoom(s, p, m) == RoomReadings(s, p, m)
  {
    hide Inv, ReadingByRoom;
    ReadingsAreComplete(s, p, m);
    var byRoom, rows := ReadingByRoom(s, p, m), RoomReadings(s, p, m);
    forall r
      ensures r in byRoom <==> r in rows
      ensures r in byRoom ==> byRoom[r] == rows[r]
    {
    }
  }

  /** The completed run records the units, the days and the rate that the bills were made with. */
  ghost predicate Recorded(s: State, s': State, p: Id, m: Month)
    requires (p, m) in s.mainReadings
  {
    && (p, m) in s'.runs && s'.runs == s.runs[(p, m) := s'.runs[(p, m)]]
    && var run, main := s'.runs[(p, m)], s.mainReadings[(p, m)];
    && run.status == Completed && run.mainMeterUnits == main.unitConsumed && run.unitPrice == main.unitPrice
    && run.sharedPoolUnits == RunPool(s, p, m) && run.privateRoomsUnits == Total(RoomReadings(s, p, m))
    && (if PoolPaid(s, p, m)
        then run.totalDaysPool.Some? && run.totalDaysPool.value as real == RunDays(s, p, m)
             && run.perDayRate == Some(RunPool(s, p, m) / RunDays(s, p, m))
        else run.totalDaysPool == None && run.perDayRate == None)
  }

  lemma RunIsRecorded(s: State, p: Id, m: Month, order: seq<Id>, roomOrder: seq<Id>)
    requires Inv(s) && QueryOrders(s, p, order, roomOrder)
    requires RunBilling(s, p, m, order, roomOrder).result.Ok? && !IsCompleted(s, p, m)
    ensures (p, m) in s.mainReadings && Recorded(s, RunBilling(s, p, m, order, roomOrder).db, p, m)
  {
    hide Inv, QueryOrders, RunInputs, Allocations, RunPool, RunDays, PoolPaid, RunBilling, Addable, RemoveDues,
         ReplacedDues, InsertDues, Total, ReadingByRoom, RoomReadings, ElectricityCollected, IsCompleted;
    RunBillingIs(s, p, m, order, roomOrder);
    RunRow(s, p, m, order, roomOrder);
    ReadingsByRoomAre(s, p, m);
    ResultIs(s, p, m, order, roomOrder);
  }

  /** The engine's figures, from the rows. */
  lemma ResultIs(s: State, p: Id, m: Month, order: seq<Id>, roomOrder: seq<Id>)
    requires Inv(s) && QueryOrders(s, p, order, roomOrder) && (p, m) in s.mainReadings
    ensures var r := Allocations(RunInputs(s, p, m, order, roomOrder));
            && r.effectiveSharedPoolUnits == RunPool(s, p, m)
            && (if PoolPaid(s, p, m)
                then r.poolTenancyDays > 0 && r.poolTenancyDays as real == RunDays(s, p, m)
                     && r.perDayRate == RunPool(s, p, m) / RunDays(s, p, m)
                else r.poolTenancyDays == 0)
  {
    hide Inv, QueryOrders, RunInputs, Allocations, RunPool, RunDays, Pool, PoolIsShared, PoolPaid, AllPoolDays,
         Sound, IsRoomBill, IsPoolShare;
    var x := RunInputs(s, p, m, order, roomOrder);
    RunInputsAreSound(s, p, m, order, roomOrder);
    BillsAreShares(x);
    PoolMatches(s, p, m, order, roomOrder);
    AllDaysMatch(s, p, m, order, roomOrder);
    PoolPaidMatches(s, p, m, order, roomOrder);
    if PoolIsShared(x) {
      SharedHasDays(x);
    }
  }

  lemma SharedHasDays(x: Inputs)
    requires PoolIsShared(x)
    ensures AllPoolDays(x) > 0
  {
  }

  lemma RunRow(s: State, p: Id, m: Month, order: seq<Id>, roomOrder: seq<Id>)
    requires QueryOrders(s, p, order, roomOrder) && (p, m) in s.mainReadings
    requires RunBilling(s, p, m, order, roomOrder).result.Ok? && !IsCompleted(s, p, m)
    ensures var reply := RunBilling(s, p, m, order, roomOrder);
            && (p, m) in reply.db.runs
            && reply.db.runs[(p, m)]
               == CompletedRun(s.mainReadings[(p, m)], Total(ReadingByRoom(s, p, m)),
                               Allocations(RunInputs(s, p, m, order, roomOrder)))
  {
    hide QueryOrders, RunInputs, Allocations, RunnableReadings, Total, ReadingByRoom, CompletedRun, ReplacedDues,
         RemoveDues, InsertDues, Referenced, ElectricityCollected;
  }

  /** All other dues stay as they are, and so do tenancies, rooms, payments and readings. */
  ghost predicate OthersStay(s: State, s': State, p: Id, m: Month) {
    && (forall d :: d in s.dues && !BillsMonth(s.dues[d], p, m) ==> d in s'.dues && s'.dues[d] == s.dues[d])
    && (forall d :: d in s'.dues && !BillsMonth(s'.dues[d], p, m) ==> d in s.dues)
    && s'.payments == s.payments && s'.tenancies == s.tenancies && s'.rooms == s.rooms
    && s'.mainReadings == s.mainReadings && s'.roomReadings == s.roomReadings && s'.settlements == s.settlements
  }

  lemma RunLeavesOthers(s: State, p: Id, m: Month, order: seq<Id>, roomOrder: seq<Id>)
    requires Inv(s) && QueryOrders(s, p, order, roomOrder)
    requires RunBilling(s, p, m, order, roomOrder).result.Ok? && !IsCompleted(s, p, m)
    ensures OthersStay(s, RunBilling(s, p, m, order, roomOrder).db, p, m)
  {
    hide Inv, QueryOrders, RunBilling, RunInputs, Allocations, InsertDues, Addable, ElectricityCollected;
    RunBillingIs(s, p, m, order, roomOrder);
    var bills := RunBilling(s, p, m, order, roomOrder).result.value.value;
    var cleared := RemoveDues(s, ReplacedDues(s, p, m));
    DuesAreFresh(cleared);
    InsertDuesExact(cleared, BillDues(bills, m));
    var after := InsertDues(cleared, BillDues(bills, m));
    forall d | d in after.dues && d !in cleared.dues
      ensures BillsMonth(after.dues[d], p, m)
    {
      var k := d - cleared.nextId;
      assert after.dues[cleared.nextId + k] == BillDues(bills, m)[k] == BillDue(bills[k], m);
    }
  }

  /** The month's dues are the bills, one for each. */
  ghost predicate DuesAreBills(dues: Dues, p: Id, m: Month, first: Id, bills: seq<Allocation>) {
    && (forall d :: d in dues && BillsMonth(dues[d], p, m) <==> first <= d < first + |bills|)
    && forall k :: 0 <= k < |bills| ==> AsksFor(dues, first + k, bills[k])
  }

  /** The due asks the bill's tenancy for the bill's amount. */
  predicate AsksFor(dues: Dues, d: Id, b: Allocation) {
    && d in dues && dues[d].tenancyId == b.tenancyId && dues[d].total == b.amount as real
    && dues[d].balance == dues[d].total && dues[d].status == Unpaid
  }

  lemma RunDuesAreBills(s: State, p: Id, m: Month, order: seq<Id>, roomOrder: seq<Id>)
    requires Inv(s) && QueryOrders(s, p, order, roomOrder)
    requires RunBilling(s, p, m, order, roomOrder).result.Ok? && !IsCompleted(s, p, m)
    ensures var reply := RunBilling(s, p, m, order, roomOrder);
            reply.result.value.Some? && DuesAreBills(reply.db.dues, p, m, s.nextId, reply.result.value.value)
  {
    hide Inv, QueryOrders, RunBilling, RunInputs, Allocations, InsertDues, Addable, ElectricityCollected, ReplacedDues,
         DuesAreBills, RemoveDues;
    RunBillingIs(s, p, m, order, roomOrder);
    ClearedMonthIsEmpty(s, p, m);
    ClearedDues(s, ReplacedDues(s, p, m));
    var bills := RunBilling(s, p, m, order, roomOrder).result.value.value;
    var cleared := RemoveDues(s, ReplacedDues(s, p, m));
    DuesAreFresh(cleared);
    InsertDuesExact(cleared, BillDues(bills, m));
    var after := InsertDues(cleared, BillDues(bills, m));
    forall k | 0 <= k < |bills|
      ensures after.dues[cleared.nextId + k] == BillDue(bills[k], m) && bills[k].propertyId == p
    {
      assert BillDues(bills, m)[k] == BillDue(bills[k], m);
    }
    BillsToldByRows(cleared, after, p, m, bills);
  }

  lemma BillsToldByRows(cleared: State, after: State, p: Id, m: Month, bills: seq<Allocation>)
    requires forall d :: d in cleared.dues ==> !IsElectricityDue(cleared.dues[d], p, m)
    requires forall i :: 0 <= i < |bills| ==> bills[i].propertyId == p
    requires forall d :: d in after.dues <==> d in cleared.dues || cleared.nextId <= d < cleared.nextId + |bills|
    requires forall d :: d in cleared.dues ==> after.dues[d] == cleared.dues[d]
    requires forall k :: 0 <= k < |bills| ==> after.dues[cleared.nextId + k] == BillDue(bills[k], m)
    ensures DuesAreBills(after.dues, p, m, cleared.nextId, bills)
  {
    var first := cleared.nextId;
    forall d
      ensures d in after.dues && BillsMonth(after.dues[d], p, m) <==> first <= d < first + |bills|
    {
      if first <= d < first + |bills| {
        assert after.dues[first + (d - first)] == BillDue(bills[d - first], m);
      }
    }
    forall k | 0 <= k < |bills|
      ensures AsksFor(after.dues, first + k, bills[k])
    {
      assert after.dues[first + k] == BillDue(bills[k], m);
    }
  }

  /**
   The month is billed: the bills are as the rows say, they are the month's electricity dues, the run is recorded with
   the days and the rate behind them, and everything else stays.
   */
  ghost predicate Billed(s: State, s': State, p: Id, m: Month, bills: seq<Allocation>) {
    && (p, m) in s.mainReadings
    && PoolBilled(s, p, m, bills) && RoomsBilled(s, p, m, bills) && OneBillEach(bills)
    && (forall b :: b in bills ==> Owed(s, p, m, b))
    && DuesAreBills(s'.dues, p, m, s.nextId, bills)
    && Recorded(s, s', p, m) && OthersStay(s, s', p, m)
  }

  /** A run of a sound database either finds the month completed or bills it. */
  lemma RunBillsTheMonth(s: State, p: Id, m: Month, order: seq<Id>, roomOrder: seq<Id>)
    requires Inv(s) && QueryOrders(s, p, order, roomOrder)
    requires RunBilling(s, p, m, order, roomOrder).result.Ok? && !IsCompleted(s, p, m)
    ensures var reply := RunBilling(s, p, m, order, roomOrder);
            reply.result.value.Some? && Billed(s, reply.db, p, m, reply.result.value.value)
  {
    hide Inv, QueryOrders, RunBilling, RunInputs, Allocations, PoolBilled, RoomsBilled, OneBillEach, Owed,
         DuesAreBills, Recorded, OthersStay, Addable, InsertDues, RemoveDues, ReplacedDues, ElectricityCollected;
    RunBillingIs(s, p, m, order, roomOrder);
    RunBillsShares(s, p, m, order, roomOrder);
    RunDuesAreBills(s, p, m, order, roomOrder);
    RunIsRecorded(s, p, m, order, roomOrder);
    RunLeavesOthers(s, p, m, order, roomOrder);
  }
}
