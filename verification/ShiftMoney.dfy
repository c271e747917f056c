/** Where the open money of a tenancy goes when it is shifted to another property. */
module ShiftMoney {
  import opened DueRules
  import opened Invariants
  import opened Sums
  import opened Tables
  import opened TenancyProofs
  import opened TenancyRules

  // ------------------------------------------------- buckets partition the dues

  /** The values of the dues in some months. */
  function InMonths(dues: Dues, values: map<Id, Money>, months: set<Month>): map<Id, Money>
    requires values.Keys <= dues.Keys
  {
    map d | d in values && dues[d].month in months :: values[d]
  }

  ghost function MonthTotals(dues: Dues, values: map<Id, Money>, months: set<Month>): map<Month, Money>
    requires values.Keys <= dues.Keys
  {
    map m | m in months :: Total(InMonths(dues, values, {m}))
  }

  /** Summing month by month is summing the dues of those months. */
  lemma {:induction false} MonthTotalsAdd(dues: Dues, values: map<Id, Money>, months: set<Month>)
    requires values.Keys <= dues.Keys
    ensures Total(MonthTotals(dues, values, months)) == Total(InMonths(dues, values, months))
    decreases |months|
  {
    hide Total;
    if months == {} {
      assert MonthTotals(dues, values, months) == map[];
      assert InMonths(dues, values, months) == map[];
      EmptyTotal<Id>();
      EmptyTotal<Month>();
    } else {
      var m :| m in months;
      var rest := months - {m};
      MonthTotalsAdd(dues, values, rest);
      TotalInsert(MonthTotals(dues, values, rest), m, Total(InMonths(dues, values, {m})));
      assert MonthTotals(dues, values, rest)[m := Total(InMonths(dues, values, {m}))]
          == MonthTotals(dues, values, months);
      var all := InMonths(dues, values, months);
      var inM := set d | d in values && dues[d].month == m;
      TotalSplit(all, inM);
      assert Restrict(all, inM) == InMonths(dues, values, {m});
      assert all - inM == InMonths(dues, values, rest);
    }
  }

  function Chosen(dues: Dues, ids: set<Id>): Dues {
    map d | d in dues && d in ids :: dues[d]
  }

  /** The amounts of all buckets together. */
  ghost function BucketSum(buckets: map<Month, Metrics>): Metrics {
    Metrics(Total(map m | m in buckets :: buckets[m].generated),
            Total(map m | m in buckets :: buckets[m].paid),
            Total(map m | m in buckets :: buckets[m].unpaid))
  }

  function MonthsIn(dues: Dues, ids: set<Id>): set<Month>
    requires ids <= dues.Keys
  {
    set d | d in ids :: dues[d].month
  }

  lemma FieldPartition(dues: Dues, ids: set<Id>, values: map<Id, Money>)
    requires ids <= dues.Keys && values.Keys == ids
    ensures Total(MonthTotals(dues, values, MonthsIn(dues, ids))) == Total(values)
  {
    hide Total;
    MonthTotalsAdd(dues, values, MonthsIn(dues, ids));
    forall d | d in values
      ensures d in InMonths(dues, values, MonthsIn(dues, ids))
    {
      assert d in ids;
    }
    assert InMonths(dues, values, MonthsIn(dues, ids)) == values;
  }

  function Totals(dues: Dues): map<Id, Money> { map d | d in dues :: dues[d].total }

  function Paids(dues: Dues): map<Id, Money> { map d | d in dues :: dues[d].paid }

  function Balances(dues: Dues): map<Id, Money> { map d | d in dues :: dues[d].balance }

  /** One bucket holds the sums of its month. */
  lemma BucketIsMonthTotal(dues: Dues, ids: set<Id>, m: Month)
    requires ids <= dues.Keys && m in MonthsIn(dues, ids)
    ensures var chosen := Chosen(dues, ids);
            chosen.Keys == ids
            && Buckets(dues, ids)[m] == Metrics(Total(InMonths(dues, Totals(chosen), {m})),
                                                Total(InMonths(dues, Paids(chosen), {m})),
                                                Total(InMonths(dues, Balances(chosen), {m})))
  {
    hide Total;
    var chosen, inM := Chosen(dues, ids), InMonth(dues, ids, m);
    assert Totals(inM) == InMonths(dues, Totals(chosen), {m});
    assert Paids(inM) == InMonths(dues, Paids(chosen), {m});
    assert Balances(inM) == InMonths(dues, Balances(chosen), {m});
  }

  /** The (month, year) buckets partition the open dues: totals, paid and balances all add up. */
  lemma BucketsPartition(dues: Dues, ids: set<Id>)
    requires ids <= dues.Keys
    ensures BucketSum(Buckets(dues, ids)) == AmountsOf(Chosen(dues, ids))
  {
    hide Total, InMonths, AmountsOf, BucketSum;
    var chosen, buckets, months := Chosen(dues, ids), Buckets(dues, ids), MonthsIn(dues, ids);
    assert chosen.Keys == ids;
    FieldPartition(dues, ids, Totals(chosen));
    FieldPartition(dues, ids, Paids(chosen));
    FieldPartition(dues, ids, Balances(chosen));
    assert buckets.Keys == months;
    forall m | m in months
      ensures buckets[m] == Metrics(MonthTotals(dues, Totals(chosen), months)[m],
          MonthTotals(dues, Paids(chosen), months)[m],
                                    MonthTotals(dues, Balances(chosen), months)[m])
    {
      BucketIsMonthTotal(dues, ids, m);
    }
    FieldsOfBuckets(buckets, MonthTotals(dues, Totals(chosen), months), MonthTotals(dues, Paids(chosen), months),
                    MonthTotals(dues, Balances(chosen), months));
    AmountsAre(chosen);
  }

  lemma FieldsOfBuckets(buckets: map<Month, Metrics>, g: map<Month, Money>, p: map<Month, Money>, u: map<Month, Money>)
    requires buckets.Keys == g.Keys == p.Keys == u.Keys
    requires forall m :: m in buckets ==> buckets[m] == Metrics(g[m], p[m], u[m])
    ensures BucketSum(buckets) == Metrics(Total(g), Total(p), Total(u))
  {
    hide Total;
    assert (map m | m in buckets :: buckets[m].generated) == g;
    assert (map m | m in buckets :: buckets[m].paid) == p;
    assert (map m | m in buckets :: buckets[m].unpaid) == u;
  }

  lemma AmountsAre(dues: Dues)
    ensures AmountsOf(dues) == Metrics(Total(Totals(dues)), Total(Paids(dues)), Total(Balances(dues)))
  {
  }

  // --------------------------------------------------- the metrics of both sides

  const NO_MONEY := Metrics(0.0, 0.0, 0.0)

  function Row(metrics: MetricsTable, propertyId: Id, month: Month): Metrics {
    if (propertyId, month) in metrics then metrics[(propertyId, month)] else NO_MONEY
  }

  /** A month's metrics of two properties together. */
  function Both(metrics: MetricsTable, p: Id, q: Id, month: Month): Metrics {
    Plus(Row(metrics, p, month), Row(metrics, q, month))
  }

  lemma MoveOneMonth(metrics: MetricsTable, p: Id, q: Id, buckets: map<Month, Metrics>, month: Month)
    requires p != q
    ensures Row(MoveBuckets(metrics, p, q, buckets), p, month)
            == if month in buckets && (p, month) in metrics then Minus(Row(metrics, p, month), buckets[month])
               else Row(metrics, p, month)
    ensures Row(MoveBuckets(metrics, p, q, buckets), q, month)
            == if month in buckets then Plus(Row(metrics, q, month), buckets[month]) else Row(metrics, q, month)
  {
    var after := MoveBuckets(metrics, p, q, buckets);
    assert (q, month) in after <==> (q, month) in metrics || month in buckets;
    assert (p, month) in after <==> (p, month) in metrics;
  }

  /**
   Moving the buckets conserves every metric of every month, summed over both properties, exactly when the old
   property has a metrics row for each month in which money moves: the subtraction skips a missing row, the
   addition creates one.
   */
  lemma ShiftConservesMetrics(metrics: MetricsTable, p: Id, q: Id, buckets: map<Month, Metrics>)
    requires p != q
    ensures (forall month: Month ::
               Both(MoveBuckets(metrics, p, q, buckets), p, q, month) == Both(metrics, p, q, month))
            <==> forall month: Month :: month in buckets ==> (p, month) in metrics || buckets[month] == NO_MONEY
  {
    hide MoveBuckets, Both, Plus, AmountsOf;
    forall month: Month
      ensures Both(MoveBuckets(metrics, p, q, buckets), p, q, month) == Both(metrics, p, q, month)
              <==> (month in buckets ==> (p, month) in metrics || buckets[month] == NO_MONEY)
    {
      BothMoved(metrics, p, q, buckets, month);
      if month in buckets {
        PlusNothing(Both(metrics, p, q, month), buckets[month]);
      }
    }
  }

  /** What a month gains over both properties: its bucket, if the old property has no row to take it from. */
  lemma BothMoved(metrics: MetricsTable, p: Id, q: Id, buckets: map<Month, Metrics>, month: Month)
    requires p != q
    ensures Both(MoveBuckets(metrics, p, q, buckets), p, q, month)
            == if month in buckets && (p, month) !in metrics then Plus(Both(metrics, p, q, month), buckets[month])
               else Both(metrics, p, q, month)
  {
    hide MoveBuckets, Row, Plus, Minus;
    MoveOneMonth(metrics, p, q, buckets, month);
    if month in buckets {
      MovedSums(Row(metrics, p, month), Row(metrics, q, month), buckets[month]);
    }
  }

  lemma MovedSums(a: Metrics, b: Metrics, moved: Metrics)
    ensures Plus(Minus(a, moved), Plus(b, moved)) == Plus(a, b)
    ensures Plus(a, Plus(b, moved)) == Plus(Plus(a, b), moved)
  {
  }

  lemma PlusNothing(a: Metrics, b: Metrics)
    ensures Plus(a, b) == a <==> b == NO_MONEY
  {
  }

  /** A cross-property shift, in the database: what is conserved and where it goes. */
  lemma CrossPropertyShiftMovesMoney(s: State, plan: ShiftPlan)
    requires Inv(s) && ShiftCommit(s, plan).result.Ok? && plan.newProperty != plan.oldProperty
    ensures var s', moved := ShiftCommit(s, plan).db, OpenDues(s.dues, plan.tenancyId);
            && BucketSum(Buckets(s.dues, moved)) == AmountsOf(Chosen(s.dues, moved))
                == AmountsOf(Chosen(s'.dues, moved))
            && s'.dues.Keys == s.dues.Keys
            && (forall d :: d in s.dues ==>
                  s'.dues[d] == if d in moved then s.dues[d].(propertyId := plan.newProperty) else s.dues[d])
            && ((forall month: Month :: Both(s'.metrics, plan.oldProperty, plan.newProperty, month)
                                        == Both(s.metrics, plan.oldProperty, plan.newProperty, month))
                <==> forall month: Month :: month in Buckets(s.dues, moved) ==>
                        (plan.oldProperty, month) in s.metrics || Buckets(s.dues, moved)[month] == NO_MONEY)
  {
    hide Inv, Buckets, MoveBuckets, BucketSum, AmountsOf, OpenDues, ShiftCommit;
    ShiftedAcross(s, plan);
    var s', moved := ShiftCommit(s, plan).db, OpenDues(s.dues, plan.tenancyId);
    BucketsPartition(s.dues, moved);
    SameAmounts(s.dues, s'.dues, moved, plan.newProperty);
    ShiftConservesMetrics(s.metrics, plan.oldProperty, plan.newProperty, Buckets(s.dues, moved));
  }

  /** What the tenancy still owes for a month. */
  function OwedFor(dues: Dues, t: Id, month: Month): Dues {
    map d | d in dues && dues[d].tenancyId == t && dues[d].month == month
            && (dues[d].status == Unpaid || dues[d].status == Partial || dues[d].status == Overdue) :: dues[d]
  }

  /** The totals of some dues, what was paid of them and what is open. */
  ghost function MoneyIn(dues: Dues): Metrics {
    Metrics(Total(map d | d in dues :: dues[d].total), Total(map d | d in dues :: dues[d].paid),
            Total(map d | d in dues :: dues[d].balance))
  }

  /** A month's rows of the old and the new property after the money has moved. */
  ghost predicate MonthMoved(a: MetricsTable, b: MetricsTable, p: Id, q: Id, month: Month, moved: Metrics) {
    && (q, month) in b
    && (var before := if (q, month) in a then a[(q, month)] else Metrics(0.0, 0.0, 0.0);
        b[(q, month)] == Metrics(before.generated + moved.generated, before.paid + moved.paid,
                                 before.unpaid + moved.unpaid))
    && ((p, month) in b <==> (p, month) in a)
    && ((p, month) in a ==>
          b[(p, month)] == Metrics(a[(p, month)].generated - moved.generated, a[(p, month)].paid - moved.paid,
                                   a[(p, month)].unpaid - moved.unpaid))
  }

  ghost predicate SameRow(a: MetricsTable, b: MetricsTable, p: Id, month: Month) {
    ((p, month) in a <==> (p, month) in b) && ((p, month) in a ==> b[(p, month)] == a[(p, month)])
  }

  /** For each month that the tenancy owes something for, that money has moved; no other row has changed. */
  ghost predicate MetricsMoved(a: MetricsTable, b: MetricsTable, dues: Dues, t: Id, p: Id, q: Id) {
    forall month: Month ::
      && (OwedFor(dues, t, month) != map[] ==> MonthMoved(a, b, p, q, month, MoneyIn(OwedFor(dues, t, month))))
      && (forall r :: (r != p && r != q) || OwedFor(dues, t, month) == map[] ==> SameRow(a, b, r, month))
  }

  lemma OwedIsMoved(dues: Dues, t: Id, month: Month)
    ensures OwedFor(dues, t, month) == InMonth(dues, OpenDues(dues, t), month)
    ensures month in Buckets(dues, OpenDues(dues, t)) <==> OwedFor(dues, t, month) != map[]
    ensures month in Buckets(dues, OpenDues(dues, t)) ==>
              Buckets(dues, OpenDues(dues, t))[month] == MoneyIn(OwedFor(dues, t, month))
  {
    hide Total;
    var owed, inMonth := OwedFor(dues, t, month), InMonth(dues, OpenDues(dues, t), month);
    forall d
      ensures d in owed <==> d in inMonth
    {
    }
    assert owed == inMonth;
    if owed == map[] {
      assert forall d :: d in OpenDues(dues, t) && dues[d].month == month ==> d in owed;
    }
    if month !in Buckets(dues, OpenDues(dues, t)) {
      forall d
        ensures d !in owed
      {
      }
      assert owed == map[];
    }
  }

  lemma BucketsMoveTheMoney(metrics: MetricsTable, dues: Dues, t: Id, p: Id, q: Id)
    requires p != q
    ensures MetricsMoved(metrics, MoveBuckets(metrics, p, q, Buckets(dues, OpenDues(dues, t))), dues, t, p, q)
  {
    hide MoveBuckets, Buckets, OpenDues, OwedFor, MoneyIn, MonthMoved, SameRow;
    var buckets := Buckets(dues, OpenDues(dues, t));
    forall month: Month
      ensures OwedFor(dues, t, month) != map[] ==>
                MonthMoved(metrics, MoveBuckets(metrics, p, q, buckets), p, q, month, MoneyIn(OwedFor(dues, t, month)))
      ensures forall r :: (r != p && r != q) || OwedFor(dues, t, month) == map[] ==>
                SameRow(metrics, MoveBuckets(metrics, p, q, buckets), r, month)
    {
      OwedIsMoved(dues, t, month);
      if month in buckets {
        BucketMoved(metrics, p, q, buckets, month);
      }
      forall r | (r != p && r != q) || month !in buckets
        ensures SameRow(metrics, MoveBuckets(metrics, p, q, buckets), r, month)
      {
        OtherRow(metrics, p, q, buckets, r, month);
      }
    }
  }

  lemma BucketMoved(metrics: MetricsTable, p: Id, q: Id, buckets: map<Month, Metrics>, month: Month)
    requires p != q && month in buckets
    ensures MonthMoved(metrics, MoveBuckets(metrics, p, q, buckets), p, q, month, buckets[month])
  {
    hide MoveBuckets;
    MovedRow(metrics, p, q, buckets, (p, month));
    MovedRow(metrics, p, q, buckets, (q, month));
  }

  lemma OtherRow(metrics: MetricsTable, p: Id, q: Id, buckets: map<Month, Metrics>, r: Id, month: Month)
    requires (r != p && r != q) || month !in buckets
    ensures SameRow(metrics, MoveBuckets(metrics, p, q, buckets), r, month)
  {
    hide MoveBuckets;
    MovedRow(metrics, p, q, buckets, (r, month));
  }

  lemma SameAmounts(dues: Dues, dues': Dues, moved: set<Id>, propertyId: Id)
    requires dues' == Reassign(dues, moved, propertyId)
    ensures AmountsOf(Chosen(dues', moved)) == AmountsOf(Chosen(dues, moved))
  {
    hide Total;
    var a, b := Chosen(dues, moved), Chosen(dues', moved);
    AmountsAre(a);
    AmountsAre(b);
    assert Totals(b) == Totals(a) && Paids(b) == Paids(a) && Balances(b) == Balances(a);
  }

  // ----------------------------------------------------- one due, one bucket at a time

  lemma NoBuckets(dues: Dues)
    ensures Buckets(dues, {}) == map[]
  {
  }

  /** One more due adds its amounts to the bucket of its month. */
  lemma BucketsAdd(dues: Dues, ids: set<Id>, d: Id)
    requires ids <= dues.Keys && d in dues && d !in ids
    ensures var due, buckets := dues[d], Buckets(dues, ids);
            var b := if due.month in buckets then buckets[due.month] else NO_MONEY;
            Buckets(dues, ids + {d}) == buckets[due.month := Plus(b, Metrics(due.total, due.paid, due.balance))]
  {
    hide AmountsOf, InMonth;
    var due, buckets, after := dues[d], Buckets(dues, ids), Buckets(dues, ids + {d});
    forall m
      ensures m in after <==> m in buckets || m == due.month
    {
    }
    forall m | m in after
      ensures InMonth(dues, ids + {d}, m)
              == if m == due.month then InMonth(dues, ids, m)[d := due] else InMonth(dues, ids, m)
      ensures m == due.month && m !in buckets ==> InMonth(dues, ids, m) == map[]
    {
      InMonthAdd(dues, ids, d, m);
    }
    InMonthMembers(dues, ids, d, due.month);
    AmountsAdd(InMonth(dues, ids, due.month), d, due);
    NoAmounts();
  }

  lemma InMonthAdd(dues: Dues, ids: set<Id>, d: Id, m: Month)
    requires ids <= dues.Keys && d in dues
    ensures InMonth(dues, ids + {d}, m)
            == if m == dues[d].month then InMonth(dues, ids, m)[d := dues[d]] else InMonth(dues, ids, m)
    ensures (forall i :: i in ids ==> dues[i].month != m) ==> InMonth(dues, ids, m) == map[]
  {
    if forall i :: i in ids ==> dues[i].month != m {
      forall i
        ensures i !in InMonth(dues, ids, m)
      {
      }
    }
  }

  lemma InMonthMembers(dues: Dues, ids: set<Id>, d: Id, m: Month)
    requires d !in ids
    ensures d !in InMonth(dues, ids, m)
  {
  }

  lemma NoAmounts()
    ensures AmountsOf(map[]) == NO_MONEY
  {
    var none: Dues := map[];
    AmountsAre(none);
    assert Totals(none) == map[] && Paids(none) == map[] && Balances(none) == map[];
    EmptyTotal<Id>();
  }

  lemma AmountsAdd(dues: Dues, d: Id, due: Due)
    requires d !in dues
    ensures AmountsOf(dues[d := due]) == Plus(AmountsOf(dues), Metrics(due.total, due.paid, due.balance))
  {
    hide Total;
    var after := dues[d := due];
    AmountsAre(dues);
    AmountsAre(after);
    assert Totals(after) == Totals(dues)[d := due.total];
    assert Paids(after) == Paids(dues)[d := due.paid];
    assert Balances(after) == Balances(dues)[d := due.balance];
    TotalInsert(Totals(dues), d, due.total);
    TotalInsert(Paids(dues), d, due.paid);
    TotalInsert(Balances(dues), d, due.balance);
  }

  lemma NothingMoved(metrics: MetricsTable, p: Id, q: Id, buckets: map<Month, Metrics>)
    ensures MoveBuckets(metrics, p, q, Restrict(buckets, {})) == metrics
  {
    assert Restrict(buckets, {}) == map[];
  }

  /** Moving the buckets one by one is moving them all. */
  lemma MoveBucketsAdd(metrics: MetricsTable, p: Id, q: Id, buckets: map<Month, Metrics>, moved: set<Month>, m: Month)
    requires p != q && m in buckets && m !in moved
    ensures MoveBuckets(metrics, p, q, Restrict(buckets, moved + {m}))
            == MoveBucket(MoveBuckets(metrics, p, q, Restrict(buckets, moved)), p, q, m, buckets[m])
  {
    hide MoveBuckets, MoveBucket;
    var before, after := MoveBuckets(metrics, p, q, Restrict(buckets, moved)),
        MoveBuckets(metrics, p, q, Restrict(buckets, moved + {m}));
    var step := MoveBucket(before, p, q, m, buckets[m]);
    forall k
      ensures k in after <==> k in step
      ensures k in after ==> after[k] == step[k]
    {
      MovedRow(metrics, p, q, Restrict(buckets, moved), k);
      MovedRow(metrics, p, q, Restrict(buckets, moved + {m}), k);
      MovedBucketRow(before, p, q, m, buckets[m], k);
    }
  }

  lemma MovedRow(metrics: MetricsTable, p: Id, q: Id, buckets: map<Month, Metrics>, k: (Id, Month))
    ensures var after := MoveBuckets(metrics, p, q, buckets);
            && (k in after <==> k in metrics || (k.0 == q && k.1 in buckets))
            && (k in after ==>
                  after[k] == if k.1 in buckets && k.0 == q
                              then (if k in metrics then Plus(metrics[k], buckets[k.1]) else buckets[k.1])
                              else if k.1 in buckets && k.0 == p then Minus(metrics[k], buckets[k.1])
                              else metrics[k])
  {
  }

  lemma MovedBucketRow(metrics: MetricsTable, p: Id, q: Id, month: Month, amounts: Metrics, k: (Id, Month))
    requires p != q
    ensures var after := MoveBucket(metrics, p, q, month, amounts);
            && (k in after <==> k in metrics || k == (q, month))
            && (k in after ==>
                  after[k] == if k == (q, month) then (if k in metrics then Plus(metrics[k], amounts) else amounts)
                              else if k == (p, month) then Minus(metrics[k], amounts)
                              else metrics[k])
  {
  }
}
