/**
 * The store's analytics: the 12-bucket trailing monthly revenue and patient
 * growth series, the three-bucket appointment status count, and consumption
 * totals grouped by item name. Each is computed the way the store computes
 * it (one pass over the listing) and tied by a lemma to an independent
 * reference definition.
 */
module Analytics {
  import opened Wrappers
  import opened Time
  import opened Schema
  import opened Tables
  import opened Storage

  // ---------------------------------------------------------------- month buckets

  /** A record reduced to what the bucketing loop reads: its date and what it adds. */
  datatype Dated = Dated(at: Instant, weight: int)

  /** The calendar month bucket `k` stands for: bucket 11 is the current month, bucket 0 eleven months back. */
  function BucketMonth(now: Instant, k: int): YearMonth {
    ShiftMonths(MonthOf(now), k - 11)
  }

  function Zeros(n: nat): (r: seq<int>)
    ensures |r| == n && forall k :: 0 <= k < n ==> r[k] == 0
  {
    seq(n, _ => 0)
  }

  /** One turn of the loop: a record `d` months old, `0 <= d < 12`, adds its weight to bucket `11 - d`. */
  function Bump(b: seq<int>, now: Instant, e: Dated): (r: seq<int>)
    requires |b| == 12
    ensures |r| == 12
  {
    var d := MonthDiff(now, e.at);
    if 0 <= d < 12 then b[11 - d := b[11 - d] + e.weight] else b
  }

  /** The loop over all entries: bucket `k` ends at its start value plus the weight of the entries of its month. */
  function Accumulate(b: seq<int>, now: Instant, es: seq<Dated>): (r: seq<int>)
    requires |b| == 12
    ensures |r| == 12
    ensures forall k :: 0 <= k < 12 ==> r[k] == b[k] + WeightIn(es, BucketMonth(now, k))
    decreases |es|
  {
    if |es| == 0 then b
    else
      forall k | 0 <= k < 12 ensures Bump(b, now, es[0])[k] == b[k] + (if MonthOf(es[0].at) == BucketMonth(now, k) then es[0].weight else 0) {
        BumpByMonth(b, now, es[0], k);
      }
      Accumulate(Bump(b, now, es[0]), now, es[1..])
  }

  /** Reference: the total weight of the entries dated in calendar month `ym`. */
  function WeightIn(es: seq<Dated>, ym: YearMonth): int {
    if |es| == 0 then 0
    else (if MonthOf(es[0].at) == ym then es[0].weight else 0) + WeightIn(es[1..], ym)
  }

  /** Reference: the total weight of the entries dated in the trailing twelve months. */
  function WeightInWindow(es: seq<Dated>, now: Instant): int {
    if |es| == 0 then 0
    else (if 0 <= MonthDiff(now, es[0].at) < 12 then es[0].weight else 0) + WeightInWindow(es[1..], now)
  }

  /** An entry lands in bucket `k` exactly when it is dated in the month that bucket is labelled with. */
  lemma BumpByMonth(b: seq<int>, now: Instant, e: Dated, k: int)
    requires |b| == 12 && 0 <= k < 12
    ensures Bump(b, now, e)[k] == b[k] + (if MonthOf(e.at) == BucketMonth(now, k) then e.weight else 0)
  {
    MonthDiffIsShift(now, e.at, 11 - k);
  }

  function Sum(s: seq<int>): int {
    if |s| == 0 then 0 else s[0] + Sum(s[1..])
  }

  lemma {:induction false} SumBump(s: seq<int>, i: int, v: int)
    requires 0 <= i < |s|
    ensures Sum(s[i := s[i] + v]) == Sum(s) + v
  {
    if i > 0 {
      assert s[i := s[i] + v][1..] == s[1..][i - 1 := s[1..][i - 1] + v];
      SumBump(s[1..], i - 1, v);
    }
  }

  lemma {:induction false} SumZeros(n: nat)
    ensures Sum(Zeros(n)) == 0
  {
    if n > 0 {
      assert Zeros(n)[1..] == Zeros(n - 1);
      SumZeros(n - 1);
    }
  }

  /** One turn of the loop adds the entry's weight to the buckets' sum exactly when it is in the window. */
  lemma SumOfBump(b: seq<int>, now: Instant, e: Dated)
    requires |b| == 12
    ensures Sum(Bump(b, now, e)) == Sum(b) + (if 0 <= MonthDiff(now, e.at) < 12 then e.weight else 0)
  {
    var d := MonthDiff(now, e.at);
    if 0 <= d < 12 {
      SumBump(b, 11 - d, e.weight);
    }
  }

  /** What the buckets add up to is what was added: out-of-window entries are dropped, no other is lost. */
  lemma {:induction false} AccumulateTotal(b: seq<int>, now: Instant, es: seq<Dated>)
    requires |b| == 12
    ensures Sum(Accumulate(b, now, es)) == Sum(b) + WeightInWindow(es, now)
    decreases |es|
  {
    if |es| > 0 {
      SumOfBump(b, now, es[0]);
      AccumulateTotal(Bump(b, now, es[0]), now, es[1..]);
      assert Accumulate(b, now, es) == Accumulate(Bump(b, now, es[0]), now, es[1..]);
    }
  }

  /** One bucket of either series: the month it is labelled with and its total (`revenue` or `count`). */
  datatype MonthBucket = MonthBucket(month: YearMonth, total: int)

  /** Pairs the twelve totals with their month labels, oldest first. */
  function Label(now: Instant, totals: seq<int>): (r: seq<MonthBucket>)
    requires |totals| == 12
    ensures |r| == 12
    ensures forall k :: 0 <= k < 12 ==> r[k] == MonthBucket(BucketMonth(now, k), totals[k])
  {
    seq(12, k requires 0 <= k < 12 => MonthBucket(BucketMonth(now, k), totals[k]))
  }

  function BucketTotal(bs: seq<MonthBucket>): int {
    if |bs| == 0 then 0 else bs[0].total + BucketTotal(bs[1..])
  }

  lemma {:induction false} BucketTotalIsSum(bs: seq<MonthBucket>, totals: seq<int>)
    requires |bs| == |totals| && forall k :: 0 <= k < |bs| ==> bs[k].total == totals[k]
    ensures BucketTotal(bs) == Sum(totals)
  {
    if |bs| > 0 {
      BucketTotalIsSum(bs[1..], totals[1..]);
    }
  }

  // ---------------------------------------------------------------- monthly revenue

  predicate IsIncome(t: FinancialTransaction) {
    t.data.kind == "income"
  }

  /** `e` is the date and amount of some income transaction of `txs`. */
  ghost predicate IsIncomeEntryOf(txs: seq<FinancialTransaction>, e: Dated) {
    exists j :: 0 <= j < |txs| && IsIncome(txs[j]) && e == Dated(txs[j].data.date, txs[j].data.amount)
  }

  /** `filter(type === 'income')`, each reduced to its date and amount. */
  function IncomeEntries(txs: seq<FinancialTransaction>): (r: seq<Dated>)
    ensures |r| <= |txs|
    ensures forall i :: 0 <= i < |r| ==> IsIncomeEntryOf(txs, r[i])
  {
    if |txs| == 0 then []
    else
      var head := if IsIncome(txs[0]) then [Dated(txs[0].data.date, txs[0].data.amount)] else [];
      var rest := IncomeEntries(txs[1..]);
      var r := head + rest;
      forall i | 0 <= i < |r| ensures IsIncomeEntryOf(txs, r[i]) {
        if i < |head| {
          assert r[i] == Dated(txs[0].data.date, txs[0].data.amount) && IsIncome(txs[0]);
        } else {
          var k := i - |head|;
          assert 0 <= k < |rest| && r[i] == rest[k];
          assert IsIncomeEntryOf(txs[1..], rest[k]);
          var j :| 0 <= j < |txs[1..]| && IsIncome(txs[1..][j]) && rest[k] == Dated(txs[1..][j].data.date, txs[1..][j].data.amount);
          assert txs[j + 1] == txs[1..][j];
        }
      }
      r
  }

  /** Reference: the income booked in calendar month `ym`. */
  function IncomeOfMonth(txs: seq<FinancialTransaction>, ym: YearMonth): int {
    if |txs| == 0 then 0
    else
      var here := if IsIncome(txs[0]) && MonthOf(txs[0].data.date) == ym then txs[0].data.amount else 0;
      here + IncomeOfMonth(txs[1..], ym)
  }

  /** Reference: the income booked in the trailing twelve months. */
  function IncomeInWindow(txs: seq<FinancialTransaction>, now: Instant): int {
    if |txs| == 0 then 0
    else
      var here := if IsIncome(txs[0]) && 0 <= MonthDiff(now, txs[0].data.date) < 12 then txs[0].data.amount else 0;
      here + IncomeInWindow(txs[1..], now)
  }

  lemma {:induction false} IncomeEntriesWeights(txs: seq<FinancialTransaction>, now: Instant, ym: YearMonth)
    ensures WeightIn(IncomeEntries(txs), ym) == IncomeOfMonth(txs, ym)
    ensures WeightInWindow(IncomeEntries(txs), now) == IncomeInWindow(txs, now)
  {
    if |txs| > 0 {
      IncomeEntriesWeights(txs[1..], now, ym);
      var head := if IsIncome(txs[0]) then [Dated(txs[0].data.date, txs[0].data.amount)] else [];
      var es := head + IncomeEntries(txs[1..]);
      if IsIncome(txs[0]) {
        assert es[1..] == IncomeEntries(txs[1..]);
      } else {
        assert es == IncomeEntries(txs[1..]);
      }
    }
  }

  /** `getMonthlyRevenue`: twelve zero-initialised buckets, each holding one calendar month's income. */
  function MonthlyRevenue(s: Store, now: Instant): (r: seq<MonthBucket>)
    ensures |r| == 12
    ensures forall k :: 0 <= k < 12 ==>
      r[k].month == BucketMonth(now, k) && r[k].total == IncomeOfMonth(Rows(s.financialTransactions), r[k].month)
  {
    var txs := Rows(s.financialTransactions);
    var es := IncomeEntries(txs);
    forall k | 0 <= k < 12 ensures WeightIn(es, BucketMonth(now, k)) == IncomeOfMonth(txs, BucketMonth(now, k)) {
      IncomeEntriesWeights(txs, now, BucketMonth(now, k));
    }
    Label(now, Accumulate(Zeros(12), now, es))
  }

  /** The revenue series adds up to the income of the trailing twelve months. */
  lemma MonthlyRevenueTotal(s: Store, now: Instant)
    ensures BucketTotal(MonthlyRevenue(s, now)) == IncomeInWindow(Rows(s.financialTransactions), now)
  {
    var txs := Rows(s.financialTransactions);
    var es := IncomeEntries(txs);
    var totals := Accumulate(Zeros(12), now, es);
    BucketTotalIsSum(MonthlyRevenue(s, now), totals);
    AccumulateTotal(Zeros(12), now, es);
    SumZeros(12);
    IncomeEntriesWeights(txs, now, MonthOf(now));
  }

  // ---------------------------------------------------------------- patient growth

  function GrowthEntries(ps: seq<Patient>): (r: seq<Dated>)
    ensures |r| == |ps|
    ensures forall i :: 0 <= i < |ps| ==> r[i] == Dated(ps[i].createdAt, 1)
  {
    if |ps| == 0 then [] else [Dated(ps[0].createdAt, 1)] + GrowthEntries(ps[1..])
  }

  /** Reference: the patients created in calendar month `ym`. */
  function PatientsOfMonth(ps: seq<Patient>, ym: YearMonth): nat {
    if |ps| == 0 then 0
    else (if MonthOf(ps[0].createdAt) == ym then 1 else 0) + PatientsOfMonth(ps[1..], ym)
  }

  function PatientsInWindow(ps: seq<Patient>, now: Instant): nat {
    if |ps| == 0 then 0
    else (if 0 <= MonthDiff(now, ps[0].createdAt) < 12 then 1 else 0) + PatientsInWindow(ps[1..], now)
  }

  lemma {:induction false} GrowthEntriesWeights(ps: seq<Patient>, now: Instant, ym: YearMonth)
    ensures WeightIn(GrowthEntries(ps), ym) == PatientsOfMonth(ps, ym)
    ensures WeightInWindow(GrowthEntries(ps), now) == PatientsInWindow(ps, now)
  {
    if |ps| > 0 {
      GrowthEntriesWeights(ps[1..], now, ym);
      assert GrowthEntries(ps)[1..] == GrowthEntries(ps[1..]);
    }
  }

  /** `getPatientGrowth`: twelve zero-initialised buckets, each counting one calendar month's new patients. */
  function PatientGrowth(s: Store, now: Instant): (r: seq<MonthBucket>)
    ensures |r| == 12
    ensures forall k :: 0 <= k < 12 ==>
      r[k].month == BucketMonth(now, k) && r[k].total == PatientsOfMonth(Rows(s.patients), r[k].month)
  {
    var ps := Rows(s.patients);
    var es := GrowthEntries(ps);
    forall k | 0 <= k < 12 ensures WeightIn(es, BucketMonth(now, k)) == PatientsOfMonth(ps, BucketMonth(now, k)) {
      GrowthEntriesWeights(ps, now, BucketMonth(now, k));
    }
    Label(now, Accumulate(Zeros(12), now, es))
  }

  /** The growth series adds up to the patients created in the trailing twelve months. */
  lemma PatientGrowthTotal(s: Store, now: Instant)
    ensures BucketTotal(PatientGrowth(s, now)) == PatientsInWindow(Rows(s.patients), now)
  {
    var ps := Rows(s.patients);
    var es := GrowthEntries(ps);
    BucketTotalIsSum(PatientGrowth(s, now), Accumulate(Zeros(12), now, es));
    AccumulateTotal(Zeros(12), now, es);
    SumZeros(12);
    GrowthEntriesWeights(ps, now, MonthOf(now));
  }

  /** The boundary months: eleven months back is bucket 0, the current month is bucket 11. */
  lemma WindowEnds(now: Instant, t: Instant)
    ensures MonthDiff(now, t) == 11 <==> MonthOf(t) == BucketMonth(now, 0)
    ensures MonthDiff(now, t) == 0 <==> MonthOf(t) == BucketMonth(now, 11)
  {
    MonthDiffIsShift(now, t, 11);
    MonthDiffIsShift(now, t, 0);
  }

  // ---------------------------------------------------------------- appointment status

  datatype StatusCount = StatusCount(status: AppointmentStatus, count: int)

  const StatusOrder: seq<AppointmentStatus> := [Confirmed, Pending, Cancelled]

  const InitialStats: seq<StatusCount> := [StatusCount(Confirmed, 0), StatusCount(Pending, 0), StatusCount(Cancelled, 0)]

  /** `stats.findIndex(s => s.status === status)`: -1 when no bucket matches, as for an absent status. */
  function IndexOfStatus(stats: seq<StatusCount>, status: Option<AppointmentStatus>): (r: int)
    ensures -1 <= r < |stats|
    ensures r >= 0 ==> status == Some(stats[r].status) && forall j :: 0 <= j < r ==> Some(stats[j].status) != status
    ensures r == -1 <==> forall j :: 0 <= j < |stats| ==> Some(stats[j].status) != status
  {
    if |stats| == 0 then -1
    else if Some(stats[0].status) == status then 0
    else
      var i := IndexOfStatus(stats[1..], status);
      if i == -1 then -1 else i + 1
  }

  /** The loop: buckets keep their status and place, and each gains at most one count per appointment. */
  function Tally(stats: seq<StatusCount>, appts: seq<Appointment>): (r: seq<StatusCount>)
    ensures |r| == |stats|
    ensures forall i :: 0 <= i < |r| ==>
      r[i].status == stats[i].status && stats[i].count <= r[i].count <= stats[i].count + |appts|
    decreases |appts|
  {
    if |appts| == 0 then stats
    else
      var i := IndexOfStatus(stats, appts[0].data.status);
      var next := if i == -1 then stats else stats[i := stats[i].(count := stats[i].count + 1)];
      Tally(next, appts[1..])
  }

  /** Reference: the appointments whose status is `st`. */
  function CountWithStatus(appts: seq<Appointment>, st: AppointmentStatus): nat {
    if |appts| == 0 then 0
    else (if appts[0].data.status == Some(st) then 1 else 0) + CountWithStatus(appts[1..], st)
  }

  function CountWithoutStatus(appts: seq<Appointment>): nat {
    if |appts| == 0 then 0
    else (if appts[0].data.status.None? then 1 else 0) + CountWithoutStatus(appts[1..])
  }

  ghost predicate InOrder(stats: seq<StatusCount>) {
    |stats| == 3 && forall i :: 0 <= i < 3 ==> stats[i].status == StatusOrder[i]
  }

  lemma {:induction false} TallyCounts(stats: seq<StatusCount>, appts: seq<Appointment>)
    requires InOrder(stats)
    ensures InOrder(Tally(stats, appts))
    ensures forall i :: 0 <= i < 3 ==>
      Tally(stats, appts)[i].count == stats[i].count + CountWithStatus(appts, StatusOrder[i])
    decreases |appts|
  {
    if |appts| > 0 {
      var i := IndexOfStatus(stats, appts[0].data.status);
      var next := if i == -1 then stats else stats[i := stats[i].(count := stats[i].count + 1)];
      TallyCounts(next, appts[1..]);
    }
  }

  /** `getAppointmentStatusStats`: exactly the three buckets confirmed, pending, cancelled, each its status's count. */
  function AppointmentStatusStats(s: Store): (r: seq<StatusCount>)
    ensures |r| == 3
    ensures forall i :: 0 <= i < 3 ==>
      r[i].status == StatusOrder[i] && r[i].count == CountWithStatus(Rows(s.appointments), StatusOrder[i])
  {
    TallyCounts(InitialStats, Rows(s.appointments));
    Tally(InitialStats, Rows(s.appointments))
  }

  lemma {:induction false} CountsPartition(appts: seq<Appointment>)
    ensures CountWithStatus(appts, Confirmed) + CountWithStatus(appts, Pending)
      + CountWithStatus(appts, Cancelled) + CountWithoutStatus(appts) == |appts|
  {
    if |appts| > 0 {
      CountsPartition(appts[1..]);
      match appts[0].data.status
      case None =>
      case Some(st) =>
        assert st == Confirmed || st == Pending || st == Cancelled;
    }
  }

  /** An appointment without a status is counted nowhere, so the buckets add up to at most the appointment count. */
  lemma StatusStatsTotal(s: Store)
    ensures var r := AppointmentStatusStats(s);
      r[0].count + r[1].count + r[2].count == |Rows(s.appointments)| - CountWithoutStatus(Rows(s.appointments))
      <= |Rows(s.appointments)|
  {
    CountsPartition(Rows(s.appointments));
  }

  // ---------------------------------------------------------------- consumption by item name

  datatype ItemTotal = ItemTotal(item: string, quantity: int)

  function Names(acc: seq<ItemTotal>): (r: seq<string>)
    ensures |r| == |acc| && forall i :: 0 <= i < |acc| ==> r[i] == acc[i].item
  {
    seq(|acc|, i requires 0 <= i < |acc| => acc[i].item)
  }

  ghost predicate DistinctNames(acc: seq<ItemTotal>) {
    forall i, j :: 0 <= i < j < |Names(acc)| ==> Names(acc)[i] != Names(acc)[j]
  }

  /** `itemStats.get(name) || 0`. */
  function QuantityOf(acc: seq<ItemTotal>, name: string): int {
    if |acc| == 0 then 0
    else if acc[0].item == name then acc[0].quantity
    else QuantityOf(acc[1..], name)
  }

  /** `itemStats.set(name, current + q)`: an existing name keeps its position, a new one goes last. */
  function Upsert(acc: seq<ItemTotal>, name: string, q: int): (r: seq<ItemTotal>)
    ensures |acc| <= |r| <= |acc| + 1
    ensures forall i :: 0 <= i < |acc| ==> r[i].item == acc[i].item
    ensures |r| == |acc| + 1 ==> r[|acc|] == ItemTotal(name, q)
  {
    if |acc| == 0 then [ItemTotal(name, q)]
    else if acc[0].item == name then [acc[0].(quantity := acc[0].quantity + q)] + acc[1..]
    else [acc[0]] + Upsert(acc[1..], name, q)
  }

  lemma {:induction false} UpsertNames(acc: seq<ItemTotal>, name: string, q: int)
    ensures Names(Upsert(acc, name, q)) == if name in Names(acc) then Names(acc) else Names(acc) + [name]
  {
    if |acc| > 0 {
      var r := Upsert(acc, name, q);
      if acc[0].item != name {
        UpsertNames(acc[1..], name, q);
        assert r == [acc[0]] + Upsert(acc[1..], name, q);
        assert Names(acc) == [acc[0].item] + Names(acc[1..]);
        assert Names(r) == [acc[0].item] + Names(Upsert(acc[1..], name, q));
        assert name in Names(acc) <==> name in Names(acc[1..]);
      } else {
        assert r == [acc[0].(quantity := acc[0].quantity + q)] + acc[1..];
        assert Names(acc)[0] == name;
        assert |Names(r)| == |Names(acc)|;
        assert forall i :: 0 <= i < |acc| ==> Names(r)[i] == Names(acc)[i];
      }
    }
  }

  lemma {:induction false} UpsertQuantity(acc: seq<ItemTotal>, name: string, q: int, other: string)
    ensures QuantityOf(Upsert(acc, name, q), other) == QuantityOf(acc, other) + (if other == name then q else 0)
  {
    if |acc| > 0 && acc[0].item != name {
      UpsertQuantity(acc[1..], name, q, other);
    }
  }

  lemma UpsertDistinct(acc: seq<ItemTotal>, name: string, q: int)
    requires DistinctNames(acc)
    ensures DistinctNames(Upsert(acc, name, q))
  {
    UpsertNames(acc, name, q);
  }

  /** The name the consumption's item has now, when its `itemId` resolves. */
  function ItemName(items: Table<InventoryItem>, c: InventoryConsumption): Option<string> {
    match Get(items, c.data.itemId)
    case Some(item) => Some(item.data.name)
    case None => None
  }

  /** The loop over the consumptions: names already present keep their place, and at most one name is added per consumption. */
  function Group(acc: seq<ItemTotal>, items: Table<InventoryItem>, cs: seq<InventoryConsumption>): (r: seq<ItemTotal>)
    ensures |acc| <= |r| <= |acc| + |cs|
    ensures forall i :: 0 <= i < |acc| ==> r[i].item == acc[i].item
    decreases |cs|
  {
    if |cs| == 0 then acc
    else
      var next := match ItemName(items, cs[0])
        case Some(name) => Upsert(acc, name, cs[0].data.quantity)
        case None => acc;
      Group(next, items, cs[1..])
  }

  /** Reference: the quantity consumed of items currently named `name`; dangling item ids count for nothing. */
  function ConsumedUnder(items: Table<InventoryItem>, cs: seq<InventoryConsumption>, name: string): int {
    if |cs| == 0 then 0
    else (if ItemName(items, cs[0]) == Some(name) then cs[0].data.quantity else 0) + ConsumedUnder(items, cs[1..], name)
  }

  predicate SomeConsumedUnder(items: Table<InventoryItem>, cs: seq<InventoryConsumption>, name: string) {
    |cs| > 0 && (ItemName(items, cs[0]) == Some(name) || SomeConsumedUnder(items, cs[1..], name))
  }

  lemma {:induction false} GroupSpec(acc: seq<ItemTotal>, items: Table<InventoryItem>, cs: seq<InventoryConsumption>, name: string)
    requires DistinctNames(acc)
    ensures DistinctNames(Group(acc, items, cs))
    ensures QuantityOf(Group(acc, items, cs), name) == QuantityOf(acc, name) + ConsumedUnder(items, cs, name)
    ensures name in Names(Group(acc, items, cs)) <==> name in Names(acc) || SomeConsumedUnder(items, cs, name)
    decreases |cs|
  {
    if |cs| > 0 {
      match ItemName(items, cs[0]) {
        case Some(n) =>
          var next := Upsert(acc, n, cs[0].data.quantity);
          assert Group(acc, items, cs) == Group(next, items, cs[1..]);
          UpsertDistinct(acc, n, cs[0].data.quantity);
          UpsertQuantity(acc, n, cs[0].data.quantity, name);
          UpsertNames(acc, n, cs[0].data.quantity);
          GroupSpec(next, items, cs[1..], name);
        case None =>
          assert Group(acc, items, cs) == Group(acc, items, cs[1..]);
          GroupSpec(acc, items, cs[1..], name);
      }
    }
  }

  /**
   * `getInventoryConsumptionStats`: one entry per distinct item name, each
   * holding the quantity consumed of items that now carry that name.
   */
  function InventoryConsumptionStats(s: Store): (r: seq<ItemTotal>)
    ensures DistinctNames(r)
    ensures forall name :: QuantityOf(r, name) == ConsumedUnder(s.inventoryItems, Rows(s.inventoryConsumption), name)
    ensures forall name :: name in Names(r) <==> SomeConsumedUnder(s.inventoryItems, Rows(s.inventoryConsumption), name)
  {
    forall name ensures
      && DistinctNames(Group([], s.inventoryItems, Rows(s.inventoryConsumption)))
      && QuantityOf(Group([], s.inventoryItems, Rows(s.inventoryConsumption)), name)
         == ConsumedUnder(s.inventoryItems, Rows(s.inventoryConsumption), name)
      && (name in Names(Group([], s.inventoryItems, Rows(s.inventoryConsumption)))
         <==> SomeConsumedUnder(s.inventoryItems, Rows(s.inventoryConsumption), name))
    {
      GroupSpec([], s.inventoryItems, Rows(s.inventoryConsumption), name);
    }
    GroupSpec([], s.inventoryItems, Rows(s.inventoryConsumption), "");
    Group([], s.inventoryItems, Rows(s.inventoryConsumption))
  }
}
