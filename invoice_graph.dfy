/** The paid-invoice chart: the currencies in use, a zeroed bucket per day and
    currency, the accumulation of each paid invoice into its day's bucket, and
    the rows handed to the chart. The day keys (the formatted days of the last
    thirty days, and each invoice's formatted creation day) are parameters. */
module InvoiceGraph {
  import opened Common
  import opened Sums

  /** The selected columns of one paid invoice, its creation day already
      formatted as a day key. */
  datatype PaidInvoice = PaidInvoice(day: string, currency: string, total: real)

  function DayCurrency(invoice: PaidInvoice): (string, string) { (invoice.day, invoice.currency) }
  function PaidTotal(invoice: PaidInvoice): real { invoice.total }

  /** The currency column, position by position. */
  function CurrencyList(invoices: seq<PaidInvoice>): (r: seq<string>)
    ensures |r| == |invoices|
    ensures forall i :: 0 <= i < |r| ==> r[i] == invoices[i].currency
    decreases |invoices|
  {
    if invoices == [] then []
    else CurrencyList(invoices[..|invoices| - 1]) + [invoices[|invoices| - 1].currency]
  }

  /** `usedCurrencies`: `[...new Set(currencies)]`, the currencies once each
      in order of first appearance. */
  function UsedCurrencies(invoices: seq<PaidInvoice>): (used: seq<string>)
    ensures AllDistinct(used)
  {
    Distinct(CurrencyList(invoices))
  }

  /** A currency is used exactly when some invoice is in it. */
  lemma UsedCurrenciesAreUsed(invoices: seq<PaidInvoice>, c: string)
    ensures c in UsedCurrencies(invoices) <==> exists i :: 0 <= i < |invoices| && invoices[i].currency == c
  {
    var list := CurrencyList(invoices);
    if c in list {
      var i :| 0 <= i < |list| && list[i] == c;
      assert invoices[i].currency == c;
    }
    if exists i :: 0 <= i < |invoices| && invoices[i].currency == c {
      var i :| 0 <= i < |invoices| && invoices[i].currency == c;
      assert list[i] == c;
    }
  }

  // ---------------------------------------------------------------------------
  // The zeroed buckets.

  /** The inner reduce: every used currency set to zero. */
  function ZeroFold(used: seq<string>): Totals
    decreases |used|
  {
    if used == [] then Totals([], map[])
    else
      var t := ZeroFold(used[..|used| - 1]);
      var c := used[|used| - 1];
      Totals(if c in t.amounts then t.order else t.order + [c], t.amounts[c := 0.0])
  }

  /** Zeroing gives one key per used currency, in their order, each zero. */
  lemma {:induction false} ZeroFoldIsZero(used: seq<string>)
    ensures ZeroFold(used).order == Distinct(used)
    ensures forall c :: c in ZeroFold(used).amounts <==> c in used
    ensures forall c :: c in ZeroFold(used).amounts ==> ZeroFold(used).amounts[c] == 0.0
    decreases |used|
  {
    if used != [] {
      var init, c := used[..|used| - 1], used[|used| - 1];
      ZeroFoldIsZero(init);
      assert used == init + [c];
      DistinctSnoc(init, c);
    }
  }

  method ZeroAmounts(used: seq<string>) returns (t: Totals)
    ensures t == ZeroFold(used)
  {
    t := Totals([], map[]);
    for n := 0 to |used|
      invariant t == ZeroFold(used[..n])
    {
      assert used[..n + 1][..n] == used[..n];
      var c := used[n];
      var order := if c in t.amounts then t.order else t.order + [c];
      t := Totals(order, t.amounts[c := 0.0]);
    }
    assert used[..|used|] == used;
  }

  /** `dailyAmounts`: per day key (in insertion order) an object of amounts. */
  datatype Daily = Daily(order: seq<string>, buckets: map<string, Totals>)

  /** The outer reduce: every day gets its own zeroed object. */
  function InitFold(days: seq<string>, used: seq<string>): Daily
    decreases |days|
  {
    if days == [] then Daily([], map[])
    else
      var d := InitFold(days[..|days| - 1], used);
      var day := days[|days| - 1];
      Daily(if day in d.buckets then d.order else d.order + [day], d.buckets[day := ZeroFold(used)])
  }

  /** Before accumulation every day key maps every used currency to zero. */
  lemma {:induction false} InitFoldIsZero(days: seq<string>, used: seq<string>)
    ensures InitFold(days, used).order == Distinct(days)
    ensures forall d :: d in InitFold(days, used).buckets <==> d in days
    ensures forall d :: d in InitFold(days, used).buckets ==> InitFold(days, used).buckets[d] == ZeroFold(used)
    decreases |days|
  {
    if days != [] {
      var init, day := days[..|days| - 1], days[|days| - 1];
      InitFoldIsZero(init, used);
      assert days == init + [day];
      DistinctSnoc(init, day);
    }
  }

  method InitDailyAmounts(days: seq<string>, used: seq<string>) returns (daily: Daily)
    ensures daily == InitFold(days, used)
  {
    daily := Daily([], map[]);
    for n := 0 to |days|
      invariant daily == InitFold(days[..n], used)
    {
      assert days[..n + 1][..n] == days[..n];
      var day := days[n];
      var zeros := ZeroAmounts(used);
      var order := if day in daily.buckets then daily.order else daily.order + [day];
      daily := Daily(order, daily.buckets[day := zeros]);
    }
    assert days[..|days| - 0] == days;
  }

  // ---------------------------------------------------------------------------
  // Accumulation.

  /** Every bucket holds every currency in `used`, so `+=` on one of them
      always finds a number to add to. */
  ghost predicate Covers(daily: Daily, used: seq<string>) {
    forall d, c :: d in daily.buckets && c in used ==> c in daily.buckets[d].amounts
  }

  /** The keys of both levels, with their orders: what accumulation never
      changes. */
  function Shape(daily: Daily): (seq<string>, map<string, (seq<string>, set<string>)>) {
    (daily.order, map d | d in daily.buckets :: (daily.buckets[d].order, daily.buckets[d].amounts.Keys))
  }

  lemma ShapeKeepsCovers(a: Daily, b: Daily, used: seq<string>)
    requires Shape(a) == Shape(b) && Covers(b, used)
    ensures Covers(a, used)
  {
    forall d | d in a.buckets
      ensures d in b.buckets && a.buckets[d].amounts.Keys == b.buckets[d].amounts.Keys
    {
      assert d in Shape(a).1;
    }
  }

  /** `dailyAmounts[day][currency] += total` on a day key and currency that
      are present. */
  function Added(daily: Daily, invoice: PaidInvoice): Daily
    requires invoice.day in daily.buckets && invoice.currency in daily.buckets[invoice.day].amounts
  {
    var bucket := daily.buckets[invoice.day];
    daily.(buckets := daily.buckets[invoice.day :=
      bucket.(amounts := bucket.amounts[invoice.currency := bucket.amounts[invoice.currency] + invoice.total])])
  }

  lemma AddedKeepsShape(daily: Daily, invoice: PaidInvoice)
    requires invoice.day in daily.buckets && invoice.currency in daily.buckets[invoice.day].amounts
    ensures Shape(Added(daily, invoice)) == Shape(daily)
  {
    var bucket := daily.buckets[invoice.day];
    var amounts := bucket.amounts[invoice.currency := bucket.amounts[invoice.currency] + invoice.total];
    assert amounts.Keys == bucket.amounts.Keys;
    ReplaceBucketKeepsShape(daily, invoice.day, bucket.(amounts := amounts));
  }

  /** One step of the `forEach`: `dailyAmounts[day]` is undefined for a day key
      outside the period, and reading a currency of it throws (None). */
  function AddPaid(daily: Daily, invoice: PaidInvoice): (r: Option<Daily>)
    requires invoice.day in daily.buckets ==> invoice.currency in daily.buckets[invoice.day].amounts
    ensures r.None? <==> invoice.day !in daily.buckets
    ensures r.Some? ==> Shape(r.value) == Shape(daily)
  {
    if invoice.day !in daily.buckets then None
    else
      AddedKeepsShape(daily, invoice);
      Some(Added(daily, invoice))
  }

  lemma ReplaceBucketKeepsShape(daily: Daily, day: string, bucket: Totals)
    requires day in daily.buckets
    requires bucket.order == daily.buckets[day].order && bucket.amounts.Keys == daily.buckets[day].amounts.Keys
    ensures Shape(daily.(buckets := daily.buckets[day := bucket])) == Shape(daily)
  {
    var a, b := Shape(daily.(buckets := daily.buckets[day := bucket])).1, Shape(daily).1;
    assert a.Keys == b.Keys;
    forall d | d in a
      ensures a[d] == b[d]
    {
    }
    assert a == b;
  }

  /** The whole `forEach`: it fails exactly when some invoice falls on a day
      outside the period, and otherwise changes amounts but never keys. */
  function AccFold(daily: Daily, used: seq<string>, invoices: seq<PaidInvoice>): (r: Option<Daily>)
    requires Covers(daily, used)
    requires forall i :: 0 <= i < |invoices| ==> invoices[i].currency in used
    ensures r.None? <==> exists i :: 0 <= i < |invoices| && invoices[i].day !in daily.buckets
    ensures r.Some? ==> Shape(r.value) == Shape(daily)
    decreases |invoices|
  {
    if invoices == [] then Some(daily)
    else
      var init, last := invoices[..|invoices| - 1], invoices[|invoices| - 1];
      assert forall i :: 0 <= i < |init| ==> init[i] == invoices[i];
      match AccFold(daily, used, init)
      case None => None
      case Some(d) =>
        ShapeKeepsCovers(d, daily, used);
        assert last.day in d.buckets <==> last.day in daily.buckets by {
          assert last.day in d.buckets <==> last.day in Shape(d).1;
        }
        AddPaid(d, last)
  }

  /** Once the `forEach` has thrown, the rest of the list does not matter. */
  lemma AccFoldStaysFailed(daily: Daily, used: seq<string>, invoices: seq<PaidInvoice>, n: nat)
    requires n <= |invoices| && Covers(daily, used)
    requires forall i :: 0 <= i < |invoices| ==> invoices[i].currency in used
    requires AccFold(daily, used, invoices[..n]) == None
    ensures AccFold(daily, used, invoices) == None
  {
    var i :| 0 <= i < n && invoices[..n][i].day !in daily.buckets;
    assert invoices[i].day !in daily.buckets;
  }

  method Accumulate(daily: Daily, ghost used: seq<string>, invoices: seq<PaidInvoice>) returns (r: Option<Daily>)
    requires Covers(daily, used)
    requires forall i :: 0 <= i < |invoices| ==> invoices[i].currency in used
    ensures r == AccFold(daily, used, invoices)
  {
    var current := daily;
    for n := 0 to |invoices|
      invariant AccFold(daily, used, invoices[..n]) == Some(current)
    {
      assert invoices[..n + 1][..n] == invoices[..n];
      var invoice := invoices[n];
      if invoice.day !in current.buckets {
        AccFoldStaysFailed(daily, used, invoices, n + 1);
        return None;
      }
      ShapeKeepsCovers(current, daily, used);
      var bucket := current.buckets[invoice.day];
      var amounts := bucket.amounts[invoice.currency := bucket.amounts[invoice.currency] + invoice.total];
      current := current.(buckets := current.buckets[invoice.day := bucket.(amounts := amounts)]);
    }
    assert invoices[..|invoices|] == invoices;
    r := Some(current);
  }

  /** One day's object after the prefix `invoices`: one key per used currency,
      in their order, each holding the sum of the totals of that day's
      invoices in that currency. */
  ghost predicate BucketSums(bucket: Totals, day: string, used: seq<string>, invoices: seq<PaidInvoice>) {
    && bucket.order == Distinct(used)
    && (forall c :: c in bucket.amounts <==> c in used)
    && (forall c :: c in bucket.amounts ==> bucket.amounts[c] == SumFor(invoices, DayCurrency, PaidTotal, (day, c)))
  }

  /** The buckets after the prefix `invoices`: one per day key, in order. */
  ghost predicate Bucketed(daily: Daily, days: seq<string>, used: seq<string>, invoices: seq<PaidInvoice>) {
    && daily.order == Distinct(days)
    && (forall d :: d in daily.buckets <==> d in days)
    && (forall d :: d in daily.buckets ==> BucketSums(daily.buckets[d], d, used, invoices))
  }

  lemma BucketAdd(bucket: Totals, used: seq<string>, prefix: seq<PaidInvoice>, invoice: PaidInvoice)
    requires BucketSums(bucket, invoice.day, used, prefix) && invoice.currency in used
    ensures BucketSums(bucket.(amounts := bucket.amounts[invoice.currency := bucket.amounts[invoice.currency] + invoice.total]),
                       invoice.day, used, prefix + [invoice])
  {
    var added := bucket.amounts[invoice.currency := bucket.amounts[invoice.currency] + invoice.total];
    assert added.Keys == bucket.amounts.Keys;
    forall c | c in added
      ensures added[c] == SumFor(prefix + [invoice], DayCurrency, PaidTotal, (invoice.day, c))
    {
      SumForSnoc(prefix, invoice, DayCurrency, PaidTotal, (invoice.day, c));
    }
  }

  lemma BucketOther(bucket: Totals, day: string, used: seq<string>, prefix: seq<PaidInvoice>, invoice: PaidInvoice)
    requires BucketSums(bucket, day, used, prefix) && day != invoice.day
    ensures BucketSums(bucket, day, used, prefix + [invoice])
  {
    forall c | c in bucket.amounts
      ensures bucket.amounts[c] == SumFor(prefix + [invoice], DayCurrency, PaidTotal, (day, c))
    {
      SumForSnoc(prefix, invoice, DayCurrency, PaidTotal, (day, c));
    }
  }

  lemma AccStep(daily: Daily, days: seq<string>, used: seq<string>, prefix: seq<PaidInvoice>, invoice: PaidInvoice)
    requires Bucketed(daily, days, used, prefix)
    requires invoice.day in days && invoice.currency in used
    ensures invoice.day in daily.buckets && invoice.currency in daily.buckets[invoice.day].amounts
    ensures Bucketed(Added(daily, invoice), days, used, prefix + [invoice])
  {
    var next := Added(daily, invoice);
    forall d | d in next.buckets
      ensures BucketSums(next.buckets[d], d, used, prefix + [invoice])
    {
      AccStepAt(daily, used, prefix, invoice, d);
    }
  }

  lemma AccStepAt(daily: Daily, used: seq<string>, prefix: seq<PaidInvoice>, invoice: PaidInvoice, d: string)
    requires d in daily.buckets && BucketSums(daily.buckets[d], d, used, prefix)
    requires invoice.day in daily.buckets && BucketSums(daily.buckets[invoice.day], invoice.day, used, prefix)
    requires invoice.currency in used
    ensures BucketSums(Added(daily, invoice).buckets[d], d, used, prefix + [invoice])
  {
    if d == invoice.day {
      BucketAdd(daily.buckets[d], used, prefix, invoice);
    } else {
      BucketOther(daily.buckets[d], d, used, prefix, invoice);
    }
  }

  lemma InitBucketed(days: seq<string>, used: seq<string>)
    ensures Covers(InitFold(days, used), used)
    ensures Bucketed(InitFold(days, used), days, used, [])
  {
    InitFoldIsZero(days, used);
    ZeroFoldIsZero(used);
  }

  /** Accumulating into the zeroed buckets of the period fills every bucket
      with its day and currency's sum, unless some invoice is outside the
      period, in which case the `forEach` throws. */
  lemma {:induction false} AccFoldBuckets(days: seq<string>, used: seq<string>, invoices: seq<PaidInvoice>)
    requires forall i :: 0 <= i < |invoices| ==> invoices[i].currency in used
    ensures Covers(InitFold(days, used), used)
    ensures AccFold(InitFold(days, used), used, invoices).Some? ==>
              Bucketed(AccFold(InitFold(days, used), used, invoices).value, days, used, invoices)
    decreases |invoices|
  {
    InitBucketed(days, used);
    var d0 := InitFold(days, used);
    if invoices != [] {
      var init, last := invoices[..|invoices| - 1], invoices[|invoices| - 1];
      assert init + [last] == invoices;
      assert forall i :: 0 <= i < |init| ==> init[i] == invoices[i];
      AccFoldBuckets(days, used, init);
      match AccFold(d0, used, init)
      case None =>
      case Some(d) =>
        if last.day in days {
          AccStep(d, days, used, init, last);
          assert AddPaid(d, last) == Some(Added(d, last));
        }
    }
  }

  // ---------------------------------------------------------------------------
  // The chart rows.

  /** One chart row: `{ name: day, ...amounts }`. */
  datatype Row = Row(name: string, amounts: Totals)

  datatype GraphData = GraphData(data: seq<Row>, currencies: seq<string>)

  /** `Object.entries(dailyAmounts).map(...)`: one row per day key, in key
      order. */
  function Rows(daily: Daily): (rows: seq<Row>)
    requires forall d :: d in daily.order ==> d in daily.buckets
    ensures |rows| == |daily.order|
    ensures forall k :: 0 <= k < |rows| ==> rows[k] == Row(daily.order[k], daily.buckets[daily.order[k]])
    decreases |daily.order|
  {
    if daily.order == [] then []
    else [Row(daily.order[0], daily.buckets[daily.order[0]])] + Rows(daily.(order := daily.order[1..]))
  }

  /** What the chart receives: one row per distinct day key, in order, naming
      its day and holding that day's bucket over the used currencies; and the
      currency list is `usedCurrencies`. */
  ghost predicate GraphOf(g: GraphData, days: seq<string>, invoices: seq<PaidInvoice>) {
    && g.currencies == UsedCurrencies(invoices)
    && |g.data| == |Distinct(days)|
    && forall k :: 0 <= k < |g.data| ==>
         g.data[k].name == Distinct(days)[k] && BucketSums(g.data[k].amounts, g.data[k].name, g.currencies, invoices)
  }

  lemma BucketedRows(filled: Daily, days: seq<string>, used: seq<string>, invoices: seq<PaidInvoice>)
    requires Bucketed(filled, days, used, invoices) && used == UsedCurrencies(invoices)
    ensures forall d :: d in filled.order ==> d in filled.buckets
    ensures GraphOf(GraphData(Rows(filled), used), days, invoices)
  {
    forall k | 0 <= k < |filled.order|
      ensures filled.order[k] in filled.buckets
    {
      assert filled.order[k] in Distinct(days);
    }
  }

  /** `getData`, after the query: fails (the `forEach` throws) exactly when an
      invoice's day is outside the period, and otherwise yields the chart data
      described above. */
  method GetData(days: seq<string>, invoices: seq<PaidInvoice>) returns (r: Option<GraphData>)
    ensures r.None? <==> exists i :: 0 <= i < |invoices| && invoices[i].day !in days
    ensures r.Some? ==> GraphOf(r.value, days, invoices)
  {
    var used := UsedCurrencies(invoices);
    forall i | 0 <= i < |invoices|
      ensures invoices[i].currency in used
    {
      UsedCurrenciesAreUsed(invoices, invoices[i].currency);
    }
    var daily := InitDailyAmounts(days, used);
    AccFoldBuckets(days, used, invoices);
    InitFoldIsZero(days, used);
    var accumulated := Accumulate(daily, used, invoices);
    if accumulated.None? {
      return None;
    }
    var filled := accumulated.value;
    BucketedRows(filled, days, used, invoices);
    r := Some(GraphData(Rows(filled), used));
  }

  // ---------------------------------------------------------------------------
  // The sum over all buckets.

  /** Every cell of the chart added up, row by row and within a row in the
      currency order. */
  function RowsTotal(rows: seq<Row>, currencies: seq<string>): real
    requires forall k, c :: 0 <= k < |rows| && c in currencies ==> c in rows[k].amounts.amounts
    decreases |rows|
  {
    if rows == [] then 0.0
    else ValuesTotal(currencies, rows[0].amounts.amounts) + RowsTotal(rows[1..], currencies)
  }

  /** The (day, currency) keys of one row, and of a whole chart. */
  function RowKeys(day: string, currencies: seq<string>): (r: seq<(string, string)>)
    ensures |r| == |currencies|
    ensures forall j :: 0 <= j < |r| ==> r[j] == (day, currencies[j])
    decreases |currencies|
  {
    if currencies == [] then [] else [(day, currencies[0])] + RowKeys(day, currencies[1..])
  }

  function ChartKeys(days: seq<string>, currencies: seq<string>): seq<(string, string)>
    decreases |days|
  {
    if days == [] then [] else RowKeys(days[0], currencies) + ChartKeys(days[1..], currencies)
  }

  lemma {:induction false} ChartKeysHas(days: seq<string>, currencies: seq<string>, d: string, c: string)
    ensures (d, c) in ChartKeys(days, currencies) <==> d in days && c in currencies
    decreases |days|
  {
    if days != [] {
      ChartKeysHas(days[1..], currencies, d, c);
      assert days == [days[0]] + days[1..];
      if (d, c) in RowKeys(days[0], currencies) {
        var j :| 0 <= j < |currencies| && RowKeys(days[0], currencies)[j] == (d, c);
      }
      if d == days[0] && c in currencies {
        var j :| 0 <= j < |currencies| && currencies[j] == c;
        assert RowKeys(days[0], currencies)[j] == (d, c);
      }
    }
  }

  lemma {:induction false} ChartKeysDistinct(days: seq<string>, currencies: seq<string>)
    requires AllDistinct(days) && AllDistinct(currencies)
    ensures AllDistinct(ChartKeys(days, currencies))
    decreases |days|
  {
    if days != [] {
      DistinctTail(days);
      ChartKeysDistinct(days[1..], currencies);
      var row := RowKeys(days[0], currencies);
      forall x | x in row
        ensures x !in ChartKeys(days[1..], currencies)
      {
        ChartKeysHas(days[1..], currencies, x.0, x.1);
      }
      DistinctAppend(row, ChartKeys(days[1..], currencies));
    }
  }

  /** One row's cells add up to the group totals of its keys. */
  lemma {:induction false} ValuesTotalIsRowSum(currencies: seq<string>, row: Row, invoices: seq<PaidInvoice>)
    requires forall c :: c in currencies ==> c in row.amounts.amounts
    requires forall c :: c in row.amounts.amounts ==>
               row.amounts.amounts[c] == SumFor(invoices, DayCurrency, PaidTotal, (row.name, c))
    ensures ValuesTotal(currencies, row.amounts.amounts) == SumOver(RowKeys(row.name, currencies), invoices, DayCurrency, PaidTotal)
    decreases |currencies|
  {
    if currencies != [] {
      ValuesTotalIsRowSum(currencies[1..], row, invoices);
    }
  }

  lemma {:induction false} RowsTotalIsChartSum(g: GraphData, days: seq<string>, invoices: seq<PaidInvoice>, from: nat)
    requires GraphOf(g, days, invoices) && from <= |g.data|
    ensures RowsTotal(g.data[from..], g.currencies) ==
              SumOver(ChartKeys(Distinct(days)[from..], g.currencies), invoices, DayCurrency, PaidTotal)
    decreases |g.data| - from
  {
    var ds := Distinct(days)[from..];
    if from < |g.data| {
      RowsTotalIsChartSum(g, days, invoices, from + 1);
      assert g.data[from..][1..] == g.data[from + 1..];
      assert ds[1..] == Distinct(days)[from + 1..];
      ValuesTotalIsRowSum(g.currencies, g.data[from], invoices);
      SumOverAppend(RowKeys(ds[0], g.currencies), ChartKeys(ds[1..], g.currencies), invoices, DayCurrency, PaidTotal);
    } else {
      assert ds == [];
    }
  }

  /** The chart keeps the money: its cells add up to the total of all paid
      invoices. */
  lemma GraphKeepsTotal(g: GraphData, days: seq<string>, invoices: seq<PaidInvoice>)
    requires GraphOf(g, days, invoices)
    requires forall i :: 0 <= i < |invoices| ==> invoices[i].day in days
    ensures RowsTotal(g.data, g.currencies) == Total(invoices, PaidTotal)
  {
    RowsTotalIsChartSum(g, days, invoices, 0);
    assert g.data[0..] == g.data && Distinct(days)[0..] == Distinct(days);
    ChartKeysDistinct(Distinct(days), g.currencies);
    forall i | 0 <= i < |invoices|
      ensures DayCurrency(invoices[i]) in ChartKeys(Distinct(days), g.currencies)
    {
      ChartKeysHas(Distinct(days), g.currencies, invoices[i].day, invoices[i].currency);
    }
    PartitionSum(ChartKeys(Distinct(days), g.currencies), invoices, DayCurrency, PaidTotal);
  }
}
