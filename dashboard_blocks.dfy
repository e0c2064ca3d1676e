/** The dashboard's summary cards: invoice totals grouped by currency for all,
    pending and paid invoices, the three counts, and the card body that shows
    the USD and IDR totals only. The three invoice lists are the database's
    answers and arrive as parameters. */
module DashboardBlocks {
  import opened Common
  import opened Sums

  /** The two selected columns of one invoice. */
  datatype InvoiceTotal = InvoiceTotal(total: real, currency: string)

  function CurrencyOf(invoice: InvoiceTotal): string { invoice.currency }
  function TotalOf(invoice: InvoiceTotal): real { invoice.total }

  /** The currency column, position by position. */
  function CurrencyList(invoices: seq<InvoiceTotal>): (r: seq<string>)
    ensures |r| == |invoices|
    ensures forall i :: 0 <= i < |r| ==> r[i] == invoices[i].currency
    decreases |invoices|
  {
    if invoices == [] then []
    else CurrencyList(invoices[..|invoices| - 1]) + [invoices[|invoices| - 1].currency]
  }

  /** What `groupByCurrency` builds from a list: one key per currency present,
      inserted on first appearance, holding the sum of that currency's totals. */
  ghost predicate GroupsOf(t: Totals, invoices: seq<InvoiceTotal>) {
    && t.order == Distinct(CurrencyList(invoices))
    && (forall c :: c in t.amounts <==> c in t.order)
    && (forall c :: c in t.amounts ==> t.amounts[c] == SumFor(invoices, CurrencyOf, TotalOf, c))
  }

  /** The reducer of `groupByCurrency`: a key that is missing (or holds zero)
      is set to zero, inserting it when missing, and then the invoice's total
      is added to it. */
  function AddInvoice(acc: Totals, invoice: InvoiceTotal): Totals {
    var c := invoice.currency;
    var reset :=
      if c !in acc.amounts || acc.amounts[c] == 0.0
      then Totals(if c in acc.amounts then acc.order else acc.order + [c], acc.amounts[c := 0.0])
      else acc;
    reset.(amounts := reset.amounts[c := reset.amounts[c] + invoice.total])
  }

  /** The reduce over the whole list, from the empty object. */
  function GroupFold(invoices: seq<InvoiceTotal>): Totals
    decreases |invoices|
  {
    if invoices == [] then Totals([], map[])
    else AddInvoice(GroupFold(invoices[..|invoices| - 1]), invoices[|invoices| - 1])
  }

  lemma CurrencyListHas(invoices: seq<InvoiceTotal>, c: string)
    ensures c in CurrencyList(invoices) <==> exists i :: 0 <= i < |invoices| && invoices[i].currency == c
  {
    if c in CurrencyList(invoices) {
      var i :| 0 <= i < |CurrencyList(invoices)| && CurrencyList(invoices)[i] == c;
      assert invoices[i].currency == c;
    }
  }

  /** One invoice more: its currency is appended to the key order on first
      appearance, and its total is added to that currency's value. */
  lemma GroupStep(acc: Totals, prefix: seq<InvoiceTotal>, invoice: InvoiceTotal)
    requires GroupsOf(acc, prefix)
    ensures GroupsOf(AddInvoice(acc, invoice), prefix + [invoice])
  {
    var next := AddInvoice(acc, invoice);
    assert (prefix + [invoice])[..|prefix|] == prefix;
    assert CurrencyList(prefix + [invoice]) == CurrencyList(prefix) + [invoice.currency];
    DistinctSnoc(CurrencyList(prefix), invoice.currency);
    forall c | c in next.amounts
      ensures next.amounts[c] == SumFor(prefix + [invoice], CurrencyOf, TotalOf, c)
    {
      GroupStepAt(acc, prefix, invoice, c);
    }
  }

  /** One currency's value after one invoice more. */
  lemma GroupStepAt(acc: Totals, prefix: seq<InvoiceTotal>, invoice: InvoiceTotal, c: string)
    requires GroupsOf(acc, prefix)
    requires c in AddInvoice(acc, invoice).amounts
    ensures AddInvoice(acc, invoice).amounts[c] == SumFor(prefix + [invoice], CurrencyOf, TotalOf, c)
  {
    SumForSnoc(prefix, invoice, CurrencyOf, TotalOf, c);
    if c !in acc.amounts {
      CurrencyListHas(prefix, c);
      SumForAbsent(prefix, CurrencyOf, TotalOf, c);
    }
  }

  /** The reduce builds exactly the grouping of its list. */
  lemma {:induction false} GroupFoldGroups(invoices: seq<InvoiceTotal>)
    ensures GroupsOf(GroupFold(invoices), invoices)
    decreases |invoices|
  {
    if invoices != [] {
      var init := invoices[..|invoices| - 1];
      GroupFoldGroups(init);
      GroupStep(GroupFold(init), init, invoices[|invoices| - 1]);
      assert init + [invoices[|invoices| - 1]] == invoices;
    }
  }

  /** `groupByCurrency`: the reduce, run in place on one accumulator. */
  method GroupByCurrency(invoices: seq<InvoiceTotal>) returns (acc: Totals)
    ensures acc == GroupFold(invoices)
    ensures GroupsOf(acc, invoices)
    ensures forall c :: c in acc.amounts <==> exists i :: 0 <= i < |invoices| && invoices[i].currency == c
  {
    acc := Totals([], map[]);
    for n := 0 to |invoices|
      invariant acc == GroupFold(invoices[..n])
    {
      var invoice := invoices[n];
      assert invoices[..n + 1][..n] == invoices[..n];
      if invoice.currency !in acc.amounts || acc.amounts[invoice.currency] == 0.0 {
        var order := if invoice.currency in acc.amounts then acc.order else acc.order + [invoice.currency];
        acc := Totals(order, acc.amounts[invoice.currency := 0.0]);
      }
      acc := acc.(amounts := acc.amounts[invoice.currency := acc.amounts[invoice.currency] + invoice.total]);
    }
    assert invoices[..|invoices|] == invoices;
    GroupFoldGroups(invoices);
    forall c
      ensures c in CurrencyList(invoices) <==> exists i :: 0 <= i < |invoices| && invoices[i].currency == c
    {
      CurrencyListHas(invoices, c);
    }
  }

  lemma {:induction false} ValuesTotalIsSumOver(order: seq<string>, t: Totals, invoices: seq<InvoiceTotal>)
    requires forall k :: k in order ==> k in t.amounts
    requires forall c :: c in t.amounts ==> t.amounts[c] == SumFor(invoices, CurrencyOf, TotalOf, c)
    ensures ValuesTotal(order, t.amounts) == SumOver(order, invoices, CurrencyOf, TotalOf)
    decreases |order|
  {
    if order != [] {
      ValuesTotalIsSumOver(order[1..], t, invoices);
    }
  }

  /** Grouping keeps the money: the grouped values add up to the total of all
      invoices, and an empty list groups to an empty object. */
  lemma GroupsKeepTotal(t: Totals, invoices: seq<InvoiceTotal>)
    requires GroupsOf(t, invoices)
    ensures ValuesTotal(t.order, t.amounts) == Total(invoices, TotalOf)
    ensures invoices == [] ==> t.amounts == map[]
  {
    ValuesTotalIsSumOver(t.order, t, invoices);
    forall i | 0 <= i < |invoices|
      ensures CurrencyOf(invoices[i]) in t.order
    {
      assert CurrencyList(invoices)[i] == invoices[i].currency;
    }
    PartitionSum(t.order, invoices, CurrencyOf, TotalOf);
  }

  /** What `getData` hands to the cards. */
  datatype DashboardData = DashboardData(
    totalInvoices: seq<InvoiceTotal>,
    totalsByCurrency: Totals,
    pendingTotalsByCurrency: Totals,
    paidTotalsByCurrency: Totals,
    totalCount: int,
    pendingCount: int,
    paidCount: int)

  /** `getData`, after the three queries: each list grouped, each list counted. */
  method GetData(all: seq<InvoiceTotal>, pending: seq<InvoiceTotal>, paid: seq<InvoiceTotal>)
    returns (d: DashboardData)
    ensures d.totalInvoices == all
    ensures GroupsOf(d.totalsByCurrency, all)
    ensures GroupsOf(d.pendingTotalsByCurrency, pending)
    ensures GroupsOf(d.paidTotalsByCurrency, paid)
    ensures d.totalCount == |all| && d.pendingCount == |pending| && d.paidCount == |paid|
  {
    var totals := GroupByCurrency(all);
    var pendingTotals := GroupByCurrency(pending);
    var paidTotals := GroupByCurrency(paid);
    d := DashboardData(all, totals, pendingTotals, paidTotals, |all|, |pending|, |paid|);
  }

  /** The currencies the card knows how to format. */
  predicate IsShown(currency: string) {
    currency == "USD" || currency == "IDR"
  }

  /** The keys of `order` the card can show, in the order they come. */
  function ShownKeys(order: seq<string>): (keys: seq<string>)
    ensures forall k :: k in keys <==> k in order && IsShown(k)
    ensures |keys| <= |order|
    decreases |order|
  {
    if order == [] then []
    else if IsShown(order[0]) then [order[0]] + ShownKeys(order[1..])
    else ShownKeys(order[1..])
  }

  /** `CurrencyTotals`: the object's entries in key order, every currency other
      than USD and IDR skipped. */
  function CurrencyTotals(order: seq<string>, amounts: map<string, real>): (rows: seq<(string, real)>)
    requires forall k :: k in order ==> k in amounts
    ensures |rows| == |ShownKeys(order)|
    ensures forall i :: 0 <= i < |rows| ==> rows[i] == (ShownKeys(order)[i], amounts[ShownKeys(order)[i]])
    ensures forall r :: r in rows ==> IsShown(r.0) && r.0 in order && r.1 == amounts[r.0]
    ensures forall k :: k in order && IsShown(k) ==> (k, amounts[k]) in rows
    ensures |rows| <= |order|
    decreases |order|
  {
    if order == [] then []
    else
      var rest := CurrencyTotals(order[1..], amounts);
      var rows := if IsShown(order[0]) then [(order[0], amounts[order[0]])] + rest else rest;
      assert ShownKeys(order) == if IsShown(order[0]) then [order[0]] + ShownKeys(order[1..]) else ShownKeys(order[1..]);
      RowsOfShownKeys(order, amounts, rows);
      rows
  }

  /** Rows listing the shown keys with their amounts hold exactly the shown
      keys of `order`. */
  lemma RowsOfShownKeys(order: seq<string>, amounts: map<string, real>, rows: seq<(string, real)>)
    requires forall k :: k in order ==> k in amounts
    requires |rows| == |ShownKeys(order)|
    requires forall i :: 0 <= i < |rows| ==> rows[i] == (ShownKeys(order)[i], amounts[ShownKeys(order)[i]])
    ensures forall r :: r in rows ==> IsShown(r.0) && r.0 in order && r.1 == amounts[r.0]
    ensures forall k :: k in order && IsShown(k) ==> (k, amounts[k]) in rows
  {
    var keys := ShownKeys(order);
    forall k | k in order && IsShown(k)
      ensures (k, amounts[k]) in rows
    {
      var i :| 0 <= i < |keys| && keys[i] == k;
      assert rows[i] == (k, amounts[k]);
    }
  }

  /** A card over grouped totals shows each present USD or IDR total exactly as
      grouped, and nothing else. */
  lemma CardShowsGroupedTotals(t: Totals, invoices: seq<InvoiceTotal>, currency: string)
    requires GroupsOf(t, invoices)
    ensures (exists r :: r in CurrencyTotals(t.order, t.amounts) && r.0 == currency) <==>
              IsShown(currency) && currency in CurrencyList(invoices)
    ensures IsShown(currency) && currency in CurrencyList(invoices) ==>
              (currency, SumFor(invoices, CurrencyOf, TotalOf, currency)) in CurrencyTotals(t.order, t.amounts)
  {
  }
}
