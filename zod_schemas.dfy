/** The form schemas: onboarding, invoice items and invoices. A schema checks
    every field, in the order the object declares them, and either accepts the
    input (filling in defaults) or reports every failed rule as an issue
    carrying the field's path and the rule's message. The library's own e-mail
    check is a parameter. */
module ZodSchemas {
  import opened Common

  datatype PathSegment = Key(name: string) | Index(position: nat)

  /** A failed rule: where, and the message the schema gives for it (`None`:
      the library's built-in message, which is not modelled). */
  datatype Issue = Issue(path: seq<PathSegment>, message: Option<string>)

  datatype Parsed<T> = Success(value: T) | Failure(issues: seq<Issue>)

  /** One rule: no issue when it holds, otherwise one issue at `path`. */
  function Rule(holds: bool, path: seq<PathSegment>, message: Option<string>): (issues: seq<Issue>)
    ensures holds <==> issues == []
    ensures !holds ==> issues == [Issue(path, message)]
  {
    if holds then [] else [Issue(path, message)]
  }

  // ---------------------------------------------------------------------------
  // onboardingSchema

  datatype Onboarding = Onboarding(firstName: string, lastName: string, address: string)

  predicate ValidOnboarding(x: Onboarding) {
    |x.firstName| >= 2 && |x.lastName| >= 2 && |x.address| >= 5
  }

  function OnboardingIssues(x: Onboarding): seq<Issue> {
    Rule(|x.firstName| >= 2, [Key("firstName")], Some("Nama depan minimal 2 karakter"))
    + Rule(|x.lastName| >= 2, [Key("lastName")], Some("Nama belakang minimal 2 karakter"))
    + Rule(|x.address| >= 5, [Key("address")], Some("Alamat minimal 5 karakter"))
  }

  function ParseOnboarding(x: Onboarding): (r: Parsed<Onboarding>)
    ensures r.Success? <==> ValidOnboarding(x)
    ensures r.Success? ==> r.value == x
    ensures r.Failure? ==> 1 <= |r.issues| <= 3
    ensures r.Failure? ==> r.issues == OnboardingIssues(x)
    ensures r.Failure? ==> (Issue([Key("firstName")], Some("Nama depan minimal 2 karakter")) in r.issues
                            <==> |x.firstName| < 2)
    ensures r.Failure? ==> (Issue([Key("lastName")], Some("Nama belakang minimal 2 karakter")) in r.issues
                            <==> |x.lastName| < 2)
    ensures r.Failure? ==> (Issue([Key("address")], Some("Alamat minimal 5 karakter")) in r.issues
                            <==> |x.address| < 5)
  {
    var issues := OnboardingIssues(x);
    if issues == [] then Success(x) else Failure(issues)
  }

  // ---------------------------------------------------------------------------
  // invoiceItemSchema

  datatype Item = Item(description: string, quantity: real, rate: real)

  predicate ValidItem(item: Item) {
    |item.description| >= 1 && item.quantity >= 1.0 && item.rate >= 1.0
  }

  function ItemIssues(item: Item, at: seq<PathSegment>): (issues: seq<Issue>)
    ensures issues == [] <==> ValidItem(item)
    ensures forall i :: 0 <= i < |issues| ==> at <= issues[i].path
  {
    Rule(|item.description| >= 1, at + [Key("description")], Some("Deskripsi wajib diisi"))
    + Rule(item.quantity >= 1.0, at + [Key("quantity")], Some("Kuantitas minimal 1"))
    + Rule(item.rate >= 1.0, at + [Key("rate")], Some("Biaya/Harga minimal 1"))
  }

  /** The issues of the items from position `from` on, each under
      `items[position]`. */
  function ItemsIssues(items: seq<Item>, from: nat): seq<Issue>
    requires from <= |items|
    decreases |items| - from
  {
    if from == |items| then []
    else ItemIssues(items[from], [Key("items"), Index(from)]) + ItemsIssues(items, from + 1)
  }

  lemma {:induction false} ItemsIssuesEmpty(items: seq<Item>, from: nat)
    requires from <= |items|
    ensures ItemsIssues(items, from) == [] <==> forall i :: from <= i < |items| ==> ValidItem(items[i])
    decreases |items| - from
  {
    if from < |items| {
      ItemsIssuesEmpty(items, from + 1);
    }
  }

  // ---------------------------------------------------------------------------
  // invoiceSchema

  datatype Status = PAID | PENDING
  datatype Currency = USD | IDR

  /** The fields as submitted; `status` and `note` may be absent. */
  datatype InvoiceInput = InvoiceInput(
    invoiceName: string, total: real, status: Option<string>, date: string, dueDate: real,
    fromName: string, fromEmail: string, fromAddress: string,
    clientName: string, clientEmail: string, clientAddress: string,
    currency: string, invoiceNumber: real, note: Option<string>, items: seq<Item>)

  /** The accepted invoice, with `status` defaulted and the enums decoded. */
  datatype Invoice = Invoice(
    invoiceName: string, total: real, status: Status, date: string, dueDate: real,
    fromName: string, fromEmail: string, fromAddress: string,
    clientName: string, clientEmail: string, clientAddress: string,
    currency: Currency, invoiceNumber: real, note: Option<string>, items: seq<Item>)

  predicate IsStatus(s: Option<string>) {
    s == None || s == Some("PAID") || s == Some("PENDING")
  }

  predicate IsCurrency(s: string) {
    s == "USD" || s == "IDR"
  }

  const CURRENCY_MESSAGE := "Mata uang harus USD atau IDR"

  /** Every rule of the invoice schema. */
  predicate ValidInvoice(x: InvoiceInput, isEmail: string -> bool) {
    && |x.invoiceName| >= 1 && x.total >= 1.0 && IsStatus(x.status) && |x.date| >= 1
    && x.dueDate >= 0.0
    && |x.fromName| >= 1 && isEmail(x.fromEmail) && |x.fromAddress| >= 1
    && |x.clientName| >= 1 && isEmail(x.clientEmail) && |x.clientAddress| >= 1
    && IsCurrency(x.currency) && x.invoiceNumber >= 1.0
    && |x.items| >= 1 && (forall i :: 0 <= i < |x.items| ==> ValidItem(x.items[i]))
  }

  /** The issues of the invoice's own fields before the parties, in order. */
  function HeadIssues(x: InvoiceInput): seq<Issue> {
    Rule(|x.invoiceName| >= 1, [Key("invoiceName")], Some("Nama faktur wajib diisi"))
    + Rule(x.total >= 1.0, [Key("total")], Some("Minimal Rp 1"))
    + Rule(IsStatus(x.status), [Key("status")], None)
    + Rule(|x.date| >= 1, [Key("date")], Some("Tanggal wajib diisi"))
    + Rule(x.dueDate >= 0.0, [Key("dueDate")], Some("Jatuh tempo wajib diisi"))
  }

  /** The issues of the sender's and the client's fields, in order. */
  function PartyIssues(x: InvoiceInput, isEmail: string -> bool): seq<Issue> {
    Rule(|x.fromName| >= 1, [Key("fromName")], Some("Nama Anda wajib diisi"))
    + Rule(isEmail(x.fromEmail), [Key("fromEmail")], Some("Alamat email tidak valid"))
    + Rule(|x.fromAddress| >= 1, [Key("fromAddress")], Some("Alamat Anda wajib diisi"))
    + Rule(|x.clientName| >= 1, [Key("clientName")], Some("Nama klien wajib diisi"))
    + Rule(isEmail(x.clientEmail), [Key("clientEmail")], Some("Alamat email tidak valid"))
    + Rule(|x.clientAddress| >= 1, [Key("clientAddress")], Some("Alamat klien wajib diisi"))
  }

  /** The issues of the fields before `currency`, in order. */
  function FieldIssues(x: InvoiceInput, isEmail: string -> bool): seq<Issue> {
    HeadIssues(x) + PartyIssues(x, isEmail)
  }

  /** The issues of the fields after `currency`; the item count is checked
      before the items. */
  function TailIssues(x: InvoiceInput): seq<Issue> {
    Rule(x.invoiceNumber >= 1.0, [Key("invoiceNumber")], Some("Nomor faktur minimal 1"))
    + Rule(|x.items| >= 1, [Key("items")], Some("Minimal harus ada 1 item"))
    + ItemsIssues(x.items, 0)
  }

  /** The issues in field order. */
  function InvoiceIssues(x: InvoiceInput, isEmail: string -> bool): seq<Issue> {
    FieldIssues(x, isEmail)
    + Rule(IsCurrency(x.currency), [Key("currency")], Some(CURRENCY_MESSAGE))
    + TailIssues(x)
  }

  lemma HeadIssuesEmpty(x: InvoiceInput)
    ensures HeadIssues(x) == [] <==>
      |x.invoiceName| >= 1 && x.total >= 1.0 && IsStatus(x.status) && |x.date| >= 1 && x.dueDate >= 0.0
  {
  }

  lemma PartyIssuesEmpty(x: InvoiceInput, isEmail: string -> bool)
    ensures PartyIssues(x, isEmail) == [] <==>
      && |x.fromName| >= 1 && isEmail(x.fromEmail) && |x.fromAddress| >= 1
      && |x.clientName| >= 1 && isEmail(x.clientEmail) && |x.clientAddress| >= 1
  {
  }

  lemma ConcatEmpty(a: seq<Issue>, b: seq<Issue>)
    ensures a + b == [] <==> a == [] && b == []
  {
    assert |a + b| == |a| + |b|;
  }

  /** No issue is reported exactly when every rule holds. */
  lemma InvoiceIssuesEmpty(x: InvoiceInput, isEmail: string -> bool)
    ensures InvoiceIssues(x, isEmail) == [] <==> ValidInvoice(x, isEmail)
  {
    var currency := Rule(IsCurrency(x.currency), [Key("currency")], Some(CURRENCY_MESSAGE));
    ConcatEmpty(FieldIssues(x, isEmail) + currency, TailIssues(x));
    ConcatEmpty(FieldIssues(x, isEmail), currency);
    ConcatEmpty(HeadIssues(x), PartyIssues(x, isEmail));
    HeadIssuesEmpty(x);
    PartyIssuesEmpty(x, isEmail);
    ItemsIssuesEmpty(x.items, 0);
    var number := Rule(x.invoiceNumber >= 1.0, [Key("invoiceNumber")], Some("Nomor faktur minimal 1"));
    var count := Rule(|x.items| >= 1, [Key("items")], Some("Minimal harus ada 1 item"));
    ConcatEmpty(number + count, ItemsIssues(x.items, 0));
    ConcatEmpty(number, count);
  }

  function DecodeStatus(s: Option<string>): Status {
    if s == Some("PAID") then PAID else PENDING
  }

  function DecodeCurrency(s: string): Currency {
    if s == "USD" then USD else IDR
  }

  function ParseInvoice(x: InvoiceInput, isEmail: string -> bool): (r: Parsed<Invoice>)
    ensures r.Success? <==> ValidInvoice(x, isEmail)
    ensures r.Failure? ==> r.issues != [] && r.issues == InvoiceIssues(x, isEmail)
    ensures r.Success? ==> r.value.status == (if x.status == Some("PAID") then PAID else PENDING)
    ensures r.Success? ==> r.value.currency == (if x.currency == "USD" then USD else IDR)
    ensures r.Success? ==> r.value.items == x.items && r.value.note == x.note && r.value.total == x.total
    ensures r.Success? ==> r.value.invoiceName == x.invoiceName && r.value.date == x.date
                           && r.value.dueDate == x.dueDate && r.value.invoiceNumber == x.invoiceNumber
    ensures r.Success? ==> && r.value.fromName == x.fromName && r.value.fromEmail == x.fromEmail
                           && r.value.fromAddress == x.fromAddress
                           && r.value.clientName == x.clientName && r.value.clientEmail == x.clientEmail
                           && r.value.clientAddress == x.clientAddress
  {
    var issues := InvoiceIssues(x, isEmail);
    InvoiceIssuesEmpty(x, isEmail);
    if issues != [] then Failure(issues)
    else
      Success(Invoice(x.invoiceName, x.total, DecodeStatus(x.status), x.date, x.dueDate,
                      x.fromName, x.fromEmail, x.fromAddress,
                      x.clientName, x.clientEmail, x.clientAddress,
                      DecodeCurrency(x.currency), x.invoiceNumber, x.note, x.items))
  }

  /** An absent status is accepted as PENDING. */
  lemma MissingStatusDefaultsToPending(x: InvoiceInput, isEmail: string -> bool)
    requires x.status == None && ValidInvoice(x, isEmail)
    ensures ParseInvoice(x, isEmail) == Success(ParseInvoice(x, isEmail).value)
    ensures ParseInvoice(x, isEmail).value.status == PENDING
  {
  }

  /** Whatever the submitted currency, a rejected one is reported once, with the
      schema's single message. */
  lemma CurrencyIssueMessage(x: InvoiceInput, isEmail: string -> bool)
    requires !IsCurrency(x.currency)
    ensures ParseInvoice(x, isEmail).Failure?
    ensures Issue([Key("currency")], Some(CURRENCY_MESSAGE)) in ParseInvoice(x, isEmail).issues
  {
    var prefix := FieldIssues(x, isEmail);
    assert InvoiceIssues(x, isEmail)[|prefix|] == Issue([Key("currency")], Some(CURRENCY_MESSAGE));
  }

  /** An empty item list is always rejected, and the last issue reported is the
      item count. */
  lemma EmptyItemsRejected(x: InvoiceInput, isEmail: string -> bool)
    requires x.items == []
    ensures ParseInvoice(x, isEmail).Failure?
    ensures var issues := ParseInvoice(x, isEmail).issues;
            issues[|issues| - 1] == Issue([Key("items")], Some("Minimal harus ada 1 item"))
  {
    assert ItemsIssues(x.items, 0) == [];
    assert TailIssues(x)[|TailIssues(x)| - 1] == Issue([Key("items")], Some("Minimal harus ada 1 item"));
  }

  /** The note is optional: it never affects acceptance. */
  lemma NoteIsOptional(x: InvoiceInput, isEmail: string -> bool, note: Option<string>)
    ensures ParseInvoice(x, isEmail).Success? == ParseInvoice(x.(note := note), isEmail).Success?
  {
  }
}
