/** The invoice e-mails: placeholder substitution over an HTML template and the
    mail options of the create, edit and reminder messages. Reading the
    template file and handing the options to the transport are outside the
    model; the template text and the sender address are parameters. */
module Mailer {
  import opened Common
  import opened Strings

  /** The placeholder a key stands for in a template. */
  function Placeholder(key: string): (p: string)
    ensures |p| == |key| + 4
  {
    "{{" + key + "}}"
  }

  /** `template.replace(new RegExp(pat, "g"), v)` for a pattern the regular
      expression matches literally: every occurrence, found left to right
      without overlapping, is replaced by `v`. */
  function ReplaceAll(s: string, pat: string, v: string): string
    requires pat != []
    decreases |s|
  {
    if |s| < |pat| then s
    else if StartsWith(s, pat) then v + ReplaceAll(s[|pat|..], pat, v)
    else [s[0]] + ReplaceAll(s[1..], pat, v)
  }

  /** A text without the pattern comes back unchanged. */
  lemma {:induction false} ReplaceAbsent(s: string, pat: string, v: string)
    requires pat != [] && !Contains(s, pat)
    ensures ReplaceAll(s, pat, v) == s
    decreases |s|
  {
    if |s| >= |pat| {
      assert !StartsWith(s[0..], pat);
      assert s[0..] == s;
      assert !Contains(s[1..], pat) by {
        forall i | 0 <= i <= |s[1..]|
          ensures !StartsWith(s[1..][i..], pat)
        {
          assert s[1..][i..] == s[i + 1..];
        }
      }
      ReplaceAbsent(s[1..], pat, v);
      assert [s[0]] + s[1..] == s;
    }
  }

  lemma ContainsTail(s: string, p: string)
    requires s != [] && !Contains(s, p)
    ensures !Contains(s[1..], p)
  {
    forall i | 0 <= i <= |s[1..]|
      ensures !StartsWith(s[1..][i..], p)
    {
      assert s[1..][i..] == s[i + 1..];
    }
  }

  lemma ContainsDrop(s: string, n: nat, p: string)
    requires n <= |s| && !Contains(s, p)
    ensures !Contains(s[n..], p)
  {
    forall i | 0 <= i <= |s[n..]|
      ensures !StartsWith(s[n..][i..], p)
    {
      assert s[n..][i..] == s[n + i..];
    }
  }

  /** A character that does not occur in `p`. */
  predicate Foreign(c: char, p: string) {
    c !in p
  }

  /** Up to any length, the replaced text either shows a character foreign to
      `p` (one of an inserted value's) or agrees with the original text. */
  lemma {:induction false} ReplacePrefix(t: string, pat: string, v: string, p: string, n: nat)
    requires pat != [] && v != [] && forall j :: 0 <= j < |v| ==> Foreign(v[j], p)
    requires n <= |ReplaceAll(t, pat, v)|
    ensures (exists i :: 0 <= i < n && Foreign(ReplaceAll(t, pat, v)[i], p))
            || (n <= |t| && ReplaceAll(t, pat, v)[..n] == t[..n])
    decreases |t|
  {
    var r := ReplaceAll(t, pat, v);
    if |t| < |pat| || n == 0 {
    } else if StartsWith(t, pat) {
      assert r[0] == v[0];
    } else {
      var rest := ReplaceAll(t[1..], pat, v);
      assert r == [t[0]] + rest;
      ReplacePrefix(t[1..], pat, v, p, n - 1);
      if exists i :: 0 <= i < n - 1 && Foreign(rest[i], p) {
        var i :| 0 <= i < n - 1 && Foreign(rest[i], p);
        assert r[i + 1] == rest[i];
      } else {
        assert r[..n] == [t[0]] + rest[..n - 1];
        assert t[..n] == [t[0]] + t[1..][..n - 1];
      }
    }
  }

  /** A value none of whose characters occur in `p`, put in front of a text
      without `p`, makes no occurrence of `p`. */
  lemma ValueThenNoOccurrence(v: string, rest: string, p: string)
    requires p != [] && forall j :: 0 <= j < |v| ==> Foreign(v[j], p)
    requires !Contains(rest, p)
    ensures !Contains(v + rest, p)
  {
    var r := v + rest;
    forall i | 0 <= i <= |r|
      ensures !StartsWith(r[i..], p)
    {
      if i < |v| {
        assert r[i] == v[i];
      } else {
        assert r[i..] == rest[i - |v|..];
      }
    }
  }

  /** Where the text does not start with the pattern, the replaced text does
      not start with `p` either. */
  lemma HeadNoOccurrence(t: string, pat: string, v: string, p: string)
    requires pat != [] && p != [] && v != [] && forall j :: 0 <= j < |v| ==> Foreign(v[j], p)
    requires |t| >= |pat| && !StartsWith(t, pat)
    requires p == pat || !Contains(t, p)
    ensures !StartsWith(ReplaceAll(t, pat, v), p)
  {
    var r := ReplaceAll(t, pat, v);
    var rest := ReplaceAll(t[1..], pat, v);
    assert r == [t[0]] + rest;
    if StartsWith(r, p) {
      var n := |p| - 1;
      ReplacePrefix(t[1..], pat, v, p, n);
      assert forall j :: 0 <= j < n ==> rest[j] == r[j + 1] == p[j + 1];
      assert rest[..n] == t[1..][..n];
      StartsWithHead(t, p, rest[..n]);
    }
  }

  lemma StartsWithHead(t: string, p: string, tail: string)
    requires t != [] && p != [] && |p| <= |t| && p == [t[0]] + tail && tail == t[1..][..|p| - 1]
    ensures StartsWith(t, p) && Contains(t, p)
  {
    assert t[..|p|] == [t[0]] + t[1..][..|p| - 1];
    assert t[0..] == t;
  }

  /** Replacing with a non-empty value none of whose characters occur in `p`
      creates no occurrence of `p`; for `p` the replaced pattern itself, none
      is left. */
  lemma {:induction false} NoNewOccurrence(t: string, pat: string, v: string, p: string)
    requires pat != [] && p != [] && v != [] && forall j :: 0 <= j < |v| ==> Foreign(v[j], p)
    requires p == pat || !Contains(t, p)
    ensures !Contains(ReplaceAll(t, pat, v), p)
    decreases |t|
  {
    var r := ReplaceAll(t, pat, v);
    if |t| < |pat| {
      if p == pat {
        forall i | 0 <= i <= |r|
          ensures !StartsWith(r[i..], p)
        {
        }
      }
    } else if StartsWith(t, pat) {
      if p != pat {
        ContainsDrop(t, |pat|, p);
      }
      NoNewOccurrence(t[|pat|..], pat, v, p);
      ValueThenNoOccurrence(v, ReplaceAll(t[|pat|..], pat, v), p);
    } else {
      var rest := ReplaceAll(t[1..], pat, v);
      assert r == [t[0]] + rest;
      if p != pat {
        ContainsTail(t, p);
      }
      NoNewOccurrence(t[1..], pat, v, p);
      forall i | 0 <= i <= |r|
        ensures !StartsWith(r[i..], p)
      {
        if i == 0 {
          HeadNoOccurrence(t, pat, v, p);
          assert r[0..] == r;
        } else {
          assert r[i..] == rest[i - 1..];
        }
      }
    }
  }

  // ---------------------------------------------------------------------------
  // `loadTemplate`.

  /** The data of a template, `Object.keys` order. */
  type Entries = seq<(string, string)>

  /** The substitution loop: each key, in order, replaced throughout the text
      that the previous keys left. */
  function Substitute(template: string, entries: Entries): string
    decreases |entries|
  {
    if entries == [] then template
    else Substitute(ReplaceAll(template, Placeholder(entries[0].0), entries[0].1), entries[1..])
  }

  /** A key the regular expression `{{key}}` matches literally. */
  predicate PlainKey(key: string) {
    key != [] && forall i :: 0 <= i < |key| ==> 'a' <= key[i] <= 'z' || 'A' <= key[i] <= 'Z'
  }

  /** A replacement text without the special patterns `$$`, `$&`, `` $` `` and
      `$'` (the only ones that mean something for a pattern without groups), so
      that `replace` inserts it as it is. */
  predicate LiteralReplacement(v: string) {
    forall i :: 0 <= i < |v| - 1 && v[i] == '$' ==> v[i + 1] != '$' && v[i + 1] != '&' && v[i + 1] != '`' && v[i + 1] != '\''
  }

  predicate Substitutable(entries: Entries) {
    forall k :: 0 <= k < |entries| ==> PlainKey(entries[k].0) && LiteralReplacement(entries[k].1)
  }

  /** `loadTemplate` over the template's text. */
  method LoadTemplate(template: string, entries: Entries) returns (html: string)
    requires Substitutable(entries)
    ensures html == Substitute(template, entries)
  {
    html := template;
    for k := 0 to |entries|
      invariant Substitute(html, entries[k..]) == Substitute(template, entries)
    {
      assert entries[k..][1..] == entries[k + 1..];
      html := ReplaceAll(html, Placeholder(entries[k].0), entries[k].1);
    }
  }

  /** A template without any of the placeholders comes back unchanged. */
  lemma {:induction false} SubstituteAbsent(template: string, entries: Entries)
    requires forall k :: 0 <= k < |entries| ==> !Contains(template, Placeholder(entries[k].0))
    ensures Substitute(template, entries) == template
    decreases |entries|
  {
    if entries != [] {
      ReplaceAbsent(template, Placeholder(entries[0].0), entries[0].1);
      SubstituteAbsent(template, entries[1..]);
    }
  }

  /** Values that are non-empty and share no character with any placeholder. */
  predicate ForeignValues(entries: Entries) {
    forall k, m, j :: 0 <= k < |entries| && 0 <= m < |entries| && 0 <= j < |entries[m].1| ==>
      Foreign(entries[m].1[j], Placeholder(entries[k].0))
  }

  predicate NonEmptyValues(entries: Entries) {
    forall m :: 0 <= m < |entries| ==> entries[m].1 != []
  }

  lemma {:induction false} SubstituteKeepsAbsent(t: string, entries: Entries, p: string)
    requires p != [] && !Contains(t, p) && NonEmptyValues(entries)
    requires forall m, j :: 0 <= m < |entries| && 0 <= j < |entries[m].1| ==> Foreign(entries[m].1[j], p)
    ensures !Contains(Substitute(t, entries), p)
    decreases |entries|
  {
    if entries != [] {
      NoNewOccurrence(t, Placeholder(entries[0].0), entries[0].1, p);
      SubstituteKeepsAbsent(ReplaceAll(t, Placeholder(entries[0].0), entries[0].1), entries[1..], p);
    }
  }

  /** With non-empty values that share no character with the placeholders, no
      placeholder of a supplied key is left in the result. */
  lemma {:induction false} SubstituteRemovesAll(template: string, entries: Entries)
    requires NonEmptyValues(entries) && ForeignValues(entries)
    ensures forall k :: 0 <= k < |entries| ==> !Contains(Substitute(template, entries), Placeholder(entries[k].0))
    decreases |entries|
  {
    if entries != [] {
      var first := ReplaceAll(template, Placeholder(entries[0].0), entries[0].1);
      assert ForeignValues(entries[1..]) by {
        forall k, m, j | 0 <= k < |entries[1..]| && 0 <= m < |entries[1..]| && 0 <= j < |entries[1..][m].1|
          ensures Foreign(entries[1..][m].1[j], Placeholder(entries[1..][k].0))
        {
          assert entries[1..][m] == entries[m + 1] && entries[1..][k] == entries[k + 1];
        }
      }
      SubstituteRemovesAll(first, entries[1..]);
      NoNewOccurrence(template, Placeholder(entries[0].0), entries[0].1, Placeholder(entries[0].0));
      SubstituteKeepsAbsent(first, entries[1..], Placeholder(entries[0].0));
      forall k | 0 <= k < |entries|
        ensures !Contains(Substitute(template, entries), Placeholder(entries[k].0))
      {
        if k > 0 {
          assert entries[1..][k - 1] == entries[k];
        }
      }
    }
  }

  /** Brace-free values alone do not guarantee that: a value made of the
      key's own letters can complete a placeholder out of the braces around
      the one it replaces. */
  lemma PlaceholderCanReappear()
    ensures ReplaceAll("{{{{a}}}}", Placeholder("a"), "a") == Placeholder("a")
  {
    var pat := Placeholder("a");
    assert pat == "{{a}}";
    var s := "{{{{a}}}}";
    var s1 := s[1..];
    var s2 := s1[1..];
    assert s1 == "{{{a}}}}" && s2 == "{{a}}}}" && s2[5..] == "}}";
    assert s[2] == '{' != pat[2];
    assert s1[2] == '{' != pat[2];
    assert s2[..5] == pat;
    assert ReplaceAll(s2, pat, "a") == "a" + ReplaceAll("}}", pat, "a") == "a}}";
    assert ReplaceAll(s1, pat, "a") == [s1[0]] + ReplaceAll(s2, pat, "a");
    assert ReplaceAll(s, pat, "a") == [s[0]] + ReplaceAll(s1, pat, "a");
  }

  // ---------------------------------------------------------------------------
  // The three messages.

  datatype Attachment = Attachment(filename: string, cid: string)

  /** The logo, referenced from the HTML as `cid:logo`; its file path is
      outside the model. */
  const LOGO := Attachment("logo.png", "logo")

  datatype MailOptions = MailOptions(
    from: string,
    to: string,
    subject: string,
    html: string,
    attachments: seq<Attachment>)

  datatype InvoiceMail = InvoiceMail(
    to: string,
    clientName: string,
    invoiceNumber: string,
    invoiceDueDate: string,
    invoiceAmount: string,
    invoiceLink: string)

  /** The template data of the create and edit messages. */
  function InvoiceEntries(data: InvoiceMail): Entries {
    [("clientName", data.clientName), ("invoiceNumber", data.invoiceNumber),
     ("invoiceDueDate", data.invoiceDueDate), ("invoiceAmount", data.invoiceAmount),
     ("invoiceLink", data.invoiceLink)]
  }

  function CreatedSubject(invoiceNumber: string): string {
    "Invoice Baru #" + invoiceNumber + " - InulTax"
  }

  function UpdatedSubject(invoiceNumber: string): string {
    "Invoice Diperbarui #" + invoiceNumber + " - InulTax"
  }

  /** The two subjects never coincide, and each names the invoice. */
  lemma SubjectsTellCreateFromEdit(n: string, m: string)
    ensures CreatedSubject(n) != UpdatedSubject(m)
    ensures CreatedSubject(n) == CreatedSubject(m) <==> n == m
    ensures UpdatedSubject(n) == UpdatedSubject(m) <==> n == m
  {
    assert CreatedSubject(n)[8] == 'B' && UpdatedSubject(m)[8] == 'D';
    if CreatedSubject(n) == CreatedSubject(m) {
      assert n == CreatedSubject(n)[14..|CreatedSubject(n)| - 10];
      assert m == CreatedSubject(m)[14..|CreatedSubject(m)| - 10];
    }
    if UpdatedSubject(n) == UpdatedSubject(m) {
      assert n == UpdatedSubject(n)[20..|UpdatedSubject(n)| - 10];
      assert m == UpdatedSubject(m)[20..|UpdatedSubject(m)| - 10];
    }
  }

  /** `sendCreateInvoiceEmail`, up to the transport. */
  method CreateInvoiceMail(from: string, template: string, data: InvoiceMail) returns (mail: MailOptions)
    requires Substitutable(InvoiceEntries(data))
    ensures mail == MailOptions(from, data.to, CreatedSubject(data.invoiceNumber),
                                Substitute(template, InvoiceEntries(data)), [LOGO])
  {
    var html := LoadTemplate(template, InvoiceEntries(data));
    mail := MailOptions(from, data.to, "Invoice Baru #" + data.invoiceNumber + " - InulTax", html, [LOGO]);
  }

  /** `sendEditInvoiceEmail`, up to the transport. */
  method EditInvoiceMail(from: string, template: string, data: InvoiceMail) returns (mail: MailOptions)
    requires Substitutable(InvoiceEntries(data))
    ensures mail == MailOptions(from, data.to, UpdatedSubject(data.invoiceNumber),
                                Substitute(template, InvoiceEntries(data)), [LOGO])
  {
    var html := LoadTemplate(template, InvoiceEntries(data));
    mail := MailOptions(from, data.to, "Invoice Diperbarui #" + data.invoiceNumber + " - InulTax", html, [LOGO]);
  }

  datatype ReminderMail = ReminderMail(
    to: string,
    clientName: string,
    invoiceNumber: string,
    invoiceDueDate: string,
    invoiceAmount: string,
    invoiceLink: string,
    daysOverdue: int,
    companyName: string,
    companyEmail: string,
    companyPhone: Option<string>)

  const OVERDUE := "TERLAMBAT"
  const DUE_TODAY := "JATUH TEMPO HARI INI"
  /** The opening the two overdue messages share. */
  const MESSAGE_HEAD := "Invoice ini "
  const DUE_TODAY_MESSAGE := MESSAGE_HEAD + "jatuh tempo hari ini." + " Mohon segera lakukan pembayaran."
  const NO_PHONE := "Tidak tersedia"

  function OverdueStatus(daysOverdue: int): string {
    if daysOverdue > 0 then OVERDUE else DUE_TODAY
  }

  function OverdueMessage(daysOverdue: int): string {
    if daysOverdue > 0
    then MESSAGE_HEAD + "sudah terlambat " + IntToString(daysOverdue) + " hari dari tanggal jatuh tempo."
    else DUE_TODAY_MESSAGE
  }

  /** `data.companyPhone || "Tidak tersedia"`. */
  function CompanyPhone(phone: Option<string>): (r: string)
    ensures r != []
    ensures phone.Some? && phone.value != [] ==> r == phone.value
    ensures !(phone.Some? && phone.value != []) ==> r == NO_PHONE
  {
    if phone.Some? && phone.value != [] then phone.value else NO_PHONE
  }

  /** Status and message follow the same split: overdue (with the day count in
      the message) exactly when the invoice is at least a day late. */
  lemma OverdueFieldsAgree(daysOverdue: int)
    ensures OverdueStatus(daysOverdue) == OVERDUE <==> daysOverdue > 0
    ensures OverdueMessage(daysOverdue) == DUE_TODAY_MESSAGE <==> daysOverdue <= 0
    ensures daysOverdue > 0 ==> Contains(OverdueMessage(daysOverdue), IntToString(daysOverdue))
  {
    if daysOverdue > 0 {
      var m := OverdueMessage(daysOverdue);
      assert m[12] == 's';
      assert DUE_TODAY_MESSAGE[12] == 'j';
      assert StartsWith(m[28..], IntToString(daysOverdue));
    }
  }

  /** The reminder's template data, in the order the source lists it. */
  function ReminderEntries(data: ReminderMail): Entries {
    [("clientName", data.clientName), ("invoiceNumber", data.invoiceNumber),
     ("invoiceDueDate", data.invoiceDueDate), ("invoiceAmount", data.invoiceAmount),
     ("invoiceLink", data.invoiceLink), ("daysOverdue", IntToString(data.daysOverdue)),
     ("overdueStatus", OverdueStatus(data.daysOverdue)), ("overdueMessage", OverdueMessage(data.daysOverdue)),
     ("companyName", data.companyName), ("companyEmail", data.companyEmail),
     ("companyPhone", CompanyPhone(data.companyPhone))]
  }

  function ReminderSubject(daysOverdue: int, invoiceNumber: string, companyName: string): string {
    (if daysOverdue > 0 then "URGENT" else "") + " Reminder Pembayaran Invoice #" + invoiceNumber + " - " + companyName
  }

  /** The reminder subject starts with "URGENT" exactly for an overdue invoice,
      and otherwise with " Reminder" (a leading space). */
  lemma ReminderSubjectUrgency(daysOverdue: int, invoiceNumber: string, companyName: string)
    ensures StartsWith(ReminderSubject(daysOverdue, invoiceNumber, companyName), "URGENT") <==> daysOverdue > 0
    ensures daysOverdue <= 0 ==> StartsWith(ReminderSubject(daysOverdue, invoiceNumber, companyName), " Reminder")
  {
    var s := ReminderSubject(daysOverdue, invoiceNumber, companyName);
    if daysOverdue <= 0 {
      assert s[0] == ' ';
    }
  }

  /** `sendReminderEmail`, up to the transport. */
  method ReminderMailOptions(from: string, template: string, data: ReminderMail) returns (mail: MailOptions)
    requires Substitutable(ReminderEntries(data))
    ensures mail == MailOptions(from, data.to, ReminderSubject(data.daysOverdue, data.invoiceNumber, data.companyName),
                                Substitute(template, ReminderEntries(data)), [LOGO])
  {
    var html := LoadTemplate(template, ReminderEntries(data));
    var urgency := if data.daysOverdue > 0 then "URGENT" else "";
    mail := MailOptions(from, data.to, urgency + " Reminder Pembayaran Invoice #" + data.invoiceNumber + " - " + data.companyName,
                        html, [LOGO]);
  }
}
