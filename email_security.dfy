/** Email hygiene used by the sign-in flow: the address validator, the
    disposable-domain blocklist, normalisation and masking, the hex form of the
    verification token, token expiry, and the in-memory per-address send log
    with its sliding one-hour window. Clock readings (`Date.now()`) and the
    random bytes of the token are parameters. */
module EmailSecurity {
  import opened Common
  import opened Strings

  // ---------------------------------------------------------------------------
  // Address format: the "valid email address" grammar of the WHATWG HTML Living
  // Standard (section 4.10.5.1.5, the email state of the input element), on the
  // lower-cased address, with a cap of 254 characters.

  const MAX_EMAIL_LENGTH := 254

  predicate IsAsciiAlnum(c: char) {
    'a' <= c <= 'z' || 'A' <= c <= 'Z' || '0' <= c <= '9'
  }

  /** The characters the grammar allows before the "@". */
  predicate IsLocalChar(c: char) {
    IsAsciiAlnum(c) || c in ".!#$%&'*+/=?^_`{|}~-"
  }

  /** One or more local characters. */
  predicate IsLocalPart(s: string) {
    |s| >= 1 && forall i :: 0 <= i < |s| ==> IsLocalChar(s[i])
  }

  /** One domain label: 1 to 63 letters, digits and hyphens, starting and ending
      with a letter or digit. */
  predicate IsLabel(s: string) {
    && 1 <= |s| <= 63
    && IsAsciiAlnum(s[0]) && IsAsciiAlnum(s[|s| - 1])
    && forall i :: 0 < i < |s| - 1 ==> IsAsciiAlnum(s[i]) || s[i] == '-'
  }

  /** The labels of a domain, separated by single dots. */
  predicate IsDomain(s: string) {
    var labels := SplitOn(s, '.');
    forall k :: 0 <= k < |labels| ==> IsLabel(labels[k])
  }

  /** `isValidEmail`: non-empty, at most 254 characters, and the lower-cased
      address is one local part, one "@" and a domain. */
  predicate IsValidEmail(email: string) {
    if email == [] || |email| > MAX_EMAIL_LENGTH then false
    else
      var parts := SplitOn(ToLower(email), '@');
      |parts| == 2 && IsLocalPart(parts[0]) && IsDomain(parts[1])
  }

  /** The language of the domain half of the regular expression: a label,
      followed by any number of "." + label. */
  ghost predicate DomainGrammar(s: string)
    decreases |s|, 1
  {
    IsLabel(s) || exists i :: DotSplit(s, i)
  }

  /** `s` is a label, a dot at position `i`, and a domain of the grammar. */
  ghost predicate DotSplit(s: string, i: int)
    decreases |s|, 0
  {
    0 <= i < |s| && s[i] == '.' && IsLabel(s[..i]) && DomainGrammar(s[i + 1..])
  }

  /** The language of the whole regular expression: local part, "@", domain. */
  ghost predicate EmailGrammar(s: string) {
    exists i :: AtSplit(s, i)
  }

  /** `s` is a local part, an "@" at position `i`, and a domain of the grammar. */
  ghost predicate AtSplit(s: string, i: int) {
    0 <= i < |s| && s[i] == '@' && IsLocalPart(s[..i]) && DomainGrammar(s[i + 1..])
  }

  lemma LabelChars(s: string)
    requires IsLabel(s)
    ensures forall i :: 0 <= i < |s| ==> IsAsciiAlnum(s[i]) || s[i] == '-'
  {
  }

  /** A domain of the grammar has no "@". */
  lemma {:induction false} DomainGrammarHasNoAt(s: string)
    requires DomainGrammar(s)
    ensures '@' !in s
    decreases |s|
  {
    if IsLabel(s) {
      LabelChars(s);
    } else {
      var i :| DotSplit(s, i);
      LabelChars(s[..i]);
      DomainGrammarHasNoAt(s[i + 1..]);
      assert s == s[..i] + [s[i]] + s[i + 1..];
    }
  }

  lemma DomainGrammarWithoutDot(s: string)
    requires '.' !in s
    ensures DomainGrammar(s) <==> IsLabel(s)
    ensures IsDomain(s) <==> IsLabel(s)
  {
    var labels := SplitOn(s, '.');
    assert labels == [s];
    assert |labels| == 1 && labels[0] == s;
    forall i
      ensures !DotSplit(s, i)
    {
      if 0 <= i < |s| {
        assert s[i] in s;
      }
    }
  }

  /** With its first dot at `k`, a domain of the grammar is a label up to `k` and
      a domain of the grammar after it. */
  lemma DomainGrammarAtFirstDot(s: string, k: nat)
    requires k < |s| && s[k] == '.' && '.' !in s[..k]
    ensures DomainGrammar(s) <==> DotSplit(s, k)
  {
    assert !IsLabel(s) by {
      if IsLabel(s) {
        LabelChars(s);
      }
    }
    forall i | DotSplit(s, i)
      ensures i == k
    {
      LabelChars(s[..i]);
    }
  }

  /** With its first dot at `k`, a domain splits into the label up to `k` and the
      labels after it. */
  lemma DomainSplitAtFirstDot(s: string, k: nat)
    requires k < |s| && s[k] == '.' && '.' !in s[..k]
    ensures IsDomain(s) <==> IsLabel(s[..k]) && IsDomain(s[k + 1..])
  {
    var a, b := s[..k], s[k + 1..];
    assert s == a + ['.'] + b;
    SplitAtFirst(a, '.', b);
    var labels, rest := SplitOn(s, '.'), SplitOn(b, '.');
    assert labels == [a] + rest;
    assert labels[0] == a;
    forall j | 0 <= j < |rest|
      ensures labels[j + 1] == rest[j]
    {
    }
  }

  /** The grammar's label-star-of-dot-label reading of a domain agrees with
      splitting it at every dot. */
  lemma {:induction false} DomainGrammarIsSplit(s: string)
    ensures DomainGrammar(s) <==> IsDomain(s)
    decreases |s|
  {
    if '.' !in s {
      DomainGrammarWithoutDot(s);
    } else {
      var k := FirstOccurrence(s, '.');
      DomainGrammarIsSplit(s[k + 1..]);
      DomainGrammarAtFirstDot(s, k);
      DomainSplitAtFirstDot(s, k);
    }
  }

  /** An address of the grammar splits at "@" into a local part and a domain. */
  lemma GrammarToSplit(s: string)
    requires EmailGrammar(s)
    ensures var parts := SplitOn(s, '@');
      |parts| == 2 && IsLocalPart(parts[0]) && IsDomain(parts[1])
  {
    var i :| AtSplit(s, i);
    var a, b := s[..i], s[i + 1..];
    assert '@' !in a;
    DomainGrammarHasNoAt(b);
    assert s == a + ['@'] + b;
    SplitAtFirst(a, '@', b);
    assert SplitOn(b, '@') == [b];
    DomainGrammarIsSplit(b);
  }

  /** An address that splits at "@" into a local part and a domain is in the
      grammar, split at its first "@". */
  lemma SplitToGrammar(s: string)
    requires var parts := SplitOn(s, '@');
      |parts| == 2 && IsLocalPart(parts[0]) && IsDomain(parts[1])
    ensures EmailGrammar(s)
  {
    var k := FirstOccurrence(s, '@');
    var a, b := s[..k], s[k + 1..];
    assert s == a + ['@'] + b;
    SplitAtFirst(a, '@', b);
    assert SplitOn(s, '@') == [a] + SplitOn(b, '@');
    assert SplitOn(b, '@') == [b];
    DomainGrammarIsSplit(b);
    assert AtSplit(s, k);
  }

  /** The regular expression's language agrees with the split-at-"@" reading. */
  lemma EmailGrammarIsSplit(s: string)
    ensures EmailGrammar(s) <==>
      var parts := SplitOn(s, '@');
      |parts| == 2 && IsLocalPart(parts[0]) && IsDomain(parts[1])
  {
    var parts := SplitOn(s, '@');
    if EmailGrammar(s) {
      GrammarToSplit(s);
    }
    if |parts| == 2 && IsLocalPart(parts[0]) && IsDomain(parts[1]) {
      SplitToGrammar(s);
    }
  }

  /** `isValidEmail` accepts exactly the non-empty addresses of at most 254
      characters whose lower-cased form is in the grammar's language. */
  lemma IsValidEmailMatchesGrammar(email: string)
    ensures IsValidEmail(email) <==> 0 < |email| <= MAX_EMAIL_LENGTH && EmailGrammar(ToLower(email))
  {
    EmailGrammarIsSplit(ToLower(email));
  }

  /** A valid address has exactly one "@": it is a local part, "@" and a domain
      with no further "@". */
  lemma ValidEmailHasOneAt(email: string)
    requires IsValidEmail(email)
    ensures exists i :: 0 <= i < |email| && ToLower(email)[i] == '@'
                        && '@' !in ToLower(email)[..i] && '@' !in ToLower(email)[i + 1..]
  {
    IsValidEmailMatchesGrammar(email);
    GrammarHasOneAt(ToLower(email));
  }

  lemma GrammarHasOneAt(s: string)
    requires EmailGrammar(s)
    ensures exists i :: 0 <= i < |s| && s[i] == '@' && '@' !in s[..i] && '@' !in s[i + 1..]
  {
    var i :| AtSplit(s, i);
    DomainGrammarHasNoAt(s[i + 1..]);
    assert '@' !in s[..i];
  }

  // ---------------------------------------------------------------------------
  // Disposable-domain blocklist.

  const BLOCKED_DOMAINS: seq<string> := [
    "10minutemail.com",
    "tempmail.org",
    "guerrillamail.com",
    "mailinator.com",
    "yopmail.com",
    "temp-mail.org",
    "throwaway.email"
  ]

  /** `isBlockedEmailDomain`: the lower-cased text between the first "@" and the
      next one is listed; an address without "@" has no domain and is not
      blocked. */
  predicate IsBlockedEmailDomain(email: string) {
    var parts := SplitOn(ToLower(email), '@');
    |parts| >= 2 && parts[1] in BLOCKED_DOMAINS
  }

  lemma LowerKeepsAt(s: string)
    ensures ('@' in ToLower(s)) <==> ('@' in s)
  {
    assert forall i :: 0 <= i < |s| ==> (ToLower(s)[i] == '@' <==> s[i] == '@');
  }

  /** For an address with one "@", blocking is an exact, case-insensitive match
      of the whole domain against the list; a subdomain of a listed domain is not
      blocked unless it is listed itself. */
  lemma BlockedIsExactDomainMatch(local: string, domain: string)
    requires '@' !in local && '@' !in domain
    ensures IsBlockedEmailDomain(local + "@" + domain) <==> ToLower(domain) in BLOCKED_DOMAINS
  {
    var lower := ToLower(local + "@" + domain);
    assert lower == ToLower(local) + ['@'] + ToLower(domain);
    LowerKeepsAt(local);
    LowerKeepsAt(domain);
    SplitAtFirst(ToLower(local), '@', ToLower(domain));
    assert SplitOn(ToLower(domain), '@') == [ToLower(domain)];
  }

  lemma NoAtIsNotBlocked(email: string)
    requires '@' !in email
    ensures !IsBlockedEmailDomain(email)
  {
    LowerKeepsAt(email);
  }

  // ---------------------------------------------------------------------------
  // Normalisation and masking.

  /** `normalizeEmail`: trim, then lower-case. */
  function NormalizeEmail(email: string): (r: string)
    ensures exists t :: TrimmedFrom(email, t) && r == ToLower(t)
    ensures r == ToLower(r)
    ensures r != [] ==> !IsTrimmable(r[0]) && !IsTrimmable(r[|r| - 1])
  {
    var t := Trim(email);
    assert TrimmedFrom(email, t);
    ToLowerIdempotent(t);
    LowerKeepsEnds(t);
    ToLower(t)
  }

  lemma LowerKeepsEnds(t: string)
    ensures t != [] ==> (IsTrimmable(ToLower(t)[0]) <==> IsTrimmable(t[0]))
    ensures t != [] ==> (IsTrimmable(ToLower(t)[|t| - 1]) <==> IsTrimmable(t[|t| - 1]))
  {
    if t != [] {
      LowerKeepsTrimmable(t[0]);
      LowerKeepsTrimmable(t[|t| - 1]);
    }
  }

  /** Only an address made of whitespace normalises to the empty string. */
  lemma NormalizeToNothing(email: string)
    requires NormalizeEmail(email) == []
    ensures forall i :: 0 <= i < |email| ==> IsTrimmable(email[i])
  {
    var t :| TrimmedFrom(email, t) && NormalizeEmail(email) == ToLower(t);
    assert t == [];
    CutToNothing(email);
  }

  lemma NormalizeIdempotent(email: string)
    ensures NormalizeEmail(NormalizeEmail(email)) == NormalizeEmail(email)
  {
    var n := NormalizeEmail(email);
    TrimOfTrimmed(n);
  }

  /** `maskEmail`: the first one (local part of at most two characters) or two
      characters of the local part, "***@" and the domain. JavaScript renders
      the missing first character of an empty local part, and the missing domain
      of an address without "@", as "undefined". */
  function MaskEmail(email: string): string {
    var parts := SplitOn(email, '@');
    var local := parts[0];
    var domain := if |parts| >= 2 then parts[1] else "undefined";
    var shown := if local == [] then "undefined"
                 else if |local| <= 2 then [local[0]]
                 else local[..2];
    shown + "***@" + domain
  }

  /** For an address with one "@" and a non-empty local part, the mask shows one
      character of a local part of length 1 or 2 and two of a longer one, and the
      domain unchanged. */
  lemma MaskShowsDomainAndPrefix(local: string, domain: string)
    requires '@' !in local && '@' !in domain && local != []
    ensures MaskEmail(local + "@" + domain)
            == local[..if |local| <= 2 then 1 else 2] + "***@" + domain
  {
    SplitAtFirst(local, '@', domain);
    assert SplitOn(domain, '@') == [domain];
    assert SplitOn(local + "@" + domain, '@') == [local, domain];
  }

  /** The mask never shows more than two characters of the local part: it is
      those characters followed by "***@". */
  lemma MaskHidesLocalPart(local: string, domain: string)
    requires '@' !in local && '@' !in domain && local != []
    ensures exists p :: |p| <= 2 && p <= local && MaskEmail(local + "@" + domain) == p + "***@" + domain
  {
    MaskShowsDomainAndPrefix(local, domain);
    var p := local[..if |local| <= 2 then 1 else 2];
    assert |p| <= 2 && p <= local;
  }

  // ---------------------------------------------------------------------------
  // The combined check used before sending a sign-in link.

  const FORMAT_ERROR := "Format email tidak valid"
  const DOMAIN_ERROR := "Domain email tidak diizinkan"

  datatype EmailCheck = EmailCheck(isValid: bool, error: Option<string>)

  /** `validateEmailForAuth` on the normalised address: the format is checked
      first, then the domain. */
  function ValidateEmailForAuth(email: string): (r: EmailCheck)
    ensures r.isValid <==> r.error == None
    ensures r.isValid <==> IsValidEmail(NormalizeEmail(email)) && !IsBlockedEmailDomain(NormalizeEmail(email))
    ensures r.error == Some(FORMAT_ERROR) <==> !IsValidEmail(NormalizeEmail(email))
    ensures r.error == Some(DOMAIN_ERROR) <==>
              IsValidEmail(NormalizeEmail(email)) && IsBlockedEmailDomain(NormalizeEmail(email))
  {
    var normalized := NormalizeEmail(email);
    if !IsValidEmail(normalized) then EmailCheck(false, Some(FORMAT_ERROR))
    else if IsBlockedEmailDomain(normalized) then EmailCheck(false, Some(DOMAIN_ERROR))
    else EmailCheck(true, None)
  }

  /** Validation sees only the normalised address: an address and its normalised
      form get the same verdict. */
  lemma ValidateIgnoresNormalization(email: string)
    ensures ValidateEmailForAuth(NormalizeEmail(email)) == ValidateEmailForAuth(email)
  {
    var n := NormalizeEmail(email);
    NormalizeIdempotent(email);
    assert NormalizeEmail(n) == n;
    SameNormalFormSameVerdict(n, email);
  }

  lemma SameNormalFormSameVerdict(a: string, b: string)
    requires NormalizeEmail(a) == NormalizeEmail(b)
    ensures ValidateEmailForAuth(a) == ValidateEmailForAuth(b)
  {
  }

  /** An accepted address has one "@", and its domain is not on the list. */
  lemma AcceptedDomainIsNotBlocked(email: string)
    requires ValidateEmailForAuth(email).isValid
    ensures var n := NormalizeEmail(email);
            exists i :: 0 <= i < |n| && n[i] == '@' && '@' !in n[..i] && n[i + 1..] !in BLOCKED_DOMAINS
  {
    LowerValidDomainIsNotBlocked(NormalizeEmail(email));
  }

  lemma LowerValidDomainIsNotBlocked(n: string)
    requires IsValidEmail(n) && !IsBlockedEmailDomain(n) && ToLower(n) == n
    ensures exists i :: 0 <= i < |n| && n[i] == '@' && '@' !in n[..i] && n[i + 1..] !in BLOCKED_DOMAINS
  {
    ValidEmailHasOneAt(n);
    var i :| 0 <= i < |n| && n[i] == '@' && '@' !in n[..i] && '@' !in n[i + 1..];
    SplitAround(n, i);
    BlockedIsExactDomainMatch(n[..i], n[i + 1..]);
    LowerOfLowerSuffix(n, i + 1);
  }

  lemma LowerOfLowerSuffix(s: string, i: nat)
    requires ToLower(s) == s && i <= |s|
    ensures ToLower(s[i..]) == s[i..]
  {
    forall j | 0 <= j < |s| - i
      ensures ToLower(s[i..])[j] == s[i..][j]
    {
      assert s[i..][j] == s[i + j] == ToLower(s)[i + j];
    }
  }

  // ---------------------------------------------------------------------------
  // The hex form of the verification token.

  type Byte = b: int | 0 <= b < 256

  /** A lower-case hexadecimal digit. */
  predicate IsHexDigit(c: char) {
    '0' <= c <= '9' || 'a' <= c <= 'f'
  }

  /** The digit for a nibble, as `toString(16)` writes it. */
  function HexDigit(v: nat): (c: char)
    requires v < 16
    ensures IsHexDigit(c)
  {
    if v < 10 then ('0' as int + v) as char else ('a' as int + v - 10) as char
  }
  const TOKEN_BYTES := 32

  /** `byte.toString(16)`: lower-case hexadecimal without leading zeros. */
  function ToHex(b: Byte): string {
    if b < 16 then [HexDigit(b)] else [HexDigit(b / 16), HexDigit(b % 16)]
  }

  function PadStart(s: string, width: nat, fill: char): (r: string)
    ensures |r| == if |s| < width then width else |s|
    ensures s <= r[|r| - |s|..] && r[|r| - |s|..] == s
  {
    if |s| < width then seq(width - |s|, _ => fill) + s else s
  }

  /** `toString(16).padStart(2, "0")`: the high and the low nibble as two digits. */
  function HexByte(b: Byte): (r: string)
    ensures r == [HexDigit(b / 16), HexDigit(b % 16)]
    ensures IsHexDigit(r[0]) && IsHexDigit(r[1])
  {
    PadStart(ToHex(b), 2, '0')
  }

  function HexValue(c: char): (v: nat)
    ensures v < 16
    ensures IsHexDigit(c) ==> HexDigit(v) == c
  {
    if '0' <= c <= '9' then c as int - '0' as int
    else if 'a' <= c <= 'f' then c as int - 'a' as int + 10
    else 0
  }

  lemma HexValueOfDigit(v: nat)
    requires v < 16
    ensures HexValue(HexDigit(v)) == v
  {
  }

  predicate AllHex(s: string) {
    forall i :: 0 <= i < |s| ==> IsHexDigit(s[i])
  }

  lemma AllHexConcat(a: string, b: string)
    requires AllHex(a) && AllHex(b)
    ensures AllHex(a + b)
  {
    forall i | 0 <= i < |a + b|
      ensures IsHexDigit((a + b)[i])
    {
      if i < |a| {
        assert (a + b)[i] == a[i];
      } else {
        assert (a + b)[i] == b[i - |a|];
      }
    }
  }

  /** The bytes mapped to their two-digit forms and joined. */
  function HexEncode(bytes: seq<Byte>): (r: string)
    ensures |r| == 2 * |bytes|
    ensures AllHex(r)
    decreases |bytes|
  {
    if bytes == [] then []
    else
      var head, tail := HexByte(bytes[0]), HexEncode(bytes[1..]);
      assert AllHex(head);
      AllHexConcat(head, tail);
      head + tail
  }

  /** Reads two hex digits per byte. */
  function HexDecode(s: string): (bytes: seq<Byte>)
    decreases |s|
  {
    if |s| < 2 then [] else [HexValue(s[0]) * 16 + HexValue(s[1])] + HexDecode(s[2..])
  }

  /** A byte's two digits read back as the byte. */
  lemma HexByteValue(b: Byte)
    ensures HexValue(HexByte(b)[0]) * 16 + HexValue(HexByte(b)[1]) == b
  {
    HexValueOfDigit(b / 16);
    HexValueOfDigit(b % 16);
  }

  lemma {:induction false} HexDecodeEncode(bytes: seq<Byte>)
    ensures HexDecode(HexEncode(bytes)) == bytes
    decreases |bytes|
  {
    if bytes != [] {
      var head, tail := HexByte(bytes[0]), HexEncode(bytes[1..]);
      var s := HexEncode(bytes);
      assert s == head + tail;
      assert s[0] == head[0] && s[1] == head[1] && s[2..] == tail;
      HexByteValue(bytes[0]);
      HexDecodeEncode(bytes[1..]);
      assert HexDecode(s) == [bytes[0]] + HexDecode(tail);
      assert bytes == [bytes[0]] + bytes[1..];
    }
  }

  /** `generateSecureToken` over the 32 bytes the random source supplied:
      64 lower-case hex digits that determine the bytes. */
  function GenerateSecureToken(random: seq<Byte>): (token: string)
    requires |random| == TOKEN_BYTES
    ensures |token| == 2 * TOKEN_BYTES
    ensures forall i :: 0 <= i < |token| ==> IsHexDigit(token[i])
    ensures HexDecode(token) == random
  {
    HexDecodeEncode(random);
    HexEncode(random)
  }

  // ---------------------------------------------------------------------------
  // Token expiry. Instants are milliseconds since the epoch.

  const HOUR_MS := 60 * 60 * 1000
  const DEFAULT_EXPIRY_HOURS := 24

  /** `isVerificationTokenValid`: the moment `now` lies before creation plus the
      expiry period. */
  predicate IsVerificationTokenValid(createdAt: int, now: int, expiryHours: int) {
    now < createdAt + expiryHours * HOUR_MS
  }

  /** A token is valid from its creation for exactly the expiry period, and stays
      invalid once expired. */
  lemma TokenValidityWindow(createdAt: int, now: int, later: int, expiryHours: int)
    requires 0 <= expiryHours && createdAt <= now <= later
    ensures IsVerificationTokenValid(createdAt, now, expiryHours) <==> now - createdAt < expiryHours * 3600000
    ensures IsVerificationTokenValid(createdAt, later, expiryHours) ==> IsVerificationTokenValid(createdAt, now, expiryHours)
    ensures IsVerificationTokenValid(createdAt, now, DEFAULT_EXPIRY_HOURS) <==> now - createdAt < 86400000
  {
  }

  // ---------------------------------------------------------------------------
  // The per-address send log.

  const DEFAULT_MAX_PER_HOUR := 3

  /** `filter(timestamp => timestamp > cutoff)`, order kept. */
  function Recent(stamps: seq<int>, cutoff: int): (r: seq<int>)
    ensures |r| <= |stamps|
    ensures forall t :: t in r <==> t in stamps && t > cutoff
  {
    if stamps == [] then []
    else
      var rest := Recent(stamps[1..], cutoff);
      assert forall t :: t in stamps <==> t == stamps[0] || t in stamps[1..];
      if stamps[0] > cutoff then [stamps[0]] + rest else rest
  }

  /** Filtering with a later cutoff after an earlier one is filtering with the
      later one; in particular the filter is idempotent. */
  lemma {:induction false} RecentTwice(stamps: seq<int>, early: int, late: int)
    requires early <= late
    ensures Recent(Recent(stamps, early), late) == Recent(stamps, late)
  {
    if stamps != [] {
      RecentTwice(stamps[1..], early, late);
      if stamps[0] > early {
        assert Recent(stamps, early)[1..] == Recent(stamps[1..], early);
      }
    }
  }

  function History(log: map<string, seq<int>>, email: string): seq<int> {
    if email in log then log[email] else []
  }

  /** The address may be sent another message: fewer than `maxPerHour` of its
      stored send times lie within the hour before `now`. */
  predicate SendAllowed(log: map<string, seq<int>>, email: string, now: int, maxPerHour: int) {
    |Recent(History(log, email), now - HOUR_MS)| < maxPerHour
  }

  /** The log after `canSendEmail`: unchanged on refusal; otherwise the address's
      entry is its recent send times followed by `now`. */
  function AfterSend(log: map<string, seq<int>>, email: string, now: int, maxPerHour: int)
    : (r: map<string, seq<int>>)
    ensures !SendAllowed(log, email, now, maxPerHour) ==> r == log
    ensures SendAllowed(log, email, now, maxPerHour) ==>
              && r.Keys == log.Keys + {email}
              && 1 <= |r[email]| <= maxPerHour
              && r[email][|r[email]| - 1] == now
              && (forall t :: t in r[email] ==> t > now - HOUR_MS)
    ensures forall other :: other != email ==> (other in r <==> other in log)
    ensures forall other :: other != email && other in r ==> r[other] == log[other]
  {
    if SendAllowed(log, email, now, maxPerHour)
    then log[email := Recent(History(log, email), now - HOUR_MS) + [now]]
    else log
  }

  /** The log after `cleanupEmailLogs`: each address keeps the send times after
      the cutoff, and an address left with none is removed. */
  function CleanLog(log: map<string, seq<int>>, cutoff: int): (r: map<string, seq<int>>)
    ensures forall e :: e in r ==> e in log && r[e] != [] && r[e] == Recent(log[e], cutoff)
    ensures forall e :: e in log && e !in r ==> Recent(log[e], cutoff) == []
  {
    map e | e in log && Recent(log[e], cutoff) != [] :: Recent(log[e], cutoff)
  }

  lemma CleanLogIdempotent(log: map<string, seq<int>>, cutoff: int)
    ensures CleanLog(CleanLog(log, cutoff), cutoff) == CleanLog(log, cutoff)
  {
    var once := CleanLog(log, cutoff);
    forall e | e in once
      ensures Recent(once[e], cutoff) == once[e]
    {
      RecentTwice(log[e], cutoff, cutoff);
    }
  }

  /** A cleanup at `cleanedAt` changes no later send decision, nor the entry that
      a later allowed send stores. */
  lemma CleanupKeepsDecisions(log: map<string, seq<int>>, cleanedAt: int, email: string,
                              now: int, maxPerHour: int)
    requires cleanedAt <= now
    ensures SendAllowed(CleanLog(log, cleanedAt - HOUR_MS), email, now, maxPerHour)
            == SendAllowed(log, email, now, maxPerHour)
    ensures SendAllowed(log, email, now, maxPerHour) ==>
              AfterSend(CleanLog(log, cleanedAt - HOUR_MS), email, now, maxPerHour)[email]
              == AfterSend(log, email, now, maxPerHour)[email]
  {
    var cleaned := CleanLog(log, cleanedAt - HOUR_MS);
    RecentTwice(History(log, email), cleanedAt - HOUR_MS, now - HOUR_MS);
    assert Recent(History(cleaned, email), now - HOUR_MS) == Recent(History(log, email), now - HOUR_MS);
  }

  /** How many of a run of `canSendEmail` calls for one address, at the given
      instants in turn, are allowed. */
  function AllowedSends(log: map<string, seq<int>>, email: string, times: seq<int>, maxPerHour: int): nat
    decreases |times|
  {
    if times == [] then 0
    else
      (if SendAllowed(log, email, times[0], maxPerHour) then 1 else 0)
      + AllowedSends(AfterSend(log, email, times[0], maxPerHour), email, times[1..], maxPerHour)
  }

  /** The number of send times at or after `lo`. */
  function CountFrom(stamps: seq<int>, lo: int): (n: nat)
    ensures n <= |stamps|
  {
    if stamps == [] then 0 else (if stamps[0] >= lo then 1 else 0) + CountFrom(stamps[1..], lo)
  }

  lemma {:induction false} RecentKeepsLaterStamps(stamps: seq<int>, cutoff: int, lo: int)
    requires cutoff < lo
    ensures CountFrom(Recent(stamps, cutoff), lo) == CountFrom(stamps, lo)
  {
    if stamps != [] {
      RecentKeepsLaterStamps(stamps[1..], cutoff, lo);
      if stamps[0] > cutoff {
        assert Recent(stamps, cutoff)[1..] == Recent(stamps[1..], cutoff);
      }
    }
  }

  lemma {:induction false} CountFromSnoc(stamps: seq<int>, t: int, lo: int)
    ensures CountFrom(stamps + [t], lo) == CountFrom(stamps, lo) + (if t >= lo then 1 else 0)
  {
    if stamps != [] {
      assert (stamps + [t])[1..] == stamps[1..] + [t];
      CountFromSnoc(stamps[1..], t, lo);
    }
  }

  lemma {:induction false} WindowBoundFrom(log: map<string, seq<int>>, email: string, times: seq<int>,
                                           maxPerHour: int, lo: int, already: nat)
    requires forall i :: 0 <= i < |times| ==> lo <= times[i] < lo + HOUR_MS
    requires already <= CountFrom(History(log, email), lo)
    ensures AllowedSends(log, email, times, maxPerHour) > 0 ==>
              already + AllowedSends(log, email, times, maxPerHour) <= maxPerHour
    decreases |times|
  {
    if times != [] {
      var now := times[0];
      var history := History(log, email);
      var next := AfterSend(log, email, now, maxPerHour);
      RecentKeepsLaterStamps(history, now - HOUR_MS, lo);
      if SendAllowed(log, email, now, maxPerHour) {
        var recent := Recent(history, now - HOUR_MS);
        assert History(next, email) == recent + [now];
        CountFromSnoc(recent, now, lo);
        WindowBoundFrom(next, email, times[1..], maxPerHour, lo, already + 1);
      } else {
        WindowBoundFrom(next, email, times[1..], maxPerHour, lo, already);
      }
    }
  }

  /** The sliding window: of any run of calls for one address whose instants all
      lie within one hour, at most `maxPerHour` are allowed, whatever the log
      held before. */
  lemma SendsPerHourBounded(log: map<string, seq<int>>, email: string, times: seq<int>,
                            maxPerHour: nat, lo: int)
    requires forall i :: 0 <= i < |times| ==> lo <= times[i] < lo + HOUR_MS
    ensures AllowedSends(log, email, times, maxPerHour) <= maxPerHour
  {
    WindowBoundFrom(log, email, times, maxPerHour, lo, 0);
  }

  class EmailSendLog {
    /** Send times per address, as stored by `canSendEmail`. */
    var log: map<string, seq<int>>

    constructor ()
      ensures log == map[]
    {
      log := map[];
    }

    /** `canSendEmail`: allows a send when fewer than `maxPerHour` sends to the
        address happened within the last hour, and records the send. */
    method CanSendEmail(email: string, now: int, maxPerHour: int) returns (allowed: bool)
      modifies this
      ensures allowed == SendAllowed(old(log), email, now, maxPerHour)
      ensures log == AfterSend(old(log), email, now, maxPerHour)
    {
      var history := if email in log then log[email] else [];
      var recentSends := Recent(history, now - HOUR_MS);
      if |recentSends| >= maxPerHour {
        allowed := false;
      } else {
        log := log[email := recentSends + [now]];
        allowed := true;
      }
    }

    /** `cleanupEmailLogs`: visits every address once, keeping its send times of
        the last hour and deleting it when none remain. */
    method CleanupEmailLogs(now: int)
      modifies this
      ensures log == CleanLog(old(log), now - HOUR_MS)
    {
      var cutoff := now - HOUR_MS;
      ghost var start := log;
      var pending := log.Keys;
      while pending != {}
        invariant pending <= start.Keys
        invariant forall e :: e in log <==> e in pending || (e in start && Recent(start[e], cutoff) != [])
        invariant forall e :: e in log ==> log[e] == if e in pending then start[e] else Recent(start[e], cutoff)
        decreases pending
      {
        var email :| email in pending;
        var validTimestamps := Recent(log[email], cutoff);
        if |validTimestamps| == 0 {
          log := log - {email};
        } else {
          log := log[email := validTimestamps];
        }
        pending := pending - {email};
      }
      assert log.Keys == CleanLog(start, cutoff).Keys;
    }
  }
}
