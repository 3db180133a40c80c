/** `JSON.stringify` of the canonical form, the text whose SHA-256 is the request hash: different values, different texts. */
module JsonText {
  import opened Decimals
  import opened Canonical
  import Payments
  import IdempotencyRecords

  const QUOTE: CodeUnit := 34
  const BACKSLASH: CodeUnit := 92
  const MINUS: CodeUnit := 45
  const COMMA: CodeUnit := 44
  const COLON: CodeUnit := 58
  const OPEN_BRACKET: CodeUnit := 91
  const CLOSE_BRACKET: CodeUnit := 93
  const OPEN_BRACE: CodeUnit := 123
  const CLOSE_BRACE: CodeUnit := 125

  // ----- strings -----

  function Hex(d: nat): CodeUnit
    requires d < 16
  {
    if d < 10 then (48 + d) as CodeUnit else (87 + d) as CodeUnit
  }

  function UnicodeEscape(u: CodeUnit): Text {
    var n := u as int;
    [BACKSLASH, 117, Hex(n / 16 / 16 / 16), Hex(n / 16 / 16 % 16), Hex(n / 16 % 16), Hex(n % 16)]
  }

  predicate IsSurrogate(u: CodeUnit) {
    0xD800 <= u < 0xE000
  }

  /** One code unit of a string; a surrogate without its partner is escaped. */
  function Escape(u: CodeUnit, alone: bool): Text {
    if u == QUOTE || u == BACKSLASH then [BACKSLASH, u]
    else if u == 8 then [BACKSLASH, 98]
    else if u == 9 then [BACKSLASH, 116]
    else if u == 10 then [BACKSLASH, 110]
    else if u == 12 then [BACKSLASH, 102]
    else if u == 13 then [BACKSLASH, 114]
    else if u < 32 || (IsSurrogate(u) && alone) then UnicodeEscape(u)
    else [u]
  }

  /** The string's text from here on, closing quote included; `afterHigh` tells that the previous unit opened a pair. */
  function Escaped(s: Text, afterHigh: bool): Text {
    if s == [] then [QUOTE]
    else
      var pairs := 0xD800 <= s[0] < 0xDC00 && |s| > 1 && 0xDC00 <= s[1] < 0xE000;
      var low := afterHigh && 0xDC00 <= s[0] < 0xE000;
      Escape(s[0], !pairs && !low) + Escaped(s[1..], pairs)
  }

  lemma HexInjective(c: nat, d: nat)
    requires c < 16 && d < 16 && Hex(c) == Hex(d)
    ensures c == d
  {
  }

  lemma UnicodeEscapeInjective(u: CodeUnit, w: CodeUnit)
    requires UnicodeEscape(u) == UnicodeEscape(w)
    ensures u == w
  {
    var m, n := u as int, w as int;
    var x, y := UnicodeEscape(u), UnicodeEscape(w);
    assert x[2] == y[2] && x[3] == y[3] && x[4] == y[4] && x[5] == y[5];
    HexInjective(m / 16 / 16 / 16, n / 16 / 16 / 16);
    HexInjective(m / 16 / 16 % 16, n / 16 / 16 % 16);
    HexInjective(m / 16 % 16, n / 16 % 16);
    HexInjective(m % 16, n % 16);
    DigitsDetermine(m / 16 / 16, n / 16 / 16);
    DigitsDetermine(m / 16, n / 16);
    DigitsDetermine(m, n);
  }

  lemma DigitsDetermine(m: nat, n: nat)
    requires m / 16 == n / 16 && m % 16 == n % 16
    ensures m == n
  {
  }

  /** How an escape begins tells how long it is. */
  function EscapeLength(t: Text): nat {
    if t == [] then 0
    else if t[0] != BACKSLASH then 1
    else if |t| > 1 && t[1] == 117 then 6
    else 2
  }

  lemma EscapeHead(u: CodeUnit, alone: bool, r: Text)
    ensures |Escape(u, alone)| == EscapeLength(Escape(u, alone) + r) <= |Escape(u, alone) + r|
    ensures Escape(u, alone) == (Escape(u, alone) + r)[..|Escape(u, alone)|]
    ensures r == (Escape(u, alone) + r)[|Escape(u, alone)|..]
    ensures (Escape(u, alone) + r)[0] != QUOTE
  {
    assert Escape(u, alone)[0] == (Escape(u, alone) + r)[0];
    assert |Escape(u, alone)| > 1 ==> Escape(u, alone)[1] == (Escape(u, alone) + r)[1];
  }

  lemma EscapeInjective(u: CodeUnit, a: bool, w: CodeUnit, b: bool)
    requires Escape(u, a) == Escape(w, b)
    ensures u == w
  {
    if |Escape(u, a)| == 6 { UnicodeEscapeInjective(u, w); }
    assert |Escape(u, a)| == 2 ==> Escape(u, a)[1] == Escape(w, b)[1];
    assert Escape(u, a)[0] == Escape(w, b)[0];
  }

  lemma EscapeReadOnce(u: CodeUnit, a: bool, r: Text, w: CodeUnit, b: bool, q: Text)
    requires Escape(u, a) + r == Escape(w, b) + q
    ensures u == w && r == q
  {
    EscapeHead(u, a, r);
    EscapeHead(w, b, q);
    EscapeInjective(u, a, w, b);
  }

  lemma {:induction false} EscapedReadOnce(s: Text, a: bool, r: Text, t: Text, b: bool, q: Text)
    requires Escaped(s, a) + r == Escaped(t, b) + q
    ensures s == t && r == q
  {
    if s == [] || t == [] {
      EndReadOnce(s, a, r, t, b, q);
    } else {
      var alone, pairs, rest := UnescapedStep(s, a, r);
      var alone', pairs', rest' := UnescapedStep(t, b, q);
      EscapeReadOnce(s[0], alone, rest, t[0], alone', rest');
      EscapedReadOnce(s[1..], pairs, r, t[1..], pairs', q);
      assert s == [s[0]] + s[1..] && t == [t[0]] + t[1..];
    }
  }

  /** The first code unit's escape, and what follows it. */
  lemma UnescapedStep(s: Text, a: bool, r: Text) returns (alone: bool, pairs: bool, rest: Text)
    requires s != []
    ensures rest == Escaped(s[1..], pairs) + r
    ensures Escaped(s, a) + r == Escape(s[0], alone) + rest
  {
    pairs := 0xD800 <= s[0] < 0xDC00 && |s| > 1 && 0xDC00 <= s[1] < 0xE000;
    alone := !pairs && !(a && 0xDC00 <= s[0] < 0xE000);
    rest := Escaped(s[1..], pairs) + r;
    assert (Escape(s[0], alone) + Escaped(s[1..], pairs)) + r == Escape(s[0], alone) + rest;
  }

  lemma EscapedHead(s: Text, a: bool, r: Text)
    ensures Escaped(s, a) + r != [] && ((Escaped(s, a) + r)[0] == QUOTE <==> s == [])
  {
    if s != [] {
      var alone, pairs, rest := UnescapedStep(s, a, r);
      EscapeHead(s[0], alone, rest);
    }
  }

  lemma EndReadOnce(s: Text, a: bool, r: Text, t: Text, b: bool, q: Text)
    requires Escaped(s, a) + r == Escaped(t, b) + q && (s == [] || t == [])
    ensures s == t && r == q
  {
    EscapedHead(s, a, r);
    EscapedHead(t, b, q);
    assert r == ([QUOTE] + r)[1..] && q == ([QUOTE] + q)[1..];
  }

  // ----- values -----

  function Integer(n: int): Text {
    if n < 0 then [MINUS] + Decimal(-n) else Decimal(n)
  }

  function Stringify(v: Json): Text
    decreases v, 0
  {
    match v
    case JNull => [110, 117, 108, 108]
    case JBool(b) => if b then [116, 114, 117, 101] else [102, 97, 108, 115, 101]
    case JNumber(n) => Integer(n)
    case JString(s) => Quoted(s)
    case JArray(items) => [OPEN_BRACKET] + Items(items, true)
    case JObject(es) => [OPEN_BRACE] + Members(es, true)
  }

  function Quoted(s: Text): Text {
    [QUOTE] + Escaped(s, false)
  }

  function Separator(first: bool): Text {
    if first then [] else [COMMA]
  }

  function Items(items: seq<Json>, first: bool): Text
    decreases items, 0
  {
    if items == [] then [CLOSE_BRACKET] else Separator(first) + Stringify(items[0]) + Items(items[1..], false)
  }

  function Member(e: (Text, Json)): Text
    decreases e, 0
  {
    Quoted(e.0) + [COLON] + Stringify(e.1)
  }

  function Members(es: Entries, first: bool): Text
    decreases es, 0
  {
    if es == [] then [CLOSE_BRACE] else Separator(first) + Member(es[0]) + Members(es[1..], false)
  }

  // ----- reading values back -----

  lemma Drop(a: Text, b: Text)
    ensures (a + b)[..|a|] == a && (a + b)[|a|..] == b
  {
  }

  /** A common prefix can be taken off. */
  lemma Cancel(a: Text, r: Text, q: Text)
    requires a + r == a + q
    ensures r == q
  {
    Drop(a, r);
    Drop(a, q);
  }

  lemma QuotedReadOnce(s: Text, r: Text, t: Text, q: Text)
    requires Quoted(s) + r == Quoted(t) + q
    ensures s == t && r == q
  {
    assert Quoted(s) + r == [QUOTE] + (Escaped(s, false) + r);
    assert Quoted(t) + q == [QUOTE] + (Escaped(t, false) + q);
    Cancel([QUOTE], Escaped(s, false) + r, Escaped(t, false) + q);
    EscapedReadOnce(s, false, r, t, false, q);
  }

  lemma IntegerHead(n: int, r: Text)
    ensures Integer(n) + r != []
    ensures (Integer(n) + r)[0] == MINUS <==> n < 0
    ensures n < 0 ==> Integer(n) + r == [MINUS] + (Decimal(-n) + r)
  {
    assert (Integer(n) + r)[0] == Integer(n)[0];
    if n >= 0 { assert IsDigit(Decimal(n)[0]); }
  }

  lemma IntegerReadOnce(m: int, r: Text, n: int, q: Text)
    requires Integer(m) + r == Integer(n) + q && Stops(r) && Stops(q)
    ensures m == n && r == q
  {
    IntegerHead(m, r);
    IntegerHead(n, q);
    if m < 0 {
      Cancel([MINUS], Decimal(-m) + r, Decimal(-n) + q);
      DecimalReadOnce(-m, r, -n, q);
    } else {
      DecimalReadOnce(m, r, n, q);
    }
  }

  /** The first character of a value's text tells its kind. */
  function Kind(u: CodeUnit): nat {
    if u == 110 then 0 else if u == 116 then 1 else if u == 102 then 2
    else if u == MINUS || IsDigit(u) then 3 else if u == QUOTE then 4
    else if u == OPEN_BRACKET then 5 else if u == OPEN_BRACE then 6 else 7
  }

  function KindOf(v: Json): nat {
    match v
    case JNull => 0
    case JBool(b) => if b then 1 else 2
    case JNumber(_) => 3
    case JString(_) => 4
    case JArray(_) => 5
    case JObject(_) => 6
  }

  lemma HeadTellsKind(v: Json, r: Text)
    ensures Stringify(v) != [] && Kind((Stringify(v) + r)[0]) == KindOf(v)
  {
    assert (Stringify(v) + r)[0] == Stringify(v)[0];
    if v.JNumber? && v.n >= 0 { assert IsDigit(Decimal(v.n)[0]); }
  }

  lemma ItemsStop(items: seq<Json>, r: Text)
    ensures Stops(Items(items, false) + r)
  {
    if items != [] {
      assert (Items(items, false) + r)[0] == Items(items, false)[0];
      assert Items(items, false)[0] == ([COMMA] + Stringify(items[0]))[0];
    }
  }

  lemma MembersStop(es: Entries, r: Text)
    ensures Stops(Members(es, false) + r)
  {
    if es != [] {
      assert (Members(es, false) + r)[0] == Members(es, false)[0];
      assert Members(es, false)[0] == ([COMMA] + Member(es[0]))[0];
    }
  }

  lemma Associative(a: Text, b: Text, c: Text)
    ensures (a + b) + c == a + (b + c)
  {
  }

  lemma MemberThen(e: (Text, Json), rest: Text)
    ensures Member(e) + rest == Quoted(e.0) + ([COLON] + (Stringify(e.1) + rest))
  {
    Associative(Quoted(e.0) + [COLON], Stringify(e.1), rest);
    Associative(Quoted(e.0), [COLON], Stringify(e.1) + rest);
  }

  lemma MembersThen(es: Entries, first: bool, r: Text)
    requires es != []
    ensures Members(es, first) + r == Separator(first) + (Member(es[0]) + (Members(es[1..], false) + r))
  {
    Associative(Separator(first) + Member(es[0]), Members(es[1..], false), r);
    Associative(Separator(first), Member(es[0]), Members(es[1..], false) + r);
  }

  /** Whether a list goes on shows in its next character. */
  lemma ItemsHead(items: seq<Json>, first: bool, r: Text)
    ensures Items(items, first) + r != []
    ensures (Items(items, first) + r)[0] == CLOSE_BRACKET <==> items == []
    ensures items != [] ==>
      Items(items, first) + r == Separator(first) + (Stringify(items[0]) + (Items(items[1..], false) + r))
  {
    if items != [] {
      var rest := Items(items[1..], false) + r;
      Associative(Separator(first) + Stringify(items[0]), Items(items[1..], false), r);
      Associative(Separator(first), Stringify(items[0]), rest);
      HeadTellsKind(items[0], rest);
    }
  }

  lemma MembersHead(es: Entries, first: bool, r: Text)
    ensures Members(es, first) + r != []
    ensures (Members(es, first) + r)[0] == CLOSE_BRACE <==> es == []
    ensures es != [] ==>
      Members(es, first) + r
        == Separator(first) + (Quoted(es[0].0) + ([COLON] + (Stringify(es[0].1) + (Members(es[1..], false) + r))))
  {
    if es != [] {
      var rest := Members(es[1..], false) + r;
      MembersThen(es, first, r);
      MemberThen(es[0], rest);
      assert (Quoted(es[0].0) + ([COLON] + (Stringify(es[0].1) + rest)))[0] == QUOTE;
    }
  }

  lemma CollectionText(v: Json, r: Text)
    ensures v.JArray? ==> Stringify(v) + r == [OPEN_BRACKET] + (Items(v.items, true) + r)
    ensures v.JObject? ==> Stringify(v) + r == [OPEN_BRACE] + (Members(v.entries, true) + r)
  {
  }

  lemma SimpleReadOnce(v: Json, r: Text, w: Json, q: Text)
    requires Stringify(v) + r == Stringify(w) + q && Stops(r) && Stops(q)
    requires !v.JArray? && !v.JObject? && KindOf(v) == KindOf(w)
    ensures v == w && r == q
  {
    match v
    case JNumber(n) => IntegerReadOnce(n, r, w.n, q);
    case JString(s) => QuotedReadOnce(s, r, w.s, q);
    case _ => Cancel(Stringify(v), r, q);
  }

  /** The text of a value can be read back in only one way, whatever follows it. */
  lemma {:induction false} ReadOnce(v: Json, r: Text, w: Json, q: Text)
    requires Stringify(v) + r == Stringify(w) + q && Stops(r) && Stops(q)
    ensures v == w && r == q
    decreases v, 1
  {
    HeadTellsKind(v, r);
    HeadTellsKind(w, q);
    CollectionText(v, r);
    CollectionText(w, q);
    if v.JArray? {
      Cancel([OPEN_BRACKET], Items(v.items, true) + r, Items(w.items, true) + q);
      ItemsReadOnce(v.items, true, r, w.items, q);
    } else if v.JObject? {
      Cancel([OPEN_BRACE], Members(v.entries, true) + r, Members(w.entries, true) + q);
      MembersReadOnce(v.entries, true, r, w.entries, q);
    } else {
      SimpleReadOnce(v, r, w, q);
    }
  }

  lemma {:induction false} ItemsReadOnce(xs: seq<Json>, first: bool, r: Text, ys: seq<Json>, q: Text)
    requires Items(xs, first) + r == Items(ys, first) + q && Stops(r) && Stops(q)
    ensures xs == ys && r == q
    decreases xs, 0
  {
    ItemsHead(xs, first, r);
    ItemsHead(ys, first, q);
    if xs == [] {
      Cancel([CLOSE_BRACKET], r, q);
    } else {
      var more, more' := Items(xs[1..], false) + r, Items(ys[1..], false) + q;
      Cancel(Separator(first), Stringify(xs[0]) + more, Stringify(ys[0]) + more');
      ItemsStop(xs[1..], r);
      ItemsStop(ys[1..], q);
      ReadOnce(xs[0], more, ys[0], more');
      ItemsReadOnce(xs[1..], false, r, ys[1..], q);
      assert xs == [xs[0]] + xs[1..] && ys == [ys[0]] + ys[1..];
    }
  }

  lemma {:induction false} MembersReadOnce(es: Entries, first: bool, r: Text, fs: Entries, q: Text)
    requires Members(es, first) + r == Members(fs, first) + q && Stops(r) && Stops(q)
    ensures es == fs && r == q
    decreases es, 0
  {
    MembersHead(es, first, r);
    MembersHead(fs, first, q);
    if es == [] {
      Cancel([CLOSE_BRACE], r, q);
    } else {
      var more, more' := Members(es[1..], false) + r, Members(fs[1..], false) + q;
      MembersStop(es[1..], r);
      MembersStop(fs[1..], q);
      MemberReadOnce(es[0], first, more, fs[0], more');
      MembersReadOnce(es[1..], false, r, fs[1..], q);
      assert es == [es[0]] + es[1..] && fs == [fs[0]] + fs[1..];
    }
  }

  lemma {:induction false} MemberReadOnce(e: (Text, Json), first: bool, r: Text, f: (Text, Json), q: Text)
    requires Separator(first) + (Quoted(e.0) + ([COLON] + (Stringify(e.1) + r)))
          == Separator(first) + (Quoted(f.0) + ([COLON] + (Stringify(f.1) + q)))
    requires Stops(r) && Stops(q)
    ensures e == f && r == q
    decreases e, 0
  {
    var a, b := [COLON] + (Stringify(e.1) + r), [COLON] + (Stringify(f.1) + q);
    Cancel(Separator(first), Quoted(e.0) + a, Quoted(f.0) + b);
    QuotedReadOnce(e.0, a, f.0, b);
    Cancel([COLON], Stringify(e.1) + r, Stringify(f.1) + q);
    ReadOnce(e.1, r, f.1, q);
  }

  // ----- the request hash -----

  /** What `buildRequestHash` digests. */
  function HashInput(body: Json): Text {
    Stringify(Canonicalize(body))
  }

  /** Under an injective digest, request hashes agree exactly on requests equal up to key order. */
  lemma HashesAgreeIff(a: Json, b: Json)
    requires WellFormed(a) && WellFormed(b)
    ensures HashInput(a) == HashInput(b) <==> Same(a, b)
  {
    CanonicalIff(a, b);
    if HashInput(a) == HashInput(b) {
      var x, y := Canonicalize(a), Canonicalize(b);
      assert Stringify(x) + [] == Stringify(x) && Stringify(y) + [] == Stringify(y);
      ReadOnce(x, [], y, []);
    }
  }

  // ----- the service's own requests -----

  function Ascii(s: string): Text
    requires forall i :: 0 <= i < |s| ==> s[i] < 128 as char
  {
    seq(|s|, i requires 0 <= i < |s| => s[i] as CodeUnit)
  }

  function CurrencyCode(currency: Payments.Currency): Text {
    match currency
    case TRY => Ascii("TRY")
    case USD => Ascii("USD")
    case EUR => Ascii("EUR")
  }

  /** The hashed body of a request; identifiers are texts that tell them apart. */
  function BodyOf(request: IdempotencyRecords.Request): Json {
    match request
    case CreateRequest(merchantId, amountMinor, currency) =>
      JObject([(Ascii("merchantId"), JString(Decimal(merchantId))),
               (Ascii("amountMinor"), JNumber(amountMinor)),
               (Ascii("currency"), JString(CurrencyCode(currency)))])
    case CaptureRequest(paymentId) => JObject([(Ascii("paymentId"), JString(Decimal(paymentId)))])
  }

  /** The key at index `i` is found again, with the same value, in the other object. */
  lemma SameValueAt(a: Json, b: Json, i: nat)
    requires Same(a, b) && a.JObject? && b.JObject? && i < |a.entries| && a.entries[i].0 != PROTO
    requires i < |b.entries| && forall j :: 0 <= j < |b.entries| && b.entries[j].0 == a.entries[i].0 ==> j == i
    ensures Same(a.entries[i].1, b.entries[i].1)
  {
    assert FoundIn(a.entries[i], b.entries);
  }

  lemma KeysApart()
    ensures |Ascii("merchantId")| == 10 && |Ascii("amountMinor")| == 11 && |Ascii("currency")| == 8
    ensures |Ascii("paymentId")| == 9 && Ascii("paymentId")[0] == 112 && PROTO[0] == 95 && |PROTO| == 9
    ensures CurrencyCode(Payments.TRY)[0] == 84 && CurrencyCode(Payments.USD)[0] == 85
    ensures CurrencyCode(Payments.EUR)[0] == 69
  {
  }

  /** The record's request comparison: equal hashes mean the same request, field by field. */
  lemma RequestHashesAgreeIff(a: IdempotencyRecords.Request, b: IdempotencyRecords.Request)
    ensures HashInput(BodyOf(a)) == HashInput(BodyOf(b)) <==> a == b
  {
    KeysApart();
    HashesAgreeIff(BodyOf(a), BodyOf(b));
    if Same(BodyOf(a), BodyOf(b)) { SameRequests(a, b); }
  }

  lemma FirstKeyFound(a: Json, b: Json)
    requires Same(a, b) && a.JObject? && b.JObject? && a.entries != [] && a.entries[0].0 != PROTO
    ensures exists j :: 0 <= j < |b.entries| && b.entries[j].0 == a.entries[0].0
  {
    assert FoundIn(a.entries[0], b.entries);
  }

  lemma SameKind(a: IdempotencyRecords.Request, b: IdempotencyRecords.Request)
    requires Same(BodyOf(a), BodyOf(b))
    ensures a.CreateRequest? <==> b.CreateRequest?
  {
    KeysApart();
    FirstKeyFound(BodyOf(a), BodyOf(b));
  }

  lemma SameStrings(a: Json, b: Json, m: nat, n: nat)
    requires Same(a, b) && a == JString(Decimal(m)) && b == JString(Decimal(n))
    ensures m == n
  {
    DecimalRoundTrip(m);
    DecimalRoundTrip(n);
  }

  lemma SameCreates(a: IdempotencyRecords.Request, b: IdempotencyRecords.Request)
    requires Same(BodyOf(a), BodyOf(b)) && a.CreateRequest? && b.CreateRequest?
    ensures Same(JString(Decimal(a.merchantId)), JString(Decimal(b.merchantId)))
    ensures Same(JNumber(a.amountMinor), JNumber(b.amountMinor))
    ensures Same(JString(CurrencyCode(a.currency)), JString(CurrencyCode(b.currency)))
  {
    KeysApart();
    SameValueAt(BodyOf(a), BodyOf(b), 0);
    SameValueAt(BodyOf(a), BodyOf(b), 1);
    SameValueAt(BodyOf(a), BodyOf(b), 2);
  }

  lemma SameCaptures(a: IdempotencyRecords.Request, b: IdempotencyRecords.Request)
    requires Same(BodyOf(a), BodyOf(b)) && a.CaptureRequest? && b.CaptureRequest?
    ensures Same(JString(Decimal(a.paymentId)), JString(Decimal(b.paymentId)))
  {
    KeysApart();
    SameValueAt(BodyOf(a), BodyOf(b), 0);
  }

  lemma CurrencyCodeInjective(c: Payments.Currency, d: Payments.Currency)
    requires Same(JString(CurrencyCode(c)), JString(CurrencyCode(d)))
    ensures c == d
  {
    KeysApart();
  }

  lemma SameRequests(a: IdempotencyRecords.Request, b: IdempotencyRecords.Request)
    requires Same(BodyOf(a), BodyOf(b))
    ensures a == b
  {
    SameKind(a, b);
    if a.CaptureRequest? {
      SameCaptures(a, b);
      SameStrings(JString(Decimal(a.paymentId)), JString(Decimal(b.paymentId)), a.paymentId, b.paymentId);
    } else {
      SameCreates(a, b);
      SameStrings(JString(Decimal(a.merchantId)), JString(Decimal(b.merchantId)), a.merchantId, b.merchantId);
      CurrencyCodeInjective(a.currency, b.currency);
    }
  }

  // ----- the digested text, spelled out -----

  predicate Plain(s: Text) {
    forall i :: 0 <= i < |s| ==> 32 <= s[i] < 127 && s[i] != QUOTE && s[i] != BACKSLASH
  }

  lemma {:induction false} PlainEscaped(s: Text, afterHigh: bool)
    requires Plain(s)
    ensures Escaped(s, afterHigh) == s + [QUOTE]
  {
    if s != [] {
      PlainEscaped(s[1..], false);
      assert Escape(s[0], true) == [s[0]];
      assert Escaped(s, afterHigh) == [s[0]] + (s[1..] + [QUOTE]);
      assert s == [s[0]] + s[1..];
    }
  }

  lemma PlainQuoted(s: Text)
    requires Plain(s)
    ensures Quoted(s) == [QUOTE] + s + [QUOTE]
  {
    PlainEscaped(s, false);
  }

  /** Three entries whose keys sort in the order second, third, first, and are no indices. */
  lemma RebuiltThree(x: (Text, Json), y: (Text, Json), z: (Text, Json))
    requires Less(y.0, z.0) && Less(z.0, x.0) && Less(y.0, x.0) && !Less(x.0, y.0) && !Less(x.0, z.0) && !Less(z.0, y.0)
    requires x.0 != PROTO && y.0 != PROTO && z.0 != PROTO
    requires !IsIndex(x.0) && !IsIndex(y.0) && !IsIndex(z.0)
    ensures Rebuilt([x, y, z]) == [y, z, x]
  {
    assert [x, y, z][1..] == [y, z] && [y, z][1..] == [z] && [z][1..] == [];
    assert SortEntries([z]) == [z];
    assert SortEntries([y, z]) == [y, z];
    assert SortEntries([x, y, z]) == InsertSorted(x, [y, z]) == [y] + InsertSorted(x, [z]);
    assert InsertSorted(x, [z]) == [z] + InsertSorted(x, []) == [z, x];
    assert SortEntries([x, y, z]) == [y, z, x];
    assert Assign([], y) == [y];
    assert Assign([y], z) == [y] + Assign([], z) == [y, z];
    assert Assign([y, z], x) == [y] + Assign([z], x) == [y] + ([z] + Assign([], x)) == [y, z, x];
    assert [y, z, x][1..] == [z, x] && [z, x][1..] == [x] && [x][1..] == [];
    assert AssignAll([], [y, z, x]) == AssignAll([y], [z, x]) == AssignAll([y, z], [x]) == AssignAll([y, z, x], []);
  }

  lemma OrderedByHead(a: Text, b: Text)
    requires a != [] && b != [] && a[0] < b[0]
    ensures Less(a, b) && !Less(b, a)
  {
  }

  lemma LetterKey(key: Text)
    requires key != [] && !IsDigit(key[0])
    ensures !IsIndex(key)
  {
  }

  lemma KeyHeads()
    ensures var m, a, c := Ascii("merchantId"), Ascii("amountMinor"), Ascii("currency");
      && |m| == 10 && |a| == 11 && |c| == 8 && m[0] == 109 && a[0] == 97 && c[0] == 99
  {
  }

  lemma KeysPlain()
    ensures Plain(Ascii("merchantId")) && Plain(Ascii("amountMinor")) && Plain(Ascii("currency"))
    ensures Plain(CurrencyCode(Payments.TRY)) && Plain(CurrencyCode(Payments.USD)) && Plain(CurrencyCode(Payments.EUR))
  {
  }

  function Field(key: Text, value: Text): Text {
    [QUOTE] + key + [QUOTE, COLON] + value
  }

  lemma MemberText(key: Text, v: Json)
    requires Plain(key)
    ensures Member((key, v)) == Field(key, Stringify(v))
  {
    PlainQuoted(key);
    assert Quoted(key) + [COLON] == [QUOTE] + key + [QUOTE, COLON];
  }

  lemma MembersStep(e: (Text, Json), rest: Entries, first: bool)
    ensures Members([e] + rest, first) == Separator(first) + Member(e) + Members(rest, false)
  {
    assert ([e] + rest)[1..] == rest;
  }

  lemma ThreeMembers(x: (Text, Json), y: (Text, Json), z: (Text, Json))
    ensures Stringify(JObject([x, y, z]))
      == [OPEN_BRACE] + (Member(x) + ([COMMA] + Member(y) + ([COMMA] + Member(z) + [CLOSE_BRACE])))
  {
    MembersStep(z, [], false);
    MembersStep(y, [z], false);
    MembersStep(x, [y, z], true);
    assert [z] + [] == [z] && [y] + [z] == [y, z] && [x] + [y, z] == [x, y, z];
    assert Separator(true) + Member(x) == Member(x);
  }

  lemma StringMember(key: Text, s: Text)
    requires Plain(key) && Plain(s)
    ensures Member((key, JString(s))) == Field(key, [QUOTE] + s + [QUOTE])
  {
    MemberText(key, JString(s));
    PlainQuoted(s);
  }

  lemma RecordText(a: Text, n: int, b: Text, s: Text, c: Text, t: Text)
    requires Plain(a) && Plain(b) && Plain(c) && Plain(s) && Plain(t)
    ensures Stringify(JObject([(a, JNumber(n)), (b, JString(s)), (c, JString(t))]))
      == [OPEN_BRACE] + (Field(a, Integer(n)) + ([COMMA] + Field(b, [QUOTE] + s + [QUOTE])
         + ([COMMA] + Field(c, [QUOTE] + t + [QUOTE]) + [CLOSE_BRACE])))
  {
    ThreeMembers((a, JNumber(n)), (b, JString(s)), (c, JString(t)));
    MemberText(a, JNumber(n));
    StringMember(b, s);
    StringMember(c, t);
  }

  lemma CreateRequestSorted(x: (Text, Json), y: (Text, Json), z: (Text, Json))
    requires x.0 == Ascii("merchantId") && y.0 == Ascii("amountMinor") && z.0 == Ascii("currency")
    ensures Rebuilt([x, y, z]) == [y, z, x]
  {
    KeyHeads();
    OrderedByHead(y.0, z.0);
    OrderedByHead(z.0, x.0);
    OrderedByHead(y.0, x.0);
    LetterKey(x.0);
    LetterKey(y.0);
    LetterKey(z.0);
    RebuiltThree(x, y, z);
  }

  lemma CreateRequestCanonical(merchantId: Payments.Id, amountMinor: int, currency: Payments.Currency)
    ensures Canonicalize(BodyOf(IdempotencyRecords.CreateRequest(merchantId, amountMinor, currency)))
      == JObject([(Ascii("amountMinor"), JNumber(amountMinor)),
                  (Ascii("currency"), JString(CurrencyCode(currency))),
                  (Ascii("merchantId"), JString(Decimal(merchantId)))])
  {
    var x := (Ascii("merchantId"), JString(Decimal(merchantId)));
    var y := (Ascii("amountMinor"), JNumber(amountMinor));
    var z := (Ascii("currency"), JString(CurrencyCode(currency)));
    assert Mapped([x, y, z]) == [x, y, z];
    CreateRequestSorted(x, y, z);
  }

  /** What is digested for a create request, whatever order the service lists its fields in: keys sorted, no spaces. */
  lemma CreateRequestText(merchantId: Payments.Id, amountMinor: int, currency: Payments.Currency)
    ensures HashInput(BodyOf(IdempotencyRecords.CreateRequest(merchantId, amountMinor, currency)))
      == [OPEN_BRACE] + (Field(Ascii("amountMinor"), Integer(amountMinor))
         + ([COMMA] + Field(Ascii("currency"), [QUOTE] + CurrencyCode(currency) + [QUOTE])
         + ([COMMA] + Field(Ascii("merchantId"), [QUOTE] + Decimal(merchantId) + [QUOTE]) + [CLOSE_BRACE])))
  {
    CreateRequestCanonical(merchantId, amountMinor, currency);
    KeysPlain();
    RecordText(Ascii("amountMinor"), amountMinor, Ascii("currency"), CurrencyCode(currency),
               Ascii("merchantId"), Decimal(merchantId));
  }
}
