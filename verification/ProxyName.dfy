/** The unambiguous printing of a proxy's name (admin/src/dashboard.ts, `proxyName`), on UTF-16 code units. */
module ProxyName {
  import opened Wrappers

  type Unit = u: nat | u < 0x10000
  type Text = seq<Unit>

  const QUOTE: Unit := 0x22
  const BACKSLASH: Unit := 0x5C
  const SPACE: Unit := 0x20

  predicate Ascii(s: string) {
    forall i :: 0 <= i < |s| ==> s[i] < '\U{80}'
  }

  function Units(s: string): (t: Text)
    requires Ascii(s)
    ensures |t| == |s|
  {
    seq(|s|, i requires 0 <= i < |s| => s[i] as Unit)
  }

  predicate Printable(u: Unit) {
    0x20 <= u <= 0x7E
  }

  predicate AllPrintable(t: Text) {
    forall i :: 0 <= i < |t| ==> Printable(t[i])
  }

  // ---- the blank names ----

  predicate Spaces(t: Text) {
    forall i :: 0 <= i < |t| ==> t[i] == SPACE
  }

  function Digits(n: nat): (d: Text)
    ensures d != [] && forall i :: 0 <= i < |d| ==> 0x30 <= d[i] <= 0x39
  {
    if n < 10 then [0x30 + n] else Digits(n / 10) + [0x30 + n % 10]
  }

  /** What a name that is empty or all spaces is printed as: a sentence that counts them. */
  function Sentence(value: Text): Text {
    Lead() + Counted(value)
  }

  function Lead(): Text {
    Units("a proxy whose name is ")
  }

  function Counted(value: Text): Text {
    if value == [] then Units("empty")
    else Digits(|value|) + ([SPACE] + Units(if |value| == 1 then "space" else "spaces"))
  }

  // ---- JSON.stringify, and the replacement of what is not printable ----

  predicate High(u: Unit) { 0xD800 <= u <= 0xDBFF }
  predicate Low(u: Unit) { 0xDC00 <= u <= 0xDFFF }

  function HexDigit(n: nat): (u: Unit)
    requires n < 16
    ensures Printable(u)
  {
    if n < 10 then 0x30 + n else 0x61 + (n - 10)
  }

  function UnicodeEscape(u: Unit): (t: Text)
    ensures AllPrintable(t)
  {
    [BACKSLASH, 0x75, HexDigit(u / 4096), HexDigit(u / 256 % 16), HexDigit(u / 16 % 16), HexDigit(u % 16)]
  }

  /** The letter of a two-character escape (`QuoteJSONString`, section 25.5.2.3 of ECMA-262). */
  function ShortEscape(u: Unit): Option<Unit> {
    if u == 0x08 then Some(0x62) else if u == 0x09 then Some(0x74) else if u == 0x0A then Some(0x6E)
    else if u == 0x0C then Some(0x66) else if u == 0x0D then Some(0x72)
    else if u == QUOTE || u == BACKSLASH then Some(u) else None
  }

  function QuoteUnit(u: Unit): Text {
    if ShortEscape(u).Some? then [BACKSLASH, ShortEscape(u).value]
    else if u < 0x20 || High(u) || Low(u) then UnicodeEscape(u)
    else [u]
  }

  /** A surrogate pair is one code point and is kept; a lone surrogate is escaped. */
  function QuoteBody(value: Text): Text {
    if value == [] then []
    else if High(value[0]) && |value| > 1 && Low(value[1]) then [value[0], value[1]] + QuoteBody(value[2..])
    else QuoteUnit(value[0]) + QuoteBody(value[1..])
  }

  function Stringify(value: Text): Text {
    [QUOTE] + QuoteBody(value) + [QUOTE]
  }

  function Replaced(t: Text): Text {
    if t == [] then [] else ReplacedUnit(t[0]) + Replaced(t[1..])
  }

  function ReplacedUnit(u: Unit): Text {
    if Printable(u) then [u] else UnicodeEscape(u)
  }

  // ---- proxyName ----

  predicate Verbatim(value: Text) {
    && value != [] && QUOTE !in value && AllPrintable(value)
    && value[0] != SPACE && value[|value| - 1] != SPACE
  }

  function ProxyName(value: Text): Text {
    if Spaces(value) then Sentence(value)
    else if Verbatim(value) then value
    else Replaced(Stringify(value))
  }

  // ---- the whole escape, a unit at a time ----

  function EscapeUnit(u: Unit): (t: Text)
    ensures AllPrintable(t)
  {
    if ShortEscape(u).Some? then [BACKSLASH, ShortEscape(u).value]
    else if Printable(u) then [u]
    else UnicodeEscape(u)
  }

  function EscapeBody(value: Text): (t: Text)
    ensures AllPrintable(t)
  {
    if value == [] then [] else EscapeUnit(value[0]) + EscapeBody(value[1..])
  }

  lemma Assoc(x: Text, y: Text, z: Text)
    ensures x + (y + z) == x + y + z
  {
  }

  lemma {:induction false} ReplacedAppend(x: Text, y: Text)
    ensures Replaced(x + y) == Replaced(x) + Replaced(y)
  {
    if x == [] {
      assert x + y == y;
    } else {
      assert (x + y)[0] == x[0] && (x + y)[1..] == x[1..] + y;
      assert Replaced(x + y) == ReplacedUnit(x[0]) + Replaced(x[1..] + y) && Replaced(x) == ReplacedUnit(x[0]) + Replaced(x[1..]);
      hide *;
      ReplacedAppend(x[1..], y);
      Assoc(ReplacedUnit(x[0]), Replaced(x[1..]), Replaced(y));
    }
  }

  lemma {:induction false} PrintableIsKept(t: Text)
    requires AllPrintable(t)
    ensures Replaced(t) == t
  {
    if t != [] {
      PrintableIsKept(t[1..]);
    }
  }

  lemma {:induction false} ReplacedQuoteBody(value: Text)
    ensures Replaced(QuoteBody(value)) == EscapeBody(value)
    decreases |value|
  {
    if value != [] {
      if High(value[0]) && |value| > 1 && Low(value[1]) {
        ReplacedQuoteBody(value[2..]);
        ReplacedAppend([value[0], value[1]], QuoteBody(value[2..]));
        ReplacedPair(value[0], value[1]);
        assert value[1..][1..] == value[2..];
        assert EscapeBody(value) == EscapeUnit(value[0]) + (EscapeUnit(value[1]) + EscapeBody(value[2..]));
      } else {
        ReplacedQuoteBody(value[1..]);
        ReplacedAppend(QuoteUnit(value[0]), QuoteBody(value[1..]));
        ReplacedQuoteUnit(value[0]);
      }
    }
  }

  lemma ReplacedPair(high: Unit, low: Unit)
    requires High(high) && Low(low)
    ensures Replaced([high, low]) == EscapeUnit(high) + EscapeUnit(low)
  {
    assert [high, low][1..] == [low] && [low][1..] == [];
    assert Replaced([low]) == UnicodeEscape(low) + [];
  }

  lemma ReplacedQuoteUnit(u: Unit)
    ensures Replaced(QuoteUnit(u)) == EscapeUnit(u)
  {
    var q := QuoteUnit(u);
    if AllPrintable(q) {
      PrintableIsKept(q);
    } else {
      assert q == [u] && q[1..] == [];
      assert Replaced(q) == UnicodeEscape(u) + [];
    }
  }

  lemma PrintsEscaped(value: Text)
    ensures Replaced(Stringify(value)) == [QUOTE] + EscapeBody(value) + [QUOTE]
  {
    ReplacedAppend([QUOTE] + QuoteBody(value), [QUOTE]);
    ReplacedAppend([QUOTE], QuoteBody(value));
    ReplacedQuoteBody(value);
    PrintableIsKept([QUOTE]);
  }

  // ---- decoding a JSON string (section 7 of RFC 8259) ----

  function HexValue(u: Unit): Option<nat> {
    if 0x30 <= u <= 0x39 then Some(u - 0x30)
    else if 0x61 <= u <= 0x66 then Some(u - 0x61 + 10)
    else if 0x41 <= u <= 0x46 then Some(u - 0x41 + 10)
    else None
  }

  function FromHex(a: Unit, b: Unit, c: Unit, d: Unit): Option<Unit> {
    if HexValue(a).Some? && HexValue(b).Some? && HexValue(c).Some? && HexValue(d).Some? then
      var n := HexValue(a).value * 4096 + HexValue(b).value * 256 + HexValue(c).value * 16 + HexValue(d).value;
      if n < 0x10000 then Some(n) else None
    else None
  }

  function Unescaped(u: Unit): Option<Unit> {
    if u == QUOTE || u == BACKSLASH || u == 0x2F then Some(u)
    else if u == 0x62 then Some(0x08) else if u == 0x66 then Some(0x0C) else if u == 0x6E then Some(0x0A)
    else if u == 0x72 then Some(0x0D) else if u == 0x74 then Some(0x09) else None
  }

  function Push(u: Unit, rest: Option<Text>): Option<Text> {
    if rest.Some? then Some([u] + rest.value) else None
  }

  /** The characters up to the closing quote, which must be the last. */
  function DecodeBody(t: Text): Option<Text> {
    if t == [] then None
    else if t[0] == QUOTE then (if |t| == 1 then Some([]) else None)
    else if t[0] < 0x20 then None
    else if t[0] != BACKSLASH then Push(t[0], DecodeBody(t[1..]))
    else if |t| < 2 then None
    else if t[1] == 0x75 then
      if |t| < 6 || FromHex(t[2], t[3], t[4], t[5]).None? then None
      else Push(FromHex(t[2], t[3], t[4], t[5]).value, DecodeBody(t[6..]))
    else if Unescaped(t[1]).None? then None
    else Push(Unescaped(t[1]).value, DecodeBody(t[2..]))
  }

  function Decode(t: Text): Option<Text> {
    if t == [] || t[0] != QUOTE then None else DecodeBody(t[1..])
  }

  lemma HexDigitValue(n: nat)
    requires n < 16
    ensures HexValue(HexDigit(n)) == Some(n)
  {
  }

  lemma HexParts(u: Unit)
    ensures u / 4096 * 4096 + u / 256 % 16 * 256 + u / 16 % 16 * 16 + u % 16 == u
  {
    assert u / 256 / 16 == u / 4096 && u / 16 / 16 == u / 256;
    assert u == u / 16 * 16 + u % 16;
    assert u / 16 == u / 256 * 16 + u / 16 % 16;
    assert u / 256 == u / 4096 * 16 + u / 256 % 16;
  }

  lemma HexOf(u: Unit)
    ensures FromHex(HexDigit(u / 4096), HexDigit(u / 256 % 16), HexDigit(u / 16 % 16), HexDigit(u % 16)) == Some(u)
  {
    HexParts(u);
    HexDigitValue(u / 4096);
    HexDigitValue(u / 256 % 16);
    HexDigitValue(u / 16 % 16);
    HexDigitValue(u % 16);
  }

  lemma DecodesHex(u: Unit, rest: Text)
    ensures DecodeBody(UnicodeEscape(u) + rest) == Push(u, DecodeBody(rest))
  {
    HexOf(u);
    hide FromHex, HexDigit;
    var e := UnicodeEscape(u);
    var t := e + rest;
    assert t[0] == BACKSLASH && t[1] == 0x75 && t[2] == e[2] && t[3] == e[3] && t[4] == e[4] && t[5] == e[5] && t[6..] == rest;
  }

  lemma DecodesUnit(u: Unit, rest: Text)
    ensures DecodeBody(EscapeUnit(u) + rest) == Push(u, DecodeBody(rest))
  {
    if ShortEscape(u).Some? {
      var t := [BACKSLASH, ShortEscape(u).value] + rest;
      assert t[0] == BACKSLASH && t[1] == ShortEscape(u).value && t[2..] == rest;
    } else if Printable(u) {
      assert ([u] + rest)[1..] == rest;
    } else {
      DecodesHex(u, rest);
    }
  }

  lemma {:induction false} DecodesBody(value: Text)
    ensures DecodeBody(EscapeBody(value) + [QUOTE]) == Some(value)
  {
    if value == [] {
      assert EscapeBody(value) + [QUOTE] == [QUOTE];
    } else {
      var rest := EscapeBody(value[1..]);
      DecodesBody(value[1..]);
      DecodesUnit(value[0], rest + [QUOTE]);
      assert EscapeBody(value) + [QUOTE] == EscapeUnit(value[0]) + (rest + [QUOTE]);
      assert [value[0]] + value[1..] == value;
    }
  }

  /** An escaped name decodes back to the name. */
  lemma EscapedDecodes(value: Text)
    ensures Decode(Replaced(Stringify(value))) == Some(value)
  {
    PrintsEscaped(value);
    DecodesBody(value);
    assert ([QUOTE] + EscapeBody(value) + [QUOTE])[1..] == EscapeBody(value) + [QUOTE];
  }

  // ---- what the printing promises ----

  lemma SentenceIsPlain(value: Text)
    ensures Verbatim(Sentence(value))
  {
    LeadIsPlain();
    CountedIsPlain(value);
    hide Lead, Counted;
  }

  /** Printable, and with no quote in it. */
  predicate Plain(t: Text) {
    AllPrintable(t) && QUOTE !in t
  }

  lemma LeadIsPlain()
    ensures Plain(Lead()) && Lead() != [] && Lead()[0] != SPACE
  {
  }

  lemma CountedIsPlain(value: Text)
    ensures Plain(Counted(value)) && Counted(value) != [] && Counted(value)[|Counted(value)| - 1] != SPACE
  {
    WordsArePlain();
    hide Units, Digits;
  }

  lemma WordsArePlain()
    ensures forall w: string :: w in {"empty", "space", "spaces"} ==> Plain(Units(w)) && Units(w) != [] && Units(w)[|Units(w)| - 1] != SPACE
  {
  }

  /** A name that is not blank is printed as printable ASCII: itself, with no quote in it, or a JSON string that decodes to it. */
  lemma PrintsTheNameItself(value: Text)
    requires !Spaces(value)
    ensures AllPrintable(ProxyName(value))
    ensures (ProxyName(value) == value && QUOTE !in value) || Decode(ProxyName(value)) == Some(value)
  {
    PrintsEscaped(value);
    EscapedDecodes(value);
  }

  lemma {:induction false} QuotedIsLonger(value: Text)
    ensures |QuoteBody(value)| >= |value|
    decreases |value|
  {
    if value != [] {
      if High(value[0]) && |value| > 1 && Low(value[1]) { QuotedIsLonger(value[2..]); } else { QuotedIsLonger(value[1..]); }
    }
  }

  lemma {:induction false} ReplacedIsLonger(t: Text)
    ensures |Replaced(t)| >= |t|
  {
    if t != [] { ReplacedIsLonger(t[1..]); }
  }

  /** A name is printed as it is if and only if every unit of it is printable, none is a quote, and neither end is a space. */
  lemma PrintsItselfIff(value: Text)
    requires value != []
    ensures ProxyName(value) == value
       <==> (forall i :: 0 <= i < |value| ==> 0x20 <= value[i] <= 0x7E && value[i] != 0x22) && value[0] != 0x20 && value[|value| - 1] != 0x20
  {
    if Spaces(value) {
      SentenceIsPlain(value);
      assert Sentence(value)[0] != SPACE by { LeadIsPlain(); }
    } else if !Verbatim(value) {
      QuotedIsLonger(value);
      ReplacedIsLonger(Stringify(value));
    }
  }

  /** Two names that are not blank are printed alike only if they are the same. */
  lemma PrintsNamesApart(a: Text, b: Text)
    requires !Spaces(a) && !Spaces(b) && ProxyName(a) == ProxyName(b)
    ensures a == b
  {
    PrintsEscaped(a);
    PrintsEscaped(b);
    EscapedDecodes(a);
    EscapedDecodes(b);
    assert Verbatim(a) ==> a[0] in a;
    assert Verbatim(b) ==> b[0] in b;
    assert Replaced(Stringify(a))[0] == QUOTE && Replaced(Stringify(b))[0] == QUOTE;
  }

  function Value(d: Text): nat {
    if d == [] then 0 else Value(d[..|d| - 1]) * 10 + (if d[|d| - 1] >= 0x30 then d[|d| - 1] - 0x30 else 0)
  }

  lemma {:induction false} DigitsCount(n: nat)
    ensures Value(Digits(n)) == n
    decreases n
  {
    if n < 10 {
      assert Digits(n)[..0] == [];
    } else {
      DigitsCount(n / 10);
      assert Digits(n)[..|Digits(n)| - 1] == Digits(n / 10);
    }
  }

  lemma SameUpToSpace(x: Text, y: Text, p: Text, q: Text)
    requires SPACE !in x && SPACE !in y
    requires x + ([SPACE] + p) == y + ([SPACE] + q)
    ensures x == y
  {
    var s := x + ([SPACE] + p);
    assert s[|x|] == SPACE && s[|y|] == SPACE;
    assert forall i :: 0 <= i < |x| ==> s[i] == x[i] && x[i] in x;
    assert forall i :: 0 <= i < |y| ==> s[i] == y[i] && y[i] in y;
    assert s[..|x|] == x && s[..|y|] == y;
  }

  /** Blank names are counted, so no two have the same sentence. */
  lemma SentencesDiffer(a: Text, b: Text)
    requires Spaces(a) && Spaces(b) && Sentence(a) == Sentence(b)
    ensures a == b
  {
    hide Lead, Counted;
    EndOf(Lead(), Counted(a));
    EndOf(Lead(), Counted(b));
    CountsDiffer(a, b);
  }

  lemma EndOf(lead: Text, t: Text)
    ensures (lead + t)[|lead|..] == t
  {
  }

  lemma CountsDiffer(a: Text, b: Text)
    requires Spaces(a) && Spaces(b) && Counted(a) == Counted(b)
    ensures a == b
  {
    CountStarts(a);
    CountStarts(b);
    if a != [] && b != [] {
      var p, q := Units(if |a| == 1 then "space" else "spaces"), Units(if |b| == 1 then "space" else "spaces");
      SameUpToSpace(Digits(|a|), Digits(|b|), p, q);
      DigitsCount(|a|);
      DigitsCount(|b|);
    }
  }

  /** A count starts with a digit, and "empty" with none. */
  lemma CountStarts(a: Text)
    ensures Counted(a) != [] && (a == [] <==> Counted(a)[0] > 0x39)
  {
    if a != [] {
      assert Counted(a)[0] == Digits(|a|)[0];
    }
  }

  /** Two names are printed alike exactly when they are the same, or one is blank and the other is literally its sentence. */
  lemma PrintsAlikeIff(a: Text, b: Text)
    ensures ProxyName(a) == ProxyName(b)
       <==> a == b || (Spaces(a) && b == Sentence(a)) || (Spaces(b) && a == Sentence(b))
  {
    SentenceIsPlain(a);
    SentenceIsPlain(b);
    if ProxyName(a) == ProxyName(b) {
      if Spaces(a) && Spaces(b) {
        SentencesDiffer(a, b);
      } else if !Spaces(a) && !Spaces(b) {
        PrintsNamesApart(a, b);
      } else {
        BlankCollides(a, b);
        BlankCollides(b, a);
      }
    }
  }

  lemma BlankCollides(a: Text, b: Text)
    requires Spaces(a) && !Spaces(b) ==> ProxyName(a) == ProxyName(b)
    ensures Spaces(a) && !Spaces(b) ==> b == Sentence(a)
  {
    SentenceIsPlain(a);
    PrintsEscaped(b);
  }

  /** One space, and the name that says so, are printed alike. */
  lemma ASpaceIsPrintedLikeItsSentence()
    ensures ProxyName([SPACE]) == ProxyName(Sentence([SPACE])) && [SPACE] != Sentence([SPACE])
  {
    SentenceIsPlain([SPACE]);
    PrintsAlikeIff([SPACE], Sentence([SPACE]));
  }
}
