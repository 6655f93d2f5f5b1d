/**
 An exact tool call broken into lines that still read as the same call (admin/src/dashboard.ts, `callPieces` and
 `callLines`).
 */
module CallText {
  import opened Wrappers
  import opened Wrap

  // ---- where a call may be broken ----

  /** Where the scan is: outside a JSON string, inside one, or after a backslash inside one. */
  datatype Scan = Outside | Inside | Escaped

  function After(s: Scan, ch: char): Scan {
    match s
    case Outside => if ch == '"' then Inside else Outside
    case Inside => if ch == '\\' then Escaped else if ch == '"' then Outside else Inside
    case Escaped => Inside
  }

  function AfterAll(s: Scan, text: string): Scan
    decreases |text|
  {
    if text == "" then s else AfterAll(After(s, text[0]), text[1..])
  }

  /** A call may be broken after this character: a space, `{` or `,` outside a string, and `:` in the finer form. */
  predicate Breaks(s: Scan, ch: char, colon: bool) {
    s == Outside && (ch == ' ' || ch == '{' || ch == ',' || (colon && ch == ':'))
  }

  /** The specification of `callPieces`, from a scan state and the piece under way. */
  function PiecesFrom(s: Scan, cur: string, text: string, colon: bool): seq<string>
    decreases |text|
  {
    if text == "" then Part(cur)
    else if Breaks(s, text[0], colon) then [cur + [text[0]]] + PiecesFrom(After(s, text[0]), "", text[1..], colon)
    else PiecesFrom(After(s, text[0]), cur + [text[0]], text[1..], colon)
  }

  function Pieces(text: string, colon: bool): seq<string> {
    PiecesFrom(Outside, "", text, colon)
  }

  method CallPieces(text: string, colon: bool) returns (pieces: seq<string>)
    ensures pieces == Pieces(text, colon)
  {
    pieces := [];
    var cur := "";
    var inString, escaped := false, false;
    for i := 0 to |text|
      invariant escaped ==> inString
      invariant pieces + PiecesFrom(if escaped then Escaped else if inString then Inside else Outside, cur, text[i..], colon) == Pieces(text, colon)
    {
      var ch := text[i];
      assert text[i..][0] == ch && text[i..][1..] == text[i + 1..];
      cur := cur + [ch];
      if inString {
        if escaped { escaped := false; } else if ch == '\\' { escaped := true; } else if ch == '"' { inString := false; }
        continue;
      }
      if ch == '"' {
        inString := true;
      } else if ch == ' ' || ch == '{' || ch == ',' || (colon && ch == ':') {
        Shift(pieces, [cur], PiecesFrom(Outside, "", text[i + 1..], colon));
        pieces := pieces + [cur];
        cur := "";
      }
    }
    if cur != "" {
      pieces := pieces + [cur];
    }
  }

  // ---- the pieces are the text, cut exactly there ----

  ghost predicate CutExactly(s: Scan, pieces: seq<string>, colon: bool)
    decreases |pieces|
  {
    pieces == [] ||
    var p := pieces[0];
    && p != ""
    && (forall j :: 0 <= j < |p| - 1 ==> !Breaks(AfterAll(s, p[..j]), p[j], colon))
    && (|pieces| > 1 ==> Breaks(AfterAll(s, p[..|p| - 1]), p[|p| - 1], colon))
    && CutExactly(AfterAll(s, p), pieces[1..], colon)
  }

  lemma {:induction false} AfterAllAppend(s: Scan, x: string, y: string)
    ensures AfterAll(s, x + y) == AfterAll(AfterAll(s, x), y)
    decreases |x|
  {
    if x == "" {
      assert x + y == y;
    } else {
      assert (x + y)[1..] == x[1..] + y;
      AfterAllAppend(After(s, x[0]), x[1..], y);
    }
  }

  lemma {:induction false} PiecesFromExact(s0: Scan, cur: string, text: string, colon: bool)
    requires forall j :: 0 <= j < |cur| ==> !Breaks(AfterAll(s0, cur[..j]), cur[j], colon)
    ensures var ps := PiecesFrom(AfterAll(s0, cur), cur, text, colon);
            Concat(ps) == cur + text && CutExactly(s0, ps, colon)
    decreases |text|
  {
    var s := AfterAll(s0, cur);
    if text == "" {
      assert cur != "" ==> Concat([cur]) == cur && [cur][1..] == [];
    } else {
      var longer, rest := cur + [text[0]], text[1..];
      AfterAllAppend(s0, cur, [text[0]]);
      assert AfterAll(s, [text[0]]) == After(s, text[0]);
      assert longer + rest == cur + text;
      assert forall j :: 0 <= j < |cur| ==> longer[..j] == cur[..j] && longer[j] == cur[j];
      assert longer[..|cur|] == cur;
      if Breaks(s, text[0], colon) {
        PiecesFromExact(AfterAll(s0, longer), "", rest, colon);
        var ps := PiecesFrom(AfterAll(s0, longer), "", rest, colon);
        assert ([longer] + ps)[1..] == ps;
      } else {
        PiecesFromExact(s0, longer, rest, colon);
      }
    }
  }

  /** The pieces concatenate to the call, none is empty, and the cuts are exactly the places it may be broken. */
  lemma PiecesAreTheCall(text: string, colon: bool)
    ensures Concat(Pieces(text, colon)) == text
    ensures CutExactly(Outside, Pieces(text, colon), colon)
  {
    PiecesFromExact(Outside, "", text, colon);
  }

  /** There is only one way to cut a call exactly there. */
  lemma {:induction false} CutExactlyIsUnique(s: Scan, xs: seq<string>, ys: seq<string>, colon: bool)
    requires CutExactly(s, xs, colon) && CutExactly(s, ys, colon)
    requires Concat(xs) == Concat(ys)
    ensures xs == ys
    decreases |xs|
  {
    if xs == [] || ys == [] {
      assert xs != [] ==> Concat(xs) != "";
      assert ys != [] ==> Concat(ys) != "";
    } else {
      var x, y, all := xs[0], ys[0], Concat(xs);
      assert all[..|x|] == x && all[..|y|] == y && all[|x|..] == Concat(xs[1..]) && all[|y|..] == Concat(ys[1..]);
      var m := Min(|x|, |y|);
      assert x[..m - 1] == all[..m - 1] == y[..m - 1] && x[m - 1] == all[m - 1] == y[m - 1];
      assert |xs| == 1 ==> xs[1..] == [];
      assert |ys| == 1 ==> ys[1..] == [];
      assert |x| == |y|;
      CutExactlyIsUnique(AfterAll(s, x), xs[1..], ys[1..], colon);
    }
  }

  /** Texts cut after a brace that opens, after a comma that is not in a string, after a space, and after a colon in the finer form alone. */
  lemma ACallCut()
    ensures Pieces("{\",\",", false) == ["{", "\",\","]
    ensures Pieces(": ", false) == [": "] && Pieces(": ", true) == [":", " "]
    ensures Pieces("f 1", false) == ["f ", "1"]
  {
    hide Breaks, After, PiecesFrom;
    QuotedComma();
    Scanned(Outside, "", '{', "\",\",", false);
    assert "{\",\"," == ['{'] + "\",\",";
    assert "" + ['{'] == "{";
    assert ["{"] + ["\",\","] == ["{", "\",\","];
    ColonAndSpace();
    NameAndOne();
  }

  lemma QuotedComma()
    ensures PiecesFrom(Outside, "", "\",\",", false) == ["\",\","]
  {
    Scanned(Outside, "", '"', ",\",", false);
    Scanned(Inside, "\"", ',', "\",", false);
    Scanned(Inside, "\",", '"', ",", false);
    Scanned(Outside, "\",\"", ',', "", false);
    assert "\",\"," == ['"'] + ",\"," && ",\"," == [','] + "\"," && "\"," == ['"'] + "," && "," == [','] + "";
    assert "" + ['"'] == "\"" && "\"" + [','] == "\"," && "\"," + ['"'] == "\",\"" && "\",\"" + [','] == "\",\",";
    assert PiecesFrom(Outside, "", "", false) == [];
    hide PiecesFrom;
  }

  lemma ColonAndSpace()
    ensures Pieces(": ", false) == [": "] && Pieces(": ", true) == [":", " "]
  {
    Scanned(Outside, "", ':', " ", false);
    Scanned(Outside, ":", ' ', "", false);
    Scanned(Outside, "", ':', " ", true);
    Scanned(Outside, "", ' ', "", true);
    assert ": " == [':'] + " " && " " == [' '] + "" && "" + [':'] == ":" && ":" + [' '] == ": " && "" + [' '] == " ";
    assert PiecesFrom(Outside, "", "", false) == [] && PiecesFrom(Outside, "", "", true) == [];
    hide PiecesFrom;
  }

  lemma NameAndOne()
    ensures Pieces("f 1", false) == ["f ", "1"]
  {
    Scanned(Outside, "", 'f', " 1", false);
    Scanned(Outside, "f", ' ', "1", false);
    Scanned(Outside, "", '1', "", false);
    assert "f 1" == ['f'] + " 1" && " 1" == [' '] + "1" && "1" == ['1'] + "" && "" + ['f'] == "f" && "f" + [' '] == "f " && "" + ['1'] == "1";
    assert PiecesFrom(Outside, "1", "", false) == ["1"];
    hide PiecesFrom;
  }

  /** One character of the scan. */
  lemma Scanned(s: Scan, cur: string, c: char, rest: string, colon: bool)
    ensures PiecesFrom(s, cur, [c] + rest, colon)
         == if s == Outside && (c == ' ' || c == '{' || c == ',' || (colon && c == ':')) then [cur + [c]] + PiecesFrom(Outside, "", rest, colon)
            else PiecesFrom(match s case Outside => (if c == '"' then Inside else Outside)
                                    case Inside => (if c == '\\' then Escaped else if c == '"' then Outside else Inside)
                                    case Escaped => Inside, cur + [c], rest, colon)
  {
    assert ([c] + rest)[1..] == rest;
  }

  // ---- white space at the cuts changes no token ----

  /** The tokens of JSON text (section 2 of RFC 8259): structural characters, strings, and everything else. */
  datatype Token = Structural(c: char) | Str(raw: string) | Unterminated(raw: string) | Word(raw: string)

  datatype Lexing = Between | InWord(acc: string) | InString(acc: string) | InEscape(acc: string)

  predicate White(c: char) {
    c == ' ' || c == '\t' || c == '\n' || c == '\r'
  }

  predicate IsStructural(c: char) {
    c in "{}[]:,"
  }

  function Finished(l: Lexing): seq<Token> {
    match l
    case Between => []
    case InWord(acc) => [Token.Word(acc)]
    case InString(acc) => [Unterminated(acc)]
    case InEscape(acc) => [Unterminated(acc)]
  }

  /** One character: the tokens it completes and the state after it (strings by section 7 of RFC 8259). */
  function LexChar(l: Lexing, c: char): (seq<Token>, Lexing) {
    match l
    case InString(acc) =>
      if c == '\\' then ([], InEscape(acc + [c])) else if c == '"' then ([Str(acc + [c])], Between) else ([], InString(acc + [c]))
    case InEscape(acc) => ([], InString(acc + [c]))
    case _ =>
      if White(c) then (Finished(l), Between)
      else if c == '"' then (Finished(l), InString([c]))
      else if IsStructural(c) then (Finished(l) + [Structural(c)], Between)
      else ([], InWord(if l.InWord? then l.acc + [c] else [c]))
  }

  function Lex(l: Lexing, text: string): seq<Token>
    decreases |text|
  {
    if text == "" then Finished(l)
    else
      var (out, next) := LexChar(l, text[0]);
      out + Lex(next, text[1..])
  }

  /** The lexing state after a text, without its end. */
  function LexState(l: Lexing, text: string): Lexing
    decreases |text|
  {
    if text == "" then l else LexState(LexChar(l, text[0]).1, text[1..])
  }

  predicate Agrees(l: Lexing, s: Scan) {
    match s
    case Outside => l.Between? || l.InWord?
    case Inside => l.InString?
    case Escaped => l.InEscape?
  }

  lemma {:induction false} LexFollowsScan(l: Lexing, s: Scan, text: string)
    requires Agrees(l, s)
    ensures Agrees(LexState(l, text), AfterAll(s, text))
    decreases |text|
  {
    if text != "" {
      LexFollowsScan(LexChar(l, text[0]).1, After(s, text[0]), text[1..]);
    }
  }

  lemma {:induction false} SameStateSameTokens(l: Lexing, p: string, x: string, y: string)
    requires Lex(LexState(l, p), x) == Lex(LexState(l, p), y)
    ensures Lex(l, p + x) == Lex(l, p + y)
    decreases |p|
  {
    if p == "" {
      assert p + x == x && p + y == y;
    } else {
      SameStateSameTokens(LexChar(l, p[0]).1, p[1..], x, y);
      assert (p + x)[1..] == p[1..] + x && (p + y)[1..] == p[1..] + y;
    }
  }

  predicate AllWhite(gap: string) {
    forall i :: 0 <= i < |gap| ==> White(gap[i])
  }

  lemma {:induction false} GapsAreNoTokens(gap: string, text: string)
    requires AllWhite(gap)
    ensures Lex(Between, gap + text) == Lex(Between, text)
  {
    if gap == "" {
      assert gap + text == text;
    } else {
      assert (gap + text)[1..] == gap[1..] + text;
      GapsAreNoTokens(gap[1..], text);
    }
  }

  /** The pieces with a gap after each but the last. */
  function Gapped(pieces: seq<string>, gaps: seq<string>): string
    requires |gaps| == |pieces|
  {
    if pieces == [] then ""
    else if |pieces| == 1 then pieces[0]
    else pieces[0] + (gaps[0] + Gapped(pieces[1..], gaps[1..]))
  }

  lemma LexSnoc(l: Lexing, p: string)
    requires p != ""
    ensures LexState(l, p) == LexChar(LexState(l, p[..|p| - 1]), p[|p| - 1]).1
    decreases |p|
  {
    if |p| > 1 {
      LexSnoc(LexChar(l, p[0]).1, p[1..]);
      assert p[1..][..|p| - 2] == p[..|p| - 1][1..];
    }
  }

  predicate EndsAtBreak(s: Scan, p: string, colon: bool) {
    p != "" && Breaks(AfterAll(s, p[..|p| - 1]), p[|p| - 1], colon)
  }

  /** Pieces, or runs of them, that each end where the call may be broken. */
  ghost predicate CutAtBreaks(s: Scan, pieces: seq<string>, colon: bool)
    decreases |pieces|
  {
    pieces == [] ||
    ((|pieces| > 1 ==> EndsAtBreak(s, pieces[0], colon)) && CutAtBreaks(AfterAll(s, pieces[0]), pieces[1..], colon))
  }

  lemma {:induction false} CutExactlyIsAtBreaks(s: Scan, pieces: seq<string>, colon: bool)
    requires CutExactly(s, pieces, colon)
    ensures CutAtBreaks(s, pieces, colon)
    decreases |pieces|
  {
    if pieces != [] {
      CutExactlyIsAtBreaks(AfterAll(s, pieces[0]), pieces[1..], colon);
    }
  }

  /** White space put at any of the cuts leaves the JSON token sequence as it was. */
  lemma {:induction false} GapsKeepTokens(l: Lexing, s: Scan, pieces: seq<string>, gaps: seq<string>, colon: bool)
    requires |gaps| == |pieces| && CutAtBreaks(s, pieces, colon) && Agrees(l, s)
    requires forall i :: 0 <= i < |gaps| ==> AllWhite(gaps[i])
    ensures Lex(l, Gapped(pieces, gaps)) == Lex(l, Concat(pieces))
    decreases |pieces|
  {
    if |pieces| == 1 {
      assert Concat(pieces) == pieces[0];
    } else if |pieces| > 1 {
      var p, rest, more := pieces[0], Concat(pieces[1..]), Gapped(pieces[1..], gaps[1..]);
      LexFollowsScan(l, s, p[..|p| - 1]);
      LexSnoc(l, p);
      assert LexState(l, p) == Between;
      LexFollowsScan(l, s, p);
      GapsKeepTokens(Between, AfterAll(s, p), pieces[1..], gaps[1..], colon);
      GapsAreNoTokens(gaps[0], more);
      SameStateSameTokens(l, p, gaps[0] + more, rest);
    }
  }

  /** A call broken at any of its cuts, and indented, is still the same JSON. */
  lemma BrokenCallIsTheSameCall(text: string, colon: bool, gaps: seq<string>)
    requires |gaps| == |Pieces(text, colon)| && forall i :: 0 <= i < |gaps| ==> AllWhite(gaps[i])
    ensures Lex(Between, Gapped(Pieces(text, colon), gaps)) == Lex(Between, text)
  {
    PiecesAreTheCall(text, colon);
    CutExactlyIsAtBreaks(Outside, Pieces(text, colon), colon);
    GapsKeepTokens(Between, Outside, Pieces(text, colon), gaps, colon);
  }

  // ---- the colon form is finer ----

  /** Every coarse piece is a run of fine ones. */
  ghost predicate Refines(fine: seq<string>, coarse: seq<string>)
    decreases |coarse|
  {
    if coarse == [] then fine == []
    else exists n :: 0 <= n <= |fine| && Concat(fine[..n]) == coarse[0] && Refines(fine[n..], coarse[1..])
  }

  lemma {:induction false} RefinesFrom(s: Scan, done: seq<string>, cur: string, whole: string, text: string)
    requires Concat(done) + cur == whole && forall i :: 0 <= i < |done| ==> done[i] != ""
    ensures Refines(done + PiecesFrom(s, cur, text, true), PiecesFrom(s, whole, text, false))
    decreases |text|
  {
    if text == "" {
      var fine := done + Part(cur);
      ConcatAppend(done, Part(cur));
      assert Concat(Part(cur)) == cur;
      if whole == "" {
        assert done != [] ==> Concat(done) != "";
        assert fine == [];
      } else {
        assert fine[..|fine|] == fine && fine[|fine|..] == [];
        assert [whole][1..] == [];
      }
    } else {
      var ch, rest, next := text[0], text[1..], After(s, text[0]);
      assert Concat(done) + (cur + [ch]) == whole + [ch];
      if Breaks(s, ch, false) {
        RefinesFrom(next, [], "", "", rest);
        var tail := PiecesFrom(next, "", rest, true);
        assert [] + tail == tail;
        var fine := done + ([cur + [ch]] + tail);
        ConcatSnoc(done, cur + [ch]);
        assert fine[..|done| + 1] == done + [cur + [ch]] && fine[|done| + 1..] == tail;
        var coarse := [whole + [ch]] + PiecesFrom(next, "", rest, false);
        assert coarse[1..] == PiecesFrom(next, "", rest, false);
      } else if Breaks(s, ch, true) {
        ConcatSnoc(done, cur + [ch]);
        RefinesFrom(next, done + [cur + [ch]], "", whole + [ch], rest);
        Shift(done, [cur + [ch]], PiecesFrom(next, "", rest, true));
      } else {
        RefinesFrom(next, done, cur + [ch], whole + [ch], rest);
      }
    }
  }

  /** Cutting after `:` as well only cuts the loose pieces further. */
  lemma ColonFormRefinesLooseForm(text: string)
    ensures Refines(Pieces(text, true), Pieces(text, false))
  {
    RefinesFrom(Outside, [], "", "", text);
    assert [] + Pieces(text, true) == Pieces(text, true);
  }

  // ---- callLines, up to its painting ----

  function Widest(c: Cutter, pieces: seq<string>): nat {
    if pieces == [] then 0 else Max(c.vl(pieces[0]), Widest(c, pieces[1..]))
  }

  /** The loose pieces, unless one is wider than the line. */
  function Chosen(c: Cutter, text: string, w: nat): seq<string> {
    Pieces(text, !AllFit(c, Pieces(text, false), w))
  }

  function Indent(c: Cutter, pieces: seq<string>, w: nat, indentMax: nat): nat {
    Max(0, Min(indentMax, w - Widest(c, pieces)))
  }

  function Room(c: Cutter, pieces: seq<string>, w: nat, indentMax: nat): (room: nat)
    ensures room >= 1
  {
    Max(1, w - Indent(c, pieces, w, indentMax))
  }

  function Front(parts: seq<string>): seq<string> {
    if parts == [] then [] else parts[..|parts| - 1]
  }

  function Back(parts: seq<string>): string {
    if parts == [] then "" else parts[|parts| - 1]
  }

  /** The lines a piece completes, and the row under way after it. */
  function Added(c: Cutter, room: nat, cur: string, piece: string): (seq<string>, string) {
    if c.vl(cur + piece) <= room then ([], cur + piece)
    else if c.vl(piece) <= room then (Part(cur), piece)
    else (Part(cur) + Front(Wrapped(c, piece, room)), Back(Wrapped(c, piece, room)))
  }

  /** The rows from a piece on; `cur` is the row under way. */
  function RowsFrom(c: Cutter, room: nat, cur: string, pieces: seq<string>): seq<string>
    decreases |pieces|
  {
    if pieces == [] then Part(cur)
    else
      var (out, next) := Added(c, room, cur, pieces[0]);
      out + RowsFrom(c, room, next, pieces[1..])
  }

  method CallRows(c: Cutter, text: string, iw: int, indentMax: nat) returns (rows: seq<string>, indent: nat)
    requires Lawful(c)
    ensures indent == Indent(c, Chosen(c, text, Columns(iw)), Columns(iw), indentMax)
    ensures rows == RowsFrom(c, Room(c, Chosen(c, text, Columns(iw)), Columns(iw), indentMax), "", Chosen(c, text, Columns(iw)))
  {
    var w := Columns(iw);
    var pieces := CallPieces(text, false);
    if !AllFit(c, pieces, w) {
      pieces := CallPieces(text, true);
    }
    indent := Max(0, Min(indentMax, w - Widest(c, pieces)));
    var room := Max(1, w - indent);
    rows := FillRows(c, room, pieces);
  }

  method FillRows(c: Cutter, room: nat, pieces: seq<string>) returns (rows: seq<string>)
    requires Lawful(c) && room >= 1
    ensures rows == RowsFrom(c, room, "", pieces)
  {
    rows := [];
    var cur := "";
    for i := 0 to |pieces|
      invariant rows + RowsFrom(c, room, cur, pieces[i..]) == RowsFrom(c, room, "", pieces)
    {
      ghost var later, added := pieces[i + 1..], Added(c, room, cur, pieces[i]);
      assert RowsFrom(c, room, cur, pieces[i..]) == added.0 + RowsFrom(c, room, added.1, later) by {
        assert pieces[i..][0] == pieces[i] && pieces[i..][1..] == later;
      }
      hide RowsFrom, Added;
      Shift(rows, added.0, RowsFrom(c, room, added.1, later));
      var out: seq<string>;
      out, cur := AddPiece(c, room, cur, pieces[i]);
      rows := rows + out;
    }
    if cur != "" {
      rows := rows + [cur];
    }
  }

  /** One turn of the loop. */
  method AddPiece(c: Cutter, room: nat, cur0: string, piece: string) returns (out: seq<string>, cur: string)
    requires Lawful(c) && room >= 1
    ensures (out, cur) == Added(c, room, cur0, piece)
  {
    out, cur := [], cur0;
    if c.vl(cur + piece) <= room {
      cur := cur + piece;
      return;
    }
    if cur != "" {
      out := [cur];
    }
    if c.vl(piece) <= room {
      cur := piece;
    } else {
      var parts := WrapColumns(c, piece, room);
      cur := Back(parts);
      out := out + Front(parts);
    }
  }
}
