/** What the rows of a broken call keep (admin/src/dashboard.ts, `callLines`): everything, or exactly when not. */
module CallLines {
  import opened Wrappers
  import opened Wrap
  import opened Clusters
  import opened CallText

  // ---- when every piece fits ----

  lemma WidestFits(c: Cutter, pieces: seq<string>, w: nat)
    requires AllFit(c, pieces, w)
    ensures Widest(c, pieces) <= w
    ensures forall i :: 0 <= i < |pieces| ==> c.vl(pieces[i]) <= Widest(c, pieces)
    decreases |pieces|
  {
    if pieces != [] {
      WidestFits(c, pieces[1..], w);
    }
  }

  lemma {:induction false} RowsFit(c: Cutter, room: nat, cur: string, pieces: seq<string>)
    requires AllFit(c, pieces, room) && c.vl(cur) <= room
    ensures Concat(RowsFrom(c, room, cur, pieces)) == cur + Concat(pieces)
    ensures AllFit(c, RowsFrom(c, room, cur, pieces), room)
    decreases |pieces|
  {
    assert Concat(Part(cur)) == cur;
    if pieces != [] {
      var (out, next) := Added(c, room, cur, pieces[0]);
      RowsFit(c, room, next, pieces[1..]);
      ConcatAppend(out, RowsFrom(c, room, next, pieces[1..]));
    }
  }

  lemma {:induction false} RowsCutAtBreaks(c: Cutter, room: nat, s: Scan, cur: string, pieces: seq<string>, colon: bool)
    requires AllFit(c, pieces, room) && CutExactly(AfterAll(s, cur), pieces, colon)
    requires cur != "" && pieces != [] ==> EndsAtBreak(s, cur, colon)
    ensures CutAtBreaks(s, RowsFrom(c, room, cur, pieces), colon)
    decreases |pieces|
  {
    if pieces != [] {
      var p, rest, after := pieces[0], pieces[1..], AfterAll(s, cur);
      assert rest != [] ==> EndsAtBreak(after, p, colon);
      if c.vl(cur + p) <= room {
        EndsWithPiece(s, cur, p, colon);
        RowsCutAtBreaks(c, room, s, cur + p, rest, colon);
        assert [] + RowsFrom(c, room, cur + p, rest) == RowsFrom(c, room, cur + p, rest);
      } else {
        assert cur == "" ==> cur + p == p;
        var more := RowsFrom(c, room, p, rest);
        RowsCutAtBreaks(c, room, after, p, rest, colon);
        assert ([cur] + more)[0] == cur && ([cur] + more)[1..] == more;
      }
    }
  }

  lemma EndsWithPiece(s: Scan, cur: string, p: string, colon: bool)
    requires p != ""
    ensures AfterAll(s, cur + p) == AfterAll(AfterAll(s, cur), p)
    ensures EndsAtBreak(s, cur + p, colon) <==> EndsAtBreak(AfterAll(s, cur), p, colon)
  {
    AfterAllAppend(s, cur, p);
    AfterAllAppend(s, cur, p[..|p| - 1]);
    assert (cur + p)[..|cur + p| - 1] == cur + p[..|p| - 1];
  }

  /**
   When every piece fits the line, the rows concatenate to the exact call, each fits beside the indent, the indent is
   the usual one where the widest piece leaves room for it, and the rows with any white space between them are the same JSON.
   */
  lemma FittingRowsAreTheCall(c: Cutter, text: string, iw: int, indentMax: nat, gaps: seq<string>)
    requires Lawful(c)
    requires AllFit(c, Chosen(c, text, Columns(iw)), Columns(iw))
    ensures var w, pieces := Columns(iw), Chosen(c, text, Columns(iw));
            var indent, room := Indent(c, pieces, w, indentMax), Room(c, pieces, w, indentMax);
            var rows := RowsFrom(c, room, "", pieces);
            && Concat(rows) == text
            && (Widest(c, pieces) >= 1 ==> forall i :: 0 <= i < |rows| ==> indent + c.vl(rows[i]) <= w)
            && (indentMax + Widest(c, pieces) <= w <==> indent == indentMax)
            && (|gaps| == |rows| && (forall i :: 0 <= i < |gaps| ==> AllWhite(gaps[i])) ==>
                  Lex(Between, Gapped(rows, gaps)) == Lex(Between, text))
  {
    var w, pieces := Columns(iw), Chosen(c, text, Columns(iw));
    var room := Room(c, pieces, w, indentMax);
    var rows := RowsFrom(c, room, "", pieces);
    var colon := !AllFit(c, Pieces(text, false), w);
    WidestFits(c, pieces, w);
    PiecesAreTheCall(text, colon);
    RowsFit(c, room, "", pieces);
    RowsCutAtBreaks(c, room, Outside, "", pieces, colon);
    if |gaps| == |rows| && forall i :: 0 <= i < |gaps| ==> AllWhite(gaps[i]) {
      GapsKeepTokens(Between, Outside, rows, gaps, colon);
    }
  }

  // ---- as few rows as can be ----

  /** Rows made of whole pieces, in order, each of which fits. */
  ghost predicate Rowing(c: Cutter, pieces: seq<string>, room: nat, gs: seq<seq<string>>) {
    Flatten(gs) == pieces && forall i :: 0 <= i < |gs| ==> c.vl(Concat(gs[i])) <= room
  }

  /** Whatever pieces `p` another rowing has still to place, it needs as many rows as these from here on. */
  lemma {:induction false} RowsStayAhead(c: Cutter, room: nat, p: seq<string>, g: seq<string>, pieces: seq<string>, gs: seq<seq<string>>)
    requires Monotone(c) && Rowing(c, p + g + pieces, room, gs) && AllFit(c, pieces, room)
    requires (g == [] ==> pieces != []) && forall i :: 0 <= i < |pieces| ==> pieces[i] != ""
    requires g != [] ==> Concat(g) != ""
    ensures |RowsFrom(c, room, Concat(g), pieces)| <= |gs|
    decreases |pieces|, |gs|
  {
    if pieces == [] {
      assert p + g + pieces != [];
    } else {
      var piece, rest := pieces[0], pieces[1..];
      var longer := g + [piece];
      ConcatSnoc(g, piece);
      if c.vl(Concat(longer)) <= room {
        assert p + longer + rest == p + g + pieces;
        RowsStayAhead(c, room, p, longer, rest, gs);
        assert [] + RowsFrom(c, room, Concat(longer), rest) == RowsFrom(c, room, Concat(longer), rest);
      } else {
        assert g == [] ==> Concat(longer) == piece;
        NextRowStarts(c, room, p, g, pieces, gs);
        var left := (p + g)[|gs[0]|..];
        assert left + [piece] + rest == left + pieces;
        assert Concat([piece]) == piece;
        RowsStayAhead(c, room, left, [piece], rest, gs[1..]);
      }
    }
  }

  lemma WiderWithMore(c: Cutter, before: seq<string>, ws: seq<string>, after: seq<string>)
    requires Monotone(c)
    ensures c.vl(Concat(ws)) <= c.vl(Concat(before + ws + after))
  {
    ConcatAppend(before + ws, after);
    ConcatAppend(before, ws);
    assert c.vl(Concat(ws)) <= c.vl(Concat(before) + Concat(ws));
  }

  /** The other rowing's first row ends before the piece that does not fit here. */
  lemma NextRowStarts(c: Cutter, room: nat, p: seq<string>, g: seq<string>, pieces: seq<string>, gs: seq<seq<string>>)
    requires Monotone(c) && Rowing(c, p + g + pieces, room, gs) && pieces != [] && c.vl(Concat(g + [pieces[0]])) > room
    ensures gs != [] && |gs[0]| <= |p + g| && Rowing(c, (p + g)[|gs[0]|..] + pieces, room, gs[1..])
  {
    var n, longer := |gs[0]|, g + [pieces[0]];
    if n > |p + g| {
      var after := pieces[1..][..n - |p + longer|];
      assert gs[0] == Flatten(gs)[..n] == p + longer + after;
      WiderWithMore(c, p, longer, after);
      assert false;
    }
    assert Flatten(gs[1..]) == Flatten(gs)[n..] == (p + g)[n..] + pieces;
  }

  /** When every piece fits, no rows of whole pieces are fewer. */
  lemma RowsAreFewest(c: Cutter, text: string, iw: int, indentMax: nat, gs: seq<seq<string>>)
    requires Lawful(c) && Monotone(c)
    requires AllFit(c, Chosen(c, text, Columns(iw)), Columns(iw))
    ensures var pieces := Chosen(c, text, Columns(iw));
            var room := Room(c, pieces, Columns(iw), indentMax);
            Rowing(c, pieces, room, gs) ==> |RowsFrom(c, room, "", pieces)| <= |gs|
  {
    var pieces := Chosen(c, text, Columns(iw));
    var room := Room(c, pieces, Columns(iw), indentMax);
    var colon := !AllFit(c, Pieces(text, false), Columns(iw));
    WidestFits(c, pieces, Columns(iw));
    PiecesAreTheCall(text, colon);
    CutExactlyNonEmpty(Outside, pieces, colon);
    if Rowing(c, pieces, room, gs) && pieces != [] {
      assert [] + [] + pieces == pieces;
      RowsStayAhead(c, room, [], [], pieces, gs);
    }
  }

  lemma {:induction false} CutExactlyNonEmpty(s: Scan, pieces: seq<string>, colon: bool)
    requires CutExactly(s, pieces, colon)
    ensures forall i :: 0 <= i < |pieces| ==> pieces[i] != ""
    decreases |pieces|
  {
    if pieces != [] {
      CutExactlyNonEmpty(AfterAll(s, pieces[0]), pieces[1..], colon);
      assert forall i :: 1 <= i < |pieces| ==> pieces[i] == pieces[1..][i - 1];
    }
  }

  // ---- the form and the indent ----

  lemma {:induction false} WidestIsOne(c: Cutter, pieces: seq<string>)
    ensures forall i :: 0 <= i < |pieces| ==> c.vl(pieces[i]) <= Widest(c, pieces)
    ensures Widest(c, pieces) > 0 ==> exists i :: 0 <= i < |pieces| && c.vl(pieces[i]) == Widest(c, pieces)
  {
    if pieces != [] {
      WidestIsOne(c, pieces[1..]);
      if i :| 0 <= i < |pieces| - 1 && c.vl(pieces[1..][i]) == Widest(c, pieces[1..]) {
        assert pieces[i + 1] == pieces[1..][i];
      }
      assert forall i :: 1 <= i < |pieces| ==> pieces[i] == pieces[1..][i - 1];
    }
  }

  /**
   The colon form is used exactly where some loose piece is too wide; and the indent is the usual one, or all that the
   widest piece leaves, or none.
   */
  lemma FormAndIndentGiveWay(c: Cutter, text: string, w: nat, indentMax: nat)
    ensures Chosen(c, text, w) == if exists i :: 0 <= i < |Pieces(text, false)| && c.vl(Pieces(text, false)[i]) > w then Pieces(text, true) else Pieces(text, false)
    ensures var pieces := Chosen(c, text, w);
            var indent := Indent(c, pieces, w, indentMax);
            && indent <= indentMax
            && (indent > 0 ==> forall i :: 0 <= i < |pieces| ==> indent + c.vl(pieces[i]) <= w)
            && (indent < indentMax ==> w <= indent || exists i :: 0 <= i < |pieces| && indent + c.vl(pieces[i]) >= w)
  {
    WidestIsOne(c, Chosen(c, text, w));
    hide Pieces;
  }

  // ---- when a piece does not fit ----

  /** Words joined onto the line under way. */
  function JoinOn(cur: string, words: seq<string>): string
    decreases |words|
  {
    if words == [] then cur else JoinOn(if cur == "" then words[0] else cur + (" " + words[0]), words[1..])
  }

  /** No word after the first starts a line: each finds its place, with its space, on the line under way. */
  predicate Stays(c: Cutter, w: nat, cur: string, words: seq<string>)
    decreases |words|
  {
    words == [] ||
    ((cur == "" || (c.vl(words[0]) <= w && c.vl(cur + (" " + words[0])) <= w))
     && Stays(c, w, Take(c, w, cur, words[0]).1, words[1..]))
  }

  function SumLength(words: seq<string>): nat {
    if words == [] then 0 else |words[0]| + 1 + SumLength(words[1..])
  }

  lemma {:induction false} JoinOnLength(cur: string, words: seq<string>)
    requires AllWords(words)
    ensures |JoinOn(cur, words)| == |cur| + SumLength(words) - (if cur == "" && words != [] then 1 else 0)
    decreases |words|
  {
    if words != [] {
      JoinOnLength(if cur == "" then words[0] else cur + (" " + words[0]), words[1..]);
    }
  }

  lemma {:induction false} JoinOnPrefix(p: string, cur: string, words: seq<string>)
    requires cur != ""
    ensures JoinOn(p + cur, words) == p + JoinOn(cur, words)
    decreases |words|
  {
    if words != [] {
      assert p + cur + (" " + words[0]) == p + (cur + (" " + words[0]));
      JoinOnPrefix(p, cur + (" " + words[0]), words[1..]);
    }
  }

  lemma {:induction false} TakeConcat(c: Cutter, w: nat, word: string)
    requires Lawful(c) && word != ""
    ensures Concat(Take(c, w, "", word).0) + Take(c, w, "", word).1 == word && Take(c, w, "", word).1 != ""
    decreases |word|
  {
    var head := c.cut(word, w);
    if c.vl(word) > w && head != "" {
      var rest := word[|head|..];
      assert word == head + rest;
      assert rest != "" by { assert rest == "" ==> head == word; }
      TakeConcat(c, w, rest);
      assert Part("") + [head] == [head];
      ConcatAppend([head], Take(c, w, "", rest).0);
      assert Concat([head]) == head;
    }
  }

  /** A word that does not stay loses the space before it. */
  lemma TakeLength(c: Cutter, w: nat, cur: string, word: string)
    requires Lawful(c) && word != "" && cur != ""
    requires c.vl(word) > w || c.vl(cur + (" " + word)) > w
    ensures |Concat(Take(c, w, cur, word).0)| + |Take(c, w, cur, word).1| == |cur| + |word| && Take(c, w, cur, word).1 != ""
  {
    assert Concat([cur]) == cur;
    var head := c.cut(word, w);
    if c.vl(word) > w && head != "" {
      TakeConcat(c, w, word);
      var lines := Take(c, w, "", word[|head|..]).0;
      ConcatAppend([cur], [head] + lines);
      assert [cur] + [head] + lines == [cur] + ([head] + lines);
      assert Part("") + [head] + lines == [head] + lines;
    }
  }

  lemma {:induction false} WrapLength(c: Cutter, w: nat, cur: string, words: seq<string>)
    requires Lawful(c) && AllWords(words)
    ensures |Concat(WrapFrom(c, w, cur, words))| <= |JoinOn(cur, words)|
    ensures |Concat(WrapFrom(c, w, cur, words))| == |JoinOn(cur, words)| ==> Stays(c, w, cur, words)
    ensures Stays(c, w, cur, words) ==> Concat(WrapFrom(c, w, cur, words)) == JoinOn(cur, words)
    decreases |words|
  {
    assert Concat(Part(cur)) == cur;
    if words != [] {
      var word, rest := words[0], words[1..];
      var (lines, next) := Take(c, w, cur, word);
      WrapLength(c, w, next, rest);
      ConcatAppend(lines, WrapFrom(c, w, next, rest));
      JoinOnLength(cur, words);
      JoinOnLength(next, rest);
      if cur == "" {
        TakeConcat(c, w, word);
        JoinOnPrefix(Concat(lines), next, rest);
      } else if c.vl(word) > w || c.vl(cur + (" " + word)) > w {
        TakeLength(c, w, cur, word);
      }
    }
  }

  lemma JoinOnAfter(cur: string, words: seq<string>)
    requires cur != "" && words != [] && words[0] != ""
    ensures JoinOn("", [cur] + words) == cur + (" " + JoinOn("", words))
  {
    assert ([cur] + words)[1..] == words;
    JoinOnPrefix(cur + " ", words[0], words[1..]);
    assert cur + (" " + words[0]) == cur + " " + words[0];
    assert cur + (" " + JoinOn("", words)) == cur + " " + JoinOn("", words);
  }

  /** The words and a space after each are never longer than the text and one space; when as long, they are the text. */
  lemma {:induction false} WordsLength(cur: string, text: string)
    requires Spaceless(cur)
    ensures var words := WordsFrom(cur, text);
            && SumLength(words) <= |cur| + |text| + 1
            && (SumLength(words) == |cur| + |text| + 1 ==> JoinOn("", words) == cur + text)
    decreases |text|
  {
    if text == "" {
      assert cur + text == cur;
      assert cur != "" ==> [cur][1..] == [];
    } else if text[0] == ' ' {
      var rest := WordsFrom("", text[1..]);
      WordsLength("", text[1..]);
      if cur == "" {
        assert [] + rest == rest;
      } else {
        assert ([cur] + rest)[1..] == rest;
        if SumLength(rest) == |text| {
          WordsAreWords("", text[1..]);
          JoinOnAfter(cur, rest);
          assert "" + text[1..] == text[1..];
          assert cur + (" " + text[1..]) == cur + text;
        }
      }
    } else {
      WordsLength(cur + [text[0]], text[1..]);
      assert cur + [text[0]] + text[1..] == cur + text;
    }
  }

  /** What is under way once a word has been cut: the word, or its last piece. */
  function LastPiece(c: Cutter, w: nat, word: string): string {
    Take(c, w, "", word).1
  }

  /** Spaces are single and between words, and what is left of the first word fits one line with all the others. */
  predicate Unbroken(c: Cutter, w: nat, text: string) {
    var words := Words(text);
    && text == JoinOn("", words)
    && (|words| <= 1 || c.vl(JoinOn(LastPiece(c, w, words[0]), words[1..])) <= w)
  }

  lemma {:induction false} JoinOnStarts(cur: string, words: seq<string>)
    requires cur != ""
    ensures cur <= JoinOn(cur, words)
    decreases |words|
  {
    if words != [] {
      JoinOnStarts(cur + (" " + words[0]), words[1..]);
      assert cur <= cur + (" " + words[0]);
    }
  }

  /** Words stay on the line under way exactly when it fits with all of them. */
  lemma {:induction false} StaysIff(c: Cutter, w: nat, cur: string, words: seq<string>)
    requires Monotone(c) && cur != "" && AllWords(words)
    ensures Stays(c, w, cur, words) <==> words == [] || c.vl(JoinOn(cur, words)) <= w
    decreases |words|
  {
    if words != [] {
      var next, rest := cur + (" " + words[0]), words[1..];
      StaysIff(c, w, next, rest);
      JoinOnStarts(next, rest);
      var whole := JoinOn(next, rest);
      assert c.vl(next) <= c.vl(next + whole[|next|..]) && next + whole[|next|..] == whole;
      assert c.vl(words[0]) <= c.vl((cur + " ") + words[0]) && (cur + " ") + words[0] == next;
    }
  }

  lemma UnbrokenIsStays(c: Cutter, w: nat, text: string)
    requires Lawful(c) && Monotone(c)
    ensures Unbroken(c, w, text) <==> text == JoinOn("", Words(text)) && Stays(c, w, "", Words(text))
  {
    var words := Words(text);
    WordsAreWords("", text);
    if words != [] {
      TakeConcat(c, w, words[0]);
      StaysIff(c, w, LastPiece(c, w, words[0]), words[1..]);
    }
  }

  /** The wrapper keeps every character, if and only if no run of spaces is longer than one and no word but the first starts a line. */
  lemma WrapKeepsAllIff(c: Cutter, text: string, width: nat)
    requires Lawful(c) && Monotone(c) && width >= 1
    ensures |Concat(Wrapped(c, text, width))| <= |text|
    ensures Concat(Wrapped(c, text, width)) == text <==> Unbroken(c, width, text)
    ensures |Concat(Wrapped(c, text, width))| == |text| <==> Unbroken(c, width, text)
  {
    var words := Words(text);
    WordsAreWords("", text);
    WordsLength("", text);
    JoinOnLength("", words);
    WrapLength(c, width, "", words);
    UnbrokenIsStays(c, width, text);
    assert "" + text == text;
    assert words == [] ==> SumLength(words) == 0;
  }

  /** A text too wide for the line, whose words all fit, always loses a space. */
  lemma WideTextOfFittingWordsIsBroken(c: Cutter, w: nat, text: string)
    requires Lawful(c) && c.vl(text) > w && AllFit(c, Words(text), w)
    ensures !Unbroken(c, w, text)
  {
    WordsAreWords("", text);
    var words := Words(text);
    if words != [] {
      assert c.vl(words[0]) <= w && LastPiece(c, w, words[0]) == words[0];
      assert JoinOn("", words) == JoinOn(words[0], words[1..]);
    }
  }

  // ---- the rows, whatever the pieces ----

  /** Every piece too wide for the row keeps its spaces. */
  ghost predicate AllUnbroken(c: Cutter, room: nat, pieces: seq<string>) {
    forall i :: 0 <= i < |pieces| && c.vl(pieces[i]) > room ==> Unbroken(c, room, pieces[i])
  }

  lemma FrontAndBack(parts: seq<string>)
    ensures Concat(Front(parts)) + Back(parts) == Concat(parts)
  {
    if parts != [] {
      ConcatSnoc(Front(parts), Back(parts));
      assert Front(parts) + [Back(parts)] == parts;
    }
  }

  /** What one piece adds: itself, or less if it is too wide for the row and loses a space. */
  lemma AddedLength(c: Cutter, room: nat, cur: string, piece: string)
    requires Lawful(c) && Monotone(c) && room >= 1
    ensures var (out, next) := Added(c, room, cur, piece);
            var kept := c.vl(piece) <= room || Unbroken(c, room, piece);
            && (kept ==> Concat(out) + next == cur + piece)
            && |Concat(out)| + |next| <= |cur| + |piece|
            && (|Concat(out)| + |next| == |cur| + |piece| ==> kept)
  {
    assert Concat(Part(cur)) == cur;
    if c.vl(cur + piece) > room && c.vl(piece) > room {
      var parts := Wrapped(c, piece, room);
      WrapKeepsAllIff(c, piece, room);
      FrontAndBack(parts);
      ConcatAppend(Part(cur), Front(parts));
    }
  }

  lemma {:induction false} RowsKeepAllIff(c: Cutter, room: nat, cur: string, pieces: seq<string>)
    requires Lawful(c) && Monotone(c) && room >= 1
    ensures AllUnbroken(c, room, pieces) ==> Concat(RowsFrom(c, room, cur, pieces)) == cur + Concat(pieces)
    ensures |Concat(RowsFrom(c, room, cur, pieces))| <= |cur| + |Concat(pieces)|
    ensures |Concat(RowsFrom(c, room, cur, pieces))| == |cur| + |Concat(pieces)| ==> AllUnbroken(c, room, pieces)
    decreases |pieces|
  {
    if pieces == [] {
      assert Concat(Part(cur)) == cur;
    } else {
      var p, more := pieces[0], Concat(pieces[1..]);
      var (out, next) := Added(c, room, cur, p);
      var rows := RowsFrom(c, room, next, pieces[1..]);
      assert RowsFrom(c, room, cur, pieces) == out + rows && Concat(pieces) == p + more;
      hide *;
      AddedLength(c, room, cur, p);
      RowsKeepAllIff(c, room, next, pieces[1..]);
      ConcatAppend(out, rows);
      AllUnbrokenSplits(c, room, pieces);
      KeptInBoth(Concat(out), next, cur, p, more, Concat(rows), c.vl(p) <= room || Unbroken(c, room, p), AllUnbroken(c, room, pieces[1..]));
    }
  }

  lemma KeptInBoth(out: string, next: string, cur: string, p: string, more: string, rows: string, first: bool, rest: bool)
    requires (first ==> out + next == cur + p) && |out| + |next| <= |cur| + |p| && (|out| + |next| == |cur| + |p| ==> first)
    requires (rest ==> rows == next + more) && |rows| <= |next| + |more| && (|rows| == |next| + |more| ==> rest)
    ensures first && rest ==> out + rows == cur + (p + more)
    ensures |out + rows| <= |cur| + |p + more| && (|out + rows| == |cur| + |p + more| ==> first && rest)
  {
    if first && rest {
      assert out + (next + more) == out + next + more;
      assert cur + p + more == cur + (p + more);
    }
  }

  lemma AllUnbrokenSplits(c: Cutter, room: nat, pieces: seq<string>)
    requires pieces != []
    ensures AllUnbroken(c, room, pieces)
       <==> (c.vl(pieces[0]) > room ==> Unbroken(c, room, pieces[0])) && AllUnbroken(c, room, pieces[1..])
  {
    assert forall i :: 1 <= i < |pieces| ==> pieces[i] == pieces[1..][i - 1];
  }

  /** The rows are the exact call, if and only if each piece too wide for its row keeps its spaces. */
  lemma RowsAreTheCallIff(c: Cutter, text: string, iw: int, indentMax: nat)
    requires Lawful(c) && Monotone(c)
    ensures var pieces := Chosen(c, text, Columns(iw));
            var room := Room(c, pieces, Columns(iw), indentMax);
            Concat(RowsFrom(c, room, "", pieces)) == text <==> AllUnbroken(c, room, pieces)
  {
    var pieces := Chosen(c, text, Columns(iw));
    PiecesAreTheCall(text, !AllFit(c, Pieces(text, false), Columns(iw)));
    RowsKeepAllIff(c, Room(c, pieces, Columns(iw), indentMax), "", pieces);
  }

  // ---- a call in a panel narrower than its tool's name ----

  /** One column a character. */
  const PLAIN := Metric(c => 1, s => 1)

  lemma {:induction false} PlainWidth(s: string)
    ensures Width(PLAIN, s) == |s|
  {
    if s != "" { PlainWidth(s[1..]); }
  }

  /** A tool's name: nothing in it where a call may be broken, and no string. */
  predicate ToolName(name: string) {
    name != "" && forall i :: 0 <= i < |name| ==> name[i] !in {' ', '"', '{', ',', ':'}
  }

  lemma {:induction false} NameIsAPiece(cur: string, name: string, json: string, colon: bool)
    requires forall i :: 0 <= i < |name| ==> name[i] !in {' ', '"', '{', ',', ':'}
    ensures var ps := PiecesFrom(Outside, cur, name + " " + json, colon);
            ps == [cur + name + " "] + PiecesFrom(Outside, "", json, colon)
    decreases |name|
  {
    var text := name + " " + json;
    if name == "" {
      assert text[0] == ' ' && text[1..] == json;
      assert cur + [' '] == cur + name + " ";
    } else {
      assert text[0] == name[0] && text[1..] == name[1..] + " " + json;
      NameIsAPiece(cur + [name[0]], name[1..], json, colon);
      assert cur + [name[0]] + name[1..] == cur + name;
    }
  }

  lemma {:induction false} NameIsAWord(cur: string, name: string)
    requires Spaceless(name)
    ensures WordsFrom(cur, name + " ") == Part(cur + name)
    decreases |name|
  {
    var text := name + " ";
    if name == "" {
      assert text[0] == ' ' && text[1..] == "" && cur + name == cur;
      assert WordsFrom("", "") == [];
    } else {
      assert text[0] == name[0] && text[1..] == name[1..] + " ";
      NameIsAWord(cur + [name[0]], name[1..]);
      assert cur + [name[0]] + name[1..] == cur + name;
    }
  }

  lemma {:induction false} SpacelessPieces(s: Scan, cur: string, text: string, colon: bool)
    requires Spaceless(cur) && Spaceless(text)
    ensures forall i :: 0 <= i < |PiecesFrom(s, cur, text, colon)| ==> Spaceless(PiecesFrom(s, cur, text, colon)[i])
    decreases |text|
  {
    if text != "" {
      if Breaks(s, text[0], colon) {
        SpacelessPieces(After(s, text[0]), "", text[1..], colon);
      } else {
        SpacelessPieces(After(s, text[0]), cur + [text[0]], text[1..], colon);
      }
    }
  }

  lemma {:induction false} SpacelessWords(cur: string, text: string)
    requires Spaceless(text)
    ensures WordsFrom(cur, text) == Part(cur + text)
    decreases |text|
  {
    if text == "" {
      assert cur + text == cur;
    } else {
      SpacelessWords(cur + [text[0]], text[1..]);
      assert cur + [text[0]] + text[1..] == cur + text;
    }
  }

  /** A text without spaces keeps every character. */
  lemma SpacelessIsUnbroken(c: Cutter, w: nat, text: string)
    requires Spaceless(text)
    ensures Unbroken(c, w, text)
  {
    SpacelessWords("", text);
    assert "" + text == text;
    if text != "" {
      assert [text][1..] == [];
    }
  }

  /** The name is the first piece, and it is broken wherever it does not fit. */
  lemma NameBreaksIff(name: string, json: string, colon: bool, room: nat)
    requires ToolName(name) && Spaceless(json)
    ensures var c, pieces := CutterOf(PLAIN), Pieces(name + " " + json, colon);
            && pieces != [] && c.vl(pieces[0]) == |name| + 1
            && (AllUnbroken(c, room, pieces) <==> |name| + 1 <= room)
  {
    var c, pieces := CutterOf(PLAIN), Pieces(name + " " + json, colon);
    NameIsAPiece("", name, json, colon);
    assert "" + name + " " == name + " ";
    assert pieces[0] == name + " ";
    PlainWidth(pieces[0]);
    NameIsBroken(c, room, name);
    SpacelessPieces(Outside, "", json, colon);
    forall i | 1 <= i < |pieces| ensures Unbroken(c, room, pieces[i]) {
      assert pieces[i] == PiecesFrom(Outside, "", json, colon)[i - 1];
      SpacelessIsUnbroken(c, room, pieces[i]);
    }
    hide Unbroken, Pieces, PiecesFrom;
  }

  lemma NameIsBroken(c: Cutter, room: nat, name: string)
    requires ToolName(name)
    ensures !Unbroken(c, room, name + " ")
  {
    NameIsAWord("", name);
    assert "" + name == name && [name][1..] == [];
    assert Words(name + " ") == [name] && JoinOn("", [name]) == name;
  }

  /** The row has room for the first piece exactly where the line does. */
  lemma RoomForTheFirst(c: Cutter, pieces: seq<string>, w: nat, indentMax: nat)
    requires pieces != [] && w >= 1
    ensures c.vl(pieces[0]) <= Room(c, pieces, w, indentMax) || c.vl(pieces[0]) > w
    ensures Room(c, pieces, w, indentMax) <= w
  {
  }

  /** A tool's call without spaces in its JSON is drawn exactly if and only if the panel is wider than the tool's name. */
  lemma CallIsExactIffWiderThanItsName(name: string, json: string, iw: int, indentMax: nat)
    requires ToolName(name) && Spaceless(json)
    ensures var c, text := CutterOf(PLAIN), name + " " + json;
            var pieces := Chosen(c, text, Columns(iw));
            Concat(RowsFrom(c, Room(c, pieces, Columns(iw), indentMax), "", pieces)) == text <==> iw > |name|
  {
    var c, text := CutterOf(PLAIN), name + " " + json;
    var w := Columns(iw);
    var pieces := Chosen(c, text, w);
    var room := Room(c, pieces, w, indentMax);
    NameBreaksIff(name, json, !AllFit(c, Pieces(text, false), w), room);
    RoomForTheFirst(c, pieces, w, indentMax);
    CutterIsLawful(PLAIN);
    RowsAreTheCallIff(c, text, iw, indentMax);
    hide RowsFrom, AllUnbroken, Pieces, Room;
  }

  /** In no more columns than its tool's name, a call's rows are not the call: the space after the name is on none of them. */
  lemma NarrowCallLosesItsSpace(name: string, json: string, iw: int, indentMax: nat)
    requires ToolName(name) && iw <= |name|
    ensures var c, text := CutterOf(PLAIN), name + " " + json;
            var pieces := Chosen(c, text, Columns(iw));
            Concat(RowsFrom(c, Room(c, pieces, Columns(iw), indentMax), "", pieces)) != text
  {
    var c, text := CutterOf(PLAIN), name + " " + json;
    var w := Columns(iw);
    var colon := !AllFit(c, Pieces(text, false), w);
    NameIsAPiece("", name, json, colon);
    var piece := Pieces(text, colon)[0];
    assert piece == name + " " by { assert "" + name == name; }
    NameIsBroken(c, Room(c, Pieces(text, colon), w, indentMax), name);
    PlainWidth(piece);
    CutterIsLawful(PLAIN);
    RowsAreTheCallIff(c, text, iw, indentMax);
  }

  /** The call that adds a scoped limit, in a panel of eighteen columns or fewer. */
  lemma ALimitCallLosesItsSpace(json: string, iw: int, indentMax: nat)
    requires iw <= 18
    ensures var c, text := CutterOf(PLAIN), "dispatch_limit_add" + " " + json;
            var pieces := Chosen(c, text, Columns(iw));
            Concat(RowsFrom(c, Room(c, pieces, Columns(iw), indentMax), "", pieces)) != text
  {
    NarrowCallLosesItsSpace("dispatch_limit_add", json, iw, indentMax);
  }
}
