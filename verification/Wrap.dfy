/**
 The overlay's two wrappers (admin/src/dashboard.ts, `wrapColumns` and `hardWrap`): text broken at spaces, or cut into
 pieces, at whole grapheme clusters and by columns.
 */
module Wrap {
  import opened Wrappers

  /** `vl` is `visibleLen`; `cut(x, w)` is `cutUnits(x, sliceColumns(x, w).length)`: whole clusters of at most `w` columns. */
  datatype Cutter = Cutter(vl: string -> nat, cut: (string, nat) -> string)

  ghost predicate Lawful(c: Cutter) {
    && c.vl("") == 0
    && (forall x, w: nat {:trigger c.cut(x, w)} :: c.cut(x, w) <= x && c.vl(c.cut(x, w)) <= w)
  }

  /** Text is no wider than a text it is the start or the end of. */
  ghost predicate Monotone(c: Cutter) {
    forall x, y {:trigger c.vl(x + y)} :: c.vl(x) <= c.vl(x + y) && c.vl(y) <= c.vl(x + y)
  }

  /** A text can be cut down to `w` columns: no cut on the way leaves nothing. */
  predicate Cuttable(c: Cutter, word: string, w: nat)
    decreases |word|
  {
    c.vl(word) <= w || (c.cut(word, w) <= word && c.cut(word, w) != "" && Cuttable(c, word[|c.cut(word, w)|..], w))
  }

  function Concat(pieces: seq<string>): string {
    if pieces == [] then "" else pieces[0] + Concat(pieces[1..])
  }

  predicate AllFit(c: Cutter, pieces: seq<string>, w: nat) {
    forall i :: 0 <= i < |pieces| ==> c.vl(pieces[i]) <= w
  }

  lemma {:induction false} ConcatAppend(xs: seq<string>, ys: seq<string>)
    ensures Concat(xs + ys) == Concat(xs) + Concat(ys)
  {
    if xs == [] {
      assert xs + ys == ys;
    } else {
      ConcatAppend(xs[1..], ys);
      AppendedStart(xs, ys);
      assert Concat(xs + ys) == xs[0] + (Concat(xs[1..]) + Concat(ys));
      hide Concat;
    }
  }

  lemma AppendedStart(xs: seq<string>, ys: seq<string>)
    requires xs != []
    ensures Concat(xs + ys) == xs[0] + Concat(xs[1..] + ys)
    ensures xs[0] + (Concat(xs[1..]) + Concat(ys)) == Concat(xs) + Concat(ys)
  {
    assert (xs + ys)[1..] == xs[1..] + ys;
    assert Concat(xs) == xs[0] + Concat(xs[1..]);
  }

  lemma ConcatSnoc(xs: seq<string>, x: string)
    ensures Concat(xs + [x]) == Concat(xs) + x
  {
    ConcatAppend(xs, [x]);
    assert Concat([x]) == x;
  }

  // ---- hardWrap ----

  /** `hardWrap`: the pieces are the line exactly, and all fit if and only if the line can be cut. */
  method HardWrap(c: Cutter, line: string, w: Option<nat>) returns (out: seq<string>)
    requires Lawful(c)
    ensures Concat(out) == line && out != []
    ensures w.None? ==> out == [line]
    ensures w.Some? ==> AllFit(c, out[..|out| - 1], w.value) && (AllFit(c, out, w.value) <==> Cuttable(c, line, w.value))
  {
    if w.None? {
      return [line];
    }
    hide Concat, Cuttable, AllFit;
    out := [];
    var rest := line;
    while c.vl(rest) > w.value
      invariant Concat(out) + rest == line
      invariant AllFit(c, out, w.value)
      invariant Cuttable(c, rest, w.value) <==> Cuttable(c, line, w.value)
      decreases |rest|
    {
      var head := c.cut(rest, w.value);
      if head == "" {
        break;
      }
      HardStep(c, w.value, out, rest);
      out := out + [head];
      rest := rest[|head|..];
    }
    HardEnd(c, w.value, out, rest);
    out := out + [rest];
  }

  lemma HardStep(c: Cutter, w: nat, out: seq<string>, rest: string)
    requires Lawful(c) && c.vl(rest) > w && c.cut(rest, w) != "" && AllFit(c, out, w)
    ensures Concat(out + [c.cut(rest, w)]) + rest[|c.cut(rest, w)|..] == Concat(out) + rest
    ensures AllFit(c, out + [c.cut(rest, w)], w)
    ensures Cuttable(c, rest, w) <==> Cuttable(c, rest[|c.cut(rest, w)|..], w)
  {
    var head := c.cut(rest, w);
    ConcatSnoc(out, head);
    assert rest == head + rest[|head|..];
    hide Concat;
  }

  lemma HardEnd(c: Cutter, w: nat, out: seq<string>, rest: string)
    requires AllFit(c, out, w) && (c.vl(rest) <= w || c.cut(rest, w) == "")
    ensures Concat(out + [rest]) == Concat(out) + rest
    ensures (out + [rest])[..|out + [rest]| - 1] == out
    ensures AllFit(c, out + [rest], w) <==> Cuttable(c, rest, w)
  {
    ConcatSnoc(out, rest);
    assert (out + [rest])[|out|] == rest;
    hide Concat;
  }

  // ---- wrapColumns ----

  /** `text.split(" ")` without its empty parts, `cur` being the part under way. */
  function WordsFrom(cur: string, text: string): seq<string>
    decreases |text|
  {
    if text == "" then Part(cur)
    else if text[0] == ' ' then Part(cur) + WordsFrom("", text[1..])
    else WordsFrom(cur + [text[0]], text[1..])
  }

  function Words(text: string): seq<string> {
    WordsFrom("", text)
  }

  /** A line that is pushed only when there is something on it. */
  function Part(cur: string): seq<string> {
    if cur == "" then [] else [cur]
  }

  /** A word that fits joins the line under way, or starts the next one. */
  function Place(c: Cutter, w: nat, cur: string, word: string): (seq<string>, string) {
    if word == "" then ([], cur)
    else if cur == "" then ([], word)
    else if c.vl(cur + (" " + word)) <= w then ([], cur + (" " + word))
    else ([cur], word)
  }

  /** One word: the lines it completes, and the line under way after it. */
  function Take(c: Cutter, w: nat, cur: string, word: string): (seq<string>, string)
    decreases |word|
  {
    if c.vl(word) <= w then Place(c, w, cur, word)
    else
      var head := c.cut(word, w);
      if head == "" || !(head <= word) then (Part(cur), word)
      else
        var (lines, next) := Take(c, w, "", word[|head|..]);
        (Part(cur) + [head] + lines, next)
  }

  function WrapFrom(c: Cutter, w: nat, cur: string, words: seq<string>): seq<string>
    decreases |words|
  {
    if words == [] then Part(cur)
    else
      var (lines, next) := Take(c, w, cur, words[0]);
      lines + WrapFrom(c, w, next, words[1..])
  }

  /** The lines from a word on: the line under way, what is left of the word, and the words after it. */
  function WrapWord(c: Cutter, w: nat, cur: string, word: string, later: seq<string>): seq<string> {
    var (lines, next) := Take(c, w, cur, word);
    lines + WrapFrom(c, w, next, later)
  }

  lemma Shift(done: seq<string>, more: seq<string>, later: seq<string>)
    ensures done + (more + later) == done + more + later
  {
  }

  lemma WrapWordFlushes(c: Cutter, w: nat, cur: string, word: string, later: seq<string>)
    requires c.vl(word) > w && cur != ""
    ensures WrapWord(c, w, cur, word, later) == [cur] + WrapWord(c, w, "", word, later)
  {
  }

  lemma WrapWordCuts(c: Cutter, w: nat, word: string, later: seq<string>)
    requires c.vl(word) > w && c.cut(word, w) != "" && c.cut(word, w) <= word
    ensures var head := c.cut(word, w);
            WrapWord(c, w, "", word, later) == [head] + WrapWord(c, w, "", word[|head|..], later)
  {
  }

  /** What is left of a word fits, or nothing can be cut from it. */
  lemma WrapWordPlaces(c: Cutter, w: nat, cur: string, word: string, later: seq<string>)
    requires c.vl(word) <= w || (cur == "" && word != "" && c.cut(word, w) == "")
    ensures WrapWord(c, w, cur, word, later)
         == if word == "" then WrapFrom(c, w, cur, later)
            else if cur == "" then WrapFrom(c, w, word, later)
            else if c.vl(cur + (" " + word)) <= w then WrapFrom(c, w, cur + (" " + word), later)
            else [cur] + WrapFrom(c, w, word, later)
  {
  }

  function Columns(width: int): (w: nat)
    ensures w == Max(1, width)
  {
    if width < 1 then 1 else width
  }

  function Wrapped(c: Cutter, text: string, width: int): seq<string> {
    WrapFrom(c, Columns(width), "", Words(text))
  }

  /** The inner loop: a word wider than the width is cut while a cut leaves something. */
  method CutDown(c: Cutter, w: nat, cur0: string, word0: string, ghost later: seq<string>) returns (heads: seq<string>, cur: string, word: string)
    requires Lawful(c)
    ensures heads + WrapWord(c, w, cur, word, later) == WrapWord(c, w, cur0, word0, later)
    ensures c.vl(word) <= w || (cur == "" && word != "" && c.cut(word, w) == "")
  {
    hide WrapWord;
    heads, cur, word := [], cur0, word0;
    while c.vl(word) > w
      invariant heads + WrapWord(c, w, cur, word, later) == WrapWord(c, w, cur0, word0, later)
      decreases |word|
    {
      if cur != "" {
        WrapWordFlushes(c, w, cur, word, later);
        Shift(heads, [cur], WrapWord(c, w, "", word, later));
        heads := heads + [cur];
        cur := "";
      }
      var head := c.cut(word, w);
      if head == "" {
        break;
      }
      WrapWordCuts(c, w, word, later);
      Shift(heads, [head], WrapWord(c, w, "", word[|head|..], later));
      heads := heads + [head];
      word := word[|head|..];
    }
  }

  method WrapColumns(c: Cutter, text: string, width: int) returns (lines: seq<string>)
    requires Lawful(c)
    ensures lines == Wrapped(c, text, width)
  {
    var w := Columns(width);
    lines := [];
    var cur := "";
    var words := Words(text);
    for i := 0 to |words|
      invariant lines + WrapFrom(c, w, cur, words[i..]) == Wrapped(c, text, width)
    {
      var word := words[i];
      ghost var later := words[i + 1..];
      assert WrapFrom(c, w, cur, words[i..]) == WrapWord(c, w, cur, word, later) by {
        assert words[i..][0] == word && words[i..][1..] == later;
      }
      hide WrapWord, WrapFrom;
      var heads: seq<string>;
      heads, cur, word := CutDown(c, w, cur, word, later);
      Shift(lines, heads, WrapWord(c, w, cur, word, later));
      lines := lines + heads;
      WrapWordPlaces(c, w, cur, word, later);
      if word == "" {
        continue;
      }
      var next := if cur != "" then cur + (" " + word) else word;
      if cur == "" || c.vl(next) <= w {
        cur := next;
      } else {
        Shift(lines, [cur], WrapFrom(c, w, word, later));
        lines := lines + [cur];
        cur := word;
      }
    }
    if cur != "" {
      lines := lines + [cur];
    }
  }

  // ---- nothing but spaces is lost ----

  /** The text without its spaces. */
  function Ink(s: string): string {
    if s == "" then "" else if s[0] == ' ' then Ink(s[1..]) else [s[0]] + Ink(s[1..])
  }

  lemma {:induction false} InkAppend(x: string, y: string)
    ensures Ink(x + y) == Ink(x) + Ink(y)
  {
    if x == "" {
      assert x + y == y;
    } else {
      InkAppend(x[1..], y);
      assert (x + y)[1..] == x[1..] + y;
      assert [x[0]] + (Ink(x[1..]) + Ink(y)) == [x[0]] + Ink(x[1..]) + Ink(y);
    }
  }

  lemma {:induction false} WordsInk(cur: string, text: string)
    ensures Ink(Concat(WordsFrom(cur, text))) == Ink(cur) + Ink(text)
    decreases |text|
  {
    if text != "" {
      if text[0] == ' ' {
        WordsInk("", text[1..]);
        ConcatAppend(Part(cur), WordsFrom("", text[1..]));
        InkAppend(Concat(Part(cur)), Concat(WordsFrom("", text[1..])));
      } else {
        WordsInk(cur + [text[0]], text[1..]);
        InkAppend(cur, [text[0]]);
      }
    }
    assert Concat(Part(cur)) == cur;
  }

  lemma {:induction false} TakeInk(c: Cutter, w: nat, cur: string, word: string)
    requires Lawful(c)
    ensures Ink(Concat(Take(c, w, cur, word).0)) + Ink(Take(c, w, cur, word).1) == Ink(cur) + Ink(word)
    decreases |word|
  {
    assert Concat(Part(cur)) == cur;
    if c.vl(word) <= w {
      InkAppend(cur, " " + word);
    } else if c.cut(word, w) != "" {
      var head := c.cut(word, w);
      var rest := word[|head|..];
      var (lines, next) := Take(c, w, "", rest);
      assert word == head + rest && Concat([head]) == head;
      assert Part("") + [head] + lines == [head] + lines;
      assert Take(c, w, cur, word) == (Part(cur) + [head] + lines, next);
      hide *;
      TakeInk(c, w, "", rest);
      InkOfPieces(Part(cur) + [head], lines);
      InkOfPieces(Part(cur), [head]);
      InkAppend(head, rest);
      InkOfNothing();
      InksJoin(Ink(cur), Ink(head), Ink(Concat(lines)), Ink(next), Ink(rest));
    }
  }

  lemma InksJoin(a: string, b: string, c: string, d: string, e: string)
    requires c + d == "" + e
    ensures a + b + c + d == a + (b + e)
  {
    assert c + d == e;
    assert a + b + c + d == a + b + (c + d);
    assert a + b + e == a + (b + e);
  }

  lemma InkOfNothing()
    ensures Ink("") == ""
  {
  }

  lemma InkOfPieces(xs: seq<string>, ys: seq<string>)
    ensures Ink(Concat(xs + ys)) == Ink(Concat(xs)) + Ink(Concat(ys))
  {
    ConcatAppend(xs, ys);
    InkAppend(Concat(xs), Concat(ys));
  }

  lemma Regrouped(a: string, b: string, c: string, d: string, e: string)
    requires a + b == d + e
    ensures a + (b + c) == d + (e + c)
  {
    assert a + (b + c) == a + b + c;
    assert d + (e + c) == d + e + c;
  }

  lemma {:induction false} WrapInk(c: Cutter, w: nat, cur: string, words: seq<string>)
    requires Lawful(c)
    ensures Ink(Concat(WrapFrom(c, w, cur, words))) == Ink(cur) + Ink(Concat(words))
    decreases |words|
  {
    assert Concat(Part(cur)) == cur;
    if words != [] {
      var (lines, next) := Take(c, w, cur, words[0]);
      TakeInk(c, w, cur, words[0]);
      WrapInk(c, w, next, words[1..]);
      var rest, more := WrapFrom(c, w, next, words[1..]), Concat(words[1..]);
      assert WrapFrom(c, w, cur, words) == lines + rest && Concat(words) == words[0] + more;
      hide *;
      InkOfPieces(lines, rest);
      InkAppend(words[0], more);
      Regrouped(Ink(Concat(lines)), Ink(next), Ink(more), Ink(cur), Ink(words[0]));
    }
  }

  /** Every character but the spaces is on some line, once and in order. */
  lemma WrapLosesOnlySpaces(c: Cutter, text: string, width: int)
    requires Lawful(c)
    ensures Ink(Concat(Wrapped(c, text, width))) == Ink(text)
  {
    WrapInk(c, Columns(width), "", Words(text));
    WordsInk("", text);
  }

  // ---- no line is too wide ----

  ghost predicate AllCuttable(c: Cutter, words: seq<string>, w: nat) {
    forall i :: 0 <= i < |words| ==> Cuttable(c, words[i], w)
  }

  /** A line under way that is too wide is the next line out. */
  lemma OverwideIsEmitted(c: Cutter, w: nat, cur: string, words: seq<string>)
    requires Lawful(c) && Monotone(c) && c.vl(cur) > w
    requires forall i :: 0 <= i < |words| ==> words[i] != ""
    ensures !AllFit(c, WrapFrom(c, w, cur, words), w)
  {
    var lines := WrapFrom(c, w, cur, words);
    if words != [] {
      assert c.vl(cur + (" " + words[0])) > w;
    }
    assert lines[0] == cur;
  }

  lemma {:induction false} TakeFits(c: Cutter, w: nat, cur: string, word: string)
    requires Lawful(c) && c.vl(cur) <= w
    ensures AllFit(c, Take(c, w, cur, word).0, w)
    ensures c.vl(Take(c, w, cur, word).1) <= w <==> Cuttable(c, word, w)
    decreases |word|
  {
    if c.vl(word) > w && c.cut(word, w) != "" {
      TakeFits(c, w, "", word[|c.cut(word, w)|..]);
    }
  }

  lemma {:induction false} WrapFits(c: Cutter, w: nat, cur: string, words: seq<string>)
    requires Lawful(c) && Monotone(c) && c.vl(cur) <= w
    requires forall i :: 0 <= i < |words| ==> words[i] != ""
    ensures AllFit(c, WrapFrom(c, w, cur, words), w) <==> AllCuttable(c, words, w)
    decreases |words|
  {
    if words != [] {
      var (lines, next) := Take(c, w, cur, words[0]);
      TakeFits(c, w, cur, words[0]);
      var rest := WrapFrom(c, w, next, words[1..]);
      assert AllFit(c, lines + rest, w) <==> AllFit(c, rest, w) by {
        assert forall i :: 0 <= i < |rest| ==> (lines + rest)[|lines| + i] == rest[i];
      }
      assert AllCuttable(c, words, w) <==> Cuttable(c, words[0], w) && AllCuttable(c, words[1..], w) by {
        assert forall i :: 0 <= i < |words| - 1 ==> words[1..][i] == words[i + 1];
      }
      if c.vl(next) <= w {
        WrapFits(c, w, next, words[1..]);
      } else {
        OverwideIsEmitted(c, w, next, words[1..]);
      }
    }
  }

  predicate Spaceless(s: string) {
    forall j :: 0 <= j < |s| ==> s[j] != ' '
  }

  lemma {:induction false} WordsAreWords(cur: string, text: string)
    requires Spaceless(cur)
    ensures forall i :: 0 <= i < |WordsFrom(cur, text)| ==> WordsFrom(cur, text)[i] != "" && Spaceless(WordsFrom(cur, text)[i])
    decreases |text|
  {
    if text != "" {
      if text[0] == ' ' {
        WordsAreWords("", text[1..]);
        var rest := WordsFrom("", text[1..]);
        var h := |Part(cur)|;
        assert forall i :: h <= i < h + |rest| ==> WordsFrom(cur, text)[i] == rest[i - h];
      } else {
        WordsAreWords(cur + [text[0]], text[1..]);
      }
    }
  }

  /** No line is wider than the width, if and only if every word can be cut down to it. */
  lemma WrapFitsIffCuttable(c: Cutter, text: string, width: int)
    requires Lawful(c) && Monotone(c)
    ensures AllFit(c, Wrapped(c, text, width), Columns(width)) <==> AllCuttable(c, Words(text), Columns(width))
  {
    WordsAreWords("", text);
    WrapFits(c, Columns(width), "", Words(text));
  }

  // ---- when every word fits, no breaking has fewer lines ----

  /** Words joined by single spaces. */
  function Join(ws: seq<string>): string {
    if ws == [] then "" else if |ws| == 1 then ws[0] else Join(ws[..|ws| - 1]) + (" " + ws[|ws| - 1])
  }

  function Flatten(gs: seq<seq<string>>): seq<string> {
    if gs == [] then [] else gs[0] + Flatten(gs[1..])
  }

  function Joins(gs: seq<seq<string>>): seq<string> {
    if gs == [] then [] else [Join(gs[0])] + Joins(gs[1..])
  }

  /** An in-order breaking of `words` into lines of at most `w` columns. */
  ghost predicate Breaking(c: Cutter, words: seq<string>, w: nat, gs: seq<seq<string>>) {
    Flatten(gs) == words && forall i :: 0 <= i < |gs| ==> c.vl(Join(gs[i])) <= w
  }

  /** The breaking the wrapper makes when every word fits; `g` is the line under way. */
  function Groups(c: Cutter, w: nat, g: seq<string>, words: seq<string>): seq<seq<string>>
    decreases |words|
  {
    if words == [] then (if g == [] then [] else [g])
    else if g == [] || c.vl(Join(g + [words[0]])) <= w then Groups(c, w, g + [words[0]], words[1..])
    else [g] + Groups(c, w, [words[0]], words[1..])
  }

  predicate AllWords(ws: seq<string>) {
    forall i :: 0 <= i < |ws| ==> ws[i] != ""
  }

  lemma {:induction false} WrapIsGroups(c: Cutter, w: nat, g: seq<string>, words: seq<string>)
    requires AllFit(c, words, w) && AllWords(words) && AllWords(g)
    ensures WrapFrom(c, w, Join(g), words) == Joins(Groups(c, w, g, words))
    decreases |words|
  {
    assert g != [] ==> Join(g) != "";
    if words != [] {
      var longer := g + [words[0]];
      assert g != [] ==> Join(longer) == Join(g) + (" " + words[0]) by {
        assert longer[..|longer| - 1] == g;
      }
      if g == [] || c.vl(Join(longer)) <= w {
        WrapIsGroups(c, w, longer, words[1..]);
        assert g == [] ==> longer == [words[0]];
      } else {
        WrapIsGroups(c, w, [words[0]], words[1..]);
      }
    }
  }

  lemma {:induction false} GroupsBreak(c: Cutter, w: nat, g: seq<string>, words: seq<string>)
    requires AllFit(c, words, w) && c.vl(Join(g)) <= w
    ensures Breaking(c, g + words, w, Groups(c, w, g, words))
    decreases |words|
  {
    if words == [] {
      assert g + words == g;
      assert g != [] ==> Flatten([g]) == g;
    } else {
      var rest := words[1..];
      assert AllFit(c, rest, w);
      if g == [] || c.vl(Join(g + [words[0]])) <= w {
        assert Groups(c, w, g, words) == Groups(c, w, g + [words[0]], rest);
        assert g == [] ==> g + [words[0]] == [words[0]];
        assert c.vl(Join(g + [words[0]])) <= w;
        hide *;
        GroupsBreak(c, w, g + [words[0]], rest);
        assert g + [words[0]] + rest == g + words;
      } else {
        assert Groups(c, w, g, words) == [g] + Groups(c, w, [words[0]], rest);
        assert c.vl(Join([words[0]])) <= w;
        hide *;
        GroupsBreak(c, w, [words[0]], rest);
        assert [words[0]] + rest == words;
        BreakingCons(c, g, words, w, Groups(c, w, [words[0]], rest));
      }
    }
  }

  lemma BreakingCons(c: Cutter, g: seq<string>, words: seq<string>, w: nat, gs: seq<seq<string>>)
    requires Breaking(c, words, w, gs) && c.vl(Join(g)) <= w
    ensures Breaking(c, g + words, w, [g] + gs)
  {
    assert ([g] + gs)[1..] == gs;
  }

  lemma {:induction false} JoinAppend(xs: seq<string>, ys: seq<string>)
    requires xs != [] && ys != []
    ensures Join(xs + ys) == Join(xs) + (" " + Join(ys))
    decreases |ys|
  {
    hide *;
    var front, last := ys[..|ys| - 1], ys[|ys| - 1];
    JoinEnds(xs, ys);
    if front != [] {
      JoinAppend(xs, front);
      Grouped(Join(xs), Join(front), last);
    }
  }

  /** The last word stands after the others. */
  lemma JoinEnds(xs: seq<string>, ys: seq<string>)
    requires xs != [] && ys != []
    ensures Join(xs + ys) == Join(xs + ys[..|ys| - 1]) + (" " + ys[|ys| - 1])
    ensures Join(ys) == if |ys| == 1 then ys[0] else Join(ys[..|ys| - 1]) + (" " + ys[|ys| - 1])
    ensures xs + [] == xs
  {
    var all := xs + ys;
    assert all[..|all| - 1] == xs + ys[..|ys| - 1];
  }

  lemma Grouped(a: string, b: string, last: string)
    ensures a + (" " + b) + (" " + last) == a + (" " + (b + (" " + last)))
  {
  }

  /** Joined words are no wider than a line they stand in. */
  lemma JoinMonotone(c: Cutter, before: seq<string>, ws: seq<string>, after: seq<string>)
    requires Monotone(c) && ws != []
    ensures c.vl(Join(ws)) <= c.vl(Join(before + ws + after))
  {
    var first := before + ws;
    assert c.vl(Join(ws)) <= c.vl(Join(first)) by {
      if before == [] {
        assert first == ws;
      } else {
        JoinAppend(before, ws);
        assert Join(first) == (Join(before) + " ") + Join(ws);
      }
    }
    if after == [] {
      assert first + after == first;
    } else {
      JoinAppend(first, after);
    }
  }

  /** Whatever the words `p` another breaking has still to place, it needs as many lines as the wrapper from here on. */
  lemma {:induction false} GroupsStayAhead(c: Cutter, w: nat, p: seq<string>, g: seq<string>, words: seq<string>, gs: seq<seq<string>>)
    requires Monotone(c) && Breaking(c, p + g + words, w, gs)
    requires AllFit(c, words, w)
    ensures |Groups(c, w, g, words)| <= |gs|
    decreases |words|, |gs|
  {
    if words != [] {
      var longer := g + [words[0]];
      if g == [] || c.vl(Join(longer)) <= w {
        assert p + longer + words[1..] == p + g + words;
        GroupsStayAhead(c, w, p, longer, words[1..], gs);
      } else {
        var n := |gs[0]|;
        if n > |p + g| {
          assert gs[0] == Flatten(gs)[..n] == p + longer + words[1..][..n - |p + longer|];
          JoinMonotone(c, p, longer, words[1..][..n - |p + longer|]);
          assert false;
        }
        var left := (p + g)[n..];
        assert Flatten(gs[1..]) == Flatten(gs)[n..] == left + [words[0]] + words[1..];
        GroupsStayAhead(c, w, left, [words[0]], words[1..], gs[1..]);
      }
    }
  }

  /** When every word fits, the lines are an in-order breaking of the words, and none has fewer lines. */
  lemma WrapIsShortest(c: Cutter, text: string, width: int, gs: seq<seq<string>>)
    requires Lawful(c) && Monotone(c)
    requires AllFit(c, Words(text), Columns(width))
    ensures exists own :: Breaking(c, Words(text), Columns(width), own) && Wrapped(c, text, width) == Joins(own)
    ensures Breaking(c, Words(text), Columns(width), gs) ==> |Wrapped(c, text, width)| <= |gs|
  {
    var w, words := Columns(width), Words(text);
    WordsAreWords("", text);
    WrapIsGroups(c, w, [], words);
    GroupsBreak(c, w, [], words);
    assert [] + words == words;
    JoinsLength(Groups(c, w, [], words));
    if Breaking(c, words, w, gs) {
      assert [] + [] + words == words;
      GroupsStayAhead(c, w, [], [], words, gs);
    }
  }

  lemma {:induction false} JoinsLength(gs: seq<seq<string>>)
    ensures |Joins(gs)| == |gs|
  {
    if gs != [] { JoinsLength(gs[1..]); }
  }
}
