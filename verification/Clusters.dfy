/**
 The cut the wrappers make (admin/src/panel.mjs, `sliceColumns` and `cutUnits`): the first columns of a text, a joiner
 left at the cut removed, then back to the last grapheme boundary.
 */
module Clusters {
  import opened Wrappers
  import opened Wrap

  const ZWJ := '\U{200D}'

  /**
   The columns of a character, and the length of the first grapheme cluster of a text, which a segmenter decides from
   the text that is left.
   */
  datatype Metric = Metric(cols: char -> nat, first: string -> nat)

  /** No cluster ends before a joiner (rule GB9 of Unicode Annex 29). */
  ghost predicate JoinsJoiners(m: Metric) {
    forall s {:trigger m.first(s)} :: s != "" && ClusterLength(m, s) < |s| ==> s[ClusterLength(m, s)] != ZWJ
  }

  function Width(m: Metric, s: string): nat {
    if s == "" then 0 else m.cols(s[0]) + Width(m, s[1..])
  }

  /** The length of the longest start of `s` of at most `w` columns. */
  function Fitting(m: Metric, s: string, w: nat): (n: nat)
    ensures n <= |s|
  {
    if s == "" || m.cols(s[0]) > w then 0 else 1 + Fitting(m, s[1..], w - m.cols(s[0]))
  }

  /** `s` without the joiners it ends on. */
  function Unjoined(s: string): (r: string)
    ensures r <= s
    ensures r == "" || r[|r| - 1] != ZWJ
  {
    if s == "" || s[|s| - 1] != ZWJ then s else Unjoined(s[..|s| - 1])
  }

  function SliceColumns(m: Metric, s: string, w: nat): (r: string)
    ensures r <= s
  {
    if w == 0 then "" else Unjoined(s[..Fitting(m, s, w)])
  }

  /** The length of the first grapheme cluster. */
  function ClusterLength(m: Metric, s: string): (n: nat)
    requires s != ""
    ensures 1 <= n <= |s|
  {
    if 1 <= m.first(s) <= |s| then m.first(s) else |s|
  }

  /** The longest start of `s` of at most `n` characters that ends between clusters. */
  function CutUnits(m: Metric, s: string, n: nat): (r: string)
    ensures r <= s && |r| <= n
    decreases |s|
  {
    if s == "" || ClusterLength(m, s) > n then ""
    else
      var k := ClusterLength(m, s);
      s[..k] + CutUnits(m, s[k..], n - k)
  }

  function CutAt(m: Metric, s: string, w: nat): (r: string)
    ensures r <= s
  {
    CutUnits(m, s, |SliceColumns(m, s, w)|)
  }

  function CutterOf(m: Metric): Cutter {
    Cutter(s => Width(m, s), (s, w: nat) => CutAt(m, s, w))
  }

  lemma {:induction false} WidthAppend(m: Metric, x: string, y: string)
    ensures Width(m, x + y) == Width(m, x) + Width(m, y)
  {
    if x == "" {
      assert x + y == y;
    } else {
      WidthAppend(m, x[1..], y);
      assert (x + y)[1..] == x[1..] + y;
    }
  }

  lemma WidthPrefix(m: Metric, p: string, s: string)
    requires p <= s
    ensures Width(m, p) <= Width(m, s)
  {
    assert s == p + s[|p|..];
    WidthAppend(m, p, s[|p|..]);
  }

  /** A start of the text fits exactly when it is no longer than `Fitting`. */
  lemma {:induction false} FittingFits(m: Metric, s: string, w: nat, k: nat)
    requires k <= |s|
    ensures k <= Fitting(m, s, w) <==> Width(m, s[..k]) <= w
  {
    if s != "" && k > 0 {
      assert s[..k][1..] == s[1..][..k - 1];
      if m.cols(s[0]) <= w {
        FittingFits(m, s[1..], w - m.cols(s[0]), k - 1);
      }
    }
  }

  lemma {:induction false} FittingIsLongest(m: Metric, s: string, w: nat, e: nat)
    requires Fitting(m, s, w) < e <= |s|
    ensures Width(m, s[..e]) > w
  {
    assert s[..e][0] == s[0] && s[..e][1..] == s[1..][..e - 1];
    if m.cols(s[0]) <= w { FittingIsLongest(m, s[1..], w - m.cols(s[0]), e - 1); }
  }

  /** What is taken off the end is joiners. */
  lemma {:induction false} UnjoinedDropsJoiners(s: string, k: nat)
    requires |Unjoined(s)| <= k < |s|
    ensures s[k] == ZWJ
  {
    if k < |s| - 1 { UnjoinedDropsJoiners(s[..|s| - 1], k); }
  }

  lemma {:induction false} NextClusterIsOver(m: Metric, s: string, n: nat)
    requires CutUnits(m, s, n) != s
    ensures |CutUnits(m, s, n)| < |s| && |CutUnits(m, s, n)| + ClusterLength(m, s[|CutUnits(m, s, n)|..]) > n
    decreases |s|
  {
    var k := ClusterLength(m, s);
    if k <= n {
      assert s == s[..k] + s[k..];
      NextClusterIsOver(m, s[k..], n - k);
      assert s[|CutUnits(m, s, n)|..] == s[k..][|CutUnits(m, s[k..], n - k)|..];
    }
  }

  /** The cut is as long as it can be: with the next cluster it would be too wide, or that cluster ends in a joiner. */
  lemma CutIsLongest(m: Metric, s: string, w: nat)
    requires w >= 1 && CutAt(m, s, w) != s
    ensures var r := CutAt(m, s, w);
            && |r| < |s|
            && var e := |r| + ClusterLength(m, s[|r|..]); Width(m, s[..e]) > w || s[e - 1] == ZWJ
  {
    var f := Fitting(m, s, w);
    var n := |SliceColumns(m, s, w)|;
    NextClusterIsOver(m, s, n);
    var e := |CutAt(m, s, w)| + ClusterLength(m, s[|CutAt(m, s, w)|..]);
    if e > f {
      FittingIsLongest(m, s, w, e);
    } else {
      UnjoinedDropsJoiners(s[..f], e - 1);
    }
  }

  /** The real cut obeys the laws the wrappers are proved from. */
  lemma CutterIsLawful(m: Metric)
    ensures Lawful(CutterOf(m)) && Monotone(CutterOf(m))
  {
    var c := CutterOf(m);
    forall x, w: nat ensures c.cut(x, w) <= x && c.vl(c.cut(x, w)) <= w {
      var slice := SliceColumns(m, x, w);
      FittingFits(m, x, w, Fitting(m, x, w));
      WidthPrefix(m, slice, x[..Fitting(m, x, w)]);
      WidthPrefix(m, CutAt(m, x, w), slice);
    }
    forall x, y ensures c.vl(x) <= c.vl(x + y) && c.vl(y) <= c.vl(x + y) {
      WidthAppend(m, x, y);
    }
  }

  // ---- which texts can be cut down ----

  /** The first cluster fits, and so does the character after it where the cluster ends in a joiner. */
  predicate FirstHasRoom(m: Metric, s: string, w: nat)
    requires s != ""
  {
    var k := ClusterLength(m, s);
    Width(m, s[..k]) <= w && (s[k - 1] == ZWJ && k < |s| ==> Width(m, s[..k + 1]) <= w)
  }

  /** Every cluster has room. */
  predicate HasRoom(m: Metric, s: string, w: nat)
    decreases |s|
  {
    s == "" || (FirstHasRoom(m, s, w) && HasRoom(m, s[ClusterLength(m, s)..], w))
  }

  lemma {:induction false} UnjoinedKeeps(s: string, k: nat)
    requires 1 <= k <= |s| && s[k - 1] != ZWJ
    ensures k <= |Unjoined(s)|
  {
    if s[|s| - 1] == ZWJ {
      UnjoinedKeeps(s[..|s| - 1], k);
    }
  }

  lemma WidthSplit(m: Metric, s: string, k: nat)
    requires k <= |s|
    ensures Width(m, s) == Width(m, s[..k]) + Width(m, s[k..])
  {
    assert s == s[..k] + s[k..];
    WidthAppend(m, s[..k], s[k..]);
  }

  lemma FirstOfAStartHasRoom(m: Metric, s: string, n: nat, w: nat)
    requires n <= |s| && Width(m, s[..n]) <= w && (n == 0 || s[n - 1] != ZWJ)
    requires s != "" && ClusterLength(m, s) <= n
    ensures FirstHasRoom(m, s, w)
    ensures Width(m, s[ClusterLength(m, s)..][..n - ClusterLength(m, s)]) <= w
  {
    var k := ClusterLength(m, s);
    assert s[..n][..k] == s[..k] && s[..n][k..] == s[k..][..n - k];
    WidthSplit(m, s[..n], k);
    if k < n {
      assert s[..n][..k + 1] == s[..k + 1];
      WidthSplit(m, s[..n], k + 1);
    }
  }

  /** The clusters that a start of the text holds, which fits and does not end in a joiner, all have room. */
  lemma {:induction false} SkippedHaveRoom(m: Metric, s: string, n: nat, w: nat)
    requires n <= |s| && Width(m, s[..n]) <= w && (n == 0 || s[n - 1] != ZWJ)
    ensures HasRoom(m, s, w) <==> HasRoom(m, s[|CutUnits(m, s, n)|..], w)
    decreases |s|
  {
    if s != "" && ClusterLength(m, s) <= n {
      var k := ClusterLength(m, s);
      var rest := s[k..];
      FirstOfAStartHasRoom(m, s, n, w);
      hide FirstHasRoom, Width;
      SkippedHaveRoom(m, rest, n - k, w);
      assert rest[|CutUnits(m, rest, n - k)|..] == s[|CutUnits(m, s, n)|..];
    }
  }

  /** A text that fits has room throughout. */
  lemma {:induction false} FittingTextHasRoom(m: Metric, s: string, w: nat)
    requires Width(m, s) <= w
    ensures HasRoom(m, s, w)
    decreases |s|
  {
    if s != "" {
      var k := ClusterLength(m, s);
      WidthSplit(m, s, k);
      if k < |s| { WidthSplit(m, s, k + 1); }
      FittingTextHasRoom(m, s[k..], w);
    }
  }

  lemma {:induction false} NoRoomInNoColumns(m: Metric, s: string)
    requires HasRoom(m, s, 0)
    ensures Width(m, s) == 0
    decreases |s|
  {
    if s != "" {
      var k := ClusterLength(m, s);
      WidthSplit(m, s, k);
      NoRoomInNoColumns(m, s[k..]);
    }
  }

  /** The cut of a text too wide for the line takes its first cluster exactly where that one has room. */
  lemma CutsWhereThereIsRoom(m: Metric, s: string, w: nat)
    requires JoinsJoiners(m) && Width(m, s) > w && w > 0
    ensures s != "" && (CutAt(m, s, w) != "" <==> FirstHasRoom(m, s, w))
  {
    var k, fit := ClusterLength(m, s), Fitting(m, s, w);
    FittingFits(m, s, w, k);
    WidthSplit(m, s, k);
    assert m.first(s) == m.first(s);
    assert s[..fit] <= s;
    if k <= fit && s[k - 1] != ZWJ {
      assert s[..fit][k - 1] == s[k - 1];
      UnjoinedKeeps(s[..fit], k);
    }
    if k < |s| {
      FittingFits(m, s, w, k + 1);
      if k < fit {
        assert s[..fit][k] == s[k];
        UnjoinedKeeps(s[..fit], k + 1);
      }
    }
  }

  /** A text can be cut down to `w` columns if and only if every cluster of it has room in them. */
  lemma {:induction false} CuttableIffRoom(m: Metric, s: string, w: nat)
    requires JoinsJoiners(m)
    ensures Cuttable(CutterOf(m), s, w) <==> HasRoom(m, s, w)
    decreases |s|
  {
    if Width(m, s) <= w {
      FittingTextHasRoom(m, s, w);
    } else if w == 0 {
      if HasRoom(m, s, 0) { NoRoomInNoColumns(m, s); }
      assert CutAt(m, s, 0) == "";
    } else {
      CutsWhereThereIsRoom(m, s, w);
      var n := |SliceColumns(m, s, w)|;
      FittingFits(m, s, w, Fitting(m, s, w));
      WidthPrefix(m, SliceColumns(m, s, w), s[..Fitting(m, s, w)]);
      assert s[..n] == SliceColumns(m, s, w);
      SkippedHaveRoom(m, s, n, w);
      if CutAt(m, s, w) != "" {
        CuttableIffRoom(m, s[|CutAt(m, s, w)|..], w);
      }
    }
  }

  ghost predicate AllHaveRoom(m: Metric, words: seq<string>, w: nat) {
    forall i :: 0 <= i < |words| ==> HasRoom(m, words[i], w)
  }

  /** `wrapColumns` emits no line wider than the width, if and only if every cluster of every word has room. */
  lemma WrapFitsIffRoom(m: Metric, text: string, width: int)
    requires JoinsJoiners(m)
    ensures AllFit(CutterOf(m), Wrapped(CutterOf(m), text, width), Columns(width)) <==> AllHaveRoom(m, Words(text), Columns(width))
  {
    CutterIsLawful(m);
    WrapFitsIffCuttable(CutterOf(m), text, width);
    forall word ensures Cuttable(CutterOf(m), word, Columns(width)) <==> HasRoom(m, word, Columns(width)) {
      CuttableIffRoom(m, word, Columns(width));
    }
  }

  /** `hardWrap` emits no piece wider than the width, if and only if every cluster of the line has room. */
  method HardWrapText(m: Metric, line: string, w: nat) returns (out: seq<string>)
    requires JoinsJoiners(m)
    ensures Concat(out) == line && out != []
    ensures AllFit(CutterOf(m), out, w) <==> HasRoom(m, line, w)
  {
    CutterIsLawful(m);
    CuttableIffRoom(m, line, w);
    out := HardWrap(CutterOf(m), line, Some(w));
  }

  // ---- a line too wide although every cluster fits ----

  function JoinedLength(s: string): nat {
    if |s| > 1 && s[1] == ZWJ then 1 + JoinedLength(s[1..]) else 1
  }

  /** One column a character, none for the joiner, which stays with the character before it. */
  const JOINING := Metric(c => if c == ZWJ then 0 else 1, s => JoinedLength(s))

  const STUCK := ['a', ZWJ, 'b', 'c']

  lemma {:induction false} JoinedLengthEnds(s: string)
    requires s != ""
    ensures 1 <= JoinedLength(s) <= |s| && (JoinedLength(s) < |s| ==> s[JoinedLength(s)] != ZWJ)
  {
    if |s| > 1 && s[1] == ZWJ {
      JoinedLengthEnds(s[1..]);
    }
  }

  /** At one column every cluster of the word fits, and `b` after the joiner does not: the whole word goes out. */
  lemma JoinerLeavesALineTooWide()
    ensures JoinsJoiners(JOINING)
    ensures ClusterLength(JOINING, STUCK) == 2 && Width(JOINING, STUCK[..2]) == 1
    ensures forall i :: 2 <= i < 4 ==> ClusterLength(JOINING, STUCK[i..]) == 1 && Width(JOINING, STUCK[i..i + 1]) == 1
    ensures Wrapped(CutterOf(JOINING), STUCK, 1) == [STUCK] && Width(JOINING, STUCK) == 3
    ensures !HasRoom(JOINING, STUCK, 1)
  {
    var m := JOINING;
    forall s | s != "" ensures ClusterLength(m, s) < |s| ==> s[ClusterLength(m, s)] != ZWJ { JoinedLengthEnds(s); }
    StuckIsMeasured();
    StuckIsOneWord();
    CutterIsLawful(m);
    CuttableIffRoom(m, STUCK, 1);
    CutsWhereThereIsRoom(m, STUCK, 1);
    assert Take(CutterOf(m), 1, "", STUCK) == ([], STUCK);
    assert [STUCK][0] == STUCK && [STUCK][1..] == [];
    assert WrapFrom(CutterOf(m), 1, "", [STUCK]) == [] + [STUCK];
  }

  lemma StuckIsMeasured()
    ensures ClusterLength(JOINING, STUCK) == 2 && Width(JOINING, STUCK[..2]) == 1 && Width(JOINING, STUCK[..3]) == 2
    ensures forall i :: 2 <= i < 4 ==> ClusterLength(JOINING, STUCK[i..]) == 1 && Width(JOINING, STUCK[i..i + 1]) == 1
    ensures Width(JOINING, STUCK) == 3
  {
    var m := JOINING;
    assert STUCK[1..] == [ZWJ, 'b', 'c'] && STUCK[2..] == ['b', 'c'] && STUCK[3..] == ['c'];
    assert STUCK[2..3] == ['b'] && STUCK[3..4] == ['c'];
    assert JoinedLength([ZWJ, 'b', 'c']) == 1 && JoinedLength(STUCK) == 2;
    assert [ZWJ, 'b', 'c'][1..] == ['b', 'c'] && ['b', 'c'][1..] == ['c'];
    assert Width(m, ['c']) == 1 && Width(m, ['b']) == 1 && Width(m, ['b', 'c']) == 2 && Width(m, [ZWJ, 'b', 'c']) == 2;
    assert STUCK[..2] == ['a', ZWJ] && STUCK[..3] == ['a', ZWJ, 'b'];
    assert ['a', ZWJ][1..] == [ZWJ] && [ZWJ][1..] == "" && Width(m, [ZWJ]) == 0;
    assert ['a', ZWJ, 'b'][1..] == [ZWJ, 'b'] && [ZWJ, 'b'][1..] == ['b'] && Width(m, [ZWJ, 'b']) == 1;
  }

  lemma StuckIsOneWord()
    ensures Words(STUCK) == [STUCK]
  {
    assert STUCK[1..] == [ZWJ, 'b', 'c'] && [ZWJ, 'b', 'c'][1..] == ['b', 'c'] && ['b', 'c'][1..] == ['c'] && ['c'][1..] == "";
    assert [] + ['a'] == ['a'] && ['a'] + [ZWJ] == ['a', ZWJ] && ['a', ZWJ] + ['b'] == ['a', ZWJ, 'b'];
    assert ['a', ZWJ, 'b'] + ['c'] == STUCK;
    assert WordsFrom(STUCK, "") == [STUCK];
    assert WordsFrom(['a', ZWJ, 'b'], ['c']) == [STUCK];
    assert WordsFrom(['a', ZWJ], ['b', 'c']) == [STUCK];
    assert WordsFrom(['a'], [ZWJ, 'b', 'c']) == [STUCK];
  }
}
