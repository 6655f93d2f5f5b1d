/**
 One trigger row of the LIST view, fitted to its frame (admin/src/dashboard.ts, `fitTriggerRow`, `fitLine`,
 `rowFloorMatch`): a minimum, a drop order, and a give-back of the columns left over.
 */
module TriggerRow {
  import opened Wrappers

  /** The text primitives of admin/src/style.mjs: columns, the two cuts, colour, and the ellipsis glyph. */
  datatype Styler = Styler(
    vl: string -> nat,
    slice: (string, nat) -> string,
    clipStyled: (string, nat) -> string,
    fg: (string, string) -> string,
    ellipsis: string)

  function Spaces(n: nat): string {
    seq(n, i requires 0 <= i < n => ' ')
  }

  /** Spaces after a text are a column each. */
  ghost predicate Pads(st: Styler, x: string) {
    forall n: nat {:trigger Spaces(n)} :: st.vl(x + Spaces(n)) == st.vl(x) + n
  }

  /** What is assumed of a styler, on the line it is given: the cut is at most its width, and both can be padded. */
  ghost predicate Lawful(st: Styler, line: string, inner: nat) {
    && Pads(st, line)
    && st.vl(st.clipStyled(line, inner)) <= inner
    && Pads(st, st.clipStyled(line, inner))
  }

  method FitLine(st: Styler, line: string, inner: nat) returns (r: string)
    requires Lawful(st, line, inner)
    ensures st.vl(r) == inner
    ensures st.vl(line) <= inner ==> r == line + Spaces(inner - st.vl(line))
    ensures st.vl(line) > inner ==> r == st.clipStyled(line, inner) + Spaces(inner - st.vl(st.clipStyled(line, inner)))
  {
    var vis := st.vl(line);
    if vis == inner {
      assert line + Spaces(0) == line;
      return line;
    }
    if vis < inner {
      return line + Spaces(inner - vis);
    }
    var cut := st.clipStyled(line, inner);
    r := cut + Spaces(Max(0, inner - st.vl(cut)));
  }

  datatype Badge = Badge(color: string, risk: bool, pre: string, free: string, post: string)

  /** A row before it is fitted. `floor` is the fewest selector columns it keeps. */
  datatype Row = Row(lead: string, selector: string, target: string, badges: seq<Badge>, floor: nat)

  const ROW_MIN_MATCH := 5

  /** `rowFloorMatch`: the whole selector if shorter, else its first columns, or a cron row's id. */
  function RowFloorMatch(st: Styler, cronId: Option<string>, selector: string): (floor: nat)
    ensures floor <= st.vl(selector)
    ensures floor == 0 <==> st.vl(selector) == 0
    ensures floor < st.vl(selector) ==> match cronId case Some(id) => floor > st.vl(id) && floor - st.vl(id) == 1 case None => floor == 5
  {
    Min(st.vl(selector), if cronId.Some? then st.vl(cronId.value) + 1 else ROW_MIN_MATCH)
  }

  ghost predicate Floored(st: Styler, row: Row) {
    row.floor <= st.vl(row.selector) && (row.floor == 0 ==> st.vl(row.selector) == 0)
  }

  /** A layout: the selector's columns, the badges kept, and the columns of each badge's free text. */
  datatype Layout = Layout(mw: nat, kept: seq<nat>, free: seq<nat>)

  function Clip(st: Styler, x: string, w: nat): string {
    if w == 0 then ""
    else if st.vl(x) <= w then x
    else if w <= st.vl(st.ellipsis) then st.slice(st.ellipsis, w)
    else st.clipStyled(x, w)
  }

  // ---- what a cut shows ----

  /** No longer start of the text fits. */
  ghost predicate LongestStart(st: Styler, head: string, x: string, w: nat) {
    && head <= x && st.vl(head) <= w
    && forall n :: |head| < n <= |x| ==> st.vl(x[..n]) > w
  }

  /** A text too wide for `w` columns, cut: its longest start that leaves room for the ellipsis, that, and at most a closing code. */
  ghost predicate CutWithEllipsis(st: Styler, x: string, w: nat, shown: string) {
    exists head: string, code: string ::
      shown == head + (st.ellipsis + code) && st.vl(code) == 0 && w >= st.vl(st.ellipsis) && LongestStart(st, head, x, w - st.vl(st.ellipsis))
  }

  /** What is shown of a text in `w` columns: all of it, or its start with the ellipsis, or where there is no room for both the ellipsis alone. */
  ghost predicate Shows(st: Styler, x: string, w: nat, shown: string) {
    && st.vl(shown) <= w
    && if w == 0 then shown == ""
       else if st.vl(x) <= w then shown == x
       else if w <= st.vl(st.ellipsis) then shown <= st.ellipsis && (w == st.vl(st.ellipsis) ==> shown == st.ellipsis)
       else CutWithEllipsis(st, x, w, shown)
  }

  /** What is assumed of the two cuts, on one text: `clipStyled` cuts it so, and `slice` cuts the ellipsis to a start. */
  ghost predicate CutLaw(st: Styler, x: string) {
    && st.vl("") == 0
    && (forall w: nat :: st.vl(st.ellipsis) < w < st.vl(x) ==> st.vl(st.clipStyled(x, w)) <= w && CutWithEllipsis(st, x, w, st.clipStyled(x, w)))
    && (forall w: nat :: 0 < w <= st.vl(st.ellipsis) ==>
          st.slice(st.ellipsis, w) <= st.ellipsis && st.vl(st.slice(st.ellipsis, w)) <= w && (w == st.vl(st.ellipsis) ==> st.slice(st.ellipsis, w) == st.ellipsis))
  }

  lemma ClipShows(st: Styler, x: string, w: nat)
    requires CutLaw(st, x)
    ensures Shows(st, x, w, Clip(st, x, w))
  {
  }

  /** A text is shown whole exactly where it is given its whole columns. */
  lemma WholeIffItsColumns(st: Styler, x: string, w: nat, shown: string)
    requires Shows(st, x, w, shown)
    ensures w > 0 ==> (shown == x <==> st.vl(x) <= w)
  {
  }

  ghost predicate CutLaws(st: Styler, row: Row) {
    CutLaw(st, row.selector) && forall i :: 0 <= i < |row.badges| ==> CutLaw(st, row.badges[i].free)
  }

  /** One kept badge: a space, and in its colour its fixed text around what is shown of its free text. */
  ghost predicate ShowsBadge(st: Styler, b: Badge, w: nat, text: string) {
    exists shown: string :: Shows(st, b.free, w, shown) && text == " " + st.fg(b.color, b.pre + shown + b.post)
  }

  /** The kept badges, in order. */
  ghost predicate ShowsBadges(st: Styler, row: Row, lay: Layout, texts: seq<string>)
    requires ValidLayout(row, lay)
  {
    |texts| == |lay.kept| && forall j :: 0 <= j < |texts| ==> ShowsBadge(st, row.badges[lay.kept[j]], lay.free[lay.kept[j]], texts[j])
  }

  function Joined(texts: seq<string>): string {
    if texts == [] then "" else texts[0] + Joined(texts[1..])
  }

  /** The line is the lead, what is shown of the selector and a space, the target, the kept badges, and spaces up to the frame. */
  ghost predicate ShowsRow(st: Styler, row: Row, lay: Layout, line: string)
    requires ValidLayout(row, lay)
  {
    exists selector: string, texts: seq<string>, pad: nat ::
      && (if lay.mw == 0 then selector == "" else exists shown: string :: Shows(st, row.selector, lay.mw, shown) && selector == shown + " ")
      && ShowsBadges(st, row, lay, texts)
      && line == row.lead + selector + row.target + Joined(texts) + Spaces(pad)
  }

  lemma {:induction false} BadgesShow(st: Styler, badges: seq<Badge>, kept: seq<nat>, free: seq<nat>) returns (texts: seq<string>)
    requires |free| == |badges| && Below(kept, |badges|) && forall i :: 0 <= i < |badges| ==> CutLaw(st, badges[i].free)
    ensures |texts| == |kept| && forall j :: 0 <= j < |texts| ==> ShowsBadge(st, badges[kept[j]], free[kept[j]], texts[j])
    ensures BadgesText(st, badges, kept, free) == Joined(texts)
  {
    if kept == [] {
      texts := [];
    } else {
      var b, w := badges[kept[0]], free[kept[0]];
      var rest := BadgesShow(st, badges, kept[1..], free);
      ClipShows(st, b.free, w);
      texts := [BadgeText(st, b, w)] + rest;
      assert texts[1..] == rest;
      assert ShowsBadge(st, b, w, texts[0]);
    }
  }

  lemma ComposeShows(st: Styler, row: Row, lay: Layout, pad: nat)
    requires ValidLayout(row, lay) && CutLaws(st, row)
    ensures ShowsRow(st, row, lay, Compose(st, row, lay) + Spaces(pad))
  {
    var texts := BadgesShow(st, row.badges, lay.kept, lay.free);
    ClipShows(st, row.selector, lay.mw);
    var selector := SelectorText(st, row, lay.mw);
    assert ShowsBadges(st, row, lay, texts);
    assert lay.mw > 0 ==> selector == Clip(st, row.selector, lay.mw) + " ";
    hide Clip, Shows, ShowsBadges, Joined;
  }

  predicate Below(kept: seq<nat>, n: nat) {
    forall j :: 0 <= j < |kept| ==> kept[j] < n
  }

  predicate ValidLayout(row: Row, lay: Layout) {
    |lay.free| == |row.badges| && Below(lay.kept, |row.badges|)
  }

  function BadgeText(st: Styler, b: Badge, w: nat): string {
    " " + st.fg(b.color, b.pre + Clip(st, b.free, w) + b.post)
  }

  function BadgesText(st: Styler, badges: seq<Badge>, kept: seq<nat>, free: seq<nat>): string
    requires |free| == |badges| && Below(kept, |badges|)
  {
    if kept == [] then ""
    else BadgeText(st, badges[kept[0]], free[kept[0]]) + BadgesText(st, badges, kept[1..], free)
  }

  function SelectorText(st: Styler, row: Row, mw: nat): string {
    if mw > 0 then Clip(st, row.selector, mw) + " " else ""
  }

  function Compose(st: Styler, row: Row, lay: Layout): string
    requires ValidLayout(row, lay)
  {
    row.lead + SelectorText(st, row, lay.mw) + row.target + BadgesText(st, row.badges, lay.kept, lay.free)
  }

  function Over(st: Styler, row: Row, lay: Layout, inner: nat): int
    requires ValidLayout(row, lay)
  {
    st.vl(Compose(st, row, lay)) - inner
  }

  /** The same, of the row however it is laid out. */
  ghost predicate LawfulRow(st: Styler, row: Row, inner: nat) {
    forall lay: Layout {:trigger Compose(st, row, lay)} :: ValidLayout(row, lay) ==> Lawful(st, Compose(st, row, lay), inner)
  }

  // ---- a row of unit width ----

  /** The columns of the kept badges: a space, the fixed text, and the cut of the free text, each. */
  function BadgesColumns(st: Styler, badges: seq<Badge>, kept: seq<nat>, free: seq<nat>): nat
    requires |free| == |badges| && Below(kept, |badges|)
  {
    if kept == [] then 0
    else
      var b := badges[kept[0]];
      1 + st.vl(b.pre) + Min(free[kept[0]], st.vl(b.free)) + st.vl(b.post) + BadgesColumns(st, badges, kept[1..], free)
  }

  /** The columns of a row's parts: the cuts fill what they are given, and the selector brings a space. */
  function PartsColumns(st: Styler, row: Row, lay: Layout): nat
    requires ValidLayout(row, lay)
  {
    st.vl(row.lead) + (if lay.mw > 0 then Min(lay.mw, st.vl(row.selector)) + 1 else 0) + st.vl(row.target)
    + BadgesColumns(st, row.badges, lay.kept, lay.free)
  }

  /** Text of unit width: however the row is laid out, it is as wide as its parts. */
  ghost predicate UnitWidth(st: Styler, row: Row) {
    forall lay: Layout {:trigger Compose(st, row, lay)} :: ValidLayout(row, lay) ==> st.vl(Compose(st, row, lay)) == PartsColumns(st, row, lay)
  }

  // ---- the layouts the rule goes through ----

  function Indices(n: nat): seq<nat> {
    seq(n, i requires 0 <= i < n => i)
  }

  /** The badges left when the non-risk ones from `n` on are dropped. */
  function Survivors(badges: seq<Badge>, n: nat): seq<nat>
    requires n <= |badges|
    decreases |badges| - n
  {
    if n == |badges| then Indices(n)
    else
      var rest := Survivors(badges, n + 1);
      if badges[n].risk then rest else Without(rest, n)
  }

  function Without(kept: seq<nat>, i: nat): seq<nat> {
    if kept == [] then [] else if kept[0] == i then kept[1..] else [kept[0]] + Without(kept[1..], i)
  }

  predicate Ascending(kept: seq<nat>) {
    forall i, j :: 0 <= i < j < |kept| ==> kept[i] < kept[j]
  }

  function Frees(st: Styler, badges: seq<Badge>): seq<nat> {
    seq(|badges|, i requires 0 <= i < |badges| => FreeWidth(st, badges[i]))
  }

  function FreeWidth(st: Styler, b: Badge): nat {
    st.vl(b.free)
  }

  function Full(st: Styler, row: Row): Layout {
    Layout(st.vl(row.selector), Indices(|row.badges|), Frees(st, row.badges))
  }

  /** The minimum: the selector at its floor, every badge's free text at its ellipsis, the non-risk badges from `n` on dropped. */
  function Least(st: Styler, row: Row, n: nat): Layout
    requires n <= |row.badges|
  {
    Layout(row.floor, Survivors(row.badges, n), LeastFrees(st, row.badges))
  }

  function LeastFrees(st: Styler, badges: seq<Badge>): seq<nat> {
    seq(|badges|, i requires 0 <= i < |badges| => LeastFree(st, badges[i]))
  }

  function LeastFree(st: Styler, b: Badge): nat {
    Min(1, st.vl(b.free))
  }

  /** Exactly the risk badges and the first `n`, in order. */
  lemma {:induction false} SurvivorsExact(badges: seq<Badge>, n: nat)
    requires n <= |badges|
    ensures Ascending(Survivors(badges, n))
    ensures forall i :: i in Survivors(badges, n) <==> 0 <= i < |badges| && (i < n || badges[i].risk)
    decreases |badges| - n
  {
    if n < |badges| {
      SurvivorsExact(badges, n + 1);
      WithoutExact(Survivors(badges, n + 1), n);
    } else {
      IndicesExact(n);
    }
  }

  lemma IndicesExact(n: nat)
    ensures forall i: int :: i in Indices(n) <==> 0 <= i < n
  {
    forall i: nat | i < n ensures i in Indices(n) { assert Indices(n)[i] == i; }
  }

  lemma {:induction false} WithoutExact(kept: seq<nat>, i: nat)
    requires Ascending(kept)
    ensures Ascending(Without(kept, i))
    ensures forall k :: k in Without(kept, i) <==> k in kept && k != i
  {
    if kept != [] {
      WithoutExact(kept[1..], i);
      assert forall k :: k in kept <==> k == kept[0] || k in kept[1..];
    }
  }

  lemma SurvivorsInRange(badges: seq<Badge>, n: nat)
    requires n <= |badges|
    ensures Below(Survivors(badges, n), |badges|)
  {
    SurvivorsExact(badges, n);
    var kept := Survivors(badges, n);
    assert forall j :: 0 <= j < |kept| ==> kept[j] in kept;
  }

  // ---- the give-back ----

  /** A part that can grow: the selector, or a badge's free text. */
  datatype Slot = Selector | FreeText(i: nat)

  predicate HasSlot(row: Row, lay: Layout, s: Slot) {
    s.FreeText? ==> s.i < |row.badges| && s.i < |lay.free|
  }

  function Columns(row: Row, lay: Layout, s: Slot): nat
    requires HasSlot(row, lay, s)
  {
    match s case Selector => lay.mw case FreeText(i) => lay.free[i]
  }

  function Whole(st: Styler, row: Row, lay: Layout, s: Slot): nat
    requires HasSlot(row, lay, s)
  {
    match s case Selector => st.vl(row.selector) case FreeText(i) => st.vl(row.badges[i].free)
  }

  function With(row: Row, lay: Layout, s: Slot, w: nat): Layout
    requires HasSlot(row, lay, s)
  {
    match s case Selector => lay.(mw := w) case FreeText(i) => lay.(free := lay.free[i := w])
  }

  /** A slot the give-back may grow: kept, no wider than its whole, and with its trailing space already there. */
  ghost predicate Growable(st: Styler, row: Row, lay: Layout, s: Slot) {
    && HasSlot(row, lay, s)
    && Columns(row, lay, s) <= Whole(st, row, lay, s)
    && (s.FreeText? ==> s.i in lay.kept)
    && (s == Selector ==> lay.mw == 0 ==> st.vl(row.selector) == 0)
  }

  lemma {:induction false} BadgesGrow(st: Styler, badges: seq<Badge>, kept: seq<nat>, free: seq<nat>, i: nat, w: nat)
    requires |free| == |badges| && Ascending(kept) && Below(kept, |badges|)
    requires i < |badges| && free[i] <= st.vl(badges[i].free) && w <= st.vl(badges[i].free)
    ensures BadgesColumns(st, badges, kept, free[i := w]) == BadgesColumns(st, badges, kept, free) + (if i in kept then w - free[i] else 0)
  {
    if kept != [] {
      BadgesGrow(st, badges, kept[1..], free, i, w);
      assert i in kept <==> i == kept[0] || i in kept[1..];
    }
  }

  /** With text of unit width, a growable slot's columns are the row's. */
  lemma GrowingIsExact(st: Styler, row: Row, lay: Layout, s: Slot, w: nat)
    requires UnitWidth(st, row) && ValidLayout(row, lay) && Ascending(lay.kept) && Growable(st, row, lay, s)
    requires Columns(row, lay, s) <= w <= Whole(st, row, lay, s)
    ensures st.vl(Compose(st, row, With(row, lay, s, w))) == st.vl(Compose(st, row, lay)) + w - Columns(row, lay, s)
  {
    hide Compose;
    match s {
      case Selector =>
      case FreeText(i) =>
        BadgesGrow(st, row.badges, lay.kept, lay.free, i, w);
    }
  }

  /** `regrow`: grown by the slack, then stepped back until the row fits. */
  method Regrow(st: Styler, row: Row, lay: Layout, inner: nat, s: Slot) returns (grown: Layout)
    requires ValidLayout(row, lay) && Ascending(lay.kept) && Growable(st, row, lay, s)
    requires Over(st, row, lay, inner) <= 0
    ensures exists w :: Columns(row, lay, s) <= w <= Whole(st, row, lay, s) && grown == With(row, lay, s, w)
    ensures Over(st, row, grown, inner) <= 0
    ensures UnitWidth(st, row) ==> Columns(row, grown, s) == Whole(st, row, grown, s) || Over(st, row, grown, inner) == 0
    ensures Over(st, row, lay, inner) == 0 ==> grown == lay
  {
    var was, full := Columns(row, lay, s), Whole(st, row, lay, s);
    assert With(row, lay, s, was) == lay by {
      if s.FreeText? { assert lay.free[s.i := was] == lay.free; }
    }
    if Over(st, row, lay, inner) >= 0 || was >= full {
      return lay;
    }
    var w := Min(full, was - Over(st, row, lay, inner));
    ghost var most := w;
    if UnitWidth(st, row) {
      GrowingIsExact(st, row, lay, s, most);
    }
    while w > was && Over(st, row, With(row, lay, s, w), inner) > 0
      invariant was <= w <= most
      invariant UnitWidth(st, row) ==> w == most
    {
      w := w - 1;
    }
    grown := With(row, lay, s, w);
  }

  /** The longest prefix of the badges that, with the risk badges after it, fits at the minimum; none if no prefix does. */
  function PrefixKept(st: Styler, row: Row, inner: nat, n: nat): (m: nat)
    requires n <= |row.badges|
    ensures m <= n
    ensures m > 0 ==> LeastOver(st, row, m, inner) <= 0
    ensures forall k :: m < k <= n ==> LeastOver(st, row, k, inner) > 0
  {
    if n == 0 || LeastOver(st, row, n, inner) <= 0 then n else PrefixKept(st, row, inner, n - 1)
  }

  function LeastOver(st: Styler, row: Row, n: nat, inner: nat): int
    requires n <= |row.badges|
  {
    SurvivorsInRange(row.badges, n);
    Over(st, row, Least(st, row, n), inner)
  }

  /** Every kept part is between its minimum and its whole, and every risk badge is kept. */
  ghost predicate WithinBounds(st: Styler, row: Row, lay: Layout) {
    && ValidLayout(row, lay) && Ascending(lay.kept)
    && row.floor <= lay.mw <= st.vl(row.selector)
    && (forall i :: 0 <= i < |row.badges| ==> LeastFree(st, row.badges[i]) <= lay.free[i] <= st.vl(row.badges[i].free))
    && (forall i :: 0 <= i < |row.badges| && row.badges[i].risk ==> i in lay.kept)
  }

  ghost predicate AllWhole(st: Styler, row: Row, lay: Layout, risk: bool)
    requires ValidLayout(row, lay)
  {
    forall j :: 0 <= j < |lay.kept| && row.badges[lay.kept[j]].risk == risk ==> lay.free[lay.kept[j]] == st.vl(row.badges[lay.kept[j]].free)
  }

  /** Some free text of that kind of badge is wider than its minimum. */
  ghost predicate SomeGrown(st: Styler, row: Row, lay: Layout, risk: bool)
    requires ValidLayout(row, lay)
  {
    exists i :: 0 <= i < |row.badges| && row.badges[i].risk == risk && lay.free[i] > LeastFree(st, row.badges[i])
  }

  /** The room left over went to the selector first, then to the risk badges' text, then to the others'. */
  ghost predicate GivenBackInOrder(st: Styler, row: Row, lay: Layout, inner: nat)
    requires ValidLayout(row, lay)
  {
    && (Over(st, row, lay, inner) < 0 ==> lay.mw == st.vl(row.selector) && AllWhole(st, row, lay, true) && AllWhole(st, row, lay, false))
    && (SomeGrown(st, row, lay, true) || SomeGrown(st, row, lay, false) ==> lay.mw == st.vl(row.selector))
    && (SomeGrown(st, row, lay, false) ==> AllWhole(st, row, lay, true))
  }

  /** One of the two passes of the give-back over the badges. */
  method RegrowBadges(st: Styler, row: Row, lay0: Layout, inner: nat, risk: bool) returns (lay: Layout)
    requires WithinBounds(st, row, lay0) && Over(st, row, lay0, inner) <= 0
    ensures WithinBounds(st, row, lay) && Over(st, row, lay, inner) <= 0
    ensures lay.mw == lay0.mw && lay.kept == lay0.kept
    ensures forall i :: 0 <= i < |row.badges| && row.badges[i].risk != risk ==> lay.free[i] == lay0.free[i]
    ensures UnitWidth(st, row) ==> AllWhole(st, row, lay, risk) || Over(st, row, lay, inner) == 0
    ensures Over(st, row, lay0, inner) == 0 ==> lay == lay0
  {
    hide Compose, UnitWidth;
    lay := lay0;
    for j := 0 to |lay0.kept|
      invariant WithinBounds(st, row, lay) && Over(st, row, lay, inner) <= 0
      invariant lay.mw == lay0.mw && lay.kept == lay0.kept
      invariant forall i :: 0 <= i < |row.badges| && row.badges[i].risk != risk ==> lay.free[i] == lay0.free[i]
      invariant UnitWidth(st, row) && Over(st, row, lay, inner) < 0 ==>
                  forall k :: 0 <= k < j && row.badges[lay.kept[k]].risk == risk ==> lay.free[lay.kept[k]] == st.vl(row.badges[lay.kept[k]].free)
      invariant Over(st, row, lay0, inner) == 0 ==> lay == lay0
    {
      if row.badges[lay.kept[j]].risk == risk {
        lay := Regrow(st, row, lay, inner, FreeText(lay.kept[j]));
      }
    }
  }

  /**
   `fitTriggerRow`: exactly `inner` columns. A row that fits is unchanged. Else, where the floor and the risk badges fit
   at the minimum, every risk badge stays, the selector keeps its floor, the other badges kept are the longest prefix
   that fits, and the room left over is given back in order and never overflows.
   */
  method FitTriggerRow(st: Styler, row: Row, inner: nat) returns (line: string, lay: Layout)
    requires LawfulRow(st, row, inner) && Floored(st, row)
    ensures st.vl(line) == inner
    ensures ValidLayout(row, lay)
    ensures Over(st, row, lay, inner) <= 0 ==> line == Compose(st, row, lay) + Spaces(-Over(st, row, lay, inner))
    ensures Over(st, row, Full(st, row), inner) <= 0 ==> lay == Full(st, row)
    ensures Over(st, row, Full(st, row), inner) > 0 ==> lay.kept == Survivors(row.badges, PrefixKept(st, row, inner, |row.badges|))
    ensures LeastOver(st, row, 0, inner) <= 0 ==> WithinBounds(st, row, lay) && Over(st, row, lay, inner) <= 0
    ensures LeastOver(st, row, 0, inner) <= 0 && UnitWidth(st, row) ==> GivenBackInOrder(st, row, lay, inner)
    ensures CutLaws(st, row) && Over(st, row, lay, inner) <= 0 ==> ShowsRow(st, row, lay, line)
    ensures Over(st, row, lay, inner) > 0 ==>
              line == st.clipStyled(Compose(st, row, lay), inner) + Spaces(inner - st.vl(st.clipStyled(Compose(st, row, lay), inner)))
  {
    hide CutLaws, ShowsRow;
    hide Compose, PrefixKept, UnitWidth;
    lay := Full(st, row);
    if Over(st, row, lay, inner) <= 0 {
      FullIsWithinBounds(st, row);
      line := FitLine(st, Compose(st, row, lay), inner);
      if CutLaws(st, row) { ComposeShows(st, row, lay, -Over(st, row, lay, inner)); }
      return;
    }
    lay := ToLeast(st, row, inner);
    if Over(st, row, lay, inner) <= 0 {
      lay := GiveBack(st, row, lay, inner);
    }
    line := FitLine(st, Compose(st, row, lay), inner);
    if CutLaws(st, row) && Over(st, row, lay, inner) <= 0 { ComposeShows(st, row, lay, -Over(st, row, lay, inner)); }
  }

  lemma FullIsWithinBounds(st: Styler, row: Row)
    requires Floored(st, row)
    ensures WithinBounds(st, row, Full(st, row))
    ensures AllWhole(st, row, Full(st, row), true) && AllWhole(st, row, Full(st, row), false)
  {
    SurvivorsExact(row.badges, |row.badges|);
  }

  /** The row as written, nothing clipped. */
  function WholeText(st: Styler, row: Row): string {
    row.lead + (if row.selector == "" then "" else row.selector + " ") + row.target + WholeBadges(st, row.badges, 0)
  }

  function WholeBadges(st: Styler, badges: seq<Badge>, from: nat): string
    requires from <= |badges|
    decreases |badges| - from
  {
    if from == |badges| then ""
    else var b := badges[from];
         " " + st.fg(b.color, b.pre + b.free + b.post) + WholeBadges(st, badges, from + 1)
  }

  /** The selector and the badges' free texts are empty if they are drawn in no column, and only then. */
  ghost predicate DrawnPieces(st: Styler, row: Row) {
    && (st.vl(row.selector) == 0 <==> row.selector == "")
    && (forall i :: 0 <= i < |row.badges| ==> (st.vl(row.badges[i].free) == 0 ==> row.badges[i].free == ""))
  }

  /** The full layout is the row as written. */
  lemma FullIsTheWholeRow(st: Styler, row: Row)
    requires DrawnPieces(st, row)
    ensures ValidLayout(row, Full(st, row)) && Compose(st, row, Full(st, row)) == WholeText(st, row)
  {
    var n := |row.badges|;
    assert Indices(n)[0..] == Indices(n);
    WholeBadgesText(st, row, 0);
  }

  lemma {:induction false} WholeBadgesText(st: Styler, row: Row, from: nat)
    requires DrawnPieces(st, row)
    requires from <= |row.badges|
    ensures BadgesText(st, row.badges, Indices(|row.badges|)[from..], Frees(st, row.badges)) == WholeBadges(st, row.badges, from)
    decreases |row.badges| - from
  {
    if from < |row.badges| {
      WholeBadgesText(st, row, from + 1);
      assert Indices(|row.badges|)[from..][1..] == Indices(|row.badges|)[from + 1..];
    }
  }

  /** The minimum, and then the non-risk badges dropped right to left until the row fits. */
  method ToLeast(st: Styler, row: Row, inner: nat) returns (lay: Layout)
    requires Floored(st, row)
    ensures lay == Least(st, row, PrefixKept(st, row, inner, |row.badges|))
    ensures WithinBounds(st, row, lay)
  {
    var n: nat := |row.badges|;
    lay := Layout(row.floor, Indices(n), LeastFrees(st, row.badges));
    SurvivorsInRange(row.badges, n);
    while n > 0 && Over(st, row, lay, inner) > 0
      invariant n <= |row.badges| && ValidLayout(row, lay)
      invariant lay == Least(st, row, n)
      invariant PrefixKept(st, row, inner, |row.badges|) == PrefixKept(st, row, inner, n)
    {
      n := n - 1;
      SurvivorsInRange(row.badges, n);
      if !row.badges[n].risk {
        lay := lay.(kept := Without(lay.kept, n));
      }
    }
    SurvivorsExact(row.badges, n);
  }

  method GiveBack(st: Styler, row: Row, least: Layout, inner: nat) returns (lay: Layout)
    requires Floored(st, row) && WithinBounds(st, row, least) && Over(st, row, least, inner) <= 0
    requires least.free == LeastFrees(st, row.badges)
    ensures WithinBounds(st, row, lay) && Over(st, row, lay, inner) <= 0
    ensures lay.kept == least.kept
    ensures UnitWidth(st, row) ==> GivenBackInOrder(st, row, lay, inner)
  {
    hide Over, Least;
    lay := Regrow(st, row, least, inner, Selector);
    assert lay.free == least.free && lay.kept == least.kept;
    assert UnitWidth(st, row) ==> lay.mw == st.vl(row.selector) || Over(st, row, lay, inner) == 0;
    lay := RegrowBadges(st, row, lay, inner, true);
    ghost var risky := lay;
    lay := RegrowBadges(st, row, lay, inner, false);
    if UnitWidth(st, row) {
      assert AllWhole(st, row, risky, true) ==> AllWhole(st, row, lay, true);
      assert SomeGrown(st, row, lay, false) ==> Over(st, row, risky, inner) < 0;
      assert SomeGrown(st, row, lay, true) ==> lay.mw == st.vl(row.selector);
    }
  }

  // ---- the laws can be met ----

  const SGR := '\U{1B}'

  /** The columns of a text in which colour is marked by a character that draws nothing. */
  function MarkedColumns(s: string): nat {
    if s == "" then 0 else (if s[0] == SGR then 0 else 1) + MarkedColumns(s[1..])
  }

  /** The longest start of `w` columns, with the marks it passes. */
  function MarkedCut(s: string, w: nat): (r: string)
    ensures MarkedColumns(r) == Min(w, MarkedColumns(s))
  {
    if s == "" || (w == 0 && s[0] != SGR) then ""
    else [s[0]] + MarkedCut(s[1..], if s[0] == SGR then w else w - 1)
  }

  /** A cut as `clipStyled` makes it: an ellipsis where it fits, and the colour closed where the cut passed a code. */
  function MarkedClipped(s: string, w: nat): string {
    if MarkedColumns(s) <= w then s
    else
      var narrow := w <= 1;
      var out := MarkedCut(s, if narrow then w else w - 1);
      out + (if narrow then "" else ".") + (if SGR in out then [SGR] else "")
  }

  lemma MarkedClippedFills(s: string, w: nat)
    ensures MarkedColumns(MarkedClipped(s, w)) == Min(w, MarkedColumns(s))
  {
    if MarkedColumns(s) > w {
      var out := MarkedCut(s, if w <= 1 then w else w - 1);
      var end := if SGR in out then [SGR] else "";
      MarkedAppend(out, if w <= 1 then "" else ".");
      MarkedAppend(out + (if w <= 1 then "" else "."), end);
      assert MarkedColumns(".") == 1 && MarkedColumns([SGR]) == 0;
    }
  }

  /**
   A styler that cuts as the source's does on characters of one column, its colour codes shortened to a mark each: a
   coloured text is longer and no wider, and a text of marks alone is not empty and draws nothing.
   */
  const MARKED := Styler(s => MarkedColumns(s), (s, w: nat) => MarkedCut(s, w), (s, w: nat) => MarkedClipped(s, w), (c, s) => [SGR] + s + [SGR], ".")

  lemma {:induction false} MarkedAppend(x: string, y: string)
    ensures MarkedColumns(x + y) == MarkedColumns(x) + MarkedColumns(y)
  {
    if x == "" {
      assert x + y == y;
    } else {
      MarkedAppend(x[1..], y);
      assert (x + y)[1..] == x[1..] + y;
    }
  }

  lemma MarkedSpaces(n: nat)
    ensures MarkedColumns(Spaces(n)) == n
  {
    if n > 0 {
      MarkedSpaces(n - 1);
      assert Spaces(n)[1..] == Spaces(n - 1);
    }
  }

  lemma MarkedClip(x: string, w: nat)
    ensures MarkedColumns(Clip(MARKED, x, w)) == Min(w, MarkedColumns(x))
  {
    MarkedClippedFills(x, w);
    assert MarkedColumns(".") == 1;
  }

  lemma {:induction false} MarkedBadges(badges: seq<Badge>, kept: seq<nat>, free: seq<nat>)
    requires |free| == |badges| && Below(kept, |badges|)
    ensures MarkedColumns(BadgesText(MARKED, badges, kept, free)) == BadgesColumns(MARKED, badges, kept, free)
  {
    if kept != [] {
      var b, w := badges[kept[0]], free[kept[0]];
      MarkedBadges(badges, kept[1..], free);
      MarkedBadge(b, w);
      MarkedAppend(BadgeText(MARKED, b, w), BadgesText(MARKED, badges, kept[1..], free));
    }
  }

  lemma MarkedBadge(b: Badge, w: nat)
    ensures MarkedColumns(BadgeText(MARKED, b, w)) == 1 + MarkedColumns(b.pre) + Min(w, MarkedColumns(b.free)) + MarkedColumns(b.post)
  {
    var cut := Clip(MARKED, b.free, w);
    var text := b.pre + cut + b.post;
    MarkedClip(b.free, w);
    MarkedAppend(b.pre, cut);
    MarkedAppend(b.pre + cut, b.post);
    MarkedAppend([SGR], text);
    MarkedAppend([SGR] + text, [SGR]);
    MarkedAppend(" ", [SGR] + text + [SGR]);
    assert MarkedColumns([SGR]) == 0 && MarkedColumns(" ") == 1;
  }

  lemma {:induction false} MarkedCutIsLongest(s: string, w: nat)
    ensures MarkedCut(s, w) <= s
    ensures forall n :: |MarkedCut(s, w)| < n <= |s| ==> MarkedColumns(s[..n]) > w
  {
    if s != "" && (w > 0 || s[0] == SGR) {
      MarkedCutIsLongest(s[1..], if s[0] == SGR then w else w - 1);
      forall n | |MarkedCut(s, w)| < n <= |s| ensures MarkedColumns(s[..n]) > w {
        assert s[..n][1..] == s[1..][..n - 1];
      }
    } else if s != "" {
      forall n | 0 < n <= |s| ensures MarkedColumns(s[..n]) > w {
        assert s[..n][0] == s[0];
      }
    }
  }

  lemma MarkedCutsAreLawful(x: string)
    ensures CutLaw(MARKED, x)
  {
    assert MarkedColumns(".") == 1;
    forall w: nat | 1 < w < MarkedColumns(x)
      ensures MARKED.vl(MARKED.clipStyled(x, w)) <= w && CutWithEllipsis(MARKED, x, w, MARKED.clipStyled(x, w))
    {
      MarkedClippedFills(x, w);
      MarkedCutIsLongest(x, w - 1);
      var head := MarkedCut(x, w - 1);
      var code := if SGR in head then [SGR] else "";
      assert MarkedClipped(x, w) == head + ("." + code) && MarkedColumns(code) == 0;
      assert LongestStart(MARKED, head, x, w - 1);
    }
    forall w: nat | 0 < w <= 1
      ensures MarkedCut(".", w) == "."
    {
      assert "."[1..] == "";
    }
  }

  /** It obeys every law, on every row. */
  lemma MarkedIsLawful(row: Row, inner: nat)
    ensures LawfulRow(MARKED, row, inner) && UnitWidth(MARKED, row) && CutLaws(MARKED, row)
  {
    MarkedCutsAreLawful(row.selector);
    forall i | 0 <= i < |row.badges| ensures CutLaw(MARKED, row.badges[i].free) { MarkedCutsAreLawful(row.badges[i].free); }
    forall x ensures MARKED.vl(MARKED.clipStyled(x, inner)) <= inner { MarkedClippedFills(x, inner); }
    forall x ensures Pads(MARKED, x) {
      forall n: nat ensures MARKED.vl(x + Spaces(n)) == MARKED.vl(x) + n {
        MarkedAppend(x, Spaces(n));
        MarkedSpaces(n);
      }
    }
    forall lay: Layout | ValidLayout(row, lay) ensures MARKED.vl(Compose(MARKED, row, lay)) == PartsColumns(MARKED, row, lay) {
      var selector, badges := SelectorText(MARKED, row, lay.mw), BadgesText(MARKED, row.badges, lay.kept, lay.free);
      MarkedSelector(row, lay.mw);
      MarkedBadges(row.badges, lay.kept, lay.free);
      MarkedAppend(row.lead, selector);
      MarkedAppend(row.lead + selector, row.target);
      MarkedAppend(row.lead + selector + row.target, badges);
    }
  }

  lemma MarkedSelector(row: Row, mw: nat)
    ensures MarkedColumns(SelectorText(MARKED, row, mw)) == if mw > 0 then Min(mw, MarkedColumns(row.selector)) + 1 else 0
  {
    if mw > 0 {
      MarkedClip(row.selector, mw);
      MarkedAppend(Clip(MARKED, row.selector, mw), " ");
      assert MarkedColumns(" ") == 1;
    }
  }
}
