/**
 The LIST view's row budget (admin/src/dashboard.ts, `collapseKeys` and `buildListLines`): which sections fold when the
 panel outgrows the terminal, and the lines composed from what is left. A body is the number of its lines.
 */
module RowBudget {
  import opened Wrappers
  import opened Sorting

  const FRAME_CHROME_ROWS := 4

  /** `head` is whether the section has a divider; one without a priority never folds. */
  datatype Section = Section(key: string, head: bool, body: nat, priority: Option<nat>)

  datatype Line = Rule | Divider(key: string, hidden: Option<nat>) | BodyLine(key: string, at: nat)

  function Rows(s: Section): nat {
    (if s.head then 1 else 0) + s.body
  }

  const KEPT_ROWS := 1

  predicate Foldable(s: Section, focus: string) {
    s.priority.Some? && s.key != focus
  }

  function Foldables(sections: seq<Section>, focus: string): seq<Section> {
    if sections == [] then []
    else (if Foldable(sections[0], focus) then [sections[0]] else []) + Foldables(sections[1..], focus)
  }

  function Priority(s: Section): real {
    if s.priority.Some? then s.priority.value as real else 0.0
  }

  /** The order in which sections fold: ascending priority, and the panel's order among equals. */
  function FoldOrder(sections: seq<Section>, focus: string): seq<Section> {
    StableSort(Foldables(sections, focus), Priority)
  }

  function Keys(sections: seq<Section>): set<string> {
    set i | 0 <= i < |sections| :: sections[i].key
  }

  /** The rows of the sections when those in `folded` keep their divider alone. */
  function SectionRows(sections: seq<Section>, folded: set<string>): int {
    if sections == [] then 0
    else (if sections[0].key in folded then KEPT_ROWS else Rows(sections[0])) + SectionRows(sections[1..], folded)
  }

  /** The frame around them: chrome, and a rule between each pair of sections. */
  function Total(sections: seq<Section>, folded: set<string>): int {
    FRAME_CHROME_ROWS + |sections| - 1 + SectionRows(sections, folded)
  }

  /** A panel's sections: each named once, and none foldable without a divider. */
  ghost predicate Panel(sections: seq<Section>) {
    && (forall i, j :: 0 <= i < j < |sections| ==> sections[i].key != sections[j].key)
    && (forall i :: 0 <= i < |sections| && sections[i].priority.Some? ==> sections[i].head)
  }

  /** The first `n` sections of the fold order are the shortest prefix that fits `available` rows, or all of them. */
  ghost predicate ShortestThatFits(sections: seq<Section>, focus: string, available: int, n: nat) {
    var order := FoldOrder(sections, focus);
    && n <= |order|
    && (n < |order| ==> Total(sections, Keys(order[..n])) <= available)
    && (forall m :: 0 <= m < n ==> Total(sections, Keys(order[..m])) > available)
  }

  // ---- the fold order has each foldable section once ----

  lemma {:induction false} FoldablesExact(sections: seq<Section>, focus: string)
    ensures forall s :: s in Foldables(sections, focus) <==> s in sections && Foldable(s, focus)
    ensures forall s :: multiset(Foldables(sections, focus))[s] <= multiset(sections)[s]
  {
    if sections != [] {
      FoldablesExact(sections[1..], focus);
      assert sections == [sections[0]] + sections[1..];
    }
  }

  lemma {:induction false} NamedOnce(sections: seq<Section>, s: Section)
    requires forall i, j :: 0 <= i < j < |sections| ==> sections[i].key != sections[j].key
    ensures multiset(sections)[s] <= 1
  {
    if sections != [] {
      NamedOnce(sections[1..], s);
      assert sections == [sections[0]] + sections[1..];
      assert forall i :: 0 <= i < |sections[1..]| ==> sections[1..][i] == sections[i + 1];
    }
  }

  lemma FoldOrderExact(sections: seq<Section>, focus: string)
    requires Panel(sections)
    ensures var order := FoldOrder(sections, focus);
            && (forall s :: s in order <==> s in sections && Foldable(s, focus))
            && (forall i, j :: 0 <= i < j < |order| ==> order[i].key != order[j].key)
            && IsStableSort(order, Foldables(sections, focus), Priority)
  {
    var order, some := FoldOrder(sections, focus), Foldables(sections, focus);
    StableSortIsStable(some, Priority);
    FoldablesExact(sections, focus);
    assert forall s :: s in order <==> s in multiset(some);
    forall i, j | 0 <= i < j < |order| ensures order[i].key != order[j].key {
      if order[i].key == order[j].key {
        OnceInOrder(sections, order, i, j);
      }
    }
  }

  lemma OnceInOrder(sections: seq<Section>, order: seq<Section>, i: nat, j: nat)
    requires forall a, b :: 0 <= a < b < |sections| ==> sections[a].key != sections[b].key
    requires forall s :: multiset(order)[s] <= multiset(sections)[s]
    requires i < j < |order|
    ensures order[i].key != order[j].key
  {
    var s, t := order[i], order[j];
    assert s in multiset(order) && t in multiset(order);
    assert s in multiset(sections) && t in multiset(sections);
    SameKeySame(sections, s, t);
    NamedOnce(sections, s);
    CountedTwice(order, i, j);
  }

  lemma SameKeySame(sections: seq<Section>, s: Section, t: Section)
    requires forall a, b :: 0 <= a < b < |sections| ==> sections[a].key != sections[b].key
    requires s in sections && t in sections
    ensures s.key == t.key ==> s == t
  {
    var a :| 0 <= a < |sections| && sections[a] == s;
    var b :| 0 <= b < |sections| && sections[b] == t;
  }

  lemma CountedTwice(order: seq<Section>, i: nat, j: nat)
    requires i < j < |order|
    ensures order[i] == order[j] ==> multiset(order)[order[i]] >= 2
  {
    assert order == order[..i] + ([order[i]] + (order[i + 1..j] + ([order[j]] + order[j + 1..])));
  }

  // ---- folding one more section saves its body ----

  lemma {:induction false} FoldSaves(sections: seq<Section>, folded: set<string>, s: Section)
    requires forall i, j :: 0 <= i < j < |sections| ==> sections[i].key != sections[j].key
    requires forall i :: 0 <= i < |sections| && sections[i].key == s.key ==> sections[i] == s
    requires s.key !in folded
    ensures SectionRows(sections, folded + {s.key}) == SectionRows(sections, folded) - (if s in sections then Rows(s) - KEPT_ROWS else 0)
  {
    if sections != [] {
      FoldSaves(sections[1..], folded, s);
      if sections[0].key == s.key {
        RowsIgnoreOthers(sections[1..], folded, s.key);
      }
    }
  }

  lemma {:induction false} RowsIgnoreOthers(sections: seq<Section>, folded: set<string>, key: string)
    requires forall i :: 0 <= i < |sections| ==> sections[i].key != key
    ensures SectionRows(sections, folded + {key}) == SectionRows(sections, folded)
  {
    if sections != [] {
      RowsIgnoreOthers(sections[1..], folded, key);
    }
  }

  lemma SameKeyInPanel(sections: seq<Section>, s: Section)
    requires Panel(sections) && s in sections
    ensures forall i :: 0 <= i < |sections| && sections[i].key == s.key ==> sections[i] == s
  {
  }

  lemma KeysSnoc(order: seq<Section>, n: nat)
    requires n < |order| && forall i, j :: 0 <= i < j < |order| ==> order[i].key != order[j].key
    ensures Keys(order[..n + 1]) == Keys(order[..n]) + {order[n].key} && order[n].key !in Keys(order[..n])
  {
    assert forall i :: 0 <= i <= n ==> order[..n + 1][i] == order[i];
  }

  lemma FoldOneMore(sections: seq<Section>, focus: string, n: nat)
    requires Panel(sections) && n < |FoldOrder(sections, focus)|
    ensures var order := FoldOrder(sections, focus);
            && Keys(order[..n + 1]) == Keys(order[..n]) + {order[n].key}
            && Total(sections, Keys(order[..n + 1])) == Total(sections, Keys(order[..n])) - (Rows(order[n]) - KEPT_ROWS)
  {
    var order := FoldOrder(sections, focus);
    FoldOrderExact(sections, focus);
    assert order[n] in order;
    KeysSnoc(order, n);
    hide FoldOrder, Keys;
    SameKeyInPanel(sections, order[n]);
    FoldSaves(sections, Keys(order[..n]), order[n]);
  }

  // ---- collapseKeys ----

  /** `available` is None where the height is unknown: then nothing folds. Otherwise the shortest prefix that fits folds. */
  method CollapseKeys(sections: seq<Section>, available: Option<int>, focus: string) returns (folded: set<string>, ghost n: nat)
    requires Panel(sections)
    ensures available.None? ==> folded == {}
    ensures available.Some? ==> ShortestThatFits(sections, focus, available.value, n) && folded == Keys(FoldOrder(sections, focus)[..n])
  {
    folded, n := {}, 0;
    if available.None? {
      return;
    }
    var total := FRAME_CHROME_ROWS + |sections| - 1;
    for i := 0 to |sections|
      invariant total + SectionRows(sections[i..], {}) == Total(sections, {})
    {
      assert sections[i..][1..] == sections[i + 1..];
      total := total + Rows(sections[i]);
    }
    var order := FoldOrder(sections, focus);
    assert Keys(order[..0]) == {};
    var k := 0;
    while k < |order| && total > available.value
      invariant k <= |order| && folded == Keys(order[..k]) && total == Total(sections, folded)
      invariant forall m :: 0 <= m < k ==> Total(sections, Keys(order[..m])) > available.value
    {
      FoldOneMore(sections, focus, k);
      folded := folded + {order[k].key};
      total := total - (Rows(order[k]) - KEPT_ROWS);
      k := k + 1;
    }
    n := k;
  }

  // ---- buildListLines ----

  function BodyLines(key: string, n: nat): (lines: seq<Line>)
    ensures |lines| == n
  {
    seq(n, i requires 0 <= i < n => BodyLine(key, i))
  }

  function SectionLines(s: Section, folded: set<string>): seq<Line> {
    if s.key in folded then [Divider(s.key, Some(s.body))]
    else (if s.head then [Divider(s.key, None)] else []) + BodyLines(s.key, s.body)
  }

  /** The composed lines from the section at `from` on. */
  function Compose(sections: seq<Section>, folded: set<string>, from: nat): seq<Line>
    requires from <= |sections|
    decreases |sections| - from
  {
    if from == |sections| then []
    else (if from > 0 then [Rule] else []) + SectionLines(sections[from], folded) + Compose(sections, folded, from + 1)
  }

  /** Composed lines and frame chrome are exactly the budget's total. */
  lemma ComposedIsTheTotal(sections: seq<Section>, folded: set<string>)
    requires Panel(sections) && sections != []
    requires forall i :: 0 <= i < |sections| && sections[i].key in folded ==> sections[i].head
    ensures |Compose(sections, folded, 0)| + FRAME_CHROME_ROWS == Total(sections, folded)
  {
    ComposedRows(sections, folded, 0);
    assert sections[0..] == sections;
  }

  lemma {:induction false} ComposedRows(sections: seq<Section>, folded: set<string>, from: nat)
    requires from <= |sections|
    ensures |Compose(sections, folded, from)| == SectionRows(sections[from..], folded) + (|sections| - from) - (if from == 0 && sections != [] then 1 else 0)
    decreases |sections| - from
  {
    if from < |sections| {
      ComposedRows(sections, folded, from + 1);
      assert sections[from..][1..] == sections[from + 1..];
    }
  }

  /** Some foldable section is not folded. */
  ghost predicate SomethingLeft(sections: seq<Section>, focus: string, folded: set<string>) {
    exists s :: s in sections && Foldable(s, focus) && s.key !in folded
  }

  lemma FoldedAreFoldable(sections: seq<Section>, focus: string, n: nat)
    requires Panel(sections) && n <= |FoldOrder(sections, focus)|
    ensures var folded := Keys(FoldOrder(sections, focus)[..n]);
            && (forall i :: 0 <= i < |sections| && sections[i].key in folded ==> Foldable(sections[i], focus))
            && (n == |FoldOrder(sections, focus)| ==> !SomethingLeft(sections, focus, folded))
  {
    var order := FoldOrder(sections, focus);
    FoldOrderExact(sections, focus);
    forall i | 0 <= i < |sections| && sections[i].key in Keys(order[..n]) ensures Foldable(sections[i], focus) {
      var j :| 0 <= j < n && order[..n][j].key == sections[i].key;
      assert order[..n][j] == order[j] && order[j] in order && order[j] in sections;
    }
    if n == |order| {
      forall s | s in sections && Foldable(s, focus) ensures s.key in Keys(order[..n]) {
        var j :| 0 <= j < |order| && order[j] == s;
        assert order[..n][j] == s;
      }
    }
  }

  /**
   `buildListLines`: the composed lines and the chrome are the budget's total, exactly. An unknown height folds nothing.
   With a known one, either the frame fits or everything foldable but the focused section is folded; nothing else ever
   folds; and the panel with one section fewer folded, in the fold order, would not have fitted.
   */
  method BuildListLines(sections: seq<Section>, available: Option<int>, focus: string) returns (lines: seq<Line>, folded: set<string>, ghost n: nat)
    requires Panel(sections) && sections != []
    ensures lines == Compose(sections, folded, 0)
    ensures |lines| + FRAME_CHROME_ROWS == Total(sections, folded)
    ensures available.None? ==> folded == {}
    ensures forall i :: 0 <= i < |sections| && sections[i].key in folded ==> Foldable(sections[i], focus)
    ensures available.Some? ==> |lines| + FRAME_CHROME_ROWS <= available.value || !SomethingLeft(sections, focus, folded)
    ensures available.Some? ==> n <= |FoldOrder(sections, focus)| && folded == Keys(FoldOrder(sections, focus)[..n])
    ensures available.Some? && n < |FoldOrder(sections, focus)| ==> |lines| + FRAME_CHROME_ROWS <= available.value
    ensures available.Some? ==> forall m :: 0 <= m < n ==>
              |Compose(sections, Keys(FoldOrder(sections, focus)[..m]), 0)| + FRAME_CHROME_ROWS > available.value
  {
    folded, n := CollapseKeys(sections, available, focus);
    if available.Some? {
      FoldedAreFoldable(sections, focus, n);
      forall m | 0 <= m < n ensures |Compose(sections, Keys(FoldOrder(sections, focus)[..m]), 0)| + FRAME_CHROME_ROWS > available.value {
        FoldedAreFoldable(sections, focus, m);
        ComposedIsTheTotal(sections, Keys(FoldOrder(sections, focus)[..m]));
      }
    }
    ComposedIsTheTotal(sections, folded);
    lines := ComposeLines(sections, folded);
  }

  method ComposeLines(sections: seq<Section>, folded: set<string>) returns (lines: seq<Line>)
    ensures lines == Compose(sections, folded, 0)
  {
    lines := [];
    for i := 0 to |sections|
      invariant lines + Compose(sections, folded, i) == Compose(sections, folded, 0)
    {
      ghost var rest := Compose(sections, folded, i + 1);
      ghost var own := SectionLines(sections[i], folded);
      if i > 0 {
        Regroup(lines, [Rule], own, rest);
        lines := lines + [Rule];
      } else {
        Regroup(lines, [], own, rest);
        assert lines + [] == lines;
      }
      lines := lines + SectionLines(sections[i], folded);
    }
  }

  lemma Regroup(done: seq<Line>, rule: seq<Line>, own: seq<Line>, rest: seq<Line>)
    ensures done + (rule + own + rest) == done + rule + own + rest
  {
  }

  // ---- the LIST view's own sections ----

  /** The body lines of each section; an optional section without a line is left out. */
  datatype Bodies = Bodies(
    status: nat, spend: nat, dollars: nat, triggers: nat, bundles: nat, profiles: nat, pauses: nat, limits: nat,
    held: nat, failed: nat, parked: nat, runs: nat, settings: nat)

  function Optional(key: string, body: nat, priority: nat): seq<Section> {
    if body == 0 then [] else [Section(key, true, body, Some(priority))]
  }

  function ListSections(b: Bodies): seq<Section> {
    UpperSections(b) + LowerSections(b)
  }

  function UpperSections(b: Bodies): seq<Section> {
    [Section("status", false, b.status, None), Section("spend", true, b.spend, Some(4))]
    + Optional("dollars", b.dollars, 4)
    + [Section("triggers", true, b.triggers, Some(3))]
    + Optional("bundles", b.bundles, 3) + Optional("profiles", b.profiles, 3)
  }

  function LowerSections(b: Bodies): seq<Section> {
    [Section("pauses", true, b.pauses, Some(1)), Section("limits", true, b.limits, Some(0))]
    + Optional("held", b.held, 5) + Optional("failed", b.failed, 6) + Optional("parked", b.parked, 7)
    + [Section("runs", true, b.runs, None), Section("settings", true, b.settings, Some(2))]
  }

  /** What the composed lines hold: exactly a line for each row of each body that is not folded, and a divider for each that has one, which says how many rows its fold hides. */
  lemma {:induction false} LinesAreTheSections(sections: seq<Section>, folded: set<string>, from: nat)
    requires from <= |sections|
    ensures forall key: string, at: nat :: BodyLine(key, at) in Compose(sections, folded, from) <==> HasBody(sections, folded, from, key, at)
    ensures forall key: string, hidden: Option<nat> :: Divider(key, hidden) in Compose(sections, folded, from) <==> HasDivider(sections, folded, from, key, hidden)
    decreases |sections| - from
  {
    if from < |sections| {
      LinesAreTheSections(sections, folded, from + 1);
      SectionLinesAre(sections[from], folded);
      hide SectionLines;
      var rest := Compose(sections, folded, from + 1);
      assert forall l :: l in Compose(sections, folded, from) <==> (from > 0 && l == Rule) || l in SectionLines(sections[from], folded) || l in rest;
      hide Compose;
      assert forall key, at :: HasBody(sections, folded, from, key, at) <==> OwnBody(sections[from], folded, key, at) || HasBody(sections, folded, from + 1, key, at);
      assert forall key, hidden :: HasDivider(sections, folded, from, key, hidden) <==> OwnDivider(sections[from], folded, key, hidden) || HasDivider(sections, folded, from + 1, key, hidden);
    }
  }

  predicate OwnBody(s: Section, folded: set<string>, key: string, at: nat) {
    s.key == key && key !in folded && at < s.body
  }

  predicate OwnDivider(s: Section, folded: set<string>, key: string, hidden: Option<nat>) {
    s.key == key && if key in folded then hidden == Some(s.body) else s.head && hidden.None?
  }

  predicate HasBody(sections: seq<Section>, folded: set<string>, from: nat, key: string, at: nat) {
    exists i :: from <= i < |sections| && OwnBody(sections[i], folded, key, at)
  }

  predicate HasDivider(sections: seq<Section>, folded: set<string>, from: nat, key: string, hidden: Option<nat>) {
    exists i :: from <= i < |sections| && OwnDivider(sections[i], folded, key, hidden)
  }

  lemma SectionLinesAre(s: Section, folded: set<string>)
    ensures forall key: string, at: nat :: BodyLine(key, at) in SectionLines(s, folded) <==> OwnBody(s, folded, key, at)
    ensures forall key: string, hidden: Option<nat> :: Divider(key, hidden) in SectionLines(s, folded) <==> OwnDivider(s, folded, key, hidden)
  {
    forall at: nat | at < s.body ensures BodyLine(s.key, at) in BodyLines(s.key, s.body) {
      assert BodyLines(s.key, s.body)[at] == BodyLine(s.key, at);
    }
  }

  /** The section the cursor is in. */
  function Focus(selected: int, triggers: nat): string {
    if selected < triggers then "triggers" else "runs"
  }

  function Rank(key: string): nat {
    match key
    case "status" => 1 case "spend" => 2 case "dollars" => 3 case "triggers" => 4 case "bundles" => 5
    case "profiles" => 6 case "pauses" => 7 case "limits" => 8 case "held" => 9 case "failed" => 10
    case "parked" => 11 case "runs" => 12 case "settings" => 13
    case _ => 0
  }

  ghost predicate Ranked(sections: seq<Section>, from: nat, to: nat) {
    && (forall i :: 0 <= i < |sections| ==> from <= Rank(sections[i].key) < to && (sections[i].priority.Some? ==> sections[i].head))
    && (forall i, j :: 0 <= i < j < |sections| ==> Rank(sections[i].key) < Rank(sections[j].key))
  }

  lemma RankedAppend(xs: seq<Section>, ys: seq<Section>, from: nat, mid: nat, to: nat)
    requires Ranked(xs, from, mid) && Ranked(ys, mid, to) && from <= mid <= to
    ensures Ranked(xs + ys, from, to)
  {
  }

  lemma UpperIsRanked(b: Bodies)
    ensures Ranked(UpperSections(b), 1, 7)
  {
    var head := [Section("status", false, b.status, None), Section("spend", true, b.spend, Some(4))];
    var triggers := [Section("triggers", true, b.triggers, Some(3))];
    var dollars, bundles, profiles := Optional("dollars", b.dollars, 4), Optional("bundles", b.bundles, 3), Optional("profiles", b.profiles, 3);
    assert Ranked(head, 1, 3) && Ranked(triggers, 4, 5) && Ranked(dollars, 3, 4) && Ranked(bundles, 5, 6) && Ranked(profiles, 6, 7);
    hide Ranked, Rank, Optional;
    RankedAppend(head, dollars, 1, 3, 4);
    RankedAppend(head + dollars, triggers, 1, 4, 5);
    RankedAppend(head + dollars + triggers, bundles, 1, 5, 6);
    RankedAppend(head + dollars + triggers + bundles, profiles, 1, 6, 7);
  }

  lemma LowerIsRanked(b: Bodies)
    ensures Ranked(LowerSections(b), 7, 14)
  {
    var head := [Section("pauses", true, b.pauses, Some(1)), Section("limits", true, b.limits, Some(0))];
    var end := [Section("runs", true, b.runs, None), Section("settings", true, b.settings, Some(2))];
    var held, failed, parked := Optional("held", b.held, 5), Optional("failed", b.failed, 6), Optional("parked", b.parked, 7);
    assert Ranked(head, 7, 9) && Ranked(end, 12, 14) && Ranked(held, 9, 10) && Ranked(failed, 10, 11) && Ranked(parked, 11, 12);
    hide Ranked, Rank, Optional;
    RankedAppend(head, held, 7, 9, 10);
    RankedAppend(head + held, failed, 7, 10, 11);
    RankedAppend(head + held + failed, parked, 7, 11, 12);
    RankedAppend(head + held + failed + parked, end, 7, 12, 14);
  }

  /** The LIST view's sections are each named once, and each foldable one has a divider. */
  lemma ListIsAPanel(b: Bodies)
    ensures Panel(ListSections(b)) && ListSections(b) != []
  {
    UpperIsRanked(b);
    LowerIsRanked(b);
    hide Rank;
    RankedAppend(UpperSections(b), LowerSections(b), 1, 7, 14);
  }

  // ---- the order in which the LIST view folds ----

  function Unit(key: string, body: nat, priority: nat): seq<Section> {
    [Section(key, true, body, Some(priority))]
  }

  /** Limits first, then pauses, settings, the triggers with bundles and profiles, spend with the dollars, held, failed and parked. */
  function ListOrder(b: Bodies, inTriggers: bool): seq<Section> {
    Unit("limits", b.limits, 0) + (Unit("pauses", b.pauses, 1) + (Unit("settings", b.settings, 2)
    + (TriggerSections(b, inTriggers) + (SpendSections(b)
    + (Optional("held", b.held, 5) + (Optional("failed", b.failed, 6) + Optional("parked", b.parked, 7)))))))
  }

  function TriggerSections(b: Bodies, inTriggers: bool): seq<Section> {
    (if inTriggers then [] else Unit("triggers", b.triggers, 3)) + (Optional("bundles", b.bundles, 3) + Optional("profiles", b.profiles, 3))
  }

  function SpendSections(b: Bodies): seq<Section> {
    Unit("spend", b.spend, 4) + Optional("dollars", b.dollars, 4)
  }

  /** The same sections as the panel has them. */
  function PanelOrder(b: Bodies, inTriggers: bool): seq<Section> {
    SpendSections(b) + (TriggerSections(b, inTriggers) + (Unit("pauses", b.pauses, 1) + (Unit("limits", b.limits, 0)
    + (Optional("held", b.held, 5) + (Optional("failed", b.failed, 6) + (Optional("parked", b.parked, 7) + Unit("settings", b.settings, 2)))))))
  }

  ghost predicate AllOfPriority(xs: seq<Section>, p: real) {
    forall i :: 0 <= i < |xs| ==> Priority(xs[i]) == p
  }

  lemma {:induction false} FoldablesAppend(xs: seq<Section>, ys: seq<Section>, focus: string)
    ensures Foldables(xs + ys, focus) == Foldables(xs, focus) + Foldables(ys, focus)
  {
    if xs == [] {
      assert xs + ys == ys;
    } else {
      assert (xs + ys)[1..] == xs[1..] + ys;
      FoldablesAppend(xs[1..], ys, focus);
    }
  }

  lemma FoldableUnit(s: Section, focus: string)
    ensures Foldables([s], focus) == if Foldable(s, focus) then [s] else []
  {
    assert [s][1..] == [];
  }

  lemma {:induction false} BucketAppend(xs: seq<Section>, ys: seq<Section>, v: real)
    ensures Bucket(xs + ys, Priority, v) == Bucket(xs, Priority, v) + Bucket(ys, Priority, v)
  {
    if xs == [] {
      assert xs + ys == ys;
    } else {
      assert (xs + ys)[1..] == xs[1..] + ys;
      BucketAppend(xs[1..], ys, v);
    }
  }

  lemma {:induction false} BucketOfOne(xs: seq<Section>, p: real, v: real)
    requires AllOfPriority(xs, p)
    ensures Bucket(xs, Priority, v) == if v == p then xs else []
  {
    if xs != [] { BucketOfOne(xs[1..], p, v); }
  }

  /** The panel's foldable sections, but for the triggers where the cursor is in them. */
  lemma PanelFoldables(b: Bodies, inTriggers: bool)
    ensures Foldables(ListSections(b), if inTriggers then "triggers" else "runs") == PanelOrder(b, inTriggers)
  {
    var focus := if inTriggers then "triggers" else "runs";
    UpperFoldables(b, inTriggers);
    LowerFoldables(b, focus);
    FoldablesAppend(UpperSections(b), LowerSections(b), focus);
    Regroup3(SpendSections(b), TriggerSections(b, inTriggers), LowerFolding(b));
    hide Foldables, SpendSections, TriggerSections, LowerFolding;
  }

  lemma Regroup3(xs: seq<Section>, ys: seq<Section>, zs: seq<Section>)
    ensures xs + ys + zs == xs + (ys + zs)
  {
  }

  function LowerFolding(b: Bodies): seq<Section> {
    Unit("pauses", b.pauses, 1) + (Unit("limits", b.limits, 0)
    + (Optional("held", b.held, 5) + (Optional("failed", b.failed, 6) + (Optional("parked", b.parked, 7) + Unit("settings", b.settings, 2)))))
  }

  lemma OptionalFolds(key: string, body: nat, priority: nat, focus: string)
    requires key != focus
    ensures Foldables(Optional(key, body, priority), focus) == Optional(key, body, priority)
  {
    FoldableUnit(Section(key, true, body, Some(priority)), focus);
  }

  lemma UpperFoldables(b: Bodies, inTriggers: bool)
    ensures Foldables(UpperSections(b), if inTriggers then "triggers" else "runs") == SpendSections(b) + TriggerSections(b, inTriggers)
  {
    hide *;
    var focus := if inTriggers then "triggers" else "runs";
    var status, spend, triggers := [Section("status", false, b.status, None)], Unit("spend", b.spend, 4), Unit("triggers", b.triggers, 3);
    var dollars, bundles, profiles := Optional("dollars", b.dollars, 4), Optional("bundles", b.bundles, 3), Optional("profiles", b.profiles, 3);
    UpperParts(b, inTriggers);
    OptionalFolds("dollars", b.dollars, 4, focus);
    OptionalFolds("bundles", b.bundles, 3, focus);
    OptionalFolds("profiles", b.profiles, 3, focus);
    FoldablesAppend(status, spend + (dollars + (triggers + (bundles + profiles))), focus);
    FoldablesAppend(spend, dollars + (triggers + (bundles + profiles)), focus);
    FoldablesAppend(dollars, triggers + (bundles + profiles), focus);
    FoldablesAppend(triggers, bundles + profiles, focus);
    FoldablesAppend(bundles, profiles, focus);
    Regroup3(spend, dollars, (if inTriggers then [] else triggers) + (bundles + profiles));
  }

  lemma UpperParts(b: Bodies, inTriggers: bool)
    ensures var focus := if inTriggers then "triggers" else "runs";
            var status, spend, triggers := [Section("status", false, b.status, None)], Unit("spend", b.spend, 4), Unit("triggers", b.triggers, 3);
            var dollars, bundles, profiles := Optional("dollars", b.dollars, 4), Optional("bundles", b.bundles, 3), Optional("profiles", b.profiles, 3);
            && UpperSections(b) == status + (spend + (dollars + (triggers + (bundles + profiles))))
            && SpendSections(b) == spend + dollars
            && TriggerSections(b, inTriggers) == (if inTriggers then [] else triggers) + (bundles + profiles)
            && Foldables(status, focus) == [] && Foldables(spend, focus) == spend
            && Foldables(triggers, focus) == if inTriggers then [] else triggers
  {
    hide Optional;
    FoldableUnit(Section("status", false, b.status, None), if inTriggers then "triggers" else "runs");
    FoldableUnit(Section("spend", true, b.spend, Some(4)), if inTriggers then "triggers" else "runs");
    FoldableUnit(Section("triggers", true, b.triggers, Some(3)), if inTriggers then "triggers" else "runs");
    hide Foldables;
    Parts2(Section("status", false, b.status, None), Section("spend", true, b.spend, Some(4)),
           Optional("dollars", b.dollars, 4), Unit("triggers", b.triggers, 3), Optional("bundles", b.bundles, 3), Optional("profiles", b.profiles, 3));
  }

  lemma Parts2(x: Section, y: Section, a: seq<Section>, c: seq<Section>, d: seq<Section>, e: seq<Section>)
    ensures [x, y] + a + c + d + e == [x] + ([y] + (a + (c + (d + e))))
  {
  }

  lemma LowerFoldables(b: Bodies, focus: string)
    requires focus == "triggers" || focus == "runs"
    ensures Foldables(LowerSections(b), focus) == LowerFolding(b)
  {
    hide *;
    var pauses, limits, settings := Unit("pauses", b.pauses, 1), Unit("limits", b.limits, 0), Unit("settings", b.settings, 2);
    var held, failed, parked := Optional("held", b.held, 5), Optional("failed", b.failed, 6), Optional("parked", b.parked, 7);
    var runs := [Section("runs", true, b.runs, None)];
    LowerParts(b, focus);
    OptionalFolds("held", b.held, 5, focus);
    OptionalFolds("failed", b.failed, 6, focus);
    OptionalFolds("parked", b.parked, 7, focus);
    FoldablesAppend(pauses, limits + (held + (failed + (parked + (runs + settings)))), focus);
    FoldablesAppend(limits, held + (failed + (parked + (runs + settings))), focus);
    FoldablesAppend(held, failed + (parked + (runs + settings)), focus);
    FoldablesAppend(failed, parked + (runs + settings), focus);
    FoldablesAppend(parked, runs + settings, focus);
    FoldablesAppend(runs, settings, focus);
  }

  lemma LowerParts(b: Bodies, focus: string)
    requires focus == "triggers" || focus == "runs"
    ensures var pauses, limits, settings := Unit("pauses", b.pauses, 1), Unit("limits", b.limits, 0), Unit("settings", b.settings, 2);
            var held, failed, parked := Optional("held", b.held, 5), Optional("failed", b.failed, 6), Optional("parked", b.parked, 7);
            var runs := [Section("runs", true, b.runs, None)];
            && LowerSections(b) == pauses + (limits + (held + (failed + (parked + (runs + settings)))))
            && LowerFolding(b) == pauses + (limits + (held + (failed + (parked + settings))))
            && Foldables(pauses, focus) == pauses && Foldables(limits, focus) == limits && Foldables(settings, focus) == settings
            && Foldables(runs, focus) == []
  {
    hide Optional;
    FoldableUnit(Section("pauses", true, b.pauses, Some(1)), focus);
    FoldableUnit(Section("limits", true, b.limits, Some(0)), focus);
    FoldableUnit(Section("runs", true, b.runs, None), focus);
    FoldableUnit(Section("settings", true, b.settings, Some(2)), focus);
    hide Foldables;
    Parts3(Section("pauses", true, b.pauses, Some(1)), Section("limits", true, b.limits, Some(0)),
           Optional("held", b.held, 5), Optional("failed", b.failed, 6), Optional("parked", b.parked, 7),
           Section("runs", true, b.runs, None), Section("settings", true, b.settings, Some(2)));
  }

  lemma Parts3(x: Section, y: Section, a: seq<Section>, c: seq<Section>, d: seq<Section>, u: Section, v: Section)
    ensures [x, y] + a + c + d + [u, v] == [x] + ([y] + (a + (c + (d + ([u] + [v])))))
  {
  }

  /** Eight groups of one priority each: in the panel's order and in ascending order they have the same buckets. */
  lemma SameBuckets(a0: seq<Section>, a1: seq<Section>, a2: seq<Section>, a3: seq<Section>, a4: seq<Section>, rest: seq<Section>, v: real)
    requires AllOfPriority(a0, 0.0) && AllOfPriority(a1, 1.0) && AllOfPriority(a2, 2.0) && AllOfPriority(a3, 3.0) && AllOfPriority(a4, 4.0)
    requires forall i :: 0 <= i < |rest| ==> Priority(rest[i]) >= 5.0
    ensures Bucket(a0 + (a1 + (a2 + (a3 + (a4 + rest)))), Priority, v) == Bucket(a4 + (a3 + (a1 + (a0 + (rest + a2)))), Priority, v)
  {
    hide *;
    BucketOfOne(a0, 0.0, v);
    BucketOfOne(a1, 1.0, v);
    BucketOfOne(a2, 2.0, v);
    BucketOfOne(a3, 3.0, v);
    BucketOfOne(a4, 4.0, v);
    BucketOfRest(rest, v);
    AscendingBuckets(a0, a1, a2, a3, a4, rest, v);
    PanelBuckets(a0, a1, a2, a3, a4, rest, v);
    OnlyOne(Bucket(a0, Priority, v), Bucket(a1, Priority, v), Bucket(a2, Priority, v), Bucket(a3, Priority, v), Bucket(a4, Priority, v), Bucket(rest, Priority, v));
  }

  lemma BucketOfRest(rest: seq<Section>, v: real)
    requires forall i :: 0 <= i < |rest| ==> Priority(rest[i]) >= 5.0
    ensures v < 5.0 ==> Bucket(rest, Priority, v) == []
  {
    BucketHas(rest, Priority, v);
    hide Bucket, Priority;
  }

  lemma AscendingBuckets(a0: seq<Section>, a1: seq<Section>, a2: seq<Section>, a3: seq<Section>, a4: seq<Section>, rest: seq<Section>, v: real)
    ensures Bucket(a0 + (a1 + (a2 + (a3 + (a4 + rest)))), Priority, v)
         == Bucket(a0, Priority, v) + (Bucket(a1, Priority, v) + (Bucket(a2, Priority, v) + (Bucket(a3, Priority, v) + (Bucket(a4, Priority, v) + Bucket(rest, Priority, v)))))
  {
    hide *;
    BucketAppend(a0, a1 + (a2 + (a3 + (a4 + rest))), v);
    BucketAppend(a1, a2 + (a3 + (a4 + rest)), v);
    BucketAppend(a2, a3 + (a4 + rest), v);
    BucketAppend(a3, a4 + rest, v);
    BucketAppend(a4, rest, v);
  }

  lemma PanelBuckets(a0: seq<Section>, a1: seq<Section>, a2: seq<Section>, a3: seq<Section>, a4: seq<Section>, rest: seq<Section>, v: real)
    ensures Bucket(a4 + (a3 + (a1 + (a0 + (rest + a2)))), Priority, v)
         == Bucket(a4, Priority, v) + (Bucket(a3, Priority, v) + (Bucket(a1, Priority, v) + (Bucket(a0, Priority, v) + (Bucket(rest, Priority, v) + Bucket(a2, Priority, v)))))
  {
    hide *;
    BucketAppend(a4, a3 + (a1 + (a0 + (rest + a2))), v);
    BucketAppend(a3, a1 + (a0 + (rest + a2)), v);
    BucketAppend(a1, a0 + (rest + a2), v);
    BucketAppend(a0, rest + a2, v);
    BucketAppend(rest, a2, v);
  }

  /** Where at most one of six is not empty, their order does not matter. */
  lemma OnlyOne(b0: seq<Section>, b1: seq<Section>, b2: seq<Section>, b3: seq<Section>, b4: seq<Section>, r: seq<Section>)
    requires b0 == [] || (b1 == [] && b2 == [] && b3 == [] && b4 == [] && r == [])
    requires b1 == [] || (b2 == [] && b3 == [] && b4 == [] && r == [])
    requires b2 == [] || (b3 == [] && b4 == [] && r == [])
    requires b3 == [] || (b4 == [] && r == [])
    requires b4 == [] || r == []
    ensures b0 + (b1 + (b2 + (b3 + (b4 + r)))) == b4 + (b3 + (b1 + (b0 + (r + b2))))
  {
  }

  ghost predicate Within(xs: seq<Section>, lo: real, hi: real) {
    Ascending(xs, Priority) && forall i :: 0 <= i < |xs| ==> lo <= Priority(xs[i]) <= hi
  }

  lemma WithinAppend(xs: seq<Section>, ys: seq<Section>, lo: real, mid: real, hi: real)
    requires Within(xs, lo, mid) && Within(ys, mid, hi) && lo <= mid <= hi
    ensures Within(xs + ys, lo, hi)
  {
  }

  /** The LIST view's fold order, written out. */
  lemma ListFoldsInOrder(b: Bodies, inTriggers: bool)
    ensures FoldOrder(ListSections(b), if inTriggers then "triggers" else "runs") == ListOrder(b, inTriggers)
  {
    var focus := if inTriggers then "triggers" else "runs";
    PanelFoldables(b, inTriggers);
    GroupsAreUniform(b, inTriggers);
    var a0, a1, a2, a3, a4 := Unit("limits", b.limits, 0), Unit("pauses", b.pauses, 1), Unit("settings", b.settings, 2), TriggerSections(b, inTriggers), SpendSections(b);
    var held, failed, parked := Optional("held", b.held, 5), Optional("failed", b.failed, 6), Optional("parked", b.parked, 7);
    var rest := held + (failed + parked);
    hide Unit, Optional, TriggerSections, SpendSections, FoldOrder, Foldables, Priority;
    WithinAppend(failed, parked, 6.0, 6.0, 7.0);
    WithinAppend(held, failed + parked, 5.0, 5.0, 7.0);
    WithinAppend(a4, rest, 4.0, 4.0, 7.0);
    WithinAppend(a3, a4 + rest, 3.0, 3.0, 7.0);
    WithinAppend(a2, a3 + (a4 + rest), 2.0, 2.0, 7.0);
    WithinAppend(a1, a2 + (a3 + (a4 + rest)), 1.0, 1.0, 7.0);
    WithinAppend(a0, a1 + (a2 + (a3 + (a4 + rest))), 0.0, 0.0, 7.0);
    assert PanelOrder(b, inTriggers) == a4 + (a3 + (a1 + (a0 + (rest + a2)))) by { EndsTheSame(held, failed, parked, a2); }
    forall v ensures Bucket(ListOrder(b, inTriggers), Priority, v) == Bucket(PanelOrder(b, inTriggers), Priority, v) {
      SameBuckets(a0, a1, a2, a3, a4, rest, v);
    }
    FoldsBy(ListSections(b), focus, ListOrder(b, inTriggers));
  }

  lemma EndsTheSame(held: seq<Section>, failed: seq<Section>, parked: seq<Section>, a2: seq<Section>)
    ensures held + (failed + (parked + a2)) == held + (failed + parked) + a2
  {
  }

  lemma FoldsBy(sections: seq<Section>, focus: string, order: seq<Section>)
    requires IsStableSort(order, Foldables(sections, focus), Priority)
    ensures FoldOrder(sections, focus) == order
  {
    StableSortIsUnique(order, Foldables(sections, focus), Priority);
  }

  lemma GroupsAreUniform(b: Bodies, inTriggers: bool)
    ensures AllOfPriority(Unit("limits", b.limits, 0), 0.0) && AllOfPriority(Unit("pauses", b.pauses, 1), 1.0) && AllOfPriority(Unit("settings", b.settings, 2), 2.0)
    ensures AllOfPriority(TriggerSections(b, inTriggers), 3.0) && AllOfPriority(SpendSections(b), 4.0)
    ensures AllOfPriority(Optional("held", b.held, 5), 5.0) && AllOfPriority(Optional("failed", b.failed, 6), 6.0) && AllOfPriority(Optional("parked", b.parked, 7), 7.0)
  {
  }

  // ---- the LIST view's lines ----

  /** The sections that never fold. */
  predicate Stands(key: string, inTriggers: bool) {
    key == "status" || key == "runs" || (inTriggers && key == "triggers")
  }

  /**
   The LIST view's lines: the budget is exact. The header and the runs never fold, nor do the triggers while the cursor is
   in them; the sections folded are the first few of `ListOrder`, the fewest with which the frame fits, or all of them.
   */
  method ListLines(b: Bodies, selected: int, triggers: nat, available: Option<int>) returns (lines: seq<Line>, folded: set<string>, ghost n: nat)
    ensures lines == Compose(ListSections(b), folded, 0)
    ensures |lines| + FRAME_CHROME_ROWS == Total(ListSections(b), folded)
    ensures "status" !in folded && "runs" !in folded && (selected < triggers ==> "triggers" !in folded)
    ensures available.None? ==> folded == {}
    ensures available.Some? ==> FoldsFirst(b, selected < triggers, available.value, folded, n)
    ensures available.Some? && |lines| + FRAME_CHROME_ROWS > available.value ==>
              forall i :: 0 <= i < |ListSections(b)| && !Stands(ListSections(b)[i].key, selected < triggers) ==> ListSections(b)[i].key in folded
  {
    hide *;
    ListIsAPanel(b);
    var inTriggers := selected < triggers;
    lines, folded, n := BuildListLines(ListSections(b), available, Focus(selected, triggers));
    FocusIs(selected, triggers);
    NeverFolds(b, inTriggers, folded);
    ListFoldsInOrder(b, inTriggers);
    if available.Some? {
      FoldsFirstOf(b, inTriggers, available.value, folded, n);
      if |lines| + FRAME_CHROME_ROWS > available.value { OnlyStandingIsLeft(b, inTriggers, folded); }
    }
  }

  lemma FocusIs(selected: int, triggers: nat)
    ensures Focus(selected, triggers) == if selected < triggers then "triggers" else "runs"
  {
  }

  lemma FoldsFirstOf(b: Bodies, inTriggers: bool, available: int, folded: set<string>, n: int)
    requires var order := ListOrder(b, inTriggers);
             && 0 <= n <= |order| && folded == Keys(order[..n])
             && (n < |order| ==> |Compose(ListSections(b), folded, 0)| + FRAME_CHROME_ROWS <= available)
             && forall m :: 0 <= m < n ==> |Compose(ListSections(b), Keys(order[..m]), 0)| + FRAME_CHROME_ROWS > available
    ensures FoldsFirst(b, inTriggers, available, folded, n)
  {
    hide Compose, ListOrder, ListSections;
  }

  /** The first `n` sections of the order fold, with which the frame fits unless they are all, and with fewer it would not. */
  ghost predicate FoldsFirst(b: Bodies, inTriggers: bool, available: int, folded: set<string>, n: int) {
    var order := ListOrder(b, inTriggers);
    && 0 <= n <= |order| && folded == Keys(order[..n])
    && (n < |order| ==> |Compose(ListSections(b), folded, 0)| + FRAME_CHROME_ROWS <= available)
    && forall m :: 0 <= m < n ==> |Compose(ListSections(b), Keys(order[..m]), 0)| + FRAME_CHROME_ROWS > available
  }

  /** The header and the runs have no priority; the focus is not foldable. */
  lemma NeverFolds(b: Bodies, inTriggers: bool, folded: set<string>)
    requires forall i :: 0 <= i < |ListSections(b)| && ListSections(b)[i].key in folded ==> Foldable(ListSections(b)[i], if inTriggers then "triggers" else "runs")
    ensures "status" !in folded && "runs" !in folded && (inTriggers ==> "triggers" !in folded)
  {
    var upper, lower := UpperSections(b), LowerSections(b);
    var at := 2 + |Optional("dollars", b.dollars, 4)|;
    assert ListSections(b)[0] == upper[0] == Section("status", false, b.status, None);
    assert ListSections(b)[at] == upper[at] == Section("triggers", true, b.triggers, Some(3));
    assert ListSections(b)[|upper| + |lower| - 2] == lower[|lower| - 2] == Section("runs", true, b.runs, None);
  }

  lemma OnlyStandingIsLeft(b: Bodies, inTriggers: bool, folded: set<string>)
    requires !SomethingLeft(ListSections(b), if inTriggers then "triggers" else "runs", folded)
    ensures forall i :: 0 <= i < |ListSections(b)| && !Stands(ListSections(b)[i].key, inTriggers) ==> ListSections(b)[i].key in folded
  {
    var sections := ListSections(b);
    forall i | 0 <= i < |sections| && !Stands(sections[i].key, inTriggers) ensures sections[i].key in folded {
      HasAPriority(b, i);
      hide ListSections;
      assert sections[i] in sections;
    }
  }

  lemma HasAPriority(b: Bodies, i: nat)
    requires i < |ListSections(b)| && ListSections(b)[i].key !in {"status", "runs"}
    ensures ListSections(b)[i].priority.Some?
  {
    UpperHasPriorities(b);
    LowerHasPriorities(b);
    hide UpperSections, LowerSections;
  }

  ghost predicate Prioritised(sections: seq<Section>) {
    forall i :: 0 <= i < |sections| ==> sections[i].priority.Some? || sections[i].key in {"status", "runs"}
  }

  lemma UpperHasPriorities(b: Bodies)
    ensures Prioritised(UpperSections(b))
  {
    assert Prioritised(Optional("dollars", b.dollars, 4)) && Prioritised(Optional("bundles", b.bundles, 3)) && Prioritised(Optional("profiles", b.profiles, 3));
    hide Optional;
  }

  lemma LowerHasPriorities(b: Bodies)
    ensures Prioritised(LowerSections(b))
  {
    assert Prioritised(Optional("held", b.held, 5)) && Prioritised(Optional("failed", b.failed, 6)) && Prioritised(Optional("parked", b.parked, 7));
    hide Optional;
  }
}
