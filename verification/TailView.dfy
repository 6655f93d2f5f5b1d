/**
 The LIVE_TAIL view's window and search (admin/src/dashboard.ts, `tailMatches` and the scroll keys): a 20-line window
 that follows the bottom until it is scrolled, and a search over the lines as the pane draws them.
 */
module TailView {
  import opened Wrappers
  import opened Keys

  const TAIL_VIEWPORT := 20

  /** `top` is the window's first line, `follow` whether it is pinned to the bottom, `matched` the current match. */
  datatype Scroll = Scroll(top: int, follow: bool, matched: Option<int>)

  const BOTTOM := Scroll(0, true, None)

  function MaxTop(len: nat): nat {
    if len <= TAIL_VIEWPORT then 0 else len - TAIL_VIEWPORT
  }

  /** The clamp `render` applies to every frame. */
  function Settle(sc: Scroll, len: nat): Scroll {
    sc.(top := if sc.follow then MaxTop(len) else Min(Max(0, sc.top), MaxTop(len)))
  }

  /** A text as the pane draws it, lower-cased: `scrubControls` and `toLowerCase`, whatever they substitute and fold. */
  const Drawn: string -> string

  predicate OccursAt(s: string, q: string, i: nat) {
    i + |q| <= |s| && s[i..i + |q|] == q
  }

  predicate Contains(s: string, q: string) {
    exists i: nat :: i <= |s| && OccursAt(s, q, i)
  }

  predicate LineMatches(line: string, query: string) {
    Contains(Drawn(line), Drawn(query))
  }

  /** The specification of `tailMatches`: the indices of the matching lines, from `from` on. */
  function MatchesFrom(lines: seq<string>, query: string, from: nat): seq<int>
    requires from <= |lines|
    decreases |lines| - from
  {
    if from == |lines| then []
    else (if LineMatches(lines[from], query) then [from] else []) + MatchesFrom(lines, query, from + 1)
  }

  function Matches(lines: seq<string>, query: string): seq<int> {
    MatchesFrom(lines, query, 0)
  }

  ghost predicate StrictlyAscending(ms: seq<int>) {
    forall i, j :: 0 <= i < j < |ms| ==> ms[i] < ms[j]
  }

  /** `tailMatches`: strictly ascending, and exactly the lines that contain the query as drawn. */
  method TailMatches(lines: seq<string>, query: string) returns (out: seq<int>)
    ensures out == Matches(lines, query)
    ensures StrictlyAscending(out)
    ensures forall i :: i in out <==> 0 <= i < |lines| && LineMatches(lines[i], query)
  {
    out := [];
    for i := 0 to |lines|
      invariant out + MatchesFrom(lines, query, i) == Matches(lines, query)
      invariant StrictlyAscending(out)
      invariant forall k :: 0 <= k < |out| ==> out[k] < i
      invariant forall m :: m in out <==> 0 <= m < i && LineMatches(lines[m], query)
    {
      if LineMatches(lines[i], query) {
        assert out + MatchesFrom(lines, query, i) == out + [i] + MatchesFrom(lines, query, i + 1);
        assert forall m :: m in out + [i] <==> m in out || m == i;
        out := out + [i];
      }
    }
    assert out + [] == out;
  }

  lemma {:induction false} MatchesFromExact(lines: seq<string>, query: string, from: nat)
    requires from <= |lines|
    ensures StrictlyAscending(MatchesFrom(lines, query, from))
    ensures forall k :: 0 <= k < |MatchesFrom(lines, query, from)| ==> IsMatchFrom(lines, query, from, MatchesFrom(lines, query, from)[k])
    decreases |lines| - from
  {
    if from < |lines| {
      MatchesFromExact(lines, query, from + 1);
      var rest, ms := MatchesFrom(lines, query, from + 1), MatchesFrom(lines, query, from);
      var h := if LineMatches(lines[from], query) then 1 else 0;
      assert forall k :: h <= k < |ms| ==> ms[k] == rest[k - h];
      assert forall k :: 0 <= k < |rest| ==> IsMatchFrom(lines, query, from + 1, rest[k]) && rest[k] > from;
    }
  }

  predicate IsMatchFrom(lines: seq<string>, query: string, from: nat, m: int) {
    from <= m < |lines| && LineMatches(lines[m], query)
  }

  /** The first match after `from`, or the first of all. */
  function Next(ms: seq<int>, from: int): int
    requires ms != []
  {
    var later := FirstAfter(ms, from);
    if later.Some? then later.value else ms[0]
  }

  function FirstAfter(ms: seq<int>, from: int): Option<int> {
    if ms == [] then None else if ms[0] > from then Some(ms[0]) else FirstAfter(ms[1..], from)
  }

  /** The last match before `from`, or the last of all. */
  function Previous(ms: seq<int>, from: int): int
    requires ms != []
  {
    var earlier := LastBefore(ms, from);
    if earlier.Some? then earlier.value else ms[|ms| - 1]
  }

  function LastBefore(ms: seq<int>, from: int): Option<int> {
    if ms == [] then None else if ms[|ms| - 1] < from then Some(ms[|ms| - 1]) else LastBefore(ms[..|ms| - 1], from)
  }

  lemma {:induction false} FirstAfterAt(ms: seq<int>, i: nat)
    requires StrictlyAscending(ms) && i < |ms|
    ensures FirstAfter(ms, ms[i]) == if i + 1 < |ms| then Some(ms[i + 1]) else None
  {
    FirstAfterSkips(ms, i + 1, ms[i]);
  }

  lemma {:induction false} FirstAfterSkips(ms: seq<int>, n: nat, from: int)
    requires StrictlyAscending(ms) && n <= |ms|
    requires forall j :: 0 <= j < n ==> ms[j] <= from
    requires n < |ms| ==> ms[n] > from
    ensures FirstAfter(ms, from) == if n < |ms| then Some(ms[n]) else None
  {
    if n > 0 {
      FirstAfterSkips(ms[1..], n - 1, from);
    }
  }

  lemma {:induction false} LastBeforeAt(ms: seq<int>, i: nat)
    requires StrictlyAscending(ms) && i < |ms|
    ensures LastBefore(ms, ms[i]) == if i > 0 then Some(ms[i - 1]) else None
    decreases |ms|
  {
    LastBeforeSkips(ms, i, ms[i]);
  }

  lemma {:induction false} LastBeforeSkips(ms: seq<int>, n: nat, from: int)
    requires StrictlyAscending(ms) && n <= |ms|
    requires forall j :: n <= j < |ms| ==> ms[j] >= from
    requires n > 0 ==> ms[n - 1] < from
    ensures LastBefore(ms, from) == if n > 0 then Some(ms[n - 1]) else None
    decreases |ms|
  {
    if n < |ms| {
      LastBeforeSkips(ms[..|ms| - 1], n, from);
    }
  }

  /** `n` and `N` step cyclically through the matches, and each undoes the other. */
  lemma NextAndPreviousAreInverseCyclicSteps(lines: seq<string>, query: string, i: nat)
    requires i < |Matches(lines, query)|
    ensures var ms, n := Matches(lines, query), |Matches(lines, query)|;
            && Next(ms, ms[i]) == ms[if i + 1 < n then i + 1 else 0]
            && Previous(ms, ms[i]) == ms[if i > 0 then i - 1 else n - 1]
            && Previous(ms, Next(ms, ms[i])) == ms[i]
            && Next(ms, Previous(ms, ms[i])) == ms[i]
  {
    var ms := Matches(lines, query);
    var n := |ms|;
    MatchesFromExact(lines, query, 0);
    FirstAfterAt(ms, i);
    LastBeforeAt(ms, i);
    var up := if i + 1 < n then i + 1 else 0;
    var down := if i > 0 then i - 1 else n - 1;
    LastBeforeAt(ms, up);
    FirstAfterAt(ms, down);
  }

  /** One key of the view outside its search input. `lines` are the lines the last frame drew. */
  function ScrollKey(sc: Scroll, lines: seq<string>, query: Option<string>, k: Key): Scroll {
    var maxTop := MaxTop(|lines|);
    if query.Some? && (k == Char('n') || k == Char('N')) then
      var ms := Matches(lines, query.value);
      if ms == [] then sc
      else
        var from := sc.matched.GetOr(sc.top);
        var m := if k == Char('n') then Next(ms, from) else Previous(ms, from);
        Scroll(Min(m, maxTop), false, Some(m))
    else match k
      case Up => sc.(follow := false, top := Max(0, sc.top - 1))
      case Down => var t := Min(maxTop, sc.top + 1); sc.(top := t, follow := sc.follow || t >= maxTop)
      case PageUp => sc.(follow := false, top := Max(0, sc.top - TAIL_VIEWPORT))
      case PageDown => var t := Min(maxTop, sc.top + TAIL_VIEWPORT); sc.(top := t, follow := sc.follow || t >= maxTop)
      case _ => sc
  }

  predicate InBounds(sc: Scroll, len: nat) {
    0 <= sc.top <= MaxTop(len)
  }

  /** After a jump the matched line is a match, it is inside the window, and the window is inside the tail. */
  lemma JumpShowsTheMatch(sc: Scroll, lines: seq<string>, query: string, k: Key)
    requires k == Char('n') || k == Char('N')
    requires Matches(lines, query) != []
    ensures var after := ScrollKey(sc, lines, Some(query), k);
            && !after.follow && InBounds(after, |lines|)
            && after.matched.Some?
            && 0 <= after.matched.value < |lines|
            && LineMatches(lines[after.matched.value], query)
            && after.top <= after.matched.value < after.top + TAIL_VIEWPORT
            && Settle(after, |lines|) == after
  {
    var ms := Matches(lines, query);
    MatchesFromExact(lines, query, 0);
    var m := ScrollKey(sc, lines, Some(query), k).matched.value;
    assert m in ms by {
      FirstAfterIsMember(ms, sc.matched.GetOr(sc.top));
      LastBeforeIsMember(ms, sc.matched.GetOr(sc.top));
    }
  }

  lemma {:induction false} FirstAfterIsMember(ms: seq<int>, from: int)
    ensures FirstAfter(ms, from).Some? ==> FirstAfter(ms, from).value in ms
  {
    if ms != [] { FirstAfterIsMember(ms[1..], from); }
  }

  lemma {:induction false} LastBeforeIsMember(ms: seq<int>, from: int)
    ensures LastBefore(ms, from).Some? ==> LastBefore(ms, from).value in ms
    decreases |ms|
  {
    if ms != [] { LastBeforeIsMember(ms[..|ms| - 1], from); }
  }

  /** Every scroll key keeps a drawn window in bounds, and a view that does not follow does so again exactly when a key down reaches the bottom. */
  lemma ScrollKeepsBounds(sc: Scroll, lines: seq<string>, query: Option<string>, k: Key)
    requires InBounds(sc, |lines|)
    ensures InBounds(ScrollKey(sc, lines, query, k), |lines|)
    ensures !sc.follow ==>
              (ScrollKey(sc, lines, query, k).follow <==> (k == Down || k == PageDown) && ScrollKey(sc, lines, query, k).top == MaxTop(|lines|))
  {
    if query.Some? && (k == Char('n') || k == Char('N')) && Matches(lines, query.value) != [] {
      JumpShowsTheMatch(sc, lines, query.value, k);
    }
  }

  /** The arrows move the window one line and the page keys twenty, each in its own direction and no further than the tail. */
  lemma ScrollMoves(sc: Scroll, lines: seq<string>, query: Option<string>, k: Key)
    requires InBounds(sc, |lines|)
    ensures var after := ScrollKey(sc, lines, query, k);
            && (k == Up ==> after == Scroll(if sc.top >= 1 then sc.top - 1 else 0, false, sc.matched))
            && (k == PageUp ==> after == Scroll(if sc.top >= 20 then sc.top - 20 else 0, false, sc.matched))
            && (k == Down ==> after.matched == sc.matched && after.top == if sc.top + 1 <= MaxTop(|lines|) then sc.top + 1 else MaxTop(|lines|))
            && (k == PageDown ==> after.matched == sc.matched && after.top == if sc.top + 20 <= MaxTop(|lines|) then sc.top + 20 else MaxTop(|lines|))
            && (sc.follow && (k == Down || k == PageDown) ==> after.follow)
            && (k !in {Up, Down, PageUp, PageDown, Char('n'), Char('N')} ==> after == sc)
  {
  }

  /** The bottom shows the last twenty lines, or all of a shorter tail. */
  lemma TheBottomIsTheLastLine(len: nat)
    ensures MaxTop(len) + 20 == len || (MaxTop(len) == 0 && len <= 20)
  {
  }

  /** `n` jumps to the nearest match below the current one, or below the window's top where there is none yet, and else to the first. */
  lemma NJumpsToTheNearest(sc: Scroll, lines: seq<string>, query: string)
    requires Matches(lines, query) != []
    ensures var from, m := sc.matched.GetOr(sc.top), ScrollKey(sc, lines, Some(query), Char('n')).matched;
            && m.Some? && m.value in Matches(lines, query)
            && (m.value > from ==> forall i :: from < i < m.value ==> i !in Matches(lines, query))
            && (m.value <= from ==> forall i :: i in Matches(lines, query) ==> m.value <= i <= from)
  {
    var ms, from := Matches(lines, query), sc.matched.GetOr(sc.top);
    MatchesFromExact(lines, query, 0);
    FirstAfterIs(ms, from);
  }

  /** `N` jumps to the nearest match above, and else to the last. */
  lemma CapitalNJumpsToTheNearest(sc: Scroll, lines: seq<string>, query: string)
    requires Matches(lines, query) != []
    ensures var from, m := sc.matched.GetOr(sc.top), ScrollKey(sc, lines, Some(query), Char('N')).matched;
            && m.Some? && m.value in Matches(lines, query)
            && (m.value < from ==> forall i :: m.value < i < from ==> i !in Matches(lines, query))
            && (m.value >= from ==> forall i :: i in Matches(lines, query) ==> from <= i <= m.value)
  {
    var ms, from := Matches(lines, query), sc.matched.GetOr(sc.top);
    MatchesFromExact(lines, query, 0);
    LastBeforeIs(ms, from);
  }

  lemma {:induction false} FirstAfterIs(ms: seq<int>, from: int)
    requires StrictlyAscending(ms)
    ensures match FirstAfter(ms, from)
            case Some(m) => m in ms && m > from && forall i :: from < i < m ==> i !in ms
            case None => forall i :: i in ms ==> i <= from
  {
    if ms != [] {
      FirstAfterIs(ms[1..], from);
      assert forall i :: i in ms <==> i == ms[0] || i in ms[1..];
    }
  }

  lemma {:induction false} LastBeforeIs(ms: seq<int>, from: int)
    requires StrictlyAscending(ms)
    ensures match LastBefore(ms, from)
            case Some(m) => m in ms && m < from && forall i :: m < i < from ==> i !in ms
            case None => forall i :: i in ms ==> i >= from
    decreases |ms|
  {
    if ms != [] {
      LastBeforeIs(ms[..|ms| - 1], from);
      assert forall i :: i in ms <==> i == ms[|ms| - 1] || i in ms[..|ms| - 1];
    }
  }
}
