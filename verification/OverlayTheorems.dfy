/** What the overlay promises, over every reachable state and every run. */
module OverlayTheorems {
  import opened Wrappers
  import opened Keys
  import opened Rows
  import opened TailView
  import opened Overlay
  import opened OverlayInvariant
  import opened OverlaySteps

  // ---- the tail ----

  /**
   LIVE_TAIL shows exactly the last min(200, n) of the n entries read since it opened, all of the shown job's stream,
   each once, in order, the last one at the cursor; when no page started past the cursor they are consecutive. Outside
   LIVE_TAIL nothing of a tail is held.
   */
  lemma TailShowsTheLastEntriesOfItsJob(s: State)
    requires Reachable(s)
    ensures s.view != LiveTail ==> s.tail.shown == NO_TAIL
    ensures s.view == LiveTail ==>
              && s.tail.shown.job.Some?
              && var n, held := |s.tail.read|, s.tail.shown.entries;
                 && |held| == Min(n, TAIL_LINES)
                 && (forall j :: 0 <= j < |held| ==> held[j] == StreamEntry(s.tail.shown.job.value, s.tail.read[n - |held| + j]))
                 && (forall i, j :: 0 <= i < j < |held| ==> held[i].at < held[j].at)
                 && (held != [] ==> s.tail.shown.cursor == Some(held[|held| - 1].at))
                 && (s.tail.gapless ==> forall j :: 0 <= j < |held| ==> held[j].at == s.tail.shown.cursor.value + 1 - |held| + j)
  {
    hide *;
    ReachableTail(s);
    if s.view == LiveTail { LastEntriesAreShown(s.tail); } else { NothingIsShown(s.tail); }
  }

  lemma ReachableTail(s: State)
    requires Reachable(s)
    ensures TailInv(s.tail, s.view == LiveTail)
  {
    hide Reachable, TailInv;
    ReachableInv(s);
  }

  lemma NothingIsShown(t: Tail)
    requires TailInv(t, false)
    ensures t.shown == NO_TAIL
  {
  }

  lemma LastEntriesAreShown(t: Tail)
    requires TailInv(t, true)
    ensures var n, held := |t.read|, t.shown.entries;
            && t.shown.job.Some?
            && |held| == Min(n, TAIL_LINES)
            && (forall j :: 0 <= j < |held| ==> held[j] == StreamEntry(t.shown.job.value, t.read[n - |held| + j]))
            && (forall i, j :: 0 <= i < j < |held| ==> held[i].at < held[j].at)
            && (held != [] ==> t.shown.cursor == Some(held[|held| - 1].at))
            && (t.gapless ==> forall j :: 0 <= j < |held| ==> held[j].at == t.shown.cursor.value + 1 - |held| + j)
  {
  }

  /** At most one refresh is suspended at a time, and only while `fetching` is up. */
  lemma RefreshesNeverOverlap(s: State)
    requires Reachable(s)
    ensures forall i, j :: i in s.refresh.pool && j in s.refresh.pool ==> i == j && s.refresh.fetching
  {
    ReachableInv(s);
    assert forall i :: i in s.refresh.pool ==> i in s.refresh.pool.Keys;
  }

  /**
   The note under the tail is the one field a late answer can still write: a read of a tail that was closed leaves it
   exactly when it is rejected, and then it touches nothing else.
   */
  lemma StaleReadWritesOnlyItsRejection(s: State, c: RefreshCo, a: RefreshAnswer)
    requires !Current(s, GenOf(c))
    ensures TailReadStep(s, c, a).tail == if a.Rejected? then s.tail.(note := Some(a.why)) else s.tail
  {
  }

  /** The run behind `NoteOfAnotherRun`: job a's tail is read, left with Escape, and job b's opened before the read is rejected. */
  function LateRejection(snap: Snapshot): seq<Event> {
    [RefreshResumes(0, GotSnapshot(snap)), RefreshResumes(1, Done), Press(Escape), Press(Char('l')), RefreshResumes(2, Rejected("a failed"))]
  }

  lemma ReadingTailOfA(snap: Snapshot)
    requires snap.activeJobId == Some("b")
    ensures var s := Init(Some("a"));
            && Enabled(s, LateRejection(snap)[0])
            && var t := Step(s, LateRejection(snap)[0]);
               && Enabled(t, LateRejection(snap)[1])
               && var u := Step(t, LateRejection(snap)[1]);
                  && u.view == LiveTail && u.tail == OpenTail(Closed().tail, "a") && u.desk == Closed().desk
                  && u.lists.snapshot == Some(snap) && u.refresh.fetching && 2 in u.refresh.pool && u.refresh.pool[2] == ReadingMeta("a", 1)
  {
    hide BuildRows;
    var s := Init(Some("a"));
    assert s.refresh.pool == map[0 := ReadingSnapshot];
    var t := Step(s, RefreshResumes(0, GotSnapshot(snap)));
    assert t.refresh.pool[1] == ReadingPhase && t.view == LiveTail && t.tail == s.tail;
  }

  lemma SwitchedToB(s: State)
    requires s.view == LiveTail && s.tail == OpenTail(Closed().tail, "a") && s.desk == Closed().desk
    requires s.lists.snapshot.Some? && s.lists.snapshot.value.activeJobId == Some("b") && s.refresh.fetching
    ensures var t := KeyStep(KeyStep(s, Escape), Char('l'));
            t.view == LiveTail && t.tail.shown.job == Some("b") && t.tail.gen == 3 && t.refresh == s.refresh
  {
    var t := KeyStep(s, Escape);
    EscapedFromA(s);
    OpensB(t);
    hide KeyStep;
  }

  lemma EscapedFromA(s: State)
    requires s.view == LiveTail && s.tail == OpenTail(Closed().tail, "a") && s.desk == Closed().desk
    ensures var t := KeyStep(s, Escape);
            t.view == List && t.desk == s.desk && t.tail == CloseTail(s.tail) && t.refresh == s.refresh && t.lists.snapshot == s.lists.snapshot
  {
    hide RowsOf, ActiveIndex, TailKey;
  }

  lemma OpensB(t: State)
    requires t.view == List && t.desk == Closed().desk && t.refresh.fetching
    requires t.lists.snapshot.Some? && t.lists.snapshot.value.activeJobId == Some("b")
    ensures var u := KeyStep(t, Char('l'));
            u.view == LiveTail && u.tail == OpenTail(t.tail, "b") && u.refresh == t.refresh
  {
    hide OpenRow, RowKey, CursorKey, Close, LoadCapacity, LoadAllocation, Abandon;
  }

  /** So a rejected read of job a can leave its note under job b's tail. */
  lemma NoteOfAnotherRun(snap: Snapshot)
    requires snap.activeJobId == Some("b")
    ensures EnabledRun(Init(Some("a")), LateRejection(snap))
    ensures var t := RunFrom(Init(Some("a")), LateRejection(snap)).tail;
            t.shown.job == Some("b") && t.note == Some("a failed")
  {
    var s0, es := Init(Some("a")), LateRejection(snap);
    ReadingTailOfA(snap);
    var s2 := Step(Step(s0, es[0]), es[1]);
    SwitchedToB(s2);
    var s4 := Step(Step(s2, es[2]), es[3]);
    assert Step(s4, es[4]).tail == s4.tail.(note := Some("a failed"));
    UnrollFive(s0, es);
    hide Init, KeyStep, EnabledRun, RunFrom;
  }

  lemma UnrollFive(s: State, es: seq<Event>)
    requires |es| == 5
    requires Enabled(s, es[0]) && var a := Step(s, es[0]);
             Enabled(a, es[1]) && var b := Step(a, es[1]);
             Enabled(b, es[2]) && var c := Step(b, es[2]);
             Enabled(c, es[3]) && var d := Step(c, es[3]); Enabled(d, es[4])
    ensures EnabledRun(s, es)
    ensures RunFrom(s, es) == Step(Step(Step(Step(Step(s, es[0]), es[1]), es[2]), es[3]), es[4])
  {
    hide Step, Enabled;
    assert es[1..][0] == es[1] && es[1..][1..] == es[2..];
    assert es[2..][0] == es[2] && es[2..][1..] == es[3..];
    assert es[3..][0] == es[3] && es[3..][1..] == es[4..];
    assert es[4..][0] == es[4] && es[4..][1..] == [];
    var a := Step(s, es[0]);
    var b := Step(a, es[1]);
    var c := Step(b, es[2]);
    var d := Step(c, es[3]);
    assert EnabledRun(Step(d, es[4]), []);
    assert EnabledRun(d, es[4..]) && RunFrom(d, es[4..]) == Step(d, es[4]);
    assert EnabledRun(c, es[3..]) && RunFrom(c, es[3..]) == RunFrom(d, es[4..]);
    assert EnabledRun(b, es[2..]) && RunFrom(b, es[2..]) == RunFrom(c, es[3..]);
    assert EnabledRun(a, es[1..]) && RunFrom(a, es[1..]) == RunFrom(b, es[2..]);
  }

  // ---- one tick drains the transcript ----

  /** The page a stream of `n` entries gives after the cursor; the last page says whether the run ended. */
  function HonestPage(after: Option<nat>, n: nat, ended: Option<string>): RefreshAnswer
    requires NextAfter(after) <= n
  {
    var left := n - NextAfter(after);
    if left <= TRANSCRIPT_PAGE then GotPage(NextAfter(after), left, ended) else GotPage(NextAfter(after), TRANSCRIPT_PAGE, None)
  }

  predicate AtPage(s: State, page: nat, n: nat) {
    && s.view == LiveTail && !s.desk.disposed
    && s.refresh.at in s.refresh.pool
    && match s.refresh.pool[s.refresh.at]
       case ReadingPage(_, gen, p, after) => gen == s.tail.gen && p == page && NextAfter(after) <= n
       case _ => false
  }

  /** The events of one tick's page loop on a stream that does not grow meanwhile, from its `page`-th page on. */
  function PageLoop(s: State, page: nat, n: nat, ended: Option<string>): (State, nat)
    requires AtPage(s, page, n)
    decreases TAIL_PAGES_MAX - page
  {
    var t := Step(s, HonestEvent(s, n, ended));
    if page < TAIL_PAGES_MAX && AtPage(t, page + 1, n) then
      var (u, pages) := PageLoop(t, page + 1, n, ended);
      (u, pages + 1)
    else (t, 1)
  }

  ghost predicate LoopDone(t: State, page: nat, n: nat) {
    !t.refresh.fetching && NextAfter(t.tail.shown.cursor) == n && !AtPage(t, page, n)
  }

  /** The page loop is suspended alone, after the cursor. */
  ghost predicate LoopReady(s: State, page: nat, n: nat) {
    AtPage(s, page, n) && s.refresh.pool.Keys == {s.refresh.at} && s.tail.shown.cursor == s.refresh.pool[s.refresh.at].after && s.tail.shown.ended.None?
  }

  function HonestEvent(s: State, n: nat, ended: Option<string>): Event
    requires s.refresh.at in s.refresh.pool && s.refresh.pool[s.refresh.at].ReadingPage? && NextAfter(s.refresh.pool[s.refresh.at].after) <= n
  {
    RefreshResumes(s.refresh.at, HonestPage(s.refresh.pool[s.refresh.at].after, n, ended))
  }

  lemma PageStep(s: State, page: nat, n: nat, ended: Option<string>)
    requires LoopReady(s, page, n) && page < TAIL_PAGES_MAX
    ensures var left := n - NextAfter(s.tail.shown.cursor);
            && Enabled(s, HonestEvent(s, n, ended))
            && var t := Step(s, HonestEvent(s, n, ended));
               && (left < TRANSCRIPT_PAGE ==> LoopDone(t, page + 1, n))
               && (left >= TRANSCRIPT_PAGE && page + 1 < TAIL_PAGES_MAX ==>
                     LoopDone(t, page + 1, n) || (LoopReady(t, page + 1, n) && n - NextAfter(t.tail.shown.cursor) == left - TRANSCRIPT_PAGE))
  {
    hide PageEntries, PageAts, Last, ShowTranscript, TakePage;
    var c := s.refresh.pool[s.refresh.at];
    var a := HonestPage(c.after, n, ended);
    var taken := s.(refresh := s.refresh.(pool := s.refresh.pool - {s.refresh.at}));
    assert taken.refresh.pool.Keys == {};
    HonestPageResumes(taken.refresh, s.tail, c.job, c.gen, page, n, ended);
    assert Step(s, HonestEvent(s, n, ended)) == TailReadStep(taken, c, a);
    hide HonestPage, PageResumes;
  }

  lemma HonestPageResumes(r: Refresh, t: Tail, job: string, gen: nat, page: nat, n: nat, ended: Option<string>)
    requires NextAfter(t.shown.cursor) <= n && t.shown.ended.None? && page < TAIL_PAGES_MAX && gen == t.gen
    ensures var left := n - NextAfter(t.shown.cursor);
            var (q, u) := PageResumes(r, t, job, gen, page, HonestPage(t.shown.cursor, n, ended));
            && u.gen == t.gen
            && (left < TRANSCRIPT_PAGE ==> q == EndRefresh(r) && NextAfter(u.shown.cursor) == n)
            && (left >= TRANSCRIPT_PAGE && page + 1 < TAIL_PAGES_MAX ==>
                  || (q == EndRefresh(r) && NextAfter(u.shown.cursor) == n)
                  || (q == Suspend(r, ReadingPage(job, gen, page + 1, u.shown.cursor)) && u.shown.ended.None? && NextAfter(u.shown.cursor) == NextAfter(t.shown.cursor) + TRANSCRIPT_PAGE))
  {
    hide PageEntries, PageAts, Last;
  }

  /** One page more than the entries fill. */
  function PagesFor(left: int): int {
    left / TRANSCRIPT_PAGE + 1
  }

  /** No more is left than the retained entries that the pages before this one have not read. */
  predicate Retained(left: int, page: nat) {
    left <= LIVE_MAX_ENTRIES - page * TRANSCRIPT_PAGE
  }

  /**
   One tick reaches the end of any stream with at most `LIVE_MAX_ENTRIES` entries past the cursor that does not grow
   meanwhile, in at most one page more than its entries fill, and never in more than `TAIL_PAGES_MAX`.
   */
  lemma {:induction false} OneTickDrainsTheTranscript(s: State, page: nat, n: nat, ended: Option<string>)
    requires LoopReady(s, page, n) && page < TAIL_PAGES_MAX
    requires Retained(n - NextAfter(s.tail.shown.cursor), page)
    ensures Drains(PageLoop(s, page, n, ended), n, n - NextAfter(s.tail.shown.cursor), page)
    decreases TAIL_PAGES_MAX - page
  {
    hide *;
    LoopIsAtAPage(s, page, n);
    PageStep(s, page, n, ended);
    PageLoopUnfolds(s, page, n, ended);
    var t := Step(s, HonestEvent(s, n, ended));
    var left := n - NextAfter(s.tail.shown.cursor);
    DoneDrains(t, page, n, left);
    AnotherPageFits(left, page);
    if left >= TRANSCRIPT_PAGE && !LoopDone(t, page + 1, n) {
      OneTickDrainsTheTranscript(t, page + 1, n, ended);
      PageMoreDrains(PageLoop(t, page + 1, n, ended), n, left, page);
    }
  }

  lemma LoopIsAtAPage(s: State, page: nat, n: nat)
    requires LoopReady(s, page, n)
    ensures AtPage(s, page, n) && s.refresh.at in s.refresh.pool
    ensures var c := s.refresh.pool[s.refresh.at]; c.ReadingPage? && c.after == s.tail.shown.cursor && NextAfter(c.after) <= n
  {
  }

  /**
   The loop has ended with the cursor at the end of the stream, in no more pages than the entries fill and one, and
   within the bound.
   */
  predicate Drains(r: (State, nat), n: nat, left: int, page: nat) {
    && !r.0.refresh.fetching
    && NextAfter(r.0.tail.shown.cursor) == n
    && r.1 <= PagesFor(left)
    && page + r.1 <= TAIL_PAGES_MAX
  }

  lemma PageMoreDrains(r: (State, nat), n: nat, left: int, page: nat)
    requires Drains(r, n, left - TRANSCRIPT_PAGE, page + 1) && PagesFor(left - TRANSCRIPT_PAGE) + 1 == PagesFor(left)
    ensures Drains((r.0, r.1 + 1), n, left, page)
  {
  }

  lemma DoneDrains(t: State, page: nat, n: nat, left: nat)
    requires page < TAIL_PAGES_MAX
    ensures LoopDone(t, page + 1, n) ==> Drains((t, 1), n, left, page)
  {
    QuotientAtLeast(0, left, TRANSCRIPT_PAGE);
  }

  lemma PageLoopUnfolds(s: State, page: nat, n: nat, ended: Option<string>)
    requires LoopReady(s, page, n) && page < TAIL_PAGES_MAX
    ensures AtPage(s, page, n)
    ensures var t := Step(s, HonestEvent(s, n, ended));
            && (LoopReady(t, page + 1, n) ==>
                  && AtPage(t, page + 1, n)
                  && var (u, pages) := PageLoop(t, page + 1, n, ended); PageLoop(s, page, n, ended) == (u, pages + 1))
            && (LoopDone(t, page + 1, n) ==> PageLoop(s, page, n, ended) == (t, 1))
  {
    PageStep(s, page, n, ended);
    hide Step, Enabled;
  }

  /** With the read model's sizes: at most eleven pages. */
  lemma ElevenPagesDrainTheTranscript(s: State, n: nat, ended: Option<string>)
    requires TRANSCRIPT_PAGE == 200 && LIVE_MAX_ENTRIES == 2000
    requires LoopReady(s, 0, n) && n - NextAfter(s.tail.shown.cursor) <= 2000
    ensures var (t, pages) := PageLoop(s, 0, n, ended);
            !t.refresh.fetching && NextAfter(t.tail.shown.cursor) == n && pages <= 11
  {
    assert Retained(n - NextAfter(s.tail.shown.cursor), 0);
    OneTickDrainsTheTranscript(s, 0, n, ended);
    hide PageLoop, LoopReady;
  }

  /** Every page loop of a reachable state is so suspended. */
  lemma ReachableLoopIsReady(s: State, page: nat, n: nat)
    requires Reachable(s) && AtPage(s, page, n)
    ensures LoopReady(s, page, n) && page < TAIL_PAGES_MAX
  {
    ReachableInv(s);
    assert s.refresh.at in s.refresh.pool.Keys;
    assert TailReadOk(s.tail, s.refresh.pool[s.refresh.at]);
  }

  lemma AnotherPageFits(left: nat, page: nat)
    requires Retained(left, page)
    ensures left >= TRANSCRIPT_PAGE ==>
              && page + 1 < TAIL_PAGES_MAX
              && Retained(left - TRANSCRIPT_PAGE, page + 1)
              && PagesFor(left - TRANSCRIPT_PAGE) + 1 == PagesFor(left)
    ensures PagesFor(left) >= 1
  {
    LeftNeedsAPage(left, page, TRANSCRIPT_PAGE, LIVE_MAX_ENTRIES);
    OnePageLess(left, TRANSCRIPT_PAGE);
    QuotientAtLeast(0, left, TRANSCRIPT_PAGE);
  }

  // ---- division by any page size ----

  lemma MultiplesApart(a: int, b: int, p: int)
    requires a < b && p > 0
    ensures a * p + p <= b * p
  {
    assert (a + 1) * p == a * p + p;
    var d := b - (a + 1);
    assert d * p >= 0;
    assert b * p == (a + 1) * p + d * p;
  }

  lemma QuotientIs(x: int, q: int, r: int, p: int)
    requires p > 0 && x == q * p + r && 0 <= r < p
    ensures x / p == q
  {
    assert x == x / p * p + x % p;
    if x / p < q { MultiplesApart(x / p, q, p); }
    if q < x / p { MultiplesApart(q, x / p, p); }
  }

  lemma QuotientAtLeast(k: int, x: int, p: int)
    requires p > 0 && k * p <= x
    ensures k <= x / p
  {
    assert x == x / p * p + x % p;
    if x / p < k { MultiplesApart(x / p, k, p); }
  }

  /** While a page or more is left of what the pages from here on may hold, the bound allows another page. */
  lemma LeftNeedsAPage(left: int, page: nat, p: nat, m: nat)
    requires p > 0 && left <= m - page * p
    ensures left >= p ==> page + 1 < (m + p - 1) / p + 1
    ensures left >= p ==> left - p <= m - (page + 1) * p
  {
    if left >= p {
      assert (page + 1) * p == page * p + p;
      QuotientAtLeast(page + 1, m + p - 1, p);
    }
  }

  lemma OnePageLess(left: int, p: nat)
    requires p > 0
    ensures (left - p) / p + 1 == left / p
  {
    assert left == left / p * p + left % p;
    assert (left / p - 1) * p == left / p * p - p;
    QuotientIs(left - p, left / p - 1, left % p, p);
  }
}
