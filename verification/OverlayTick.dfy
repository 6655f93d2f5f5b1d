/** What a tick does to the tail on screen: it reads on from the cursor, and draws what it read. */
module OverlayTick {
  import opened Wrappers
  import opened Keys
  import opened Rows
  import opened TailView
  import opened Overlay
  import opened OverlayInvariant
  import opened OverlaySteps
  import opened OverlayTheorems

  /** The panel is open on a tail, with nothing in flight. */
  predicate IdleTail(s: State) {
    s.view == LiveTail && !s.desk.disposed && !s.refresh.fetching
  }

  /** The one refresh in flight is suspended there. */
  predicate Awaits(s: State, c: RefreshCo) {
    s.refresh.fetching && s.refresh.pool == map[s.refresh.at := c]
  }

  lemma {:induction false} RunAppend(s: State, xs: seq<Event>, ys: seq<Event>)
    requires EnabledRun(s, xs) && EnabledRun(RunFrom(s, xs), ys)
    ensures EnabledRun(s, xs + ys) && RunFrom(s, xs + ys) == RunFrom(RunFrom(s, xs), ys)
    decreases |xs|
  {
    if xs == [] {
      assert xs + ys == ys;
    } else {
      assert (xs + ys)[1..] == xs[1..] + ys;
      RunAppend(Step(s, xs[0]), xs[1..], ys);
      hide Step, Enabled;
    }
  }

  lemma OneEvent(s: State, e: Event)
    requires Enabled(s, e)
    ensures EnabledRun(s, [e]) && RunFrom(s, [e]) == Step(s, e)
  {
    assert [e][1..] == [];
    assert EnabledRun(Step(s, e), []);
    hide Step, Enabled;
  }

  lemma {:induction false} RunKeeps(s: State, es: seq<Event>)
    requires Inv(s) && EnabledRun(s, es)
    ensures Inv(RunFrom(s, es))
    decreases |es|
  {
    if es != [] {
      StepKeeps(s, es[0]);
      RunKeeps(Step(s, es[0]), es[1..]);
      hide Step, Enabled, Inv;
    }
  }

  // ---- the awaits of a tick, one at a time ----

  /** The refresh has moved on to there, and nothing else has changed. */
  predicate MovedTo(s: State, t: State, c: RefreshCo) {
    && t == s.(refresh := t.refresh)
    && Awaits(t, c) && t.refresh.at == s.refresh.nextId && t.refresh.nextId == s.refresh.nextId + 1
  }

  lemma TickAsks(s: State)
    requires Inv(s) && !s.desk.disposed && !s.refresh.fetching
    ensures Enabled(s, Tick) && MovedTo(s, Step(s, Tick), ReadingSnapshot)
  {
    hide WatchInv, TailInv, TailReadsOk, DetailInv, InboxInv, CapInv, AllocInv, DeskInv;
  }

  predicate OnATail(s: State) {
    s.view == LiveTail && !s.desk.disposed && s.tail.shown.job.Some? && s.tail.shown.job.value != ""
  }

  /** The pane is the transcript of those entries. */
  predicate Draws(t: State, entries: seq<StreamEntry>, ended: Option<string>) {
    t.view == LiveTail && t.tail.shown.pane.Transcript? && t.tail.shown.pane.entries == entries && t.tail.shown.pane.ended == ended
  }

  /** Where the tail's read starts: at the page after the cursor, at whether there is a stream, or, once the stream has ended, nowhere. */
  predicate StartsReading(s: State, t: State)
    requires OnATail(s)
  {
    var shown := s.tail.shown;
    if !shown.streaming then MovedTo(s, t, ReadingMeta(shown.job.value, s.tail.gen))
    else if shown.ended.None? then MovedTo(s, t, ReadingPage(shown.job.value, s.tail.gen, 0, shown.cursor))
    else t.lists == s.lists && t.desk == s.desk && !t.refresh.fetching && Draws(t, shown.entries, shown.ended)
  }

  function WithSnapshot(s: State, snap: Snapshot): State {
    s.(lists := s.lists.(snapshot := Some(snap)))
  }

  lemma SnapshotLands(s: State, snap: Snapshot)
    requires OnATail(s) && Awaits(s, ReadingSnapshot)
    ensures var e := RefreshResumes(s.refresh.at, GotSnapshot(snap));
            && Enabled(s, e)
            && if snap.activeJobId.Some? then MovedTo(WithSnapshot(s, snap), Step(s, e), ReadingPhase)
               else StartsReading(WithSnapshot(s, snap), Step(s, e))
  {
    assert s.refresh.pool - {s.refresh.at} == map[];
  }

  lemma PhaseLands(s: State, a: RefreshAnswer)
    requires OnATail(s) && Awaits(s, ReadingPhase)
    ensures var e := RefreshResumes(s.refresh.at, a); Enabled(s, e) && StartsReading(s, Step(s, e))
  {
    assert s.refresh.pool - {s.refresh.at} == map[];
  }

  lemma MetaLands(s: State, job: string, found: bool)
    requires OnATail(s) && Awaits(s, ReadingMeta(job, s.tail.gen)) && !s.tail.shown.streaming && s.tail.shown.ended.None?
    ensures var e := RefreshResumes(s.refresh.at, GotMeta(found));
            && Enabled(s, e)
            && if found then MovedTo(Streaming(s), Step(s, e), ReadingPage(job, s.tail.gen, 0, s.tail.shown.cursor))
               else MovedTo(s, Step(s, e), ReadingLog(job, s.tail.gen))
  {
    assert s.refresh.pool - {s.refresh.at} == map[];
  }

  function Streaming(s: State): State {
    s.(tail := s.tail.(shown := s.tail.shown.(streaming := true)))
  }

  lemma LogLands(s: State, job: string, text: Option<seq<string>>)
    requires OnATail(s) && Awaits(s, ReadingLog(job, s.tail.gen))
    ensures var e := RefreshResumes(s.refresh.at, GotLog(text));
            && Enabled(s, e)
            && var t := Step(s, e);
               && !t.refresh.fetching && t == s.(refresh := t.refresh, tail := t.tail)
               && t.tail.shown == s.tail.shown.(pane := match text case Some(lines) => LogFile(lines) case None => NoLog)
  {
  }

  // ---- a tick and its answers ----

  /** A tick, its snapshot, the phase where a job is active, and whether there is a stream where that is not known yet. */
  function TickEvents(s: State, snap: Snapshot, phase: RefreshAnswer, found: bool): seq<Event> {
    StartEvents(s.refresh.nextId, snap, phase)
    + (if s.tail.shown.streaming then [] else [RefreshResumes(s.refresh.nextId + (if snap.activeJobId.Some? then 2 else 1), GotMeta(found))])
  }

  function StartEvents(i: nat, snap: Snapshot, phase: RefreshAnswer): seq<Event> {
    [Tick] + [RefreshResumes(i, GotSnapshot(snap))] + (if snap.activeJobId.Some? then [RefreshResumes(i + 1, phase)] else [])
  }

  /** The state that a tick's read starts from: the snapshot landed, and so many refresh ids were used. */
  function Landed(s: State, snap: Snapshot): State {
    WithSnapshot(s, snap).(refresh := s.refresh.(nextId := s.refresh.nextId + (if snap.activeJobId.Some? then 2 else 1)))
  }

  lemma TickStarts(s: State, snap: Snapshot, phase: RefreshAnswer)
    requires Inv(s) && IdleTail(s)
    ensures OnATail(Landed(s, snap)) && EnabledRun(s, StartEvents(s.refresh.nextId, snap, phase))
    ensures StartsReading(Landed(s, snap), RunFrom(s, StartEvents(s.refresh.nextId, snap, phase)))
  {
    hide *;
    var i := s.refresh.nextId;
    TickIsAsked(s);
    var t := Step(s, Tick);
    var snapshot, phased := RefreshResumes(i, GotSnapshot(snap)), RefreshResumes(i + 1, phase);
    SnapshotLands(t, snap);
    OneEvent(s, Tick);
    OneEvent(t, snapshot);
    RunAppend(s, [Tick], [snapshot]);
    var u := Step(t, snapshot);
    SnapshotMoves(s, t, snap, u);
    if snap.activeJobId.Some? {
      PhaseLands(u, phase);
      OneEvent(u, phased);
      RunAppend(s, [Tick] + [snapshot], [phased]);
      PhaseMoves(s, t, snap, u, Step(u, phased));
    }
    StartsWith(i, snap, phase);
  }

  lemma StartsWith(i: nat, snap: Snapshot, phase: RefreshAnswer)
    ensures StartEvents(i, snap, phase) ==
            if snap.activeJobId.Some? then [Tick] + [RefreshResumes(i, GotSnapshot(snap))] + [RefreshResumes(i + 1, phase)]
            else [Tick] + [RefreshResumes(i, GotSnapshot(snap))]
  {
  }

  lemma TickIsAsked(s: State)
    requires Inv(s) && IdleTail(s)
    ensures Enabled(s, Tick) && MovedTo(s, Step(s, Tick), ReadingSnapshot)
    ensures OnATail(Step(s, Tick)) && Awaits(Step(s, Tick), ReadingSnapshot) && Step(s, Tick).refresh.at == s.refresh.nextId
  {
    TickAsks(s);
    TailHasItsJob(s);
    hide Inv, Step, Enabled;
  }

  lemma SnapshotMoves(s: State, t: State, snap: Snapshot, u: State)
    requires MovedTo(s, t, ReadingSnapshot) && OnATail(t)
    requires if snap.activeJobId.Some? then MovedTo(WithSnapshot(t, snap), u, ReadingPhase) else StartsReading(WithSnapshot(t, snap), u)
    ensures OnATail(Landed(s, snap))
    ensures if snap.activeJobId.Some? then OnATail(u) && Awaits(u, ReadingPhase) && u.refresh.at == s.refresh.nextId + 1
            else StartsReading(Landed(s, snap), u)
  {
  }

  lemma PhaseMoves(s: State, t: State, snap: Snapshot, u: State, v: State)
    requires MovedTo(s, t, ReadingSnapshot) && OnATail(t) && OnATail(u) && OnATail(Landed(s, snap))
    requires snap.activeJobId.Some? && MovedTo(WithSnapshot(t, snap), u, ReadingPhase) && StartsReading(u, v)
    ensures StartsReading(Landed(s, snap), v)
  {
  }

  lemma TailHasItsJob(s: State)
    requires Inv(s) && s.view == LiveTail
    ensures s.tail.shown.job.Some? && s.tail.shown.job.value != ""
    ensures !s.tail.shown.streaming ==> s.tail.shown.ended.None? && s.tail.shown.cursor.None?
  {
    hide WatchInv, FlightInv, TailReadsOk, DetailInv, InboxInv, CapInv, AllocInv, LayerInv, DeskInv;
  }

  /** Where a tick has got to: the snapshot is shown, and the tail is read on from its cursor. */
  predicate ReadsOn(s: State, snap: Snapshot, found: bool, t: State)
    requires OnATail(s)
  {
    var shown := s.tail.shown;
    && t.view == LiveTail && !t.desk.disposed && t.lists == s.lists.(snapshot := Some(snap))
    && if !shown.streaming && !found then t.tail == s.tail && Awaits(t, ReadingLog(shown.job.value, s.tail.gen))
       else if shown.ended.None? then
         t.tail == s.tail.(shown := shown.(streaming := true)) && Awaits(t, ReadingPage(shown.job.value, s.tail.gen, 0, shown.cursor))
       else !t.refresh.fetching && Draws(t, shown.entries, shown.ended)
  }

  /**
   From every state in LIVE_TAIL with nothing in flight: a tick whose snapshot and phase are answered asks for the page
   after the cursor, until the stream has ended; where no stream is known yet it does so once there is one, and asks for
   this host's log where there is none.
   */
  lemma ATickReadsOn(s: State, snap: Snapshot, phase: RefreshAnswer, found: bool)
    requires Reachable(s) && IdleTail(s)
    ensures OnATail(s) && EnabledRun(s, TickEvents(s, snap, phase, found))
    ensures ReadsOn(s, snap, found, RunFrom(s, TickEvents(s, snap, phase, found)))
  {
    hide *;
    ReachableInv(s);
    IsOnATail(s);
    var start := StartEvents(s.refresh.nextId, snap, phase);
    TickStarts(s, snap, phase);
    var t := RunFrom(s, start);
    var meta := RefreshResumes(t.refresh.at, GotMeta(found));
    if s.tail.shown.streaming {
      TickEventsAre(s, snap, phase, found, t);
      StreamReadsOn(s, snap, found, t);
    } else {
      AwaitsTheMeta(s, snap, t);
      MetaLands(t, s.tail.shown.job.value, found);
      OneEvent(t, meta);
      RunAppend(s, start, [meta]);
      TickEventsAre(s, snap, phase, found, t);
      MetaReadsOn(s, snap, found, t, Step(t, meta));
    }
  }

  lemma IsOnATail(s: State)
    requires Inv(s) && IdleTail(s)
    ensures OnATail(s)
  {
    TailHasItsJob(s);
    hide Inv;
  }

  lemma TickEventsAre(s: State, snap: Snapshot, phase: RefreshAnswer, found: bool, t: State)
    requires OnATail(Landed(s, snap)) && StartsReading(Landed(s, snap), t)
    ensures TickEvents(s, snap, phase, found) ==
            if s.tail.shown.streaming then StartEvents(s.refresh.nextId, snap, phase)
            else StartEvents(s.refresh.nextId, snap, phase) + [RefreshResumes(t.refresh.at, GotMeta(found))]
  {
    assert StartEvents(s.refresh.nextId, snap, phase) + [] == StartEvents(s.refresh.nextId, snap, phase);
    hide StartEvents;
  }

  lemma StreamReadsOn(s: State, snap: Snapshot, found: bool, t: State)
    requires OnATail(s) && OnATail(Landed(s, snap)) && StartsReading(Landed(s, snap), t) && s.tail.shown.streaming
    ensures ReadsOn(s, snap, found, t)
  {
    assert s.tail == s.tail.(shown := s.tail.shown.(streaming := true));
  }

  lemma AwaitsTheMeta(s: State, snap: Snapshot, t: State)
    requires Inv(s) && OnATail(s) && OnATail(Landed(s, snap)) && StartsReading(Landed(s, snap), t) && !s.tail.shown.streaming
    ensures OnATail(t) && t.tail == s.tail && s.tail.shown.ended.None? && s.tail.shown.job.Some? && Awaits(t, ReadingMeta(s.tail.shown.job.value, t.tail.gen))
  {
    TailHasItsJob(s);
    hide Inv;
  }

  lemma MetaReadsOn(s: State, snap: Snapshot, found: bool, t: State, u: State)
    requires OnATail(s) && OnATail(Landed(s, snap)) && StartsReading(Landed(s, snap), t) && !s.tail.shown.streaming && s.tail.shown.ended.None?
    requires if found then MovedTo(Streaming(t), u, ReadingPage(s.tail.shown.job.value, t.tail.gen, 0, t.tail.shown.cursor))
             else MovedTo(t, u, ReadingLog(s.tail.shown.job.value, t.tail.gen))
    ensures ReadsOn(s, snap, found, u)
  {
  }

  /** Where there is no stream, the log's text becomes the pane, or the pane says there is none. */
  lemma ATickShowsTheLog(s: State, snap: Snapshot, phase: RefreshAnswer, text: Option<seq<string>>)
    requires Reachable(s) && IdleTail(s) && !s.tail.shown.streaming
    ensures EnabledRun(s, TickEvents(s, snap, phase, false))
    ensures var t := RunFrom(s, TickEvents(s, snap, phase, false));
            var e := RefreshResumes(t.refresh.at, GotLog(text));
            && Enabled(t, e)
            && !Step(t, e).refresh.fetching
            && Step(t, e).tail.shown == s.tail.shown.(pane := match text case Some(lines) => LogFile(lines) case None => NoLog)
  {
    ATickReadsOn(s, snap, phase, false);
    var t := RunFrom(s, TickEvents(s, snap, phase, false));
    LogLands(t, s.tail.shown.job.value, text);
    hide Step, Enabled, EnabledRun, RunFrom, Reachable, TickEvents;
  }

  // ---- the pages of a tick ----

  /** Everything from the cursor to the end of a stream of `n` entries was read, and is drawn. */
  ghost predicate ReadsToTheEnd(s: State, t: State, n: nat, ended: Option<string>) {
    var next := NextAfter(s.tail.shown.cursor);
    && next <= n && t.tail.read == s.tail.read + PageAts(next, n - next)
    && t.tail.shown.job == s.tail.shown.job
    && Draws(t, t.tail.shown.entries, ended)
  }

  lemma PageStepReads(s: State, page: nat, n: nat, ended: Option<string>)
    requires LoopReady(s, page, n) && page < TAIL_PAGES_MAX
    ensures Enabled(s, HonestEvent(s, n, ended))
    ensures var t := Step(s, HonestEvent(s, n, ended));
            && (LoopDone(t, page + 1, n) ==> ReadsToTheEnd(s, t, n, ended))
            && (LoopReady(t, page + 1, n) ==>
                  && t.tail.read == s.tail.read + PageAts(NextAfter(s.tail.shown.cursor), TRANSCRIPT_PAGE)
                  && t.tail.shown.job == s.tail.shown.job
                  && NextAfter(t.tail.shown.cursor) == NextAfter(s.tail.shown.cursor) + TRANSCRIPT_PAGE)
  {
    hide PageEntries, PageAts, Last, ShowTranscript, TakePage;
    var c := s.refresh.pool[s.refresh.at];
    var taken := s.(refresh := s.refresh.(pool := s.refresh.pool - {s.refresh.at}));
    HonestPageReads(taken.refresh, s.tail, c.job, c.gen, page, n, ended);
    assert Step(s, HonestEvent(s, n, ended)) == TailReadStep(taken, c, HonestPage(c.after, n, ended));
    hide HonestPage, PageResumes;
  }

  lemma HonestPageReads(r: Refresh, t: Tail, job: string, gen: nat, page: nat, n: nat, ended: Option<string>)
    requires NextAfter(t.shown.cursor) <= n && t.shown.ended.None? && page < TAIL_PAGES_MAX && gen == t.gen
    ensures var next := NextAfter(t.shown.cursor);
            var (q, u) := PageResumes(r, t, job, gen, page, HonestPage(t.shown.cursor, n, ended));
            && u.shown.job == t.shown.job
            && (q == EndRefresh(r) && NextAfter(u.shown.cursor) == n ==>
                  && u.read == t.read + PageAts(next, n - next)
                  && u.shown.pane.Transcript? && u.shown.pane.entries == u.shown.entries && u.shown.pane.ended == ended)
            && (q != EndRefresh(r) ==> u.read == t.read + PageAts(next, TRANSCRIPT_PAGE) && NextAfter(u.shown.cursor) == next + TRANSCRIPT_PAGE)
  {
    hide PageEntries, PageAts, Last, TakePage, ShowTranscript;
    var next := NextAfter(t.shown.cursor);
    var left := n - next;
    if left <= TRANSCRIPT_PAGE { PageIsTaken(t, job, left, ended); } else { PageIsTaken(t, job, TRANSCRIPT_PAGE, None); }
  }

  /** A page after the cursor is read, the cursor follows it, and what is drawn then is what is held. */
  lemma PageIsTaken(t: Tail, job: string, count: nat, ended: Option<string>)
    requires t.shown.ended.None?
    ensures var from := NextAfter(t.shown.cursor);
            var u := TakePage(t, job, from, count, ended);
            && u.shown.job == t.shown.job && u.read == t.read + PageAts(from, count) && NextAfter(u.shown.cursor) == from + count && u.shown.ended == ended
            && var drawn := ShowTranscript(u);
               && drawn.shown.job == u.shown.job && drawn.read == u.read && drawn.shown.cursor == u.shown.cursor && drawn.shown.entries == u.shown.entries
               && drawn.shown.pane.Transcript? && drawn.shown.pane.entries == u.shown.entries && drawn.shown.pane.ended == ended
  {
    hide PageEntries, PageAts, Last;
  }

  lemma PagesJoin(ats: seq<nat>, from: nat, count: nat, more: nat)
    ensures ats + PageAts(from, count) + PageAts(from + count, more) == ats + PageAts(from, count + more)
  {
  }

  lemma {:induction false} PageLoopReads(s: State, page: nat, n: nat, ended: Option<string>)
    requires LoopReady(s, page, n) && page < TAIL_PAGES_MAX
    requires Retained(n - NextAfter(s.tail.shown.cursor), page)
    ensures AtPage(s, page, n) && ReadsToTheEnd(s, PageLoop(s, page, n, ended).0, n, ended)
    decreases TAIL_PAGES_MAX - page
  {
    hide *;
    LoopIsAtAPage(s, page, n);
    PageStep(s, page, n, ended);
    PageStepReads(s, page, n, ended);
    PageLoopUnfolds(s, page, n, ended);
    var t := Step(s, HonestEvent(s, n, ended));
    var left := n - NextAfter(s.tail.shown.cursor);
    AnotherPageFits(left, page);
    if left >= TRANSCRIPT_PAGE && !LoopDone(t, page + 1, n) {
      PageLoopReads(t, page + 1, n, ended);
      PagesReadOn(s, t, PageLoop(t, page + 1, n, ended).0, n, ended);
    }
  }

  lemma PagesReadOn(s: State, t: State, u: State, n: nat, ended: Option<string>)
    requires ReadsToTheEnd(t, u, n, ended) && t.tail.shown.job == s.tail.shown.job
    requires t.tail.read == s.tail.read + PageAts(NextAfter(s.tail.shown.cursor), TRANSCRIPT_PAGE)
    requires NextAfter(t.tail.shown.cursor) == NextAfter(s.tail.shown.cursor) + TRANSCRIPT_PAGE
    ensures ReadsToTheEnd(s, u, n, ended)
  {
    var next := NextAfter(s.tail.shown.cursor);
    PagesJoin(s.tail.read, next, TRANSCRIPT_PAGE, n - next - TRANSCRIPT_PAGE);
    hide PageAts;
  }

  lemma {:induction false} PageLoopKeeps(s: State, page: nat, n: nat, ended: Option<string>)
    requires Inv(s) && AtPage(s, page, n)
    ensures Inv(PageLoop(s, page, n, ended).0)
    decreases TAIL_PAGES_MAX - page
  {
    hide Inv, Step, AtPage;
    HonestIsEnabled(s, page, n, ended);
    StepKeeps(s, HonestEvent(s, n, ended));
    var t := Step(s, HonestEvent(s, n, ended));
    if page < TAIL_PAGES_MAX && AtPage(t, page + 1, n) {
      PageLoopKeeps(t, page + 1, n, ended);
    }
  }

  lemma HonestIsEnabled(s: State, page: nat, n: nat, ended: Option<string>)
    requires AtPage(s, page, n)
    ensures s.refresh.at in s.refresh.pool && s.refresh.pool[s.refresh.at].ReadingPage? && NextAfter(s.refresh.pool[s.refresh.at].after) <= n
    ensures Enabled(s, HonestEvent(s, n, ended))
  {
  }

  /**
   One tick of a tail on a stream of `n` entries: afterwards the cursor is at the end of the stream, everything between
   has been read, and the pane draws the last 200 of all that was read since the tail opened, in order, with the
   stream's end.
   */
  lemma ATickShowsTheStream(s: State, snap: Snapshot, phase: RefreshAnswer, n: nat, ended: Option<string>)
    requires Reachable(s) && IdleTail(s) && s.tail.shown.ended.None?
    requires NextAfter(s.tail.shown.cursor) <= n <= NextAfter(s.tail.shown.cursor) + LIVE_MAX_ENTRIES
    ensures EnabledRun(s, TickEvents(s, snap, phase, true)) && AtPage(RunFrom(s, TickEvents(s, snap, phase, true)), 0, n)
    ensures var next := NextAfter(s.tail.shown.cursor);
            var (t, pages) := PageLoop(RunFrom(s, TickEvents(s, snap, phase, true)), 0, n, ended);
            var read, held := t.tail.read, t.tail.shown.entries;
            && !t.refresh.fetching && NextAfter(t.tail.shown.cursor) == n && pages <= PagesFor(n - next)
            && |read| == |s.tail.read| + n - next && read[..|s.tail.read|] == s.tail.read
            && (forall k :: |s.tail.read| <= k < |read| ==> read[k] == next + k - |s.tail.read|)
            && Draws(t, held, ended)
            && |held| == Min(|read|, TAIL_LINES) && s.tail.shown.job.Some?
            && forall j :: 0 <= j < |held| ==> held[j] == StreamEntry(s.tail.shown.job.value, read[|read| - |held| + j])
  {
    hide *;
    ReachableInv(s);
    ATickReadsOn(s, snap, phase, true);
    assert s.tail.shown.job.Some? by { IsOnATail(s); JobOnATail(s); }
    RunKeeps(s, TickEvents(s, snap, phase, true));
    var u := RunFrom(s, TickEvents(s, snap, phase, true));
    ReadsOnIsReady(s, snap, u, n);
    LoopIsAtAPage(u, 0, n);
    FirstPageRetains(n - NextAfter(s.tail.shown.cursor));
    OneTickDrainsTheTranscript(u, 0, n, ended);
    PageLoopReads(u, 0, n, ended);
    PageLoopKeeps(u, 0, n, ended);
    EndShowsTheStream(s, u, PageLoop(u, 0, n, ended), n, ended);
  }

  lemma JobOnATail(s: State)
    requires OnATail(s)
    ensures s.tail.shown.job.Some?
  {
  }

  lemma FirstPageRetains(left: int)
    requires left <= LIVE_MAX_ENTRIES
    ensures Retained(left, 0) && 0 < TAIL_PAGES_MAX
  {
  }

  lemma ReadsOnIsReady(s: State, snap: Snapshot, u: State, n: nat)
    requires OnATail(s) && ReadsOn(s, snap, true, u) && s.tail.shown.ended.None? && NextAfter(s.tail.shown.cursor) <= n
    ensures LoopReady(u, 0, n) && u.tail.shown.cursor == s.tail.shown.cursor && u.tail.read == s.tail.read && u.tail.shown.job == s.tail.shown.job
    ensures s.tail.shown.job.Some?
  {
  }

  lemma EndShowsTheStream(s: State, u: State, r: (State, nat), n: nat, ended: Option<string>)
    requires u.tail.shown.cursor == s.tail.shown.cursor && u.tail.read == s.tail.read && u.tail.shown.job == s.tail.shown.job && s.tail.shown.job.Some?
    requires Drains(r, n, n - NextAfter(u.tail.shown.cursor), 0) && ReadsToTheEnd(u, r.0, n, ended) && Inv(r.0)
    ensures var next := NextAfter(s.tail.shown.cursor);
            var (t, pages) := r;
            var read, held := t.tail.read, t.tail.shown.entries;
            && !t.refresh.fetching && NextAfter(t.tail.shown.cursor) == n && pages <= PagesFor(n - next)
            && |read| == |s.tail.read| + n - next && read[..|s.tail.read|] == s.tail.read
            && (forall k :: |s.tail.read| <= k < |read| ==> read[k] == next + k - |s.tail.read|)
            && Draws(t, held, ended)
            && |held| == Min(|read|, TAIL_LINES)
            && forall j :: 0 <= j < |held| ==> held[j] == StreamEntry(s.tail.shown.job.value, read[|read| - |held| + j])
  {
    hide WatchInv, FlightInv, TailReadsOk, DetailInv, InboxInv, CapInv, AllocInv, LayerInv, DeskInv, TailInv;
    LastEntriesAreShown(r.0.tail);
    hide Inv;
  }

  // ---- a refresh in any view ----

  /**
   An answered snapshot is the one shown, and one that fails shows an unreachable fleet and ends the refresh; then WATCH's
   findings are read and awaited, the phase where a job is active, and the tail where one is on screen.
   */
  lemma TheSnapshotIsShown(s: State, id: nat, a: RefreshAnswer)
    requires id in s.refresh.pool && s.refresh.pool[id] == ReadingSnapshot
    ensures Enabled(s, RefreshResumes(id, a))
    ensures var t := Step(s, RefreshResumes(id, a));
            && t.lists == s.lists.(snapshot := Some(if a.GotSnapshot? then a.snapshot else UNREACHABLE))
            && (!a.GotSnapshot? ==> t.refresh == s.refresh.(fetching := false, pool := s.refresh.pool - {id}) && t.watch == s.watch && t.tail == s.tail)
            && (a.GotSnapshot? && s.view == Watch ==>
                  && t.watch.reading && t.refresh.fetching && t.refresh.at in t.refresh.pool
                  && t.refresh.pool[t.refresh.at] == AwaitingWatch(if s.watch.reading then None else Some(s.watch.nextId))
                  && (!s.watch.reading ==> s.watch.nextId in t.watch.pool))
            && (a.GotSnapshot? && s.view != Watch && a.snapshot.activeJobId.Some? ==>
                  t.refresh.fetching && t.refresh.at in t.refresh.pool && t.refresh.pool[t.refresh.at] == ReadingPhase)
            && (a.GotSnapshot? && s.view != Watch && s.view != LiveTail && a.snapshot.activeJobId.None? ==>
                  t.refresh == s.refresh.(fetching := false, pool := s.refresh.pool - {id}))
  {
    hide ReadTail;
  }

  /** After WATCH's read the refresh goes on to the phase of an active job, after that to the tail on screen, and where there is none it ends. */
  lemma TheRefreshGoesOn(s: State, id: nat, c: RefreshCo, a: RefreshAnswer)
    requires s.refresh.pool == map[id := c] && (c.AwaitingWatch? || c.ReadingPhase?) && Enabled(s, RefreshResumes(id, a))
    ensures var t := Step(s, RefreshResumes(id, a));
            var phase := c.AwaitingWatch? && s.lists.snapshot.Some? && s.lists.snapshot.value.activeJobId.Some?;
            && (phase ==> MovedTo(s, t, ReadingPhase))
            && (!phase && OnATail(s) ==> StartsReading(s, t))
            && (!phase && s.view != LiveTail ==> t == s.(refresh := s.refresh.(fetching := false, pool := map[])))
  {
    var taken := s.(refresh := s.refresh.(pool := map[]));
    assert s.refresh.pool - {id} == map[];
    assert Step(s, RefreshResumes(id, a)) == if c.AwaitingWatch? then AfterWatch(taken) else AfterPhase(taken) by { hide AfterWatch, AfterPhase; }
    hide Step, AfterPhase;
    GoesToTheTail(s);
  }

  lemma GoesToTheTail(s: State)
    ensures var t := AfterPhase(s.(refresh := s.refresh.(pool := map[])));
            && (OnATail(s) ==> StartsReading(s, t))
            && (s.view != LiveTail ==> t == s.(refresh := s.refresh.(fetching := false, pool := map[])))
  {
  }

  /** The awaits a refresh still has before it, at most. */
  function AwaitsLeft(c: RefreshCo): nat {
    match c
    case ReadingSnapshot => TAIL_PAGES_MAX + 5
    case AwaitingWatch(_) => TAIL_PAGES_MAX + 4
    case ReadingPhase => TAIL_PAGES_MAX + 3
    case ReadingMeta(_, _) => TAIL_PAGES_MAX + 2
    case ReadingPage(_, _, page, _) => if page < TAIL_PAGES_MAX then TAIL_PAGES_MAX + 1 - page else 1
    case ReadingLog(_, _) => 1
  }

  /** The refresh has ended, or is suspended with fewer awaits left. */
  ghost predicate NearerTheEnd(r: Refresh, left: nat) {
    || (!r.fetching && r.pool == map[])
    || (r.fetching && r.pool.Keys == {r.at} && AwaitsLeft(r.pool[r.at]) < left)
  }

  /** Whatever it is answered, a resumed refresh has ended or has fewer awaits before it: none goes on for ever. */
  lemma RefreshesEnd(s: State, id: nat, a: RefreshAnswer)
    requires Inv(s) && Enabled(s, RefreshResumes(id, a))
    ensures NearerTheEnd(Step(s, RefreshResumes(id, a)).refresh, AwaitsLeft(s.refresh.pool[id]))
  {
    hide *;
    InFlight(s, id, a);
    var c, t := s.refresh.pool[id], s.(refresh := s.refresh.(pool := map[]));
    Resumes(s, id, a);
    if IsTailRead(c) {
      TailReadsEnd(t.refresh, t.tail, c, Current(t, GenOf(c)), a);
    } else {
      OthersEnd(t, c, a);
    }
  }

  lemma InFlight(s: State, id: nat, a: RefreshAnswer)
    requires Inv(s) && Enabled(s, RefreshResumes(id, a))
    ensures id in s.refresh.pool && s.refresh.pool - {id} == map[]
  {
    assert s.refresh.pool.Keys == {id} by { hide WatchInv, TailInv, TailReadsOk, DetailInv, InboxInv, CapInv, AllocInv, LayerInv, DeskInv; }
  }

  /** What the refresh in flight goes on to, resumed where `t` has it taken out. */
  function Resumed(t: State, c: RefreshCo, a: RefreshAnswer): Refresh {
    match c
    case ReadingSnapshot =>
      if a.GotSnapshot? then AfterSnapshot(t.(lists := t.lists.(snapshot := Some(a.snapshot)))).refresh else EndRefresh(t.refresh)
    case AwaitingWatch(_) => AfterWatch(t).refresh
    case ReadingPhase => AfterPhase(t).refresh
    case _ => TailReadResumes(t.refresh, t.tail, c, Current(t, GenOf(c)), a).0
  }

  lemma Resumes(s: State, id: nat, a: RefreshAnswer)
    requires Enabled(s, RefreshResumes(id, a)) && s.refresh.pool - {id} == map[]
    ensures Step(s, RefreshResumes(id, a)).refresh == Resumed(s.(refresh := s.refresh.(pool := map[])), s.refresh.pool[id], a)
    ensures IsTailRead(s.refresh.pool[id]) ==>
              var c, t := s.refresh.pool[id], s.(refresh := s.refresh.(pool := map[]));
              Resumed(t, c, a) == TailReadResumes(t.refresh, t.tail, c, Current(t, GenOf(c)), a).0 && t.refresh.pool == map[]
  {
    hide AfterSnapshot, AfterWatch, AfterPhase, TailReadResumes;
  }

  lemma OthersEnd(t: State, c: RefreshCo, a: RefreshAnswer)
    requires !IsTailRead(c)
    ensures t.refresh.pool == map[] ==> NearerTheEnd(Resumed(t, c, a), AwaitsLeft(c))
  {
  }

  predicate IsTailRead(c: RefreshCo) {
    c.ReadingMeta? || c.ReadingPage? || c.ReadingLog?
  }

  lemma TailReadsEnd(r: Refresh, t: Tail, c: RefreshCo, live: bool, a: RefreshAnswer)
    requires r.pool == map[] && IsTailRead(c)
    ensures NearerTheEnd(TailReadResumes(r, t, c, live, a).0, AwaitsLeft(c))
  {
    hide TakePage, ShowTranscript;
  }

  /** The lines of a transcript are still those that the last frame wrapped. */
  predicate KeepsLines(p: Pane, q: Pane) {
    q.Transcript? ==> q.wrapped == if p.Transcript? then p.wrapped else []
  }

  /** A refresh leaves the lines that the last frame wrapped, so a key before the next frame scrolls over what is on screen. */
  lemma ARefreshKeepsTheDrawnLines(s: State, id: nat, a: RefreshAnswer)
    requires Enabled(s, RefreshResumes(id, a))
    ensures KeepsLines(s.tail.shown.pane, Step(s, RefreshResumes(id, a)).tail.shown.pane)
  {
    var c, t := s.refresh.pool[id], s.(refresh := s.refresh.(pool := s.refresh.pool - {id}));
    if IsTailRead(c) {
      hide TailReadResumes, KeepsLines;
      TailReadKeepsLines(t.refresh, t.tail, c, Current(t, GenOf(c)), a);
    } else {
      OthersKeepLines(t, c, a);
      hide AfterSnapshot, AfterWatch, AfterPhase, KeepsLines;
    }
  }

  lemma OthersKeepLines(t: State, c: RefreshCo, a: RefreshAnswer)
    ensures KeepsLines(t.tail.shown.pane, AfterWatch(t).tail.shown.pane) && KeepsLines(t.tail.shown.pane, AfterPhase(t).tail.shown.pane)
    ensures a.GotSnapshot? ==> KeepsLines(t.tail.shown.pane, AfterSnapshot(t.(lists := t.lists.(snapshot := Some(a.snapshot)))).tail.shown.pane)
    ensures KeepsLines(t.tail.shown.pane, t.tail.shown.pane)
  {
    forall r ensures KeepsLines(t.tail.shown.pane, ReadTail(r, t.tail, t.tail.shown.job.GetOr("")).1.shown.pane) {
      ReadTailKeepsLines(r, t.tail, t.tail.shown.job.GetOr(""));
    }
    hide ReadTail;
  }

  lemma ReadTailKeepsLines(r: Refresh, t: Tail, job: string)
    ensures KeepsLines(t.shown.pane, ReadTail(r, t, job).1.shown.pane)
  {
  }

  lemma TailReadKeepsLines(r: Refresh, t: Tail, c: RefreshCo, live: bool, a: RefreshAnswer)
    ensures KeepsLines(t.shown.pane, TailReadResumes(r, t, c, live, a).1.shown.pane)
  {
    hide PageEntries, PageAts, Last;
  }
}
