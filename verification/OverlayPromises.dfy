/**
 The overlay's promises to its operator, over every run: no view is left waiting, no call goes to another target, three
 Escapes close the panel, and no late answer opens or names the wrong run.
 */
module OverlayPromises {
  import opened Wrappers
  import opened Keys
  import opened Rows
  import opened TailView
  import opened Overlay
  import opened OverlayInvariant
  import opened OverlaySteps

  // ---- no view is left waiting ----

  /**
   A panel that is open never waits for nothing: HOSTS and VENUES with a report on its way have a request that carries
   the current number, whose read is running or has settled; ALLOCATION and WATCH with nothing yet have a read running.
   */
  lemma NoViewIsLeftWaiting(s: State)
    requires Reachable(s) && !s.desk.disposed
    ensures Waiting(s.cap.info) ==>
              && (s.view == Hosts || s.view == Venues)
              && s.cap.latest.Some? && s.cap.latest.value in s.cap.pool
              && var q := s.cap.pool[s.cap.latest.value];
                 q.n == s.cap.seq_ && (q.read in s.cap.races || q.read in s.cap.answers)
    ensures s.alloc.info.AllocLoading? ==> s.alloc.pool != {}
    ensures s.view == Watch && !s.watch.known ==> s.watch.pool != {}
    ensures forall i, j :: i in s.cap.races && j in s.cap.races ==> i == j
  {
    ReachableInv(s);
    if Waiting(s.cap.info) {
      var id := s.cap.latest.value;
      assert CapRequestOk(s.cap, id, s.cap.pool[id]);
    }
  }

  /** And that request ends the wait: once its read settles, resuming it draws the answer. */
  lemma LatestRequestEndsTheWait(s: State, info: CapInfo)
    requires Reachable(s) && !s.desk.disposed && Waiting(s.cap.info) && !Waiting(info)
    ensures s.cap.latest.Some? && s.cap.latest.value in s.cap.pool
    ensures var id := s.cap.latest.value;
            var read := s.cap.pool[id].read;
            && (read in s.cap.answers ==> Enabled(s, CapResumes(id)) && Step(s, CapResumes(id)).cap.info == s.cap.answers[read] && !Waiting(s.cap.answers[read]))
            && (read !in s.cap.answers ==>
                  && Enabled(s, CapSettles(read, info))
                  && var t := Step(s, CapSettles(read, info));
                     Enabled(t, CapResumes(id)) && Step(t, CapResumes(id)).cap.info == info)
  {
    ReachableInv(s);
    var id := s.cap.latest.value;
    assert CapRequestOk(s.cap, id, s.cap.pool[id]);
  }

  /** A request whose number has passed: it can no longer draw. */
  ghost predicate Outdated(s: State, id: nat) {
    id < s.cap.nextId && (id in s.cap.pool ==> s.cap.pool[id].n < s.cap.seq_)
  }

  lemma CapacityMoves(c: Capacity)
    ensures forall id: nat :: id < c.nextId ==>
              && (id in LoadCapacity(c).pool <==> id in c.pool)
              && (id in c.pool ==> LoadCapacity(c).pool[id] == c.pool[id])
    ensures LoadCapacity(c).seq_ > c.seq_ && LoadCapacity(c).nextId >= c.nextId
  {
  }

  /** What the clock, a frame, disposal, and the reads of the watch, the recovery, the report and the allocation leave as it was. */
  ghost predicate Leaves(s: State, t: State) {
    && t.view == s.view && t.inbox == s.inbox && t.detail.from == s.detail.from
    && t.desk.cancel == s.desk.cancel && t.desk.steer == s.desk.steer && t.desk.revert == s.desk.revert && t.desk.arms == s.desk.arms
    && (s.desk.disposed ==> t.desk.disposed)
    && t.lists == s.lists.(selected := t.lists.selected)
    && t.tail.gen == s.tail.gen && t.tail.note == s.tail.note && t.tail.shown.job == s.tail.shown.job
    && t.tail.shown.search == s.tail.shown.search && t.tail.shown.query == s.tail.shown.query
  }

  predicate IsOther(e: Event) {
    !e.Press? && !e.RefreshResumes? && !e.ActSettles? && !e.ByIdSettles?
  }

  lemma OthersLeave(s: State, e: Event)
    requires Enabled(s, e) && IsOther(e)
    ensures Leaves(s, Step(s, e))
    ensures !e.CapSettles? && !e.CapResumes? ==> Step(s, e).cap == s.cap
  {
    hide RowsOf, Settle, StartRefresh, ContinuesSettled, CapSettled, CapResumed, DisposeNow;
    ContinuesLeaves(s.detail, s.desk.disposed);
    DisposeLeaves(s.desk);
  }

  lemma ContinuesLeaves(d: Detail, disposed: bool)
    ensures forall id, a :: id in d.pool ==> ContinuesSettled(d, id, a, disposed).from == d.from
  {
  }

  lemma DisposeLeaves(k: Desk)
    ensures var l := DisposeNow(k);
            l.disposed && l.cancel == k.cancel && l.steer == k.steer && l.revert == k.revert && l.arms == k.arms
  {
  }

  lemma ActsLeaveTheReport(s: State, id: nat, planned: bool)
    requires id in s.desk.pool
    ensures ActStep(s, id, planned).cap == s.cap
  {
    hide SettleAct, StartRefresh, LoadAllocation;
  }

  lemma ByIdLeavesTheReport(s: State, id: nat, record: Option<Run>)
    requires id in s.inbox.pool
    ensures ByIdStep(s, id, record).cap == s.cap
  {
    hide OpenDetail;
  }

  lemma OutdatedStays(s: State, e: Event, id: nat)
    requires Outdated(s, id) && Enabled(s, e)
    ensures Outdated(Step(s, e), id)
  {
    match e
    case Press(k) => OutdatedByKeys(s, k, id); hide KeyStep;
    case RefreshResumes(i, a) => RefreshOnlyReads(s, i, a); hide RefreshStep;
    case ActSettles(i, planned) => ActsLeaveTheReport(s, i, planned); hide ActStep;
    case ByIdSettles(i, record) => ByIdLeavesTheReport(s, i, record); hide ByIdStep;
    case CapSettles(_, _) =>
    case CapResumes(_) =>
    case _ => OthersLeave(s, e); hide Step;
  }

  lemma OutdatedByKeys(s: State, k: Key, id: nat)
    requires Outdated(s, id)
    ensures Outdated(KeyStep(s, k), id)
  {
    CapacityMoves(s.cap.(info := CapLoading));
    CapacityMoves(s.cap.(info := if s.cap.info.CapReport? then s.cap.info.(refreshing := true) else CapLoading));
    OnlyHostsKeysLoad(s, k);
    hide LoadCapacity, KeyStep;
  }

  /** Keys outside LIST and HOSTS leave the capacity report alone. */
  lemma QuietForCapacity(s: State, k: Key)
    ensures RunDetailKey(s, k).cap == TriggerDetailKey(s, k).cap == HeldKey(s, k).cap == AllocationKey(s, k).cap == s.cap
  {
    hide RowAt, ShownIndex, LeaveDetail, ReadContinues, Close, AnswerRevert, ArmRow, ArmQuestion, ClampCursor;
  }

  lemma QuietForCapacityToo(s: State, k: Key)
    ensures ProjectsKey(s, k).cap == VenuesKey(s, k).cap == ParkedKey(s, k).cap == LiveTailKey(s, k).cap == s.cap
  {
    hide RowsOf, ActiveIndex, OpenDetail, KnownRun, Abandon, ReadById, TailKey, CloseTail, ClampCursor, ProjectKeys;
  }

  lemma ListForCapacity(s: State, k: Key)
    ensures ListKey(s, k).cap == s.cap || ListKey(s, k).cap == LoadCapacity(s.cap.(info := CapLoading))
  {
    OpeningForCapacity(s, k);
    hide LoadCapacity, OpenRow, OpenKey, RowKey, CursorKey, Close, Perform;
  }

  lemma OpeningForCapacity(s: State, k: Key)
    ensures OpenRow(s).cap == s.cap
    ensures OpenKey(s, k).cap == s.cap || OpenKey(s, k).cap == LoadCapacity(s.cap.(info := CapLoading))
  {
    hide LoadCapacity, RowAt, OpenDetail, OpenTail, StartRefresh, LoadAllocation, Abandon;
  }

  /** What a key does to the capacity report: nothing, leaving it, or asking for it. */
  ghost predicate CapacityMove(c: Capacity, d: Capacity) {
    || d == c
    || d == LeaveCapacity(c)
    || d == LoadCapacity(c.(info := CapLoading))
    || d == LoadCapacity(c.(info := if c.info.CapReport? then c.info.(refreshing := true) else CapLoading))
  }

  lemma OnlyHostsKeysLoad(s: State, k: Key)
    ensures CapacityMove(s.cap, KeyStep(s, k).cap)
  {
    ViewsForCapacity(s, k);
    hide LoadCapacity, LeaveCapacity, QuestionKey, MessageKey, ViewKey, StartWatch;
  }

  lemma ViewsForCapacity(s: State, k: Key)
    ensures CapacityMove(s.cap, ViewKey(s, k).cap)
  {
    QuietForCapacity(s, k);
    QuietForCapacityToo(s, k);
    ListForCapacity(s, k);
    hide LoadCapacity, LeaveCapacity, ListKey, RunDetailKey, TriggerDetailKey, HeldKey, AllocationKey, ProjectsKey, VenuesKey, ParkedKey, LiveTailKey;
  }

  /** What a resumed refresh leaves as it was: everything but the snapshot, the watch read and the tail's contents. */
  ghost predicate OnlyReads(s: State, t: State) {
    && t.view == s.view && t.timer == s.timer && t.detail == s.detail && t.inbox == s.inbox && t.cap == s.cap
    && t.alloc == s.alloc && t.desk == s.desk && t.lists == s.lists.(snapshot := t.lists.snapshot)
    && t.tail.gen == s.tail.gen
    && t.tail.shown.search == s.tail.shown.search && t.tail.shown.query == s.tail.shown.query && t.tail.shown.job == s.tail.shown.job
  }

  ghost predicate TailOnlyReads(t: Tail, u: Tail) {
    u.gen == t.gen && u.shown.search == t.shown.search && u.shown.query == t.shown.query && u.shown.job == t.shown.job
  }

  lemma TailReadOnlyReads(r: Refresh, t: Tail, c: RefreshCo, live: bool, a: RefreshAnswer)
    ensures TailOnlyReads(t, TailReadResumes(r, t, c, live, a).1)
  {
    hide PageEntries, PageAts, Last, Suspend, EndRefresh;
  }

  lemma RefreshOnlyReads(s: State, id: nat, a: RefreshAnswer)
    requires id in s.refresh.pool
    ensures OnlyReads(s, RefreshStep(s, id, a))
  {
    hide Suspend, EndRefresh, TailReadResumes, StartWatch, ReadPage;
    var t := s.(refresh := s.refresh.(pool := s.refresh.pool - {id}));
    TailReadOnlyReads(t.refresh, s.tail, s.refresh.pool[id], Current(t, GenOf(s.refresh.pool[id])), a);
    ReadTailOnlyReads(t.refresh, s.tail);
  }

  lemma ReadTailOnlyReads(r: Refresh, t: Tail)
    ensures forall job, page :: TailOnlyReads(t, ReadPage(r, t, job, t.gen, page).1)
  {
  }

  /** A request made before HOSTS was left with Escape never draws its answer, whatever happens afterwards. */
  lemma RequestFromBeforeEscapeNeverDraws(s: State, es: seq<Event>, id: nat)
    requires Reachable(s) && s.view == Hosts && s.desk.cancel.None? && id in s.cap.pool
    requires EnabledRun(KeyStep(s, Escape), es) && Enabled(RunFrom(KeyStep(s, Escape), es), CapResumes(id))
    ensures var t := RunFrom(KeyStep(s, Escape), es);
            Step(t, CapResumes(id)).cap.info == t.cap.info
  {
    EscapeOutdates(s, id);
    hide KeyStep, EnabledRun, RunFrom, Reachable;
    OutdatedRun(KeyStep(s, Escape), es, id);
    OutdatedDraws(RunFrom(KeyStep(s, Escape), es), id);
  }

  lemma EscapeOutdates(s: State, id: nat)
    requires Reachable(s) && s.view == Hosts && s.desk.cancel.None? && id in s.cap.pool
    ensures Outdated(KeyStep(s, Escape), id)
  {
    ReachableInv(s);
    assert CapRequestOk(s.cap, id, s.cap.pool[id]);
    assert id < s.cap.nextId;
    hide Inv, Reachable, CapInv;
  }

  lemma OutdatedDraws(t: State, id: nat)
    requires Outdated(t, id) && Enabled(t, CapResumes(id))
    ensures Step(t, CapResumes(id)).cap.info == t.cap.info
  {
  }

  lemma {:induction false} OutdatedRun(s: State, es: seq<Event>, id: nat)
    requires Outdated(s, id) && EnabledRun(s, es)
    ensures Outdated(RunFrom(s, es), id)
    decreases |es|
  {
    if es != [] {
      OutdatedStays(s, es[0], id);
      OutdatedRun(Step(s, es[0]), es[1..], id);
    }
  }
}
