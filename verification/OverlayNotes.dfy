/** Whose read the note under a tail is from, over every run. */
module OverlayNotes {
  import opened Wrappers
  import opened Keys
  import opened Rows
  import opened TailView
  import opened Overlay
  import opened OverlayInvariant
  import opened OverlaySteps
  import opened OverlayPromises
  import opened OverlayEscape

  predicate IsTailRead(c: RefreshCo) {
    c.ReadingMeta? || c.ReadingPage? || c.ReadingLog?
  }

  /**
   The read the note is from, after an event: one that is rejected leaves it whatever tail it was for; a page's answer to
   the tail on screen clears it, or leaves one where it is no page; and a tail that is opened or closed has none.
   */
  function NoteAfter(s: State, e: Event, was: Option<RefreshCo>): Option<RefreshCo> {
    match e
    case RefreshResumes(id, a) =>
      if id !in s.refresh.pool || !IsTailRead(s.refresh.pool[id]) then was
      else
        var c := s.refresh.pool[id];
        if a.Rejected? then Some(c)
        else if !Current(s, GenOf(c)) || !c.ReadingPage? then was
        else if a.GotPage? then None
        else Some(c)
    case Press(k) => if KeyStep(s, k).tail.gen != s.tail.gen then None else was
    case _ => was
  }

  /** The same, over a run. */
  function NoteRead(s: State, es: seq<Event>, was: Option<RefreshCo>): Option<RefreshCo>
    requires EnabledRun(s, es)
    decreases |es|
  {
    if es == [] then was else NoteRead(Step(s, es[0]), es[1..], NoteAfter(s, es[0], was))
  }

  /** There is a note exactly where there is a read it is from, and one of this opening is of the job shown. */
  ghost predicate NoteFrom(s: State, read: Option<RefreshCo>) {
    && (s.tail.note.Some? <==> read.Some?)
    && (read.Some? ==> IsTailRead(read.value) && GenOf(read.value) <= s.tail.gen
                       && (GenOf(read.value) == s.tail.gen ==> s.tail.shown.job == Some(read.value.job)))
  }

  /** A key opens a tail, closes it, or leaves its note, its number and its job. */
  ghost predicate NoteMove(t: Tail, u: Tail) {
    || (u.gen == t.gen && u.note == t.note && u.shown.job == t.shown.job)
    || (u.gen == t.gen + 1 && u.note.None?)
  }

  lemma QuietForTheTail(s: State, k: Key)
    ensures RunDetailKey(s, k).tail == TriggerDetailKey(s, k).tail == HeldKey(s, k).tail == AllocationKey(s, k).tail == s.tail
  {
    hide ReadContinues, RowAt, ShownIndex, LeaveDetail, Close, AnswerRevert, ArmRow, ArmQuestion, ClampCursor;
  }

  lemma QuietForTheTailToo(s: State, k: Key)
    ensures ProjectsKey(s, k).tail == HostsKey(s, k).tail == VenuesKey(s, k).tail == ParkedKey(s, k).tail == s.tail
  {
    hide OpenDetail, KnownRun, Abandon, ReadById, LoadCapacity, LeaveCapacity, ClampCursor, ProjectKeys;
  }

  lemma ListMovesTheNote(s: State, k: Key)
    ensures NoteMove(s.tail, ListKey(s, k).tail)
  {
    hide RowAt, OpenDetail, LoadCapacity, StartRefresh, CursorKey, LoadAllocation, Abandon, Close, Perform, RowKey;
  }

  lemma LiveTailMovesTheNote(s: State, k: Key)
    ensures NoteMove(s.tail, LiveTailKey(s, k).tail)
  {
    hide ScrollKey, RowsOf, ActiveIndex;
  }

  lemma KeysMoveTheNote(s: State, k: Key)
    ensures NoteMove(s.tail, KeyStep(s, k).tail)
  {
    QuietForTheTail(s, k);
    QuietForTheTailToo(s, k);
    ListMovesTheNote(s, k);
    LiveTailMovesTheNote(s, k);
    hide NoteMove, ListKey, RunDetailKey, TriggerDetailKey, HeldKey, AllocationKey, ProjectsKey, HostsKey, VenuesKey, ParkedKey, LiveTailKey, QuestionKey, MessageKey, StartWatch;
    NoteStays(s.tail);
  }

  lemma NoteStays(t: Tail)
    ensures NoteMove(t, t)
  {
  }

  lemma PageLeavesTheNote(r: Refresh, t: Tail, job: string, page: nat)
    ensures ReadPage(r, t, job, t.gen, page).1.note == t.note
  {
  }

  lemma TailReadsNote(r: Refresh, t: Tail, c: RefreshCo, live: bool, a: RefreshAnswer)
    requires IsTailRead(c) && (live ==> GenOf(c) == t.gen)
    ensures var u := TailReadResumes(r, t, c, live, a).1;
            u.note == (if a.Rejected? then Some(a.why)
                       else if !live || !c.ReadingPage? then t.note
                       else if a.GotPage? then None
                       else Some(if a.GotNoPage? then a.why else "no answer"))
  {
    hide PageEntries, PageAts, Last, Suspend;
  }

  lemma RefreshesNote(s: State, id: nat, a: RefreshAnswer)
    requires id in s.refresh.pool
    ensures var u := RefreshStep(s, id, a).tail;
            && u.gen == s.tail.gen && u.shown.job == s.tail.shown.job
            && (u.note == s.tail.note || IsTailRead(s.refresh.pool[id]))
            && (IsTailRead(s.refresh.pool[id]) ==> (u.note.Some? <==> NoteAfter(s, RefreshResumes(id, a), if s.tail.note.Some? then Some(s.refresh.pool[id]) else None).Some?))
  {
    RefreshOnlyReads(s, id, a);
    var c := s.refresh.pool[id];
    var t := s.(refresh := s.refresh.(pool := s.refresh.pool - {id}));
    if IsTailRead(c) {
      assert RefreshStep(s, id, a) == TailReadStep(t, c, a);
      TailReadsNote(t.refresh, s.tail, c, Current(t, GenOf(c)), a);
      hide TailReadResumes, RefreshStep;
    } else {
      OtherRefreshesLeaveTheNote(s, id, a);
      hide RefreshStep;
    }
  }

  lemma OtherRefreshesLeaveTheNote(s: State, id: nat, a: RefreshAnswer)
    requires id in s.refresh.pool && !IsTailRead(s.refresh.pool[id])
    ensures RefreshStep(s, id, a).tail.note == s.tail.note
  {
    var t := s.(refresh := s.refresh.(pool := s.refresh.pool - {id}));
    forall job, page: nat ensures ReadPage(t.refresh, s.tail, job, s.tail.gen, page).1.note == s.tail.note {
      PageLeavesTheNote(t.refresh, s.tail, job, page);
    }
    hide ReadPage;
  }

  lemma NoteFromStays(s: State, e: Event, was: Option<RefreshCo>)
    requires Inv(s) && Enabled(s, e) && NoteFrom(s, was)
    ensures NoteFrom(Step(s, e), NoteAfter(s, e, was))
  {
    hide Inv, NoteFrom;
    match e
    case Press(k) => NoteFromKey(s, k, was); hide KeyStep, NoteAfter;
    case RefreshResumes(id, a) => NoteFromRefresh(s, id, a, was); hide RefreshStep, NoteAfter;
    case ActSettles(id, planned) =>
      SettleKeepsQuestions(s, id, planned);
      NoteFromLeft(s, ActStep(s, id, planned), was);
      hide ActStep;
    case ByIdSettles(id, record) =>
      ByIdLeavesTheTail(s, id, record);
      NoteFromLeft(s, ByIdStep(s, id, record), was);
      hide ByIdStep;
    case _ =>
      OthersLeave(s, e);
      NoteFromLeft(s, Step(s, e), was);
      hide Step;
  }

  lemma NoteFromLeft(s: State, t: State, was: Option<RefreshCo>)
    requires NoteFrom(s, was) && t.tail.gen == s.tail.gen && t.tail.note == s.tail.note && t.tail.shown.job == s.tail.shown.job
    ensures NoteFrom(t, was)
  {
  }

  lemma NoteFromKey(s: State, k: Key, was: Option<RefreshCo>)
    requires NoteFrom(s, was)
    ensures NoteFrom(KeyStep(s, k), NoteAfter(s, Press(k), was))
  {
    KeysMoveTheNote(s, k);
    hide KeyStep;
  }

  lemma ByIdLeavesTheTail(s: State, id: nat, record: Option<Run>)
    requires id in s.inbox.pool
    ensures ByIdStep(s, id, record).tail == s.tail
  {
    hide OpenDetail;
  }

  lemma NoteFromRefresh(s: State, id: nat, a: RefreshAnswer, was: Option<RefreshCo>)
    requires Inv(s) && id in s.refresh.pool && NoteFrom(s, was)
    ensures NoteFrom(RefreshStep(s, id, a), NoteAfter(s, RefreshResumes(id, a), was))
  {
    RefreshesNote(s, id, a);
    assert TailReadOk(s.tail, s.refresh.pool[id]);
    hide RefreshStep, Inv;
  }

  lemma {:induction false} NoteFromRun(s: State, es: seq<Event>, was: Option<RefreshCo>)
    requires Inv(s) && EnabledRun(s, es) && NoteFrom(s, was)
    ensures NoteFrom(RunFrom(s, es), NoteRead(s, es, was))
    decreases |es|
  {
    if es != [] {
      NoteFromStays(s, es[0], was);
      StepKeeps(s, es[0]);
      NoteFromRun(Step(s, es[0]), es[1..], NoteAfter(s, es[0], was));
      hide Inv, Step, NoteAfter, NoteFrom;
    }
  }

  /**
   Over every run from an opening panel: there is a note exactly where some read left one that nothing has cleared since;
   it is the shown job's if that read is of the opening on screen, and else of the job that read was for.
   */
  lemma NoteIsOfItsReadsJob(initialTail: Option<string>, es: seq<Event>)
    requires ValidTail(initialTail) && EnabledRun(Init(initialTail), es)
    ensures var t, read := RunFrom(Init(initialTail), es).tail, NoteRead(Init(initialTail), es, None);
            && (t.note.Some? <==> read.Some?)
            && (read.Some? ==>
                  && IsTailRead(read.value) && GenOf(read.value) <= t.gen
                  && (GenOf(read.value) == t.gen ==> t.shown.job == Some(read.value.job)))
  {
    InitInv(initialTail);
    NoteFromRun(Init(initialTail), es, None);
    hide Inv, EnabledRun, RunFrom, NoteRead;
  }
}
