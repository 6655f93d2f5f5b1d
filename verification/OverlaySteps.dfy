/** Every event of the overlay keeps the invariant, so every reachable state has it. */
module OverlaySteps {
  import opened Wrappers
  import opened Keys
  import opened Rows
  import opened TailView
  import opened Overlay
  import opened OverlayInvariant

  lemma RefreshedKeeps(s: State)
    requires Inv(s)
    ensures Inv(Refreshed(s))
  {
    if !s.refresh.fetching && !s.desk.disposed {
      SuspendKeeps(s.refresh, s.tail, ReadingSnapshot);
    }
  }

  // ---- the refresh ----

  /** A state whose refresh was just taken up: its pool is empty, and the flag is still held. */
  ghost predicate Resumed(s: State) {
    Inv(s.(refresh := s.refresh.(fetching := false))) && s.refresh.fetching
  }

  lemma SuspendResumed(s: State, c: RefreshCo)
    requires Resumed(s) && TailReadOk(s.tail, c)
    ensures Inv(s.(refresh := Suspend(s.refresh, c)))
  {
    SuspendKeeps(s.refresh.(fetching := false), s.tail, c);
  }

  lemma AfterPhaseKeeps(s: State)
    requires Resumed(s)
    ensures Inv(AfterPhase(s))
  {
    if s.view == LiveTail && s.tail.shown.job.Some? && s.tail.shown.job.value != "" {
      var job := s.tail.shown.job.value;
      if s.tail.shown.streaming {
        ReadPageKeeps(s.refresh.(fetching := false), s.tail, job, 0);
      } else {
        SuspendResumed(s, ReadingMeta(job, s.tail.gen));
      }
    }
  }

  lemma AfterWatchKeeps(s: State)
    requires Resumed(s)
    ensures Inv(AfterWatch(s))
  {
    SuspendResumed(s, ReadingPhase);
    AfterPhaseKeeps(s);
  }

  lemma AfterSnapshotKeeps(s: State)
    requires Resumed(s)
    ensures Inv(AfterSnapshot(s))
  {
    if s.view == Watch {
      if s.watch.reading {
        SuspendResumed(s, AwaitingWatch(None));
      } else {
        StartWatchKeeps(s.watch, s.view);
        SuspendResumed(s.(watch := StartWatch(s.watch)), AwaitingWatch(Some(s.watch.nextId)));
      }
    } else {
      AfterWatchKeeps(s);
    }
  }

  lemma TakenUp(s: State, id: nat)
    requires Inv(s) && id in s.refresh.pool
    ensures s.refresh.fetching && id == s.refresh.at && s.refresh.pool - {id} == map[]
    ensures Resumed(s.(refresh := s.refresh.(pool := s.refresh.pool - {id})))
  {
    assert id in s.refresh.pool.Keys;
    assert (s.refresh.pool - {id}).Keys == {};
  }

  lemma RefreshStepKeeps(s: State, id: nat, a: RefreshAnswer)
    requires Inv(s) && id in s.refresh.pool && AnswerOk(s, s.refresh.pool[id], a)
    ensures Inv(RefreshStep(s, id, a))
  {
    TakenUp(s, id);
    var c, t := s.refresh.pool[id], s.(refresh := s.refresh.(pool := s.refresh.pool - {id}));
    match c {
      case ReadingSnapshot =>
        if a.GotSnapshot? {
          AfterSnapshotKeeps(t.(lists := t.lists.(snapshot := Some(a.snapshot))));
        }
      case AwaitingWatch(_) => AfterWatchKeeps(t);
      case ReadingPhase => AfterPhaseKeeps(t);
      case _ =>
        assert TailReadOk(s.tail, c);
        TailReadStepKeeps(t, c, a);
    }
  }

  lemma TailReadStepKeeps(s: State, c: RefreshCo, a: RefreshAnswer)
    requires Resumed(s) && TailReadOk(s.tail, c)
    requires c.ReadingMeta? || c.ReadingPage? || c.ReadingLog?
    requires c.ReadingPage? && a.GotPage? ==> a.from >= NextAfter(c.after)
    ensures Inv(TailReadStep(s, c, a))
  {
    var live := Current(s, GenOf(c));
    TailReadResumesKeeps(s.refresh.(fetching := false), s.tail, c, s.view == LiveTail, live, a);
    FlagIsSetAgain(s.refresh, s.tail, c, live, a);
    hide TailReadResumes;
  }

  /** A resumed refresh ends or suspends again the same way whether or not its flag is already down. */
  lemma FlagIsSetAgain(r: Refresh, t: Tail, c: RefreshCo, live: bool, a: RefreshAnswer)
    ensures TailReadResumes(r, t, c, live, a) == TailReadResumes(r.(fetching := false), t, c, live, a)
  {
  }

  // ---- keys, a view at a time ----

  lemma RunDetailKeyKeeps(s: State, k: Key)
    requires Inv(s) && s.view == RunDetail
    ensures Inv(RunDetailKey(s, k))
  {
    hide FlightInv, TailInv, TailReadsOk, CapInv, AllocInv, DeskInv, RowAt, ShownIndex;
    LeaveDetailKeeps(s.detail);
    forall r ensures DetailInv(ReadContinues(s.detail.(run := Some(r)), r), true) {
      ReadContinuesKeeps(s.detail, r, s.detail.from);
    }
  }

  lemma TriggerDetailKeyKeeps(s: State, k: Key)
    requires Inv(s) && s.view == TriggerDetail
    ensures Inv(TriggerDetailKey(s, k))
  {
    hide Inv, Close;
    var index := s.lists.trigger.GetOr(0);
    CloseStepKeeps(s, DeleteTrigger(index));
    CloseStepKeeps(s, EditTrigger(index));
    TriggerQuestionKeeps(s);
  }

  lemma TriggerQuestionKeeps(s: State)
    requires Inv(s) && s.view == TriggerDetail
    ensures Inv(s.(lists := s.lists.(pendingDelete := false))) && Inv(s.(lists := s.lists.(pendingDelete := true)))
    ensures !s.lists.pendingDelete ==> Inv(s.(view := List, lists := s.lists.(trigger := None)))
  {
    hide FlightInv, TailInv, TailReadsOk, DetailInv, InboxInv, CapInv, AllocInv, DeskInv;
  }

  lemma AllocationKeyKeeps(s: State, k: Key)
    requires Inv(s) && s.view == Allocation
    ensures Inv(AllocationKey(s, k))
  {
    hide FlightInv, TailInv, TailReadsOk, DetailInv, InboxInv, CapInv, AllocLog, PlansInv, CallsInv;
    if s.desk.revert.Some? {
      AnswerRevertKeeps(s.desk);
    } else {
      var rows, at := AllocLog(s.alloc), s.alloc.selected;
      if 0 <= at < |rows| { ArmKeeps(s.desk, ArmRevert(rows[at])); }
    }
  }

  lemma HostsKeyKeeps(s: State, k: Key)
    requires Inv(s) && s.view == Hosts
    ensures Inv(HostsKey(s, k))
  {
    hide FlightInv, TailInv, TailReadsOk, DetailInv, InboxInv, CapRequestOk, AllocInv, DeskInv, LoadCapacity, LeaveCapacity;
    LeaveCapacityKeeps(s.cap, s.desk.disposed);
    LoadCapacityKeeps(s.cap, s.desk.disposed, if s.cap.info.CapReport? then s.cap.info.(refreshing := true) else CapLoading);
  }

  lemma ParkedKeyKeeps(s: State, k: Key)
    requires Inv(s) && s.view == Parked
    ensures Inv(ParkedKey(s, k))
  {
    var l := s.lists.(parked := ClampCursor(s.lists.parked, |ParkedRows(s.lists)|));
    ListsKeep(s, l);
    ParkedKeyAtKeeps(s.(lists := l), k);
    hide Inv, ParkedKeyAt, ClampCursor;
  }

  lemma ParkedKeyAtKeeps(s: State, k: Key)
    requires Inv(s) && s.view == Parked
    ensures Inv(ParkedKeyAt(s, k))
  {
    hide Inv, ParkedJob, KnownRun, OpenDetail, Abandon, ReadById;
    var n, l := |ParkedRows(s.lists)|, s.lists;
    match k
    case Escape => LeaveParkedKeeps(s, l.(parked := 0));
    case Up => ParkedCursorKeeps(s, l.(parked := Max(0, l.parked - 1)));
    case Down => ParkedCursorKeeps(s, l.(parked := Min(Max(0, n - 1), l.parked + 1)));
    case Enter =>
      var job := ParkedJob(l);
      if job.Some? {
        ReadByIdKeeps(s, l, job.value);
        if KnownRun(l, job.value).Some? { OpenParkedKeeps(s, l, KnownRun(l, job.value).value); }
      }
    case _ =>
  }

  lemma LeaveParkedKeeps(s: State, l: Lists)
    requires Inv(s) && s.view == Parked && l.pendingDelete == s.lists.pendingDelete
    ensures Inv(s.(lists := l, view := List))
  {
    hide FlightInv, TailInv, TailReadsOk, DetailInv, InboxInv, CapInv, AllocInv, DeskInv;
  }

  lemma ParkedCursorKeeps(s: State, l: Lists)
    requires Inv(s) && s.view == Parked && l.pendingDelete == s.lists.pendingDelete
    ensures Inv(s.(lists := l, inbox := Abandon(s.inbox)))
  {
    hide WatchInv, FlightInv, TailInv, TailReadsOk, DetailInv, CapInv, AllocInv, LayerInv, DeskInv;
  }

  lemma ReadByIdKeeps(s: State, l: Lists, job: string)
    requires Inv(s) && s.view == Parked && l.pendingDelete == s.lists.pendingDelete
    ensures Inv(s.(lists := l, inbox := ReadById(s.inbox, job)))
  {
    assert s.detail.from == List;
    hide WatchInv, FlightInv, TailInv, TailReadsOk, DetailInv, CapInv, AllocInv, LayerInv, DeskInv;
  }

  lemma OpenParkedKeeps(s: State, l: Lists, run: Run)
    requires Inv(s) && s.view == Parked && l.pendingDelete == s.lists.pendingDelete
    ensures Inv(s.(lists := l, inbox := Abandon(s.inbox), detail := OpenDetail(s.detail, run, Parked), view := RunDetail))
  {
    ReadContinuesKeeps(s.detail, run, Parked);
    hide FlightInv, TailInv, TailReadsOk, DetailInv, CapInv, AllocInv, DeskInv;
  }

  lemma HeldKeyKeeps(s: State, k: Key)
    requires Inv(s) && s.view == HeldList && s.desk.cancel.None?
    ensures Inv(HeldKey(s, k))
  {
    var l := s.lists.(held := ClampCursor(s.lists.held, |HeldRows(s.lists)|));
    ListsKeep(s, l);
    HeldKeyAtKeeps(s.(lists := l), k);
    hide Inv, HeldKeyAt, ClampCursor;
  }

  lemma HeldKeyAtKeeps(s: State, k: Key)
    requires Inv(s) && s.view == HeldList && s.desk.cancel.None?
    ensures Inv(HeldKeyAt(s, k))
  {
    hide Inv, ArmQuestion;
    var rows, l := HeldRows(s.lists), s.lists;
    if k == Escape {
      LeaveHeldKeeps(s, l.(held := 0));
    } else if k == Up {
      ListsKeep(s, l.(held := Max(0, l.held - 1)));
    } else if k == Down {
      ListsKeep(s, l.(held := Min(Max(0, |rows| - 1), l.held + 1)));
    } else if 0 <= l.held < |rows| {
      ArmHeldKeeps(s, l, rows[l.held].jobId);
    }
  }

  lemma LeaveHeldKeeps(s: State, l: Lists)
    requires Inv(s) && s.view == HeldList && s.desk.cancel.None? && l.pendingDelete == s.lists.pendingDelete
    ensures Inv(s.(lists := l, view := List))
  {
    hide FlightInv, TailInv, TailReadsOk, DetailInv, InboxInv, CapInv, AllocInv, DeskInv;
  }

  lemma ArmHeldKeeps(s: State, l: Lists, job: string)
    requires Inv(s) && s.view == HeldList && s.desk.cancel.None? && l.pendingDelete == s.lists.pendingDelete
    ensures Inv(s.(lists := l, desk := ArmQuestion(s.desk, job, HeldDoor)))
  {
    ArmKeeps(s.desk, ArmCancel(job, HeldDoor));
    hide WatchInv, FlightInv, TailInv, TailReadsOk, DetailInv, InboxInv, CapInv, AllocInv, DeskInv;
  }

  lemma LiveTailKeyKeeps(s: State, k: Key)
    requires Inv(s) && s.view == LiveTail
    ensures Inv(LiveTailKey(s, k))
  {
    hide Inv, TailKey, CloseTail, RowsOf, ActiveIndex;
    if k == Escape && s.tail.shown.search.None? && s.tail.shown.query.None? {
      LeaveTailKeeps(s, s.lists.(selected := ActiveIndex(RowsOf(s.lists), s.tail.shown.job.GetOr("")).GetOr(-1)));
    } else {
      TailKeyStepKeeps(s, k);
    }
  }

  lemma LeaveTailKeeps(s: State, l: Lists)
    requires Inv(s) && s.view == LiveTail && l.pendingDelete == s.lists.pendingDelete
    ensures Inv(s.(view := List, tail := CloseTail(s.tail), lists := l))
  {
    CloseTailKeeps(s.tail, s.refresh);
    hide CloseTail, FlightInv, TailInv, TailReadsOk, DetailInv, InboxInv, CapInv, AllocInv, DeskInv;
  }

  lemma TailKeyStepKeeps(s: State, k: Key)
    requires Inv(s) && s.view == LiveTail
    ensures Inv(s.(tail := s.tail.(shown := TailKey(s.tail.shown, k))))
  {
    TailKeyKeeps(s.tail, s.refresh, k);
    hide TailKey, WatchInv, FlightInv, TailInv, TailReadsOk, DetailInv, InboxInv, CapInv, AllocInv, LayerInv, DeskInv;
  }

  /** The keys that stay in LIVE_TAIL touch neither what was read nor the job. */
  lemma TailKeyKeeps(t: Tail, r: Refresh, k: Key)
    requires TailInv(t, true) && TailReadsOk(t, r)
    ensures TailInv(t.(shown := TailKey(t.shown, k)), true) && TailReadsOk(t.(shown := TailKey(t.shown, k)), r)
  {
    hide ScrollKey;
  }

  lemma OpenRowKeeps(s: State)
    requires Inv(s) && s.view == List && s.desk.cancel.None? && s.desk.steer.None?
    ensures Inv(OpenRow(s))
  {
    ActiveRowHasJob(s.lists, s.lists.selected);
    hide Inv, RowAt, OpenDetail, OpenTail, Refreshed;
    match RowAt(s.lists, s.lists.selected)
    case None =>
    case Some(TriggerRow(_, index)) => OpenTriggerKeeps(s, index);
    case Some(ActiveRow(job, _, _)) => OpenTailStepKeeps(s, job);
    case Some(RunRow(r)) => OpenRunKeeps(s, r);
  }

  /** The ACTIVE row names a job. */
  lemma ActiveRowHasJob(l: Lists, i: int)
    ensures RowAt(l, i).Some? && RowAt(l, i).value.ActiveRow? ==> RowAt(l, i).value.jobId != ""
  {
  }

  lemma OpenTriggerKeeps(s: State, index: nat)
    requires Inv(s) && s.view == List && s.desk.cancel.None? && s.desk.steer.None?
    ensures Inv(s.(lists := s.lists.(trigger := Some(index), pendingDelete := false), view := TriggerDetail))
  {
    hide FlightInv, TailInv, TailReadsOk, DetailInv, InboxInv, AllocInv, DeskInv;
  }

  lemma OpenRunKeeps(s: State, r: Run)
    requires Inv(s) && s.view == List && s.desk.cancel.None? && s.desk.steer.None?
    ensures Inv(s.(detail := OpenDetail(s.detail, r, List), view := RunDetail))
  {
    ReadContinuesKeeps(s.detail, r, List);
    hide FlightInv, TailInv, TailReadsOk, DetailInv, AllocInv, DeskInv;
  }

  lemma OpenTailStepKeeps(s: State, job: string)
    requires Inv(s) && s.view == List && job != "" && s.desk.cancel.None? && s.desk.steer.None?
    ensures Inv(Refreshed(s.(view := LiveTail, tail := OpenTail(s.tail, job))))
  {
    OpenTailKeeps(s.tail, s.refresh, job);
    RefreshedKeeps(s.(view := LiveTail, tail := OpenTail(s.tail, job)));
  }

  lemma RowKeyKeeps(s: State, k: Key)
    requires Inv(s) && s.view == List && s.desk.cancel.None? && s.desk.steer.None?
    ensures Inv(s.(desk := RowKey(s.lists, s.desk, k)))
  {
    RowKeyKeepsDesk(s.lists, s.desk, k, s.lists.pendingDelete, s.timer);
    hide WatchInv, FlightInv, TailInv, TailReadsOk, DetailInv, InboxInv, CapInv, AllocInv, LayerInv, DeskInv, RowKey;
  }

  lemma RowKeyKeepsDesk(l: Lists, d: Desk, k: Key, pendingDelete: bool, timer: bool)
    requires DeskInv(d) && LayerInv(d, List, pendingDelete, timer) && d.cancel.None? && d.steer.None?
    ensures DeskInv(RowKey(l, d, k)) && LayerInv(RowKey(l, d, k), List, pendingDelete, timer)
  {
    hide RowAt;
    match RowAt(l, l.selected)
    case Some(ActiveRow(job, steer, steerOpen)) =>
      ArmKeeps(d, ArmCancel(job, ActiveDoor));
      ArmKeeps(d, ArmMessage(job, if k == Char('T') then FollowUpMode else SteerMode));
      hide DeskInv;
    case _ =>
  }

  /** Moving cursors keeps everything. */
  lemma ListsKeep(s: State, l: Lists)
    requires Inv(s) && l.pendingDelete == s.lists.pendingDelete
    ensures Inv(s.(lists := l))
  {
  }

  /** So does leaving LIST for a view that reads nothing. */
  lemma OpenListViewKeeps(s: State, l: Lists, v: View)
    requires Inv(s) && s.view == List && s.desk.cancel.None? && s.desk.steer.None?
    requires v in {Failed, HeldList, Projects, Parked} && l.pendingDelete == s.lists.pendingDelete
    ensures Inv(s.(lists := l, view := v)) && Inv(s.(lists := l, view := v, inbox := Abandon(s.inbox)))
  {
  }

  lemma OpenAllocationKeeps(s: State)
    requires Inv(s) && s.view == List && s.desk.cancel.None? && s.desk.steer.None?
    ensures Inv(s.(desk := s.desk.(revert := None), alloc := LoadAllocation(s.alloc.(selected := 0, info := AllocLoading)), view := Allocation))
  {
    assert s.desk.(revert := None) == s.desk;
    var a := LoadAllocation(s.alloc.(selected := 0, info := AllocLoading));
    assert s.alloc.nextId in a.pool;
  }

  lemma OpenHostsKeeps(s: State)
    requires Inv(s) && s.view == List && s.desk.cancel.None? && s.desk.steer.None?
    ensures Inv(s.(cap := LoadCapacity(s.cap.(info := CapLoading)), view := Hosts))
  {
    LoadCapacityKeeps(s.cap, s.desk.disposed, CapLoading);
    hide LoadCapacity;
  }

  lemma OpenKeyKeeps(s: State, k: Key)
    requires Inv(s) && s.view == List && s.desk.cancel.None? && s.desk.steer.None?
    ensures Inv(OpenKey(s, k))
  {
    hide Inv, OpenPageKey, LoadAllocation, OpenTail, Refreshed;
    if Is(k, 'l', 'L') {
      var snap := s.lists.snapshot.GetOr(UNREACHABLE);
      if snap.activeJobId.Some? && snap.activeJobId.value != "" { OpenTailStepKeeps(s, snap.activeJobId.value); }
    } else if Is(k, 'f', 'F') {
      OpenListViewKeeps(s, s.lists, Failed);
    } else if Is(k, 'h', 'H') {
      OpenListViewKeeps(s, s.lists.(held := 0), HeldList);
    } else if Is(k, 'b', 'B') {
      OpenAllocationKeeps(s);
    } else {
      OpenPageKeyKeeps(s, k);
    }
  }

  lemma OpenPageKeyKeeps(s: State, k: Key)
    requires Inv(s) && s.view == List && s.desk.cancel.None? && s.desk.steer.None?
    ensures Inv(OpenPageKey(s, k))
  {
    hide Inv, LoadCapacity, Abandon;
    if Is(k, 'j', 'J') {
      OpenListViewKeeps(s, s.lists.(projects := 0), Projects);
    } else if Is(k, 'k', 'K') {
      OpenListViewKeeps(s, s.lists.(parked := 0), Parked);
    } else if Is(k, 'u', 'U') {
      OpenHostsKeeps(s);
    }
  }

  lemma ListKeyKeeps(s: State, k: Key)
    requires Inv(s) && s.view == List && s.desk.cancel.None? && s.desk.steer.None?
    ensures Inv(ListKey(s, k))
  {
    hide Inv, Close, OpenRow, ListRowKey;
    if CloseResult(k).Some? {
      CloseStepKeeps(s, CloseResult(k).value);
    } else if k == Enter {
      OpenRowKeeps(s);
    } else {
      ListRowKeyKeeps(s, k);
    }
  }

  lemma ListRowKeyKeeps(s: State, k: Key)
    requires Inv(s) && s.view == List && s.desk.cancel.None? && s.desk.steer.None?
    ensures Inv(ListRowKey(s, k))
  {
    hide Inv, RowKey, CursorKey, ListLetterKey;
    if Is(k, 'x', 'X') || Is(k, 't', 'T') {
      RowKeyKeeps(s, k);
    } else if k == Tab || k == Up || k == Down {
      CursorKeyKeepsQuestion(s.lists, k);
      ListsKeep(s, CursorKey(s.lists, k));
    } else {
      ListLetterKeyKeeps(s, k);
    }
  }

  lemma ListLetterKeyKeeps(s: State, k: Key)
    requires Inv(s) && s.view == List && s.desk.cancel.None? && s.desk.steer.None?
    ensures Inv(ListLetterKey(s, k))
  {
    hide Inv, OpenKey, Perform, NextSort;
    if Is(k, 'o', 'O') {
      ListsKeep(s, s.lists.(runSort := NextSort(s.lists.runSort)));
    } else {
      SwitchStepKeeps(s);
      OpenKeyKeeps(s, k);
    }
  }

  lemma CloseStepKeeps(s: State, result: Result)
    requires Inv(s)
    ensures Inv(s.(timer := false, desk := Close(s.desk, result))) && Inv(s.(timer := false, desk := DisposeNow(s.desk)))
  {
    CloseKeeps(s.desk, result);
  }

  lemma SwitchStepKeeps(s: State)
    requires Inv(s)
    ensures Inv(s.(desk := Perform(s.desk, CallPause, Acting))) && Inv(s.(desk := Perform(s.desk, CallResume, Acting)))
  {
    SwitchKeeps(s.desk, CallPause);
    SwitchKeeps(s.desk, CallResume);
  }

  lemma CursorKeyKeepsQuestion(l: Lists, k: Key)
    ensures CursorKey(l, k).pendingDelete == l.pendingDelete
  {
    hide RowsOf;
  }

  lemma QuietViewKeyKeeps(s: State, k: Key)
    requires Inv(s) && s.view in {Watch, Failed, Projects, Venues}
    ensures Inv(ViewKey(s, k))
  {
    hide FlightInv, TailInv, TailReadsOk, DetailInv, InboxInv, CapInv, AllocInv, DeskInv, ProjectKeys;
  }

  lemma ViewKeyKeeps(s: State, k: Key)
    requires Inv(s)
    requires s.view == List ==> s.desk.cancel.None? && s.desk.steer.None?
    requires s.view == HeldList ==> s.desk.cancel.None?
    ensures Inv(ViewKey(s, k))
  {
    hide Inv, ListKey, RunDetailKey, TriggerDetailKey, HeldKey, AllocationKey, ProjectsKey, HostsKey, VenuesKey, ParkedKey, LiveTailKey;
    match s.view
    case List => ListKeyKeeps(s, k);
    case RunDetail => RunDetailKeyKeeps(s, k);
    case TriggerDetail => TriggerDetailKeyKeeps(s, k);
    case HeldList => HeldKeyKeeps(s, k);
    case Allocation => AllocationKeyKeeps(s, k);
    case Hosts => HostsKeyKeeps(s, k);
    case Parked => ParkedKeyKeeps(s, k);
    case LiveTail => LiveTailKeyKeeps(s, k);
    case _ => QuietViewKeyKeeps(s, k);
  }

  lemma QuestionStepKeeps(s: State, k: Key)
    requires Inv(s)
    ensures s.desk.cancel.Some? ==> Inv(s.(desk := QuestionKey(s.desk, k)))
    ensures s.desk.steer.Some? ==> Inv(s.(desk := MessageKey(s.desk, k)))
  {
    if s.desk.cancel.Some? { QuestionKeyKeeps(s.desk, k); }
    if s.desk.steer.Some? { MessageKeyKeeps(s.desk, k); }
    hide WatchInv, FlightInv, TailInv, TailReadsOk, DetailInv, InboxInv, CapInv, AllocInv, DeskInv;
  }

  lemma OpenWatchKeeps(s: State)
    requires Inv(s) && s.view == List
    ensures Inv(s.(view := Watch, watch := StartWatch(s.watch.(known := false))))
  {
    StartWatchKeeps(s.watch.(known := false), List);
  }

  lemma KeyStepKeeps(s: State, k: Key)
    requires Inv(s)
    ensures Inv(KeyStep(s, k))
  {
    hide Inv, ViewKey, QuestionKey, MessageKey, StartWatch;
    if s.view == List { OpenWatchKeeps(s); }
    QuestionStepKeeps(s, k);
    if !(s.desk.cancel.Some? && (s.view == List || s.view == HeldList)) && !(s.desk.steer.Some? && s.view == List) {
      ViewKeyKeeps(s, k);
    }
  }

  // ---- the other events ----

  lemma RenderStepKeeps(s: State, lines: seq<string>)
    requires Inv(s)
    ensures Inv(RenderStep(s, lines))
  {
    var l := s.lists.(selected := ClampCursor(s.lists.selected, |RowsOf(s.lists)|));
    hide Inv, RowsOf, ClampCursor, Settle, PaneLines;
    ListsKeep(s, l);
    if s.view == LiveTail {
      var t := s.tail.shown;
      var pane := if t.pane.Transcript? then t.pane.(wrapped := lines) else t.pane;
      FrameKeeps(s.(lists := l), pane, Settle(t.scroll, |PaneLines(pane)|));
    }
  }

  predicate SamePane(p: Pane, q: Pane) {
    q == p || (p.Transcript? && q.Transcript? && q.entries == p.entries && q.ended == p.ended)
  }

  /** A frame's lines and window are no part of what was read. */
  lemma FrameKeeps(s: State, pane: Pane, scroll: Scroll)
    requires Inv(s) && s.view == LiveTail
    requires SamePane(s.tail.shown.pane, pane)
    ensures Inv(s.(tail := s.tail.(shown := s.tail.shown.(pane := pane, scroll := scroll))))
  {
    FrameKeepsTail(s.tail, s.refresh, pane, scroll);
    hide WatchInv, FlightInv, TailInv, TailReadsOk, DetailInv, InboxInv, CapInv, AllocInv, LayerInv, DeskInv;
  }

  lemma FrameKeepsTail(t: Tail, r: Refresh, pane: Pane, scroll: Scroll)
    requires TailInv(t, true) && TailReadsOk(t, r)
    requires SamePane(t.shown.pane, pane)
    ensures var u := t.(shown := t.shown.(pane := pane, scroll := scroll)); TailInv(u, true) && TailReadsOk(u, r)
  {
  }

  lemma ByIdStepKeeps(s: State, id: nat, record: Option<Run>)
    requires Inv(s) && id in s.inbox.pool
    ensures Inv(ByIdStep(s, id, record))
  {
    if record.Some? { ReadContinuesKeeps(s.detail, record.value, Parked); }
    assert forall i :: i in s.inbox.pool && i != id ==> s.inbox.pool[i].n != s.inbox.pool[id].n;
  }

  lemma ActStepKeeps(s: State, id: nat, planned: bool)
    requires Inv(s) && id in s.desk.pool
    ensures Inv(ActStep(s, id, planned))
  {
    hide WatchInv, FlightInv, TailInv, TailReadsOk, DetailInv, InboxInv, CapInv;
    var t := s.(desk := SettleAct(s.desk, id, planned));
    SettleActKeeps(s.desk, id, planned);
    assert Inv(t);
    RefreshedKeeps(t);
    assert t.alloc.nextId in LoadAllocation(t.alloc).pool;
  }

  lemma SettleKeeps(s: State, e: Event)
    requires Inv(s) && Enabled(s, e) && (e.WatchSettles? || e.ContinuesSettles? || e.CapSettles? || e.CapResumes? || e.AllocSettles?)
    ensures Inv(Step(s, e))
  {
    match e
    case WatchSettles(id) => WatchStepKeeps(s, id); hide Inv;
    case ContinuesSettles(id, a) => ContinuesStepKeeps(s, id, a); hide Inv, ContinuesSettled;
    case CapSettles(id, info) => CapStepKeeps(s, id, info); hide Inv;
    case CapResumes(id) => CapResumeKeeps(s, id); hide Inv, CapResumed;
    case AllocSettles(id, info) => AllocStepKeeps(s, id, info); hide Inv;
  }

  lemma WatchStepKeeps(s: State, id: nat)
    requires Inv(s) && id in s.watch.pool
    ensures Inv(s.(watch := WatchSettled(s.watch, id)))
  {
    WatchSettledKeeps(s.watch, s.view, id);
    hide WatchInv, FlightInv, TailInv, TailReadsOk, DetailInv, InboxInv, CapInv, AllocInv, LayerInv, DeskInv;
  }

  lemma ContinuesStepKeeps(s: State, id: nat, a: Option<Option<string>>)
    requires Inv(s) && id in s.detail.pool
    ensures Inv(s.(detail := ContinuesSettled(s.detail, id, a, s.desk.disposed)))
  {
    ContinuesSettledKeeps(s.detail, s.view == RunDetail, id, a, s.desk.disposed);
    hide WatchInv, FlightInv, TailInv, TailReadsOk, DetailInv, InboxInv, CapInv, AllocInv, LayerInv, DeskInv;
  }

  lemma CapStepKeeps(s: State, id: nat, info: CapInfo)
    requires Inv(s) && id in s.cap.races && !Waiting(info)
    ensures Inv(s.(cap := CapSettled(s.cap, id, info)))
  {
    CapSettledKeeps(s.cap, s.view == Hosts || s.view == Venues, s.desk.disposed, id, info);
    hide WatchInv, FlightInv, TailInv, TailReadsOk, DetailInv, InboxInv, CapInv, AllocInv, LayerInv, DeskInv;
  }

  lemma CapResumeKeeps(s: State, id: nat)
    requires Inv(s) && id in s.cap.pool && s.cap.pool[id].read in s.cap.answers
    ensures Inv(s.(cap := CapResumed(s.cap, id, s.view == Hosts || s.view == Venues, s.desk.disposed)))
  {
    CapResumedKeeps(s.cap, s.view == Hosts || s.view == Venues, s.desk.disposed, id);
    hide WatchInv, FlightInv, TailInv, TailReadsOk, DetailInv, InboxInv, CapInv, AllocInv, LayerInv, DeskInv;
  }

  lemma AllocStepKeeps(s: State, id: nat, info: AllocInfo)
    requires Inv(s) && id in s.alloc.pool && !info.AllocLoading?
    ensures Inv(s.(alloc := AllocSettled(s.alloc, id, info)))
  {
    hide WatchInv, FlightInv, TailInv, TailReadsOk, DetailInv, InboxInv, CapInv, LayerInv, DeskInv;
  }

  /** Every event keeps the invariant. */
  lemma StepKeeps(s: State, e: Event)
    requires Inv(s) && Enabled(s, e)
    ensures Inv(Step(s, e))
  {
    hide Inv, KeyStep, RenderStep, RefreshStep, ByIdStep, ActStep, Refreshed;
    match e
    case Press(k) => KeyStepKeeps(s, k);
    case Tick => RefreshedKeeps(s);
    case Render(lines) => RenderStepKeeps(s, lines);
    case Dispose => CloseStepKeeps(s, Quit);
    case RefreshResumes(id, a) => RefreshStepKeeps(s, id, a);
    case ByIdSettles(id, record) => ByIdStepKeeps(s, id, record);
    case ActSettles(id, planned) => ActStepKeeps(s, id, planned);
    case _ => SettleKeeps(s, e);
  }

  lemma InitInv(t: Option<string>)
    requires ValidTail(t)
    ensures Inv(Init(t))
  {
    var s := Closed();
    assert Inv(s);
    if t.Some? { OpenTailStepKeeps(s, t.value); } else { RefreshedKeeps(s); }
  }

  lemma {:induction false} RunKeeps(s: State, es: seq<Event>)
    requires Inv(s) && EnabledRun(s, es)
    ensures Inv(RunFrom(s, es))
    decreases |es|
  {
    if es != [] {
      StepKeeps(s, es[0]);
      RunKeeps(Step(s, es[0]), es[1..]);
    }
  }

  lemma InitReachable(t: Option<string>)
    requires ValidTail(t)
    ensures Reachable(Init(t))
  {
    var none: seq<Event> := [];
    assert EnabledRun(Init(t), none) && RunFrom(Init(t), none) == Init(t);
  }

  /** Every reachable state, in any interleaving of keys, ticks, frames and settling reads, has the invariant. */
  lemma ReachableInv(s: State)
    requires Reachable(s)
    ensures Inv(s)
  {
    var t, es :| ValidTail(t) && EnabledRun(Init(t), es) && RunFrom(Init(t), es) == s;
    InitInv(t);
    RunKeeps(Init(t), es);
  }

  lemma {:induction false} RunAppend(s: State, es: seq<Event>, e: Event)
    requires EnabledRun(s, es) && Enabled(RunFrom(s, es), e)
    ensures EnabledRun(s, es + [e]) && RunFrom(s, es + [e]) == Step(RunFrom(s, es), e)
    decreases |es|
  {
    if es == [] {
      assert (es + [e])[1..] == [];
    } else {
      assert (es + [e])[1..] == es[1..] + [e];
      RunAppend(Step(s, es[0]), es[1..], e);
    }
  }

  lemma ReachableStep(s: State, e: Event)
    requires Reachable(s) && Enabled(s, e)
    ensures Reachable(Step(s, e))
  {
    var t, es :| ValidTail(t) && EnabledRun(Init(t), es) && RunFrom(Init(t), es) == s;
    RunAppend(Init(t), es, e);
  }
}
