/** Where the keys lead: the view each opens or leaves, what the opened view holds, and how its cursor moves. */
module OverlayViews {
  import opened Wrappers
  import opened Keys
  import opened Rows
  import opened TailView
  import opened Overlay
  import opened OverlayInvariant
  import opened OverlaySteps
  import opened OverlayTargets
  import opened OverlayCalls

  // ---- which view a key leads to ----

  function SnapshotOf(l: Lists): Snapshot {
    if l.snapshot.Some? then l.snapshot.value else UNREACHABLE
  }

  /** The active job of the snapshot, where there is one. */
  function ActiveJobOf(l: Lists): Option<string> {
    var id := SnapshotOf(l).activeJobId;
    if id.Some? && id.value != "" then id else None
  }

  /** LIST's keys: the row's own view, or the view of the letter where it has something to show. */
  function OpenedFromList(l: Lists, k: Key): View {
    if k == Enter then ViewOfRow(RowAt(l, l.selected)) else ViewOfLetter(l, k)
  }

  function ViewOfRow(row: Option<Row>): View {
    match row
    case None => List
    case Some(TriggerRow(_, _)) => TriggerDetail
    case Some(ActiveRow(_, _, _)) => LiveTail
    case Some(RunRow(_)) => RunDetail
  }

  function ViewOfLetter(l: Lists, k: Key): View {
    if Is(k, 'b', 'B') then Allocation
    else if Is(k, 'j', 'J') then Projects
    else if Is(k, 'k', 'K') then Parked
    else if Is(k, 'u', 'U') then Hosts
    else if Is(k, 'l', 'L') && ActiveJobOf(l).Some? then LiveTail
    else if Is(k, 'f', 'F') && SnapshotOf(l).failed > 0 then Failed
    else if Is(k, 'h', 'H') && SnapshotOf(l).held != [] then HeldList
    else List
  }

  /** The snapshot still has a run of the job under the PARKED cursor. */
  ghost predicate OpensParkedRun(s: State) {
    JobUnderTheCursor(s.lists).Some? && exists i: nat :: IsFirstRun(s.lists, i, JobUnderTheCursor(s.lists).value)
  }

  ghost function ViewAfter(s: State, k: Key): View {
    match LayerOf(s, k)
    case Watches => Watch
    case Views =>
      (match s.view
       case List => OpenedFromList(s.lists, k)
       case RunDetail => if k == Escape then s.detail.from else RunDetail
       case Venues => if k == Escape then Hosts else Venues
       case Hosts => if k == Escape then List else if Is(k, 'v', 'V') then Venues else Hosts
       case Parked => if k == Escape then List else if k == Enter && OpensParkedRun(s) then RunDetail else Parked
       case Projects => if k == Escape || (k == Enter && s.lists.projects >= 0) then List else Projects
       case LiveTail => if k == Escape && s.tail.shown.search.None? && s.tail.shown.query.None? then List else LiveTail
       case view => if k == Escape then List else view)
    case _ => s.view
  }

  lemma ListKeyLeads(s: State, k: Key)
    requires s.view == List && LayerOf(s, k) == Views
    ensures ListKey(s, k).view == OpenedFromList(s.lists, k)
  {
    hide OpenRow, OpenKey, ListKey, ViewOfLetter, ViewOfRow, LayerOf, RowAt, Acts;
    ListViews(s, k);
    ActsOpenNothing(s.lists, k);
    EnterLeads(s);
    LetterLeads(s, k);
  }

  /** A LIST key with something else to do: it closes, acts on the row, moves the cursor, sorts, pauses or resumes. */
  predicate Acts(k: Key) {
    || CloseResult(k).Some? || k == Tab || k == Up || k == Down
    || Is(k, 'x', 'X') || Is(k, 't', 'T') || Is(k, 'o', 'O') || Is(k, 'p', 'P') || Is(k, 'r', 'R')
  }

  lemma ListViews(s: State, k: Key)
    requires s.view == List
    ensures k == Enter ==> ListKey(s, k) == OpenRow(s)
    ensures k != Enter && Acts(k) ==> ListKey(s, k).view == List
    ensures k != Enter && !Acts(k) ==> ListKey(s, k) == OpenKey(s, k)
  {
    assert k == Enter ==> CloseResult(k).None?;
    hide OpenRow, OpenKey, CursorKey, RowKey, Close, Perform, CloseResult;
  }

  lemma ActsOpenNothing(l: Lists, k: Key)
    ensures Acts(k) ==> ViewOfLetter(l, k) == List
  {
    hide ViewOfLetter;
    ClosingOpensNothing(l, k);
    OthersOpenNothing(l, k);
  }

  lemma ClosingOpensNothing(l: Lists, k: Key)
    ensures CloseResult(k).Some? ==> ViewOfLetter(l, k) == List
  {
    if k.Char? {
      OpensAView(l, k);
      hide ViewOfLetter;
    } else {
      hide CloseResult, ActiveJobOf;
    }
  }

  lemma OpensAView(l: Lists, k: Key)
    requires k.Char?
    ensures k.c !in {'b', 'B', 'j', 'J', 'k', 'K', 'u', 'U', 'l', 'L', 'f', 'F', 'h', 'H'} ==> ViewOfLetter(l, k) == List
  {
    hide ActiveJobOf, SnapshotOf;
  }

  lemma OthersOpenNothing(l: Lists, k: Key)
    ensures k in {Tab, Up, Down} || Is(k, 'x', 'X') || Is(k, 't', 'T') || Is(k, 'o', 'O') || Is(k, 'p', 'P') || Is(k, 'r', 'R') ==> ViewOfLetter(l, k) == List
  {
    if k.Char? {
      OpensAView(l, k);
      hide ViewOfLetter;
    } else {
      hide ActiveJobOf;
    }
  }

  lemma EnterLeads(s: State)
    requires s.view == List
    ensures OpenRow(s).view == ViewOfRow(RowAt(s.lists, s.lists.selected))
  {
    hide RowAt, OpenDetail, StartRefresh, OpenTail;
  }

  lemma LetterLeads(s: State, k: Key)
    requires s.view == List
    ensures OpenKey(s, k).view == ViewOfLetter(s.lists, k)
  {
    hide OpenPageKey, ActiveJobOf, LoadAllocation, StartRefresh, OpenTail;
    PageLeads(s, k);
    ActiveIs(s.lists);
  }

  lemma ActiveIs(l: Lists)
    ensures var id := l.snapshot.GetOr(UNREACHABLE).activeJobId;
            ActiveJobOf(l) == if id.Some? && id.value != "" then id else None
  {
  }

  lemma PageLeads(s: State, k: Key)
    requires s.view == List
    ensures OpenPageKey(s, k).view == if Is(k, 'j', 'J') then Projects else if Is(k, 'k', 'K') then Parked else if Is(k, 'u', 'U') then Hosts else List
  {
    hide LoadCapacity, Abandon;
  }

  lemma ParkedKeyLeads(s: State, k: Key)
    requires s.view == Parked
    ensures ParkedKey(s, k).view == if k == Escape then List else if k == Enter && OpensParkedRun(s) then RunDetail else Parked
  {
    if k == Enter {
      EnterCapturesTheParkedJob(s);
      NotALayer(s, Enter);
    }
    hide OpenDetail, KnownRun, KeyStep, IsFirstRun;
  }

  lemma LiveTailLeads(s: State, k: Key)
    requires s.view == LiveTail
    ensures LiveTailKey(s, k).view == if k == Escape && s.tail.shown.search.None? && s.tail.shown.query.None? then List else LiveTail
  {
    hide RowsOf, ActiveIndex, TailKey, CloseTail;
  }

  lemma ProjectsLeads(s: State, k: Key)
    requires s.view == Projects
    ensures ProjectsKey(s, k).view == if k == Escape || (k == Enter && s.lists.projects >= 0) then List else Projects
  {
  }

  lemma ReadOnlyViewsLead(s: State, k: Key)
    requires s.view in {Watch, RunDetail, Failed, Hosts, Venues}
    ensures ViewKey(s, k).view == match s.view
              case RunDetail => if k == Escape then s.detail.from else RunDetail
              case Venues => if k == Escape then Hosts else Venues
              case Hosts => if k == Escape then List else if Is(k, 'v', 'V') then Venues else Hosts
              case _ => if k == Escape then List else s.view
  {
    hide WalkRuns, LeaveDetail, LoadCapacity, LeaveCapacity;
    WalkStays(s);
  }

  lemma WalkStays(s: State)
    ensures WalkRuns(s, 1).view == s.view && WalkRuns(s, -1).view == s.view
  {
    hide ReadContinues, RowAt, ShownIndex;
  }

  lemma AskingViewsLead(s: State, k: Key)
    requires s.view in {TriggerDetail, HeldList, Allocation} && (LayerOf(s, k) == Views || LayerOf(s, k).Reverts? || LayerOf(s, k).Deletes?)
    ensures ViewKey(s, k).view == if LayerOf(s, k) == Views && k == Escape then List else s.view
  {
    hide Close, AllocLog, ClampCursor, HeldRows, ArmQuestion;
  }

  lemma ViewsLead(s: State, k: Key)
    requires LayerOf(s, k) == Views
    ensures ViewKey(s, k).view == ViewAfter(s, k)
  {
    hide ListKey, RunDetailKey, TriggerDetailKey, HeldKey, AllocationKey, ProjectsKey, HostsKey, VenuesKey, ParkedKey, LiveTailKey, LayerOf, OpenedFromList, OpensParkedRun;
    match s.view
    case List => ListKeyLeads(s, k);
    case Parked => ParkedKeyLeads(s, k);
    case LiveTail => LiveTailLeads(s, k);
    case Projects => ProjectsLeads(s, k);
    case TriggerDetail => AskingViewsLead(s, k);
    case HeldList => AskingViewsLead(s, k);
    case Allocation => AskingViewsLead(s, k);
    case _ => ReadOnlyViewsLead(s, k);
  }

  lemma LayersLeadNowhere(s: State, k: Key)
    requires LayerOf(s, k) != Views
    ensures KeyStep(s, k).view == if LayerOf(s, k).Watches? then Watch else s.view
  {
    if LayerOf(s, k).Reverts? || LayerOf(s, k).Deletes? {
      NotALayer(s, k);
      AskingViewsLead(s, k);
    }
    hide ViewKey, QuestionKey, MessageKey, StartWatch;
  }

  /** A key leads to the view of its row or letter, back to where the view was opened from, or nowhere. */
  lemma KeysLeadTo(s: State, k: Key)
    ensures KeyStep(s, k).view == ViewAfter(s, k)
  {
    hide KeyStep, ViewKey;
    if LayerOf(s, k) == Views {
      NotALayer(s, k);
      ViewsLead(s, k);
    } else {
      LayersLeadNowhere(s, k);
    }
  }

  // ---- what the opened view holds ----

  /** A fresh tail of that job, following its bottom, with a refresh under way. */
  predicate TailOpened(s: State, t: State, job: string) {
    && t.tail.shown == NO_TAIL.(job := Some(job)) && t.tail.shown.scroll.follow
    && t.tail.gen == s.tail.gen + 1 && t.tail.note.None? && t.tail.read == []
    && (s.desk.disposed || t.refresh.fetching)
  }

  /** Enter in LIST opens exactly the row under the cursor. */
  lemma EnterOpensItsRow(s: State)
    requires s.view == List && LayerOf(s, Enter) == Views
    ensures var t := KeyStep(s, Enter);
            match RowAt(s.lists, s.lists.selected)
            case None => t == s
            case Some(TriggerRow(_, index)) => t == s.(view := TriggerDetail, lists := s.lists.(trigger := Some(index), pendingDelete := false))
            case Some(ActiveRow(job, _, _)) => t == s.(view := LiveTail, tail := t.tail, refresh := t.refresh) && TailOpened(s, t, job)
            case Some(RunRow(r)) => t == s.(view := RunDetail, detail := t.detail) && RunOpened(s.detail, t.detail, r, List)
  {
    EnterIsOpenRow(s);
    hide KeyStep, RowAt;
  }

  lemma EnterIsOpenRow(s: State)
    requires s.view == List && LayerOf(s, Enter) == Views
    ensures KeyStep(s, Enter) == OpenRow(s)
  {
    NotALayer(s, Enter);
    ListViews(s, Enter);
    hide KeyStep, ListKey, OpenRow;
  }

  /** Each letter's view opens on what it is for: at the top, with its read under way. */
  lemma LettersOpenTheirViews(s: State, k: Key)
    requires s.view == List && LayerOf(s, k) == Views && k != Enter && !Acts(k)
    ensures LetterOpened(s, ViewOfLetter(s.lists, k), KeyStep(s, k))
  {
    hide KeyStep, ListKey, LayerOf, Acts, OpenKey, OpenPageKey, ViewOfLetter, LetterOpened;
    NotALayer(s, k);
    ListViews(s, k);
    assert ViewKey(s, k) == ListKey(s, k);
    if Is(k, 'b', 'B') || Is(k, 'l', 'L') || Is(k, 'f', 'F') || Is(k, 'h', 'H') { DrillInOpens(s, k); } else { PageOpens(s, k); }
  }

  ghost predicate LetterOpened(s: State, v: View, t: State) {
    match v
    case List => t == s
    case LiveTail => t == s.(view := LiveTail, tail := t.tail, refresh := t.refresh) && ActiveJobOf(s.lists).Some? && TailOpened(s, t, ActiveJobOf(s.lists).value)
    case Failed => t == s.(view := Failed)
    case HeldList => t == s.(view := HeldList, lists := s.lists.(held := 0))
    case Projects => t == s.(view := Projects, lists := s.lists.(projects := 0))
    case Parked => t == s.(view := Parked, lists := s.lists.(parked := 0), inbox := t.inbox) && t.inbox.seq_ > s.inbox.seq_ && t.inbox.pool == s.inbox.pool
    case Hosts => t == s.(view := Hosts, cap := t.cap) && AsksForCapacity(t.cap, CapLoading)
    case Allocation =>
      && t == s.(view := Allocation, alloc := t.alloc, desk := s.desk.(revert := None))
      && t.alloc.info == AllocLoading && t.alloc.selected == 0 && t.alloc.pool == s.alloc.pool + {s.alloc.nextId}
    case _ => false
  }

  lemma DrillInOpens(s: State, k: Key)
    requires s.view == List && (Is(k, 'b', 'B') || Is(k, 'l', 'L') || Is(k, 'f', 'F') || Is(k, 'h', 'H'))
    ensures LetterOpened(s, ViewOfLetter(s.lists, k), OpenKey(s, k))
  {
    hide AsksForCapacity, OpenPageKey;
  }

  lemma PageOpens(s: State, k: Key)
    requires s.view == List && !Is(k, 'b', 'B') && !Is(k, 'l', 'L') && !Is(k, 'f', 'F') && !Is(k, 'h', 'H')
    ensures LetterOpened(s, ViewOfLetter(s.lists, k), OpenKey(s, k))
  {
    assert OpenKey(s, k) == OpenPageKey(s, k);
    hide OpenKey, TailOpened, ActiveJobOf;
  }

  /** `x` in TRIGGER_DETAIL asks, `n` and Escape take the question back, and a delete is asked for by `y` while it is up, and by nothing else. */
  lemma ADeleteIsAskedFirst(s: State, k: Key)
    requires s.view == TriggerDetail
    ensures var t := KeyStep(s, k);
            && t.lists == s.lists.(pendingDelete := t.lists.pendingDelete, trigger := t.lists.trigger)
            && t.lists.pendingDelete == (if s.lists.pendingDelete then !Is(k, 'n', 'N') && k != Escape else Is(k, 'x', 'X'))
            && (ClosesWith(s, k).Some? && ClosesWith(s, k).value.DeleteTrigger? <==> s.lists.pendingDelete && Is(k, 'y', 'Y'))
            && (t.lists.trigger != s.lists.trigger ==> k == Escape && !s.lists.pendingDelete && t.view == List)
  {
    hide Close, ClosingLetter;
  }

  /** A report that waits, with its latest request under the current number behind it. */
  predicate AsksForCapacity(c: Capacity, info: CapInfo) {
    && c.info == info && c.read.Some? && c.latest.Some? && c.latest.value in c.pool
    && c.pool[c.latest.value] == CapRequest(c.seq_, c.read.value)
  }

  /** `u` in HOSTS asks again, and keeps a report that is on screen, marked. */
  lemma UAsksAgain(s: State, k: Key)
    requires s.view == Hosts && Is(k, 'u', 'U')
    ensures var t := KeyStep(s, k);
            && t == s.(cap := t.cap)
            && AsksForCapacity(t.cap, match s.cap.info case CapReport(report, _) => CapReport(report, true) case _ => CapLoading)
  {
  }

  /** `z` opens WATCH on nothing yet, with a read under way; a question or message that is open stays for when LIST is back. */
  lemma ZOpensWatch(s: State, k: Key)
    requires s.view == List && Is(k, 'z', 'Z')
    ensures var t := KeyStep(s, k); t == s.(view := Watch, watch := t.watch) && !t.watch.known && t.watch.reading
  {
  }

  /** An arrow in RUN_DETAIL shows the run on the next row, exactly where the run shown has a row and the next row is a run's. */
  lemma WalkMovesIff(s: State, k: Key)
    requires s.view == RunDetail && (k == Left || k == Right)
    ensures var t, rows, step := KeyStep(s, k), RowsOf(s.lists), if k == Left then -1 else 1;
            match ShownIndex(s.lists, s.detail.run)
            case None => t == s && (s.detail.run.Some? ==> forall i :: 0 <= i < |rows| ==> !NamesJob(rows[i], s.detail.run.value.jobId))
            case Some(i) =>
              && 0 <= i < |rows| && s.detail.run.Some? && NamesJob(rows[i], s.detail.run.value.jobId)
              && (forall j :: 0 <= j < i ==> !NamesJob(rows[j], s.detail.run.value.jobId))
              && if 0 <= i + step < |rows| && rows[i + step].RunRow?
                 then t == s.(lists := s.lists.(selected := i + step), detail := t.detail) && RunOpened(s.detail, t.detail, rows[i + step].record, s.detail.from)
                 else t == s
  {
    hide KeyStep, BuildRows, ShownIndex, WalkRuns, NamesJob, RunOpened;
    WalksRuns(s, k);
    ShownIsFirst(s.lists, s.detail.run);
    WalkOpens(s, if k == Left then -1 else 1);
  }

  lemma WalkOpens(s: State, step: int)
    ensures var t, rows := WalkRuns(s, step), RowsOf(s.lists);
            match ShownIndex(s.lists, s.detail.run)
            case None => t == s
            case Some(i) =>
              if 0 <= i + step < |rows| && rows[i + step].RunRow?
              then t == s.(lists := s.lists.(selected := i + step), detail := t.detail) && RunOpened(s.detail, t.detail, rows[i + step].record, s.detail.from)
              else t == s
  {
    hide RowsOf, ShownIndex;
  }

  // ---- what an answer changes ----

  /**
   Where the run on screen went on is shown as its read answers it: in every reachable state the read under the current
   number is the shown run's, and its answer names the recovery it says; any other answer changes nothing on screen.
   */
  lemma TheRecoveryIsShown(s: State, id: nat, answer: Option<Option<string>>)
    requires Reachable(s) && Enabled(s, ContinuesSettles(id, answer))
    ensures var t, c := Step(s, ContinuesSettles(id, answer)), s.detail.pool[id];
            && t == s.(detail := s.detail.(pool := s.detail.pool - {id}, continues := t.detail.continues))
            && if answer.Some? && c.n == s.detail.seq_ && !s.desk.disposed then
                 && s.view == RunDetail && s.detail.run.Some? && c.job == s.detail.run.value.jobId
                 && t.detail.continues == Some(Continues(c.job, match answer.value case Some(as_) => Some(Recovery(c.job, as_)) case None => None))
               else t.detail.continues == s.detail.continues
  {
    ReachableInv(s);
    hide Reachable, WatchInv, FlightInv, TailInv, TailReadsOk, InboxInv, CapInv, AllocInv, LayerInv, DeskInv;
  }

  /** An allocation or watch read that settles, in any order, is what its view shows, and the view no longer waits. */
  lemma SettledReadsAreShown(s: State, e: Event)
    requires Enabled(s, e)
    ensures e.AllocSettles? ==>
              var t := Step(s, e);
              t.alloc.info == e.alloc && !t.alloc.info.AllocLoading? && t == s.(alloc := s.alloc.(info := e.alloc, pool := s.alloc.pool - {e.id}))
    ensures e.WatchSettles? ==> var t := Step(s, e); t == s.(watch := t.watch) && t.watch.known && !t.watch.reading
  {
  }

  // ---- the cursors ----

  /** Where the cursor of a view is, and over how many rows. */
  function CursorOf(s: State): int {
    match s.view
    case List => s.lists.selected
    case HeldList => s.lists.held
    case Parked => s.lists.parked
    case Projects => s.lists.projects
    case Venues => s.lists.venues
    case Allocation => s.alloc.selected
    case _ => 0
  }

  function RowCount(s: State): nat {
    match s.view
    case List => |RowsOf(s.lists)|
    case HeldList => |SnapshotOf(s.lists).held|
    case Parked => |SnapshotOf(s.lists).parked|
    case Projects => |SnapshotOf(s.lists).projects| + 1
    case Venues => SnapshotOf(s.lists).venues
    case Allocation => if s.alloc.info.AllocReport? then |s.alloc.info.log| else 0
    case _ => 0
  }

  /** An arrow moves the cursor of its view one row, and stays at either end. */
  lemma ArrowsMoveOneRow(s: State, k: Key)
    requires s.view in {List, HeldList, Parked, Projects, Venues, Allocation} && LayerOf(s, k) == Views
    requires (k == Up || k == Down) && 0 <= CursorOf(s) < RowCount(s)
    ensures var t, at, n := KeyStep(s, k), CursorOf(s), RowCount(s);
            && t.view == s.view && RowCount(t) == n
            && CursorOf(t) == if k == Down then (if at + 1 < n then at + 1 else at) else (if at > 0 then at - 1 else at)
  {
    NotALayer(s, k);
    hide KeyStep, ListKey, BuildRows, LayerOf;
    match s.view
    case List => ArrowInList(s, k); hide HeldKey, ParkedKey, ProjectsKey, VenuesKey, AllocationKey;
    case Allocation => ArrowInAllocation(s, k); hide HeldKey, ParkedKey, ProjectsKey, VenuesKey, AllocationKey;
    case _ => ArrowInLists(s, k); hide ViewKey, CursorOf, RowCount;
  }

  lemma ArrowInLists(s: State, k: Key)
    requires s.view in {HeldList, Parked, Projects, Venues}
    requires (k == Up || k == Down) && 0 <= CursorOf(s) < RowCount(s)
    ensures var t, at, n := ViewKey(s, k), CursorOf(s), RowCount(s);
            && t.view == s.view && RowCount(t) == n
            && CursorOf(t) == if k == Down then (if at + 1 < n then at + 1 else at) else (if at > 0 then at - 1 else at)
  {
    hide RowsOf;
  }

  lemma ArrowInAllocation(s: State, k: Key)
    requires s.view == Allocation && LayerOf(s, k) == Views && (k == Up || k == Down)
    ensures AllocationKey(s, k) == AllocationCursorKey(s, k)
    ensures var t, n := AllocationCursorKey(s, k), |AllocLog(s.alloc)|;
            t == s.(alloc := s.alloc.(selected := if k == Down then Min(Max(0, n - 1), s.alloc.selected + 1) else Max(0, s.alloc.selected - 1)))
  {
  }

  lemma ArrowInList(s: State, k: Key)
    requires s.view == List && (k == Up || k == Down)
    ensures ListKey(s, k) == s.(lists := CursorKey(s.lists, k))
  {
    hide OpenRow, OpenKey, CursorKey, RowKey, Close, Perform;
  }

  /** In LIST, Tab goes from a trigger to the first row below the triggers, and from anywhere else, or where there is none, to the top. */
  lemma TabGoesToTheSectionHeads(s: State)
    requires s.view == List && LayerOf(s, Tab) == Views
    ensures var t, n := KeyStep(s, Tab), |SnapshotOf(s.lists).triggers|;
            && t == s.(lists := s.lists.(selected := t.lists.selected))
            && if RowsOf(s.lists) == [] then t == s
               else t.lists.selected == if s.lists.selected < n < |RowsOf(s.lists)| then n else 0
  {
    NotALayer(s, Tab);
    hide KeyStep, BuildRows, OpenRow, OpenKey, RowKey, Close, Perform;
  }

  /** `o` goes through the four orders and back, and changes nothing else. */
  lemma OCyclesTheOrders(s: State, k: Key)
    requires s.view == List && LayerOf(s, k) == Views && Is(k, 'o', 'O')
    ensures var t := KeyStep(s, k);
            var u := KeyStep(t, k);
            var v := KeyStep(u, k);
            && t == s.(lists := s.lists.(runSort := t.lists.runSort)) && KeyStep(v, k) == s
            && |{s.lists.runSort, t.lists.runSort, u.lists.runSort, v.lists.runSort}| == 4
  {
    var t := Sorted(s, k);
    var u := Sorted(t, k);
    var v := Sorted(u, k);
    var w := Sorted(v, k);
    hide KeyStep;
  }

  lemma Sorted(s: State, k: Key) returns (t: State)
    requires s.view == List && LayerOf(s, k) == Views && Is(k, 'o', 'O')
    ensures t == KeyStep(s, k) && t == s.(lists := s.lists.(runSort := NextSort(s.lists.runSort))) && LayerOf(t, k) == Views
  {
    t := KeyStep(s, k);
    NotALayer(s, k);
    hide KeyStep, NextSort, OpenRow, OpenKey, RowKey, Close, Perform, CursorKey;
  }

  /** Enter in PROJECTS leaves in LIST exactly the runs of the project under the cursor, or all of them again where those were shown already. */
  lemma EnterFiltersByProject(s: State)
    requires s.view == Projects && 0 <= s.lists.projects <= |SnapshotOf(s.lists).projects|
    ensures var t, ids := KeyStep(s, Enter), SnapshotOf(s.lists).projects;
            var project := if s.lists.projects < |ids| then Some(ids[s.lists.projects]) else None;
            var again := s.lists.runProject == OnlyProject(project);
            && t == s.(view := List, lists := s.lists.(runProject := if again then AllRuns else OnlyProject(project)))
            && forall r :: RunRow(r) in RowsOf(t.lists) <==> r in SnapshotOf(s.lists).runs && (again || r.project == project)
  {
    var t := KeyStep(s, Enter);
    if s.lists.snapshot.Some? { RunsShown(s.lists.snapshot.value, t.lists.runSort, t.lists.runProject); }
    hide BuildRows;
  }

  // ---- the search ----

  /** `/` opens the search on the query that is armed, and moves nothing. */
  lemma SlashOpensTheSearch(s: State)
    requires s.view == LiveTail && s.tail.shown.search.None?
    ensures var t := KeyStep(s, Char('/'));
            t == s.(tail := s.tail.(shown := s.tail.shown.(search := Some(MakeLineInput(s.tail.shown.query.GetOr(""))))))
  {
    hide RowsOf, ActiveIndex, CloseTail, ScrollKey;
  }

  /** In the open search, Enter arms exactly the text, or nothing where it is empty; Escape drops it with the query and the match. */
  lemma SearchArmsItsText(s: State)
    requires s.view == LiveTail && s.tail.shown.search.Some?
    ensures var t, text := KeyStep(s, Enter).tail.shown, s.tail.shown.search.value.value;
            && KeyStep(s, Enter) == s.(tail := s.tail.(shown := t))
            && t.search.None? && t.query == (if text == "" then None else Some(text))
            && t.scroll == (if text == "" then s.tail.shown.scroll.(matched := None) else s.tail.shown.scroll)
    ensures var t := KeyStep(s, Escape);
            t == s.(tail := s.tail.(shown := s.tail.shown.(search := None, query := None, scroll := s.tail.shown.scroll.(matched := None))))
  {
    hide RowsOf, ActiveIndex, CloseTail, ScrollKey, EditLine;
  }

  /** And then `n` brings a line that contains the text, as drawn, into the window, wherever there is one. */
  lemma TheSearchFindsItsText(s: State)
    requires s.view == LiveTail && s.tail.shown.search.Some? && s.tail.shown.search.value.value != ""
    requires Matches(PaneLines(s.tail.shown.pane), s.tail.shown.search.value.value) != []
    ensures var t, lines := KeyStep(KeyStep(s, Enter), Char('n')).tail.shown, PaneLines(s.tail.shown.pane);
            && t.pane == s.tail.shown.pane && t.scroll.matched.Some? && 0 <= t.scroll.matched.value < |lines|
            && LineMatches(lines[t.scroll.matched.value], s.tail.shown.search.value.value)
            && t.scroll.top <= t.scroll.matched.value < t.scroll.top + 20
  {
    SearchArmsItsText(s);
    var t := KeyStep(s, Enter);
    KeysScrollTheTail(t, Char('n'));
    JumpShowsTheMatch(t.tail.shown.scroll, PaneLines(t.tail.shown.pane), t.tail.shown.query.value, Char('n'));
    hide KeyStep, ScrollKey, Matches;
  }

  /** Any other key of the view scrolls its window over the lines the last frame drew, and changes nothing else. */
  lemma KeysScrollTheTail(s: State, k: Key)
    requires s.view == LiveTail && s.tail.shown.search.None? && k != Escape && k != Char('/')
    ensures var t := KeyStep(s, k);
            t == s.(tail := s.tail.(shown := s.tail.shown.(scroll := ScrollKey(s.tail.shown.scroll, PaneLines(s.tail.shown.pane), s.tail.shown.query, k))))
  {
    hide RowsOf, ActiveIndex, CloseTail, ScrollKey;
  }

  /** A key in the open search edits its text alone; what is typed or pasted is at its cursor. */
  lemma SearchTakesEveryKey(s: State, k: Key)
    requires s.view == LiveTail && s.tail.shown.search.Some? && k != Enter && k != Escape
    ensures var t, i := KeyStep(s, k), s.tail.shown.search.value;
            && t == s.(tail := s.tail.(shown := s.tail.shown.(search := t.tail.shown.search))) && t.tail.shown.search.Some?
            && (k.Char? || k.Paste? ==>
                  var j, text := t.tail.shown.search.value, Entered(if k.Char? then [k.c] else k.s);
                  j.value == i.value[..i.At()] + text + i.value[i.At()..] && j.At() == i.At() + |text|)
  {
    hide EditLine, LineInput.At, RowsOf, ActiveIndex, CloseTail, ScrollKey;
    TypedAtTheCursor(s.tail.shown.search.value, k);
  }

  lemma TypedAtTheCursor(i: LineInput, k: Key)
    ensures k.Char? || k.Paste? ==>
              var j, text := EditLine(i, k), Entered(if k.Char? then [k.c] else k.s);
              j.value == i.value[..i.At()] + text + i.value[i.At()..] && j.At() == i.At() + |text|
  {
    assert i.value == i.value[..i.At()] + i.value[i.At()..];
  }

  // ---- a frame ----

  /** A frame brings the cursor back onto the rows where it is past them, and the tail's window onto the lines it draws. */
  lemma AFrameClamps(s: State, lines: seq<string>)
    ensures var t, n := Step(s, Render(lines)), |RowsOf(s.lists)|;
            && t == s.(lists := s.lists.(selected := t.lists.selected), tail := t.tail)
            && t.lists.selected == (if s.lists.selected < n then s.lists.selected else if n == 0 then 0 else n - 1)
            && (s.view != LiveTail ==> t.tail == s.tail)
            && (s.view == LiveTail ==>
                  var shown, drawn := t.tail.shown, PaneLines(t.tail.shown.pane);
                  && (s.tail.shown.pane.Transcript? ==> drawn == lines)
                  && (!s.tail.shown.pane.Transcript? ==> shown.pane == s.tail.shown.pane)
                  && InBounds(shown.scroll, |drawn|)
                  && (shown.scroll.follow ==> shown.scroll.top == MaxTop(|drawn|))
                  && (!shown.scroll.follow && InBounds(s.tail.shown.scroll, |drawn|) ==> shown.scroll == s.tail.shown.scroll))
  {
    hide BuildRows;
  }
}
