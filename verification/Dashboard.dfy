/**
 The overlay component (admin/src/dashboard.ts, `makeDashboard`): one method for each key handler and for each place a
 suspended coroutine resumes, handed what the coroutine captured. Every method takes exactly the step of Overlay.dfy, so
 every state the component reaches is a reachable state there.
 */
module DashboardComponent {
  import opened Wrappers
  import opened Keys
  import opened Rows
  import opened TailView
  import opened Overlay
  import opened Panes
  import OverlayInvariant
  import OverlaySteps

  /** `^[A-Za-z0-9._:-]{1,200}$`. */
  predicate RunId(s: string) {
    1 <= |s| <= 200
    && forall i :: 0 <= i < |s| ==> 'A' <= s[i] <= 'Z' || 'a' <= s[i] <= 'z' || '0' <= s[i] <= '9' || s[i] in "._:-"
  }

  function Asked(initialTail: Option<string>): Option<string> {
    if initialTail.Some? && RunId(initialTail.value) then initialTail else None
  }

  class Dashboard {
    var view: View
    var interval: bool // whether the poll timer is set
    const lists: ListPane
    const watch: WatchPane
    const refresh: RefreshPane
    const tail: TailPane
    const detail: DetailPane
    const inbox: ParkedPane
    const cap: CapacityPane
    const alloc: AllocationPane
    const desk: DeskPane

    ghost function Abs(): State
      reads this, lists, watch, refresh, tail, detail, inbox, cap, alloc, desk
    {
      State(view, interval, lists.Abs(), watch.Abs(), refresh.Abs(), tail.Abs(), detail.Abs(), inbox.Abs(), cap.Abs(), alloc.Abs(), desk.Abs())
    }

    /** Some run from an opening panel leads here. */
    ghost predicate Valid()
      reads this, lists, watch, refresh, tail, detail, inbox, cap, alloc, desk
    {
      Reachable(Abs())
    }

    /** What the bodies rely on: a closed tail has no search, and the poll timer runs until disposal. */
    ghost predicate Ready()
      reads this, tail, desk
    {
      && (view != LiveTail ==> tail.tailSearchInput.None? && tail.tailQuery.None? && tail.tailMatchLine.None?)
      && (interval <==> !desk.disposed)
    }

    lemma ValidIsReady()
      requires Valid()
      ensures Ready()
    {
      OverlaySteps.ReachableInv(Abs());
    }

    constructor (initialTail: Option<string>)
      ensures Abs() == Init(Asked(initialTail)) && Valid()
    {
      hide ListPane.Abs, WatchPane.Abs, RefreshPane.Abs, TailPane.Abs, DetailPane.Abs, ParkedPane.Abs, CapacityPane.Abs, AllocationPane.Abs, DeskPane.Abs;
      hide Init, Reachable;
      view, interval := View.List, true;
      lists := new ListPane();
      watch := new WatchPane();
      refresh := new RefreshPane();
      tail := new TailPane();
      detail := new DetailPane();
      inbox := new ParkedPane();
      cap := new CapacityPane();
      alloc := new AllocationPane();
      desk := new DeskPane();
      new;
      Start(initialTail);
    }

    /** The end of `makeDashboard`: the tail asked for, if there is one, and the first fetch. */
    method Start(initialTail: Option<string>)
      requires Abs() == Closed()
      modifies this`view, refresh, tail
      ensures Abs() == Init(Asked(initialTail)) && Valid()
    {
      hide OpenTail, StartRefresh, Reachable;
      OverlaySteps.InitReachable(Asked(initialTail));
      if initialTail.Some? && RunId(initialTail.value) {
        OpenTailOn(initialTail.value);
      } else {
        refresh.Start(desk.disposed);
      }
    }

    // ---- keys ----

    method HandleInput(k: Key)
      requires Valid()
      modifies this, lists, watch, refresh, tail, detail, inbox, cap, alloc, desk
      ensures Abs() == Step(old(Abs()), Press(k)) && Valid()
    {
      ValidIsReady();
      HandleKey(k);
      OverlaySteps.ReachableStep(old(Abs()), Press(k));
    }

    method HandleKey(k: Key)
      requires Ready()
      modifies this, lists, watch, refresh, tail, detail, inbox, cap, alloc, desk
      ensures Abs() == KeyStep(old(Abs()), k)
    {
      hide ListPane.Abs, WatchPane.Abs, RefreshPane.Abs, TailPane.Abs, DetailPane.Abs, ParkedPane.Abs, CapacityPane.Abs, AllocationPane.Abs;
      hide QuestionKey, MessageKey, ViewKey;
      if view == View.List && Is(k, 'z', 'Z') {
        OpenWatch();
        return;
      }
      if desk.pendingCancel.Some? && (view == View.List || view == HeldList) {
        desk.HandleQuestionKey(k);
        return;
      }
      if desk.steerInput.Some? && view == View.List {
        desk.HandleMessageKey(k);
        return;
      }
      HandleViewKey(k);
    }

    method HandleViewKey(k: Key)
      requires Ready()
      modifies this, lists, refresh, tail, detail, inbox, cap, alloc, desk
      ensures Abs() == ViewKey(old(Abs()), k)
    {
      hide ListPane.Abs, WatchPane.Abs, RefreshPane.Abs, TailPane.Abs, DetailPane.Abs, ParkedPane.Abs, CapacityPane.Abs, AllocationPane.Abs, DeskPane.Abs;
      hide ListKey, RunDetailKey, TriggerDetailKey, HeldKey, AllocationKey, ProjectsKey, HostsKey, VenuesKey, ParkedKey, LiveTailKey;
      if view == Watch || view == Failed {
        if k == Escape { view := View.List; }
      } else if view == RunDetail {
        HandleRunDetailKey(k);
      } else if view == TriggerDetail {
        HandleTriggerDetailKey(k);
      } else if view == Allocation {
        HandleAllocationKey(k);
      } else if view == Hosts {
        HandleHostsKey(k);
      } else if view == Venues {
        HandleVenuesKey(k);
      } else if view == Projects {
        HandleProjectsKey(k);
      } else if view == Parked {
        HandleParkedKey(k);
      } else if view == HeldList {
        HandleHeldKey(k);
      } else if view == LiveTail {
        HandleLiveTailKey(k);
      } else {
        HandleListKey(k);
      }
    }

    method OpenWatch()
      modifies this`view, watch
      ensures Abs() == old(Abs()).(view := Watch, watch := StartWatch(old(Abs()).watch.(known := false)))
    {
      hide ListPane.Abs, RefreshPane.Abs, TailPane.Abs, DetailPane.Abs, ParkedPane.Abs, CapacityPane.Abs, AllocationPane.Abs, DeskPane.Abs;
      view := Watch;
      watch.known := false;
      watch.ReadWatch();
    }

    method HandleRunDetailKey(k: Key)
      modifies this`view, lists, detail
      ensures Abs() == RunDetailKey(old(Abs()), k)
    {
      hide ListPane.Abs, WatchPane.Abs, RefreshPane.Abs, TailPane.Abs, ParkedPane.Abs, CapacityPane.Abs, AllocationPane.Abs, DeskPane.Abs;
      hide WalkRuns;
      if k == Escape {
        view := detail.detailFrom;
        detail.Leave();
      } else if k == Left || k == Right {
        Walk(if k == Left then -1 else 1);
      }
    }

    /** The arrows walk the run records in place, and the LIST cursor follows. */
    method Walk(step: int)
      modifies lists, detail
      ensures Abs() == WalkRuns(old(Abs()), step)
    {
      hide WatchPane.Abs, RefreshPane.Abs, TailPane.Abs, ParkedPane.Abs, CapacityPane.Abs, AllocationPane.Abs, DeskPane.Abs;
      hide BuildRows, FindIndex;
      var rows := BuildRows(lists.snapshot, lists.runSort, lists.runProject);
      var i := ShownIndex(Lists(lists.snapshot, lists.selected, lists.runSort, lists.runProject, 0, 0, 0, 0, None, false), detail.detailRun);
      if i.None? {
        return;
      }
      var next := i.value + step;
      if !(0 <= next < |rows|) || !rows[next].RunRow? {
        return;
      }
      detail.detailRun := Some(rows[next].record);
      detail.ReadContinues(rows[next].record);
      lists.selected := next;
    }

    method CloseWith(result: Result)
      requires Ready()
      modifies this`interval, desk
      ensures Abs() == old(Abs()).(timer := false, desk := Close(old(Abs()).desk, result))
    {
      hide ListPane.Abs, WatchPane.Abs, RefreshPane.Abs, TailPane.Abs, DetailPane.Abs, ParkedPane.Abs, CapacityPane.Abs, AllocationPane.Abs;
      DisposeClients();
      desk.Wait(result);
    }

    /** `dispose`, up to its await. */
    method DisposeClients()
      requires Ready()
      modifies this`interval, desk
      ensures Abs() == old(Abs()).(timer := false, desk := DisposeNow(old(Abs()).desk))
    {
      hide ListPane.Abs, WatchPane.Abs, RefreshPane.Abs, TailPane.Abs, DetailPane.Abs, ParkedPane.Abs, CapacityPane.Abs, AllocationPane.Abs;
      if desk.disposed {
        return;
      }
      desk.disposed := true;
      interval := false;
      desk.calls := desk.calls + [CallDispose];
    }

    method HandleTriggerDetailKey(k: Key)
      requires Ready()
      modifies this`view, this`interval, lists, desk
      ensures Abs() == TriggerDetailKey(old(Abs()), k)
    {
      hide WatchPane.Abs, RefreshPane.Abs, TailPane.Abs, DetailPane.Abs, ParkedPane.Abs, CapacityPane.Abs, AllocationPane.Abs, DeskPane.Abs;
      hide Close;
      var index := lists.detailTrigger.GetOr(0);
      if lists.pendingDelete {
        if Is(k, 'y', 'Y') {
          CloseWith(DeleteTrigger(index));
        } else if Is(k, 'n', 'N') || k == Escape {
          lists.SetPendingDelete(false);
        }
      } else if k == Escape {
        LeaveTrigger();
      } else if Is(k, 'e', 'E') {
        CloseWith(EditTrigger(index));
      } else if Is(k, 'x', 'X') {
        lists.SetPendingDelete(true);
      }
    }

    method LeaveTrigger()
      modifies this`view, lists`detailTrigger
      ensures var s := old(Abs()); Abs() == s.(view := View.List, lists := s.lists.(trigger := None))
    {
      hide WatchPane.Abs, RefreshPane.Abs, TailPane.Abs, DetailPane.Abs, ParkedPane.Abs, CapacityPane.Abs, AllocationPane.Abs, DeskPane.Abs;
      view := View.List;
      lists.detailTrigger := None;
    }

    method HandleAllocationKey(k: Key)
      modifies this`view, alloc, desk
      ensures Abs() == AllocationKey(old(Abs()), k)
    {
      hide ListPane.Abs, WatchPane.Abs, RefreshPane.Abs, TailPane.Abs, DetailPane.Abs, ParkedPane.Abs, CapacityPane.Abs, AllocationPane.Abs;
      hide AnswerRevert, AllocationCursorKey;
      if desk.pendingRevert.Some? {
        desk.HandleRevertKey(k);
      } else {
        HandleAllocationCursorKey(k);
      }
    }

    method HandleAllocationCursorKey(k: Key)
      modifies this`view, alloc, desk
      ensures Abs() == AllocationCursorKey(old(Abs()), k)
    {
      hide ListPane.Abs, WatchPane.Abs, RefreshPane.Abs, TailPane.Abs, DetailPane.Abs, ParkedPane.Abs, CapacityPane.Abs, DeskPane.Abs;
      hide ArmRow;
      var rows := if alloc.allocInfo.AllocReport? then alloc.allocInfo.log else [];
      if k == Escape {
        view := View.List;
        alloc.Leave();
      } else if k == Up || k == Down {
        alloc.Move(k, |rows|);
      } else if Is(k, 'r', 'R') && 0 <= alloc.allocSelected < |rows| && rows[alloc.allocSelected].revertible {
        desk.AskRevert(rows[alloc.allocSelected]);
      }
    }

    method HandleHostsKey(k: Key)
      modifies this`view, cap
      ensures Abs() == HostsKey(old(Abs()), k)
    {
      hide ListPane.Abs, WatchPane.Abs, RefreshPane.Abs, TailPane.Abs, DetailPane.Abs, ParkedPane.Abs, AllocationPane.Abs, DeskPane.Abs;
      hide LoadCapacity;
      if k == Escape {
        view := View.List;
        cap.Leave();
      } else if Is(k, 'u', 'U') {
        cap.capInfo := if cap.capInfo.CapReport? then cap.capInfo.(refreshing := true) else CapLoading;
        cap.LoadCapacity();
      } else if Is(k, 'v', 'V') {
        view := Venues;
      }
    }

    method HandleVenuesKey(k: Key)
      modifies this`view, lists
      ensures Abs() == VenuesKey(old(Abs()), k)
    {
      hide WatchPane.Abs, RefreshPane.Abs, TailPane.Abs, DetailPane.Abs, ParkedPane.Abs, CapacityPane.Abs, AllocationPane.Abs, DeskPane.Abs;
      var count := if lists.snapshot.Some? then lists.snapshot.value.venues else 0;
      match k {
        case Escape => view := Hosts;
        case Up => lists.venuesSelected := Max(0, lists.venuesSelected - 1);
        case Down => lists.venuesSelected := Min(Max(0, count - 1), lists.venuesSelected + 1);
        case _ =>
      }
    }

    method HandleProjectsKey(k: Key)
      modifies this`view, lists
      ensures Abs() == ProjectsKey(old(Abs()), k)
    {
      hide WatchPane.Abs, RefreshPane.Abs, TailPane.Abs, DetailPane.Abs, ParkedPane.Abs, CapacityPane.Abs, AllocationPane.Abs, DeskPane.Abs;
      hide ProjectsKeyAt;
      lists.ClampProjects(|if lists.snapshot.Some? then lists.snapshot.value.projects else []| + 1);
      HandleProjectsKeyAt(k);
    }

    method HandleProjectsKeyAt(k: Key)
      modifies this`view, lists
      ensures Abs() == ProjectsKeyAt(old(Abs()), k)
    {
      hide WatchPane.Abs, RefreshPane.Abs, TailPane.Abs, DetailPane.Abs, ParkedPane.Abs, CapacityPane.Abs, AllocationPane.Abs, DeskPane.Abs;
      var ids := if lists.snapshot.Some? then lists.snapshot.value.projects else [];
      if k == Escape {
        view := View.List;
      } else if k == Up || k == Down {
        lists.MoveProjects(k, |ids| + 1);
      } else if k == Enter {
        ChooseProject(ids);
      }
    }

    method ChooseProject(ids: seq<string>)
      requires ids == (if lists.snapshot.Some? then lists.snapshot.value.projects else [])
      modifies this`view, lists`runProject
      ensures var s, at := old(Abs()), lists.projectsSelected;
              var only := OnlyProject(if 0 <= at < |ids| then Some(ids[at]) else None);
              Abs() == if 0 <= at <= |ids| then s.(lists := s.lists.(runProject := if s.lists.runProject == only then AllRuns else only), view := View.List) else s
    {
      hide WatchPane.Abs, RefreshPane.Abs, TailPane.Abs, DetailPane.Abs, ParkedPane.Abs, CapacityPane.Abs, AllocationPane.Abs, DeskPane.Abs;
      var at := lists.projectsSelected;
      if 0 <= at <= |ids| {
        lists.ChooseProject(if at < |ids| then Some(ids[at]) else None);
        view := View.List;
      }
    }

    method HandleParkedKey(k: Key)
      modifies this`view, lists, inbox, detail
      ensures Abs() == ParkedKey(old(Abs()), k)
    {
      hide WatchPane.Abs, RefreshPane.Abs, TailPane.Abs, DetailPane.Abs, ParkedPane.Abs, CapacityPane.Abs, AllocationPane.Abs, DeskPane.Abs;
      hide ParkedKeyAt;
      lists.ClampParked(|if lists.snapshot.Some? then lists.snapshot.value.parked else []|);
      HandleParkedKeyAt(k);
    }

    method HandleParkedKeyAt(k: Key)
      requires lists.parkedSelected == ClampCursor(lists.parkedSelected, |ParkedRows(lists.Abs())|)
      modifies this`view, lists, inbox, detail
      ensures Abs() == ParkedKeyAt(old(Abs()), k)
    {
      hide WatchPane.Abs, RefreshPane.Abs, TailPane.Abs, DetailPane.Abs, ParkedPane.Abs, CapacityPane.Abs, AllocationPane.Abs, DeskPane.Abs;
      hide OpenDetail, Abandon, ReadById, KnownRun;
      var rows := if lists.snapshot.Some? then lists.snapshot.value.parked else [];
      if k == Escape {
        LeaveParked();
      } else if k == Up || k == Down {
        inbox.Renumber();
        lists.MoveParked(k, |rows|);
      } else if k == Enter {
        OpenParked(rows);
      }
    }

    method LeaveParked()
      modifies this`view, lists`parkedSelected
      ensures var s := old(Abs()); Abs() == s.(lists := s.lists.(parked := 0), view := View.List)
    {
      hide WatchPane.Abs, RefreshPane.Abs, TailPane.Abs, DetailPane.Abs, ParkedPane.Abs, CapacityPane.Abs, AllocationPane.Abs, DeskPane.Abs;
      view := View.List;
      lists.parkedSelected := 0;
    }

    method OpenParked(rows: seq<string>)
      modifies this`view, inbox, detail
      requires rows == (if lists.snapshot.Some? then lists.snapshot.value.parked else [])
      ensures var s, at := old(Abs()), lists.parkedSelected;
              Abs() == if !(0 <= at < |rows|) || rows[at] == "" then s
                       else var known := KnownRun(s.lists, rows[at]);
                            if known.Some? then s.(inbox := Abandon(s.inbox), detail := OpenDetail(s.detail, known.value, Parked), view := RunDetail)
                            else s.(inbox := ReadById(s.inbox, rows[at]))
    {
      hide WatchPane.Abs, RefreshPane.Abs, TailPane.Abs, DetailPane.Abs, ParkedPane.Abs, CapacityPane.Abs, AllocationPane.Abs, DeskPane.Abs;
      hide OpenDetail, Abandon, ReadById, FindRun;
      var at := lists.parkedSelected;
      if !(0 <= at < |rows|) || rows[at] == "" {
        return;
      }
      var known := FindRun(lists.snapshot.value.runs, rows[at]);
      if known.Some? {
        inbox.Renumber();
        detail.Open(known.value, Parked);
        view := RunDetail;
        return;
      }
      inbox.Read(rows[at]);
    }

    method HandleHeldKey(k: Key)
      modifies this`view, lists, desk
      ensures Abs() == HeldKey(old(Abs()), k)
    {
      hide WatchPane.Abs, RefreshPane.Abs, TailPane.Abs, DetailPane.Abs, ParkedPane.Abs, CapacityPane.Abs, AllocationPane.Abs, DeskPane.Abs;
      hide HeldKeyAt;
      lists.ClampHeld(|if lists.snapshot.Some? then lists.snapshot.value.held else []|);
      HandleHeldKeyAt(k);
    }

    method HandleHeldKeyAt(k: Key)
      modifies this`view, lists, desk
      ensures Abs() == HeldKeyAt(old(Abs()), k)
    {
      hide WatchPane.Abs, RefreshPane.Abs, TailPane.Abs, DetailPane.Abs, ParkedPane.Abs, CapacityPane.Abs, AllocationPane.Abs, DeskPane.Abs;
      hide ArmQuestion;
      var rows := if lists.snapshot.Some? then lists.snapshot.value.held else [];
      if k == Escape {
        LeaveHeld();
      } else if k == Up || k == Down {
        lists.MoveHeld(k, |rows|);
      } else if Is(k, 'x', 'X') {
        CancelHeld(rows);
      }
    }

    method LeaveHeld()
      modifies this`view, lists`heldSelected
      ensures var s := old(Abs()); Abs() == s.(lists := s.lists.(held := 0), view := View.List)
    {
      hide WatchPane.Abs, RefreshPane.Abs, TailPane.Abs, DetailPane.Abs, ParkedPane.Abs, CapacityPane.Abs, AllocationPane.Abs, DeskPane.Abs;
      view := View.List;
      lists.heldSelected := 0;
    }

    /** `x` in HELD_LIST, on the row under the cursor. */
    method CancelHeld(rows: seq<HeldJob>)
      modifies desk
      ensures var at := lists.Abs().held;
              desk.Abs() == if 0 <= at < |rows| && rows[at].jobId != "" then ArmQuestion(old(desk.Abs()), rows[at].jobId, HeldDoor) else old(desk.Abs())
    {
      hide DeskPane.Abs, ArmQuestion;
      var at := lists.heldSelected;
      if !(0 <= at < |rows|) || rows[at].jobId == "" {
        return;
      }
      desk.AskCancel(rows[at].jobId, HeldDoor);
    }

    method HandleLiveTailKey(k: Key)
      modifies this`view, lists, tail
      ensures Abs() == LiveTailKey(old(Abs()), k)
    {
      hide WatchPane.Abs, RefreshPane.Abs, DetailPane.Abs, ParkedPane.Abs, CapacityPane.Abs, AllocationPane.Abs, DeskPane.Abs;
      hide BuildRows, FindIndex, TailKey, CloseTail;
      if k == Escape && tail.tailSearchInput.None? && tail.tailQuery.None? {
        view := View.List;
        var at := ActiveIndex(BuildRows(lists.snapshot, lists.runSort, lists.runProject), tail.tailJobId.GetOr(""));
        lists.selected := if at.Some? then at.value else -1;
        tail.Close();
        return;
      }
      tail.HandleKey(k);
    }

    method HandleListKey(k: Key)
      requires Ready() && view == View.List
      modifies this`view, this`interval, lists, refresh, tail, detail, inbox, cap, alloc, desk
      ensures Abs() == ListKey(old(Abs()), k)
    {
      hide ListPane.Abs, WatchPane.Abs, RefreshPane.Abs, TailPane.Abs, DetailPane.Abs, ParkedPane.Abs, CapacityPane.Abs, AllocationPane.Abs, DeskPane.Abs;
      hide OpenRow, ListRowKey, Close;
      var result := CloseResult(k);
      if result.Some? {
        CloseWith(result.value);
      } else if k == Enter {
        OpenSelected();
      } else {
        HandleListRowKey(k);
      }
    }

    method HandleListRowKey(k: Key)
      requires Ready() && view == View.List
      modifies this`view, lists, refresh, tail, inbox, cap, alloc, desk
      ensures Abs() == ListRowKey(old(Abs()), k)
    {
      hide ListPane.Abs, WatchPane.Abs, RefreshPane.Abs, TailPane.Abs, DetailPane.Abs, ParkedPane.Abs, CapacityPane.Abs, AllocationPane.Abs, DeskPane.Abs;
      hide RowKey, CursorKey, ListLetterKey;
      if Is(k, 'x', 'X') || Is(k, 't', 'T') {
        HandleRowKey(k);
      } else if k == Tab || k == Up || k == Down {
        HandleCursorKey(k);
      } else {
        HandleLetterKey(k);
      }
    }

    method HandleLetterKey(k: Key)
      requires Ready() && view == View.List
      modifies this`view, lists, refresh, tail, inbox, cap, alloc, desk
      ensures Abs() == ListLetterKey(old(Abs()), k)
    {
      hide ListPane.Abs, WatchPane.Abs, RefreshPane.Abs, TailPane.Abs, DetailPane.Abs, ParkedPane.Abs, CapacityPane.Abs, AllocationPane.Abs, DeskPane.Abs;
      hide OpenKey, Perform;
      if Is(k, 'o', 'O') {
        CycleSort();
      } else if Is(k, 'p', 'P') {
        desk.Await(CallPause, Acting);
      } else if Is(k, 'r', 'R') {
        desk.Await(CallResume, Acting);
      } else {
        HandleOpenKey(k);
      }
    }

    method CycleSort()
      modifies lists`runSort
      ensures lists.Abs() == old(lists.Abs()).(runSort := NextSort(old(lists.Abs()).runSort))
    {
      lists.runSort := NextSort(lists.runSort);
    }

    method HandleCursorKey(k: Key)
      requires k == Tab || k == Up || k == Down
      modifies lists`selected
      ensures lists.Abs() == CursorKey(old(lists.Abs()), k)
    {
      hide BuildRows;
      var rows := BuildRows(lists.snapshot, lists.runSort, lists.runProject);
      if k == Tab {
        if |rows| == 0 {
          return;
        }
        var n := if lists.snapshot.Some? then |lists.snapshot.value.triggers| else 0;
        lists.selected := if lists.selected < n && n < |rows| then n else 0;
      } else if k == Up {
        lists.selected := Max(0, lists.selected - 1);
      } else {
        lists.selected := Min(Max(0, |rows| - 1), lists.selected + 1);
      }
    }

    /** `x`, `t` and `T` on the row under the cursor. */
    method HandleRowKey(k: Key)
      modifies desk
      ensures desk.Abs() == RowKey(lists.Abs(), old(desk.Abs()), k)
    {
      hide DeskPane.Abs;
      hide BuildRows, ArmQuestion, ArmInput;
      var rows := BuildRows(lists.snapshot, lists.runSort, lists.runProject);
      var at := lists.selected;
      if !(0 <= at < |rows|) || !rows[at].ActiveRow? {
        return;
      }
      var row := rows[at];
      if Is(k, 'x', 'X') {
        desk.AskCancel(row.jobId, ActiveDoor);
        return;
      }
      if !row.steer {
        return;
      }
      if !row.steerOpen {
        return;
      }
      desk.AskMessage(row.jobId, if k == Char('T') then FollowUpMode else SteerMode);
    }

    method OpenSelected()
      requires Ready() && view == View.List
      modifies this`view, lists, refresh, tail, detail
      ensures Abs() == OpenRow(old(Abs()))
    {
      hide WatchPane.Abs, RefreshPane.Abs, TailPane.Abs, DetailPane.Abs, ParkedPane.Abs, CapacityPane.Abs, AllocationPane.Abs;
      hide BuildRows, OpenTail, OpenDetail, StartRefresh;
      var rows := BuildRows(lists.snapshot, lists.runSort, lists.runProject);
      var at := lists.selected;
      if !(0 <= at < |rows|) {
        return;
      }
      match rows[at] {
        case TriggerRow(_, index) =>
          lists.detailTrigger := Some(index);
          lists.pendingDelete := false;
          view := TriggerDetail;
        case ActiveRow(jobId, _, _) =>
          OpenTailOn(jobId);
        case RunRow(record) =>
          detail.Open(record, View.List);
          view := RunDetail;
      }
    }

    /** `openTail` and an immediate fetch, so that the first frame carries the tail. */
    method OpenTailOn(jobId: string)
      requires Ready() && view == View.List
      modifies this`view, refresh, tail
      ensures var s := old(Abs());
              Abs() == Refreshed(s.(view := LiveTail, tail := OpenTail(s.tail, jobId)))
    {
      hide ListPane.Abs, WatchPane.Abs, RefreshPane.Abs, TailPane.Abs, DetailPane.Abs, ParkedPane.Abs, CapacityPane.Abs, AllocationPane.Abs;
      hide OpenTail, StartRefresh;
      tail.Open(jobId);
      view := LiveTail;
      refresh.Start(desk.disposed);
    }

    /** The keys that open another view. */
    method HandleOpenKey(k: Key)
      requires Ready() && view == View.List
      modifies this`view, lists, refresh, tail, inbox, cap, alloc, desk
      ensures Abs() == OpenKey(old(Abs()), k)
    {
      hide WatchPane.Abs, RefreshPane.Abs, TailPane.Abs, DetailPane.Abs, ParkedPane.Abs, CapacityPane.Abs, AllocationPane.Abs, DeskPane.Abs;
      hide OpenTail, StartRefresh, LoadAllocation, OpenPageKey;
      var snap := lists.snapshot.GetOr(UNREACHABLE);
      if Is(k, 'l', 'L') {
        if snap.activeJobId.None? || snap.activeJobId.value == "" {
          return;
        }
        OpenTailOn(snap.activeJobId.value);
      } else if Is(k, 'f', 'F') {
        if snap.failed == 0 {
          return;
        }
        view := Failed;
      } else if Is(k, 'h', 'H') {
        if |snap.held| == 0 {
          return;
        }
        OpenHeld();
      } else if Is(k, 'b', 'B') {
        OpenAllocation();
      } else {
        HandlePageKey(k);
      }
    }

    method HandlePageKey(k: Key)
      modifies this`view, lists, inbox, cap
      ensures Abs() == OpenPageKey(old(Abs()), k)
    {
      hide ListPane.Abs, WatchPane.Abs, RefreshPane.Abs, TailPane.Abs, DetailPane.Abs, ParkedPane.Abs, CapacityPane.Abs, AllocationPane.Abs, DeskPane.Abs;
      hide LoadCapacity, Abandon;
      if Is(k, 'j', 'J') {
        OpenProjects();
      } else if Is(k, 'k', 'K') {
        OpenInbox();
      } else if Is(k, 'u', 'U') {
        OpenHosts();
      }
    }

    method OpenHeld()
      modifies this`view, lists
      ensures var s := old(Abs()); Abs() == s.(lists := s.lists.(held := 0), view := HeldList)
    {
      hide WatchPane.Abs, RefreshPane.Abs, TailPane.Abs, DetailPane.Abs, ParkedPane.Abs, CapacityPane.Abs, AllocationPane.Abs, DeskPane.Abs;
      lists.heldSelected := 0;
      view := HeldList;
    }

    method OpenProjects()
      modifies this`view, lists
      ensures var s := old(Abs()); Abs() == s.(lists := s.lists.(projects := 0), view := Projects)
    {
      hide WatchPane.Abs, RefreshPane.Abs, TailPane.Abs, DetailPane.Abs, ParkedPane.Abs, CapacityPane.Abs, AllocationPane.Abs, DeskPane.Abs;
      lists.projectsSelected := 0;
      view := Projects;
    }

    method OpenInbox()
      modifies this`view, lists, inbox
      ensures var s := old(Abs()); Abs() == s.(lists := s.lists.(parked := 0), inbox := Abandon(s.inbox), view := Parked)
    {
      hide WatchPane.Abs, RefreshPane.Abs, TailPane.Abs, DetailPane.Abs, ParkedPane.Abs, CapacityPane.Abs, AllocationPane.Abs, DeskPane.Abs;
      hide Abandon;
      lists.parkedSelected := 0;
      inbox.Renumber();
      view := Parked;
    }

    method OpenAllocation()
      modifies this`view, alloc, desk
      ensures var s := old(Abs());
              Abs() == s.(desk := s.desk.(revert := None), alloc := LoadAllocation(s.alloc.(selected := 0, info := AllocLoading)), view := Allocation)
    {
      hide ListPane.Abs, WatchPane.Abs, RefreshPane.Abs, TailPane.Abs, DetailPane.Abs, ParkedPane.Abs, CapacityPane.Abs;
      hide LoadAllocation;
      alloc.allocSelected := 0;
      desk.pendingRevert := None;
      alloc.allocInfo := AllocLoading;
      view := Allocation;
      alloc.LoadAllocation();
    }

    method OpenHosts()
      modifies this`view, cap
      ensures var s := old(Abs());
              Abs() == s.(cap := LoadCapacity(s.cap.(info := CapLoading)), view := Hosts)
    {
      hide ListPane.Abs, WatchPane.Abs, RefreshPane.Abs, TailPane.Abs, DetailPane.Abs, ParkedPane.Abs, AllocationPane.Abs, DeskPane.Abs;
      hide LoadCapacity;
      cap.capInfo := CapLoading;
      view := Hosts;
      cap.LoadCapacity();
    }

    // ---- frames, the clock and disposal ----

    method Render(lines: seq<string>)
      requires Valid()
      modifies lists, tail
      ensures Abs() == Step(old(Abs()), Event.Render(lines)) && Valid()
    {
      Frame(lines);
      OverlaySteps.ReachableStep(old(Abs()), Event.Render(lines));
    }

    method Frame(lines: seq<string>)
      modifies lists, tail
      ensures Abs() == RenderStep(old(Abs()), lines)
    {
      hide WatchPane.Abs, RefreshPane.Abs, TailPane.Abs, DetailPane.Abs, ParkedPane.Abs, CapacityPane.Abs, AllocationPane.Abs, DeskPane.Abs;
      hide BuildRows;
      var rows := BuildRows(lists.snapshot, lists.runSort, lists.runProject);
      if lists.selected > |rows| - 1 {
        lists.selected := Max(0, |rows| - 1);
      }
      if view == LiveTail {
        tail.Frame(lines);
      }
    }

    method Tick()
      requires Valid() && interval
      modifies refresh
      ensures Abs() == Step(old(Abs()), Event.Tick) && Valid()
    {
      StartRefreshing();
      OverlaySteps.ReachableStep(old(Abs()), Event.Tick);
    }

    method StartRefreshing()
      modifies refresh
      ensures Abs() == Refreshed(old(Abs()))
    {
      hide ListPane.Abs, WatchPane.Abs, RefreshPane.Abs, TailPane.Abs, DetailPane.Abs, ParkedPane.Abs, CapacityPane.Abs, AllocationPane.Abs;
      hide StartRefresh;
      refresh.Start(desk.disposed);
    }

    method Dispose()
      requires Valid()
      modifies this`interval, desk
      ensures Abs() == Step(old(Abs()), Event.Dispose) && Valid()
    {
      ValidIsReady();
      DisposeClients();
      OverlaySteps.ReachableStep(old(Abs()), Event.Dispose);
    }

    // ---- the refresh, from one await to the next ----

    /** The refresh resumes with `a`; `c` is where it was suspended and what it had captured. */
    method ResumeRefresh(ghost id: nat, c: RefreshCo, a: RefreshAnswer)
      requires Valid() && Enabled(Abs(), RefreshResumes(id, a)) && refresh.pool[id] == c
      modifies this, lists, watch, refresh, tail
      ensures Abs() == Step(old(Abs()), RefreshResumes(id, a)) && Valid()
    {
      RefreshIsInFlight(id);
      ContinueRefresh(id, c, a);
      OverlaySteps.ReachableStep(old(Abs()), RefreshResumes(id, a));
    }

    lemma RefreshIsInFlight(id: nat)
      requires Valid() && id in refresh.pool
      ensures refresh.fetching
    {
      OverlaySteps.ReachableInv(Abs());
    }

    method ContinueRefresh(ghost id: nat, c: RefreshCo, a: RefreshAnswer)
      requires id in refresh.pool && refresh.pool[id] == c && refresh.fetching
      modifies this, lists, watch, refresh, tail
      ensures Abs() == RefreshStep(old(Abs()), id, a)
    {
      hide WatchPane.Abs, TailPane.Abs, DetailPane.Abs, ParkedPane.Abs, CapacityPane.Abs, AllocationPane.Abs, DeskPane.Abs;
      hide AfterSnapshot, AfterWatch, AfterPhase, TailReadStep;
      refresh.TakeUp(id);
      match c {
        case ReadingSnapshot =>
          if a.GotSnapshot? {
            lists.snapshot := Some(a.snapshot);
            ContinueAfterSnapshot();
          } else {
            lists.snapshot := Some(UNREACHABLE);
            refresh.End();
          }
        case AwaitingWatch(_) => ContinueAfterWatch();
        case ReadingPhase => ContinueAfterPhase();
        case _ => ResumeTailRead(c, a);
      }
    }

    method ContinueAfterSnapshot()
      requires refresh.fetching
      modifies watch, refresh, tail
      ensures Abs() == AfterSnapshot(old(Abs()))
    {
      hide ListPane.Abs, RefreshPane.Abs, TailPane.Abs, DetailPane.Abs, ParkedPane.Abs, CapacityPane.Abs, AllocationPane.Abs, DeskPane.Abs;
      hide AfterWatch, Suspend;
      if view == Watch {
        ghost var joined := if watch.readingWatch then None else Some(watch.nextId);
        watch.ReadWatch();
        refresh.Await(AwaitingWatch(joined));
        return;
      }
      ContinueAfterWatch();
    }

    method ContinueAfterWatch()
      requires refresh.fetching
      modifies refresh, tail
      ensures Abs() == AfterWatch(old(Abs()))
    {
      hide WatchPane.Abs, RefreshPane.Abs, TailPane.Abs, DetailPane.Abs, ParkedPane.Abs, CapacityPane.Abs, AllocationPane.Abs, DeskPane.Abs;
      hide AfterPhase, Suspend;
      if lists.snapshot.Some? && lists.snapshot.value.activeJobId.Some? {
        refresh.Await(ReadingPhase);
        return;
      }
      ContinueAfterPhase();
    }

    method ContinueAfterPhase()
      requires refresh.fetching
      modifies refresh, tail
      ensures Abs() == AfterPhase(old(Abs()))
    {
      hide ListPane.Abs, WatchPane.Abs, RefreshPane.Abs, DetailPane.Abs, ParkedPane.Abs, CapacityPane.Abs, AllocationPane.Abs, DeskPane.Abs;
      hide ReadPage, Suspend;
      if view != LiveTail || tail.tailJobId.None? || tail.tailJobId.value == "" {
        refresh.End();
        return;
      }
      if tail.tailStreaming {
        ContinuePages(tail.tailJobId.value, tail.tailGen, 0);
      } else {
        refresh.Await(ReadingMeta(tail.tailJobId.value, tail.tailGen));
      }
    }

    /** The transcript loop at the top of a page: one more read, or the pane as it stands. */
    method ContinuePages(jobId: string, gen: nat, page: nat)
      requires refresh.fetching
      modifies refresh, tail
      ensures (refresh.Abs(), tail.Abs()) == ReadPage(old(refresh.Abs()), old(tail.Abs()), jobId, gen, page)
    {
      hide Suspend, ShowTranscript;
      if page < TAIL_PAGES_MAX && tail.tailEnded.None? {
        refresh.Await(ReadingPage(jobId, gen, page, tail.tailCursor));
        return;
      }
      tail.Draw();
      refresh.End();
    }

    method ResumeTailRead(c: RefreshCo, a: RefreshAnswer)
      requires refresh.fetching && (c.ReadingMeta? || c.ReadingPage? || c.ReadingLog?)
      modifies refresh, tail
      ensures Abs() == TailReadStep(old(Abs()), c, a)
    {
      hide ListPane.Abs, WatchPane.Abs, RefreshPane.Abs, TailPane.Abs, DetailPane.Abs, ParkedPane.Abs, CapacityPane.Abs, AllocationPane.Abs, DeskPane.Abs;
      hide TailReadResumes;
      ContinueTailRead(c, c.gen == tail.Generation() && view == LiveTail && !desk.IsDisposed(), a);
    }

    /** A tail read's answer: a rejection leaves a note, and anything else counts only for the tail it was read for. */
    method ContinueTailRead(c: RefreshCo, current: bool, a: RefreshAnswer)
      requires refresh.fetching && (c.ReadingMeta? || c.ReadingPage? || c.ReadingLog?)
      modifies refresh, tail
      ensures (refresh.Abs(), tail.Abs()) == TailReadResumes(old(refresh.Abs()), old(tail.Abs()), c, current, a)
    {
      hide MetaResumes, PageResumes, LogResumes;
      if a.Rejected? {
        tail.tailStreamNote := Some(a.why);
        refresh.End();
        return;
      }
      if !current {
        refresh.End();
        return;
      }
      match c {
        case ReadingMeta(jobId, gen) => ResumeMeta(jobId, gen, a);
        case ReadingPage(jobId, gen, page, _) => ResumePage(jobId, gen, page, a);
        case ReadingLog(_, _) =>
          ResumeLog(a);
          refresh.End();
      }
    }

    method ResumeMeta(jobId: string, gen: nat, a: RefreshAnswer)
      requires refresh.fetching
      modifies refresh, tail
      ensures (refresh.Abs(), tail.Abs()) == MetaResumes(old(refresh.Abs()), old(tail.Abs()), jobId, gen, a)
    {
      hide Suspend, ReadPage;
      if a == GotMeta(true) {
        tail.tailStreaming := true;
      }
      if tail.tailStreaming {
        ContinuePages(jobId, gen, 0);
      } else {
        refresh.Await(ReadingLog(jobId, gen));
      }
    }

    method ResumePage(jobId: string, gen: nat, page: nat, a: RefreshAnswer)
      requires refresh.fetching
      modifies refresh, tail
      ensures (refresh.Abs(), tail.Abs()) == PageResumes(old(refresh.Abs()), old(tail.Abs()), jobId, gen, page, a)
    {
      hide ReadPage, ShowTranscript, TakePage;
      if !a.GotPage? {
        tail.tailStreamNote := Some(if a.GotNoPage? then a.why else "no answer");
        tail.Draw();
        refresh.End();
        return;
      }
      tail.Append(jobId, a.from, a.count, a.ended);
      if a.count < TRANSCRIPT_PAGE {
        tail.Draw();
        refresh.End();
      } else {
        ContinuePages(jobId, gen, page + 1);
      }
    }

    method ResumeLog(a: RefreshAnswer)
      modifies tail
      ensures tail.Abs() == LogResumes(old(tail.Abs()), a)
    {
      tail.tail := if a.GotLog? && a.text.Some? then LogFile(a.text.value) else NoLog;
    }

    // ---- the other reads ----

    method SettleWatch(ghost id: nat)
      requires Valid() && id in watch.pool
      modifies watch
      ensures Abs() == Step(old(Abs()), WatchSettles(id)) && Valid()
    {
      watch.Settle(id);
      OverlaySteps.ReachableStep(old(Abs()), WatchSettles(id));
    }

    /** The recovery job's id arrives, or the read was rejected. */
    method SettleContinues(ghost id: nat, mine: nat, jobId: string, answer: Option<Option<string>>)
      requires Valid() && id in detail.pool && detail.pool[id] == ContinuesRead(mine, jobId)
      modifies detail
      ensures Abs() == Step(old(Abs()), ContinuesSettles(id, answer)) && Valid()
    {
      detail.Settle(id, mine, jobId, answer, desk.disposed);
      OverlaySteps.ReachableStep(old(Abs()), ContinuesSettles(id, answer));
    }

    /** PARKED's by-id read answers. */
    method SettleById(ghost id: nat, mine: nat, ghost jobId: string, record: Option<Run>)
      requires Valid() && Enabled(Abs(), ByIdSettles(id, record)) && inbox.pool[id] == ByIdRead(mine, jobId)
      modifies this`view, inbox, detail
      ensures Abs() == Step(old(Abs()), ByIdSettles(id, record)) && Valid()
    {
      OpenById(id, mine, record);
      OverlaySteps.ReachableStep(old(Abs()), ByIdSettles(id, record));
    }

    method OpenById(ghost id: nat, mine: nat, record: Option<Run>)
      requires id in inbox.pool && inbox.pool[id].n == mine
      modifies this`view, inbox, detail
      ensures Abs() == ByIdStep(old(Abs()), id, record)
    {
      hide ListPane.Abs, WatchPane.Abs, RefreshPane.Abs, TailPane.Abs, DetailPane.Abs, CapacityPane.Abs, AllocationPane.Abs;
      hide OpenDetail;
      inbox.TakeUp(id);
      if mine != inbox.parkedSeq || desk.disposed || view != Parked {
        return;
      }
      if record.Some? {
        detail.Open(record.value, Parked);
        view := RunDetail;
      }
    }

    method SettleCapacity(ghost id: nat, ghost info: CapInfo)
      requires Valid() && id in cap.races && !Waiting(info)
      modifies cap
      ensures Abs() == Step(old(Abs()), CapSettles(id, info)) && Valid()
    {
      cap.Settle(id, info);
      OverlaySteps.ReachableStep(old(Abs()), CapSettles(id, info));
    }

    method ResumeCapacity(ghost id: nat, mine: nat, ghost read: nat, res: CapInfo)
      requires Valid() && id in cap.pool && cap.pool[id] == CapRequest(mine, read) && read in cap.answers && cap.answers[read] == res
      modifies cap
      ensures Abs() == Step(old(Abs()), CapResumes(id)) && Valid()
    {
      cap.Resume(id, mine, read, res, view == Hosts || view == Venues, desk.disposed);
      OverlaySteps.ReachableStep(old(Abs()), CapResumes(id));
    }

    method SettleAllocation(ghost id: nat, info: AllocInfo)
      requires Valid() && id in alloc.pool && !info.AllocLoading?
      modifies alloc
      ensures Abs() == Step(old(Abs()), AllocSettles(id, info)) && Valid()
    {
      alloc.Settle(id, info);
      OverlaySteps.ReachableStep(old(Abs()), AllocSettles(id, info));
    }

    // ---- actions ----

    /** An action's call settles: `act` refreshes, a revert reads the allocation again, a closing overlay is done. */
    method SettleAction(ghost id: nat, a: Act, planned: bool)
      requires Valid() && id in desk.pool && desk.pool[id] == a
      modifies refresh, alloc, desk
      ensures Abs() == Step(old(Abs()), ActSettles(id, planned)) && Valid()
    {
      ContinueAction(id, a, planned);
      OverlaySteps.ReachableStep(old(Abs()), ActSettles(id, planned));
    }

    method ContinueAction(ghost id: nat, a: Act, planned: bool)
      requires id in desk.pool && desk.pool[id] == a
      modifies refresh, alloc, desk
      ensures Abs() == ActStep(old(Abs()), id, planned)
    {
      hide ListPane.Abs, WatchPane.Abs, RefreshPane.Abs, TailPane.Abs, DetailPane.Abs, ParkedPane.Abs, CapacityPane.Abs, AllocationPane.Abs;
      hide SettleAct, StartRefresh, LoadAllocation;
      desk.Settle(id, planned);
      match a {
        case Acting => refresh.Start(desk.disposed);
        case Planning(_, _, _, _) =>
          if !planned {
            refresh.Start(desk.disposed);
          }
        case Reverting => alloc.LoadAllocation();
        case Closing(_) =>
      }
    }
  }
}
