/**
 The overlay's closure fields (admin/src/dashboard.ts, `makeDashboard`), grouped by the part of the panel they belong
 to, with the operations that touch one part alone. `Abs` is the part's value in Overlay.dfy. Ghost fields hold the
 suspended coroutines and the history.
 */
module Panes {
  import opened Wrappers
  import opened Keys
  import opened Rows
  import opened TailView
  import opened Overlay

  class ListPane {
    var snapshot: Option<Snapshot>
    var selected: int
    var runSort: RunSort
    var runProject: Filter
    var heldSelected: int
    var parkedSelected: int
    var projectsSelected: int
    var venuesSelected: int
    var detailTrigger: Option<nat>
    var pendingDelete: bool

    ghost function Abs(): Lists reads this {
      Lists(snapshot, selected, runSort, runProject, heldSelected, parkedSelected, projectsSelected, venuesSelected, detailTrigger, pendingDelete)
    }

    constructor ()
      ensures Abs() == Closed().lists
    {
      snapshot, selected, runSort, runProject := None, 0, ByTime, AllRuns;
      heldSelected, parkedSelected, projectsSelected, venuesSelected := 0, 0, 0, 0;
      detailTrigger, pendingDelete := None, false;
    }

    method SetPendingDelete(asked: bool)
      modifies this`pendingDelete
      ensures Abs() == old(Abs()).(pendingDelete := asked)
    {
      pendingDelete := asked;
    }

    method ClampHeld(rows: nat)
      modifies this`heldSelected
      ensures Abs() == old(Abs()).(held := ClampCursor(old(Abs()).held, rows))
    {
      if heldSelected > rows - 1 {
        heldSelected := Max(0, rows - 1);
      }
    }

    method MoveHeld(k: Key, rows: nat)
      requires k == Up || k == Down
      modifies this`heldSelected
      ensures Abs() == old(Abs()).(held := if k == Up then Max(0, old(Abs()).held - 1) else Min(Max(0, rows - 1), old(Abs()).held + 1))
    {
      heldSelected := if k == Up then Max(0, heldSelected - 1) else Min(Max(0, rows - 1), heldSelected + 1);
    }

    method MoveProjects(k: Key, rows: nat)
      requires k == Up || k == Down
      modifies this`projectsSelected
      ensures Abs() == old(Abs()).(projects := if k == Up then Max(0, old(Abs()).projects - 1) else Min(Max(0, rows - 1), old(Abs()).projects + 1))
    {
      projectsSelected := if k == Up then Max(0, projectsSelected - 1) else Min(Max(0, rows - 1), projectsSelected + 1);
    }

    method MoveParked(k: Key, rows: nat)
      requires k == Up || k == Down
      modifies this`parkedSelected
      ensures Abs() == old(Abs()).(parked := if k == Up then Max(0, old(Abs()).parked - 1) else Min(Max(0, rows - 1), old(Abs()).parked + 1))
    {
      parkedSelected := if k == Up then Max(0, parkedSelected - 1) else Min(Max(0, rows - 1), parkedSelected + 1);
    }

    /** Enter in PROJECTS filters the runs to the project under the cursor, or clears that filter. */
    method ChooseProject(key: Option<string>)
      modifies this`runProject
      ensures Abs() == old(Abs()).(runProject := if old(Abs()).runProject == OnlyProject(key) then AllRuns else OnlyProject(key))
    {
      runProject := if runProject == OnlyProject(key) then AllRuns else OnlyProject(key);
    }

    method ClampProjects(rows: nat)
      modifies this`projectsSelected
      ensures Abs() == old(Abs()).(projects := ClampCursor(old(Abs()).projects, rows))
    {
      if projectsSelected > rows - 1 {
        projectsSelected := Max(0, rows - 1);
      }
    }

    method ClampParked(rows: nat)
      modifies this`parkedSelected
      ensures Abs() == old(Abs()).(parked := ClampCursor(old(Abs()).parked, rows))
    {
      if parkedSelected > rows - 1 {
        parkedSelected := Max(0, rows - 1);
      }
    }
  }

  class WatchPane {
    var readingWatch: bool
    var known: bool
    ghost var pool: set<nat>
    ghost var nextId: nat

    ghost function Abs(): Watching reads this {
      Watching(readingWatch, known, pool, nextId)
    }

    constructor ()
      ensures Abs() == Closed().watch
    {
      readingWatch, known, pool, nextId := false, false, {}, 0;
    }

    /** `readWatch`, up to its first await. */
    method ReadWatch()
      modifies this
      ensures Abs() == StartWatch(old(Abs()))
    {
      if readingWatch {
        return;
      }
      readingWatch := true;
      pool, nextId := pool + {nextId}, nextId + 1;
    }

    /** The read ends, with rules or with "unavailable". */
    method Settle(ghost id: nat)
      requires id in pool
      modifies this
      ensures Abs() == WatchSettled(old(Abs()), id)
    {
      known := true;
      readingWatch := false;
      pool := pool - {id};
    }
  }

  class RefreshPane {
    var fetching: bool
    ghost var pool: map<nat, RefreshCo>
    ghost var at: nat
    ghost var nextId: nat

    ghost function Abs(): Refresh reads this {
      Refresh(fetching, pool, at, nextId)
    }

    constructor ()
      ensures Abs() == Closed().refresh
    {
      fetching, pool, at, nextId := false, map[], 0, 0;
    }

    /** An `await`: the rest of the refresh waits with what it captured. */
    ghost method Await(c: RefreshCo)
      requires fetching
      modifies this`pool, this`at, this`nextId
      ensures Abs() == Suspend(old(Abs()), c)
    {
      pool, at, nextId := pool[nextId := c], nextId, nextId + 1;
    }

    ghost method TakeUp(id: nat)
      modifies this`pool
      ensures Abs() == old(Abs()).(pool := old(pool) - {id})
    {
      pool := pool - {id};
    }

    /** `refresh`, up to its first await. */
    method Start(disposed: bool)
      modifies this
      ensures Abs() == StartRefresh(old(Abs()), disposed)
    {
      if fetching || disposed {
        return;
      }
      fetching := true;
      Await(ReadingSnapshot);
    }

    method End()
      modifies this
      ensures Abs() == EndRefresh(old(Abs()))
    {
      fetching := false;
    }
  }

  class TailPane {
    var tailJobId: Option<string>
    var tail: Pane
    var tailTop: int
    var tailFollow: bool
    var tailSearchInput: Option<LineInput>
    var tailQuery: Option<string>
    var tailMatchLine: Option<int>
    var tailStreaming: bool
    var tailEntries: seq<StreamEntry>
    var tailCursor: Option<nat>
    var tailEnded: Option<string>
    var tailStreamNote: Option<string>
    var tailGen: nat
    ghost var read: seq<nat>
    ghost var gapless: bool

    ghost function Abs(): Tail reads this {
      Tail(Shown(tailJobId, tail, Scroll(tailTop, tailFollow, tailMatchLine), tailSearchInput, tailQuery, tailStreaming,
                 tailEntries, tailCursor, tailEnded),
           tailGen, tailStreamNote, read, gapless)
    }

    constructor ()
      ensures Abs() == Closed().tail
    {
      tailJobId, tail, tailTop, tailFollow := None, NoPane, 0, true;
      tailSearchInput, tailQuery, tailMatchLine := None, None, None;
      tailStreaming, tailEntries, tailCursor, tailEnded := false, [], None, None;
      tailStreamNote, tailGen, read, gapless := None, 0, [], true;
    }

    function Generation(): (gen: nat)
      reads this
      ensures gen == Abs().gen
    {
      tailGen
    }

    /** The transcript goes with its view, and a read still in flight is numbered out. */
    method Forget()
      modifies this`tailGen, this`tailStreaming, this`tailEntries, this`tailCursor, this`tailEnded, this`tailStreamNote, this`read, this`gapless
      ensures tailGen == old(tailGen) + 1 && !tailStreaming && tailEntries == [] && tailCursor.None? && tailEnded.None?
      ensures tailStreamNote.None? && read == [] && gapless
    {
      tailGen := tailGen + 1;
      tailStreaming := false;
      tailEntries := [];
      tailCursor := None;
      tailEnded := None;
      tailStreamNote := None;
      read, gapless := [], true;
    }

    /** `openTail`, which leaves the search fields alone: a closed tail has none. */
    method Open(jobId: string)
      requires tailSearchInput.None? && tailQuery.None? && tailMatchLine.None?
      modifies this
      ensures Abs() == OpenTail(old(Abs()), jobId)
    {
      tailJobId := Some(jobId);
      tail := NoPane;
      tailTop := 0;
      tailFollow := true;
      Forget();
    }

    /** What Escape drops with the view, the query having gone one Escape earlier. */
    method Close()
      requires tailQuery.None?
      modifies this
      ensures Abs() == CloseTail(old(Abs()))
    {
      tailJobId := None;
      tail := NoPane;
      tailTop := 0;
      tailFollow := true;
      tailSearchInput := None;
      tailMatchLine := None;
      Forget();
    }

    ghost method MarkRead(from: nat, count: nat)
      modifies this`read, this`gapless
      ensures read == old(read) + PageAts(from, count)
      ensures gapless == (old(gapless) && (count == 0 || old(read) == [] || from == NextAfter(tailCursor)))
    {
      gapless := gapless && (count == 0 || read == [] || from == NextAfter(tailCursor));
      read := read + PageAts(from, count);
    }

    /** A page of the transcript: the entries kept are the last `TAIL_LINES`. */
    method Append(jobId: string, from: nat, count: nat, ended: Option<string>)
      modifies this
      ensures Abs() == TakePage(old(Abs()), jobId, from, count, ended)
    {
      MarkRead(from, count);
      tailStreamNote := None;
      tailEntries := Last(tailEntries + PageEntries(jobId, from, count), TAIL_LINES);
      if count > 0 {
        tailCursor := Some(from + count - 1);
      }
      if ended.Some? {
        tailEnded := ended;
      }
    }

    /** `tail = { stream: true, … }`, which keeps the lines an earlier frame wrapped. */
    method Draw()
      modifies this
      ensures Abs() == ShowTranscript(old(Abs()))
    {
      tail := Transcript(tailEntries, tailEnded, if tail.Transcript? then tail.wrapped else []);
    }

    /** The frame's clamp: follow mode pins the window to the bottom. */
    method Frame(lines: seq<string>)
      modifies this
      ensures var t, t0 := Abs().shown, old(Abs()).shown;
              var pane := if t0.pane.Transcript? then t0.pane.(wrapped := lines) else t0.pane;
              Abs() == old(Abs()).(shown := t0.(pane := pane, scroll := Settle(t0.scroll, |PaneLines(pane)|)))
    {
      if tail.Transcript? {
        tail := tail.(wrapped := lines);
      }
      var maxTop := MaxTop(|PaneLines(tail)|);
      tailTop := if tailFollow then maxTop else Min(Max(0, tailTop), maxTop);
    }

    /** A key that stays in the view. */
    method HandleKey(k: Key)
      modifies this
      ensures Abs() == old(Abs()).(shown := TailKey(old(Abs()).shown, k))
    {
      if tailSearchInput.Some? {
        HandleSearchKey(k);
        return;
      }
      if k == Escape {
        tailQuery := None;
        tailMatchLine := None;
        return;
      }
      if k == Char('/') {
        tailSearchInput := Some(MakeLineInput(tailQuery.GetOr("")));
        return;
      }
      HandleScrollKey(k);
    }

    method HandleSearchKey(k: Key)
      requires tailSearchInput.Some?
      modifies this`tailSearchInput, this`tailQuery, this`tailMatchLine
      ensures Abs().shown == SearchKey(old(Abs()).shown, old(tailSearchInput).value, k)
    {
      match k {
        case Escape =>
          tailSearchInput := None;
          tailQuery := None;
          tailMatchLine := None;
        case Enter =>
          var q := tailSearchInput.value.value;
          tailQuery := if |q| > 0 then Some(q) else None;
          if tailQuery.None? {
            tailMatchLine := None;
          }
          tailSearchInput := None;
        case _ =>
          tailSearchInput := Some(EditLine(tailSearchInput.value, k));
      }
    }

    method HandleScrollKey(k: Key)
      modifies this`tailTop, this`tailFollow, this`tailMatchLine
      ensures Abs().shown == old(Abs()).shown.(scroll := ScrollKey(old(Abs()).shown.scroll, PaneLines(tail), tailQuery, k))
    {
      var lines := PaneLines(tail);
      if (k == Char('n') || k == Char('N')) && tailQuery.Some? {
        Jump(lines, tailQuery.value, k);
        return;
      }
      var maxTop := MaxTop(|lines|);
      match k {
        case Up =>
          tailFollow := false;
          tailTop := Max(0, tailTop - 1);
        case Down =>
          tailTop := Min(maxTop, tailTop + 1);
          if tailTop >= maxTop { tailFollow := true; }
        case PageUp =>
          tailFollow := false;
          tailTop := Max(0, tailTop - TAIL_VIEWPORT);
        case PageDown =>
          tailTop := Min(maxTop, tailTop + TAIL_VIEWPORT);
          if tailTop >= maxTop { tailFollow := true; }
        case _ =>
      }
    }

    /** `n` and `N` with a query armed: to the next or the previous matching line. */
    method Jump(lines: seq<string>, query: string, k: Key)
      requires k == Char('n') || k == Char('N')
      modifies this`tailTop, this`tailFollow, this`tailMatchLine
      ensures Abs().shown == old(Abs()).shown.(scroll := ScrollKey(old(Abs()).shown.scroll, lines, Some(query), k))
    {
      hide Next, Previous, Matches, LineMatches;
      var matches := TailMatches(lines, query);
      if |matches| == 0 {
        return;
      }
      var from := tailMatchLine.GetOr(tailTop);
      var line := if k == Char('n') then Next(matches, from) else Previous(matches, from);
      tailMatchLine := Some(line);
      tailFollow := false;
      tailTop := Min(line, MaxTop(|lines|));
    }
  }

  class DetailPane {
    var detailRun: Option<Run>
    var detailFrom: View
    var detailContinues: Option<Continues>
    var continuesSeq: nat
    ghost var pool: map<nat, ContinuesRead>
    ghost var nextId: nat

    ghost function Abs(): Detail reads this {
      Detail(detailRun, detailFrom, detailContinues, continuesSeq, pool, nextId)
    }

    constructor ()
      ensures Abs() == Closed().detail
    {
      detailRun, detailFrom, detailContinues, continuesSeq, pool, nextId := None, View.List, None, 0, map[], 0;
    }

    method ReadContinues(record: Run)
      modifies this
      ensures Abs() == Overlay.ReadContinues(old(Abs()), record)
    {
      continuesSeq := continuesSeq + 1;
      detailContinues := None;
      if !record.recovering {
        return;
      }
      detailContinues := Some(Continues(record.jobId, None));
      pool, nextId := pool[nextId := ContinuesRead(continuesSeq, record.jobId)], nextId + 1;
    }

    method Open(record: Run, from: View)
      modifies this
      ensures Abs() == OpenDetail(old(Abs()), record, from)
    {
      detailRun := Some(record);
      detailFrom := from;
      ReadContinues(record);
    }

    method Leave()
      modifies this
      ensures Abs() == LeaveDetail(old(Abs()))
    {
      detailFrom := View.List;
      continuesSeq := continuesSeq + 1;
      detailContinues := None;
    }

    method Settle(ghost id: nat, mine: nat, jobId: string, answer: Option<Option<string>>, disposed: bool)
      requires id in pool && pool[id] == ContinuesRead(mine, jobId)
      modifies this
      ensures Abs() == ContinuesSettled(old(Abs()), id, answer, disposed)
    {
      pool := pool - {id};
      if answer.None? || mine != continuesSeq || disposed {
        return;
      }
      detailContinues := Some(Continues(jobId, if answer.value.Some? then Some(Recovery(jobId, answer.value.value)) else None));
    }
  }

  class ParkedPane {
    var parkedSeq: nat
    ghost var pool: map<nat, ByIdRead>
    ghost var nextId: nat

    ghost function Abs(): Inbox reads this {
      Inbox(parkedSeq, pool, nextId)
    }

    constructor ()
      ensures Abs() == Closed().inbox
    {
      parkedSeq, pool, nextId := 0, map[], 0;
    }

    method Renumber()
      modifies this
      ensures Abs() == Abandon(old(Abs()))
    {
      parkedSeq := parkedSeq + 1;
    }

    method Read(jobId: string)
      modifies this
      ensures Abs() == ReadById(old(Abs()), jobId)
    {
      parkedSeq := parkedSeq + 1;
      pool, nextId := pool[nextId := ByIdRead(parkedSeq, jobId)], nextId + 1;
    }

    ghost method TakeUp(id: nat)
      modifies this`pool
      ensures Abs() == old(Abs()).(pool := old(pool) - {id})
    {
      pool := pool - {id};
    }
  }

  class CapacityPane {
    var capInfo: CapInfo
    var capSeq: nat
    var capRead: Option<nat> // the promise, by the id of its bounded read
    ghost var races: set<nat>
    ghost var answers: map<nat, CapInfo>
    ghost var pool: map<nat, CapRequest>
    ghost var latest: Option<nat>
    var nextId: nat

    ghost function Abs(): Capacity reads this {
      Capacity(capInfo, capSeq, capRead, races, answers, pool, latest, nextId)
    }

    constructor ()
      ensures Abs() == Closed().cap
    {
      capInfo, capSeq, capRead, nextId := NoCap, 0, None, 0;
      races, answers, pool, latest := {}, map[], map[], None;
    }

    /** `loadCapacity`, up to its await: it joins the bounded read in flight, or starts one. */
    method LoadCapacity()
      modifies this
      ensures Abs() == Overlay.LoadCapacity(old(Abs()))
    {
      capSeq := capSeq + 1;
      if capRead.None? {
        capRead := Some(nextId);
        races := races + {nextId};
        nextId := nextId + 1;
      }
      pool, latest := pool[nextId := CapRequest(capSeq, capRead.value)], Some(nextId);
      nextId := nextId + 1;
    }

    /** The bounded read settles, by its answer or by its timer. */
    method Settle(ghost id: nat, ghost info: CapInfo)
      modifies this
      ensures Abs() == CapSettled(old(Abs()), id, info)
    {
      capRead := None;
      races, answers := races - {id}, answers[id := info];
    }

    /** The rest of `loadCapacity`, with the bounded read's answer. */
    method Resume(ghost id: nat, mine: nat, ghost read: nat, res: CapInfo, inView: bool, disposed: bool)
      requires id in pool && pool[id] == CapRequest(mine, read) && read in answers && answers[read] == res
      modifies this
      ensures Abs() == CapResumed(old(Abs()), id, inView, disposed)
    {
      pool, latest := pool - {id}, if latest == Some(id) then None else latest;
      if mine != capSeq || disposed || !inView {
        return;
      }
      capInfo := res;
    }

    method Leave()
      modifies this
      ensures Abs() == LeaveCapacity(old(Abs()))
    {
      capInfo := NoCap;
      capSeq := capSeq + 1;
      latest := None;
    }
  }

  class AllocationPane {
    var allocInfo: AllocInfo
    var allocSelected: int
    ghost var pool: set<nat>
    ghost var nextId: nat

    ghost function Abs(): Allocations reads this {
      Allocations(allocInfo, allocSelected, pool, nextId)
    }

    constructor ()
      ensures Abs() == Closed().alloc
    {
      allocInfo, allocSelected, pool, nextId := NoAlloc, 0, {}, 0;
    }

    method Move(k: Key, rows: nat)
      requires k == Up || k == Down
      modifies this`allocSelected
      ensures Abs() == old(Abs()).(selected := if k == Up then Max(0, old(Abs()).selected - 1) else Min(Max(0, rows - 1), old(Abs()).selected + 1))
    {
      allocSelected := if k == Up then Max(0, allocSelected - 1) else Min(Max(0, rows - 1), allocSelected + 1);
    }

    method Leave()
      modifies this
      ensures Abs() == old(Abs()).(info := NoAlloc, selected := 0)
    {
      allocInfo := NoAlloc;
      allocSelected := 0;
    }

    /** `loadAllocation`, up to its await. */
    method LoadAllocation()
      modifies this
      ensures Abs() == Overlay.LoadAllocation(old(Abs()))
    {
      pool, nextId := pool + {nextId}, nextId + 1;
    }

    method Settle(ghost id: nat, info: AllocInfo)
      modifies this
      ensures Abs() == AllocSettled(old(Abs()), id, info)
    {
      allocInfo := info;
      pool := pool - {id};
    }
  }

  /** What is asked of the operator, and the calls made for the answers. */
  class DeskPane {
    var pendingCancel: Option<Question>
    var steerInput: Option<Message>
    var pendingRevert: Option<AllocRow>
    var disposed: bool
    ghost var arms: seq<Arming>
    ghost var calls: seq<Call>
    ghost var pool: map<nat, Act>
    ghost var nextId: nat

    ghost function Abs(): Desk reads this {
      Desk(pendingCancel, steerInput, pendingRevert, disposed, arms, calls, pool, nextId)
    }

    constructor ()
      ensures Abs() == Closed().desk
    {
      pendingCancel, steerInput, pendingRevert, disposed := None, None, None, false;
      arms, calls, pool, nextId := [], [], map[], 0;
    }

    function IsDisposed(): (yes: bool)
      reads this
      ensures yes == Abs().disposed
    {
      disposed
    }

    /** A call through a seam, and the action that awaits it. */
    ghost method Await(c: Call, a: Act)
      modifies this`calls, this`pool, this`nextId
      ensures Abs() == Perform(old(Abs()), c, a)
    {
      calls, pool, nextId := calls + [c], pool[nextId := a], nextId + 1;
    }

    method AskCancel(jobId: string, door: Door)
      modifies this
      ensures Abs() == ArmQuestion(old(Abs()), jobId, door)
    {
      pendingCancel := Some(Question(jobId, door));
      arms := arms + [ArmCancel(jobId, door)];
    }

    method AskMessage(jobId: string, mode: Mode)
      modifies this
      ensures Abs() == ArmInput(old(Abs()), jobId, mode)
    {
      steerInput := Some(Message(jobId, mode, MakeLineInput("")));
      arms := arms + [ArmMessage(jobId, mode)];
    }

    method AskRevert(row: AllocRow)
      modifies this
      ensures Abs() == ArmRow(old(Abs()), row)
    {
      pendingRevert := Some(row);
      arms := arms + [ArmRevert(row)];
    }

    /** The armed cancel eats every key. */
    method HandleQuestionKey(k: Key)
      requires pendingCancel.Some?
      modifies this
      ensures Abs() == QuestionKey(old(Abs()), k)
    {
      if Is(k, 'y', 'Y') {
        var target := pendingCancel.value;
        pendingCancel := None;
        Await(CallCancel(OpenArm(Abs()), target.job, target.door), Acting);
      } else if Is(k, 'n', 'N') || k == Escape {
        pendingCancel := None;
      }
    }

    /** The open message input takes every key. */
    method HandleMessageKey(k: Key)
      requires steerInput.Some?
      modifies this
      ensures Abs() == MessageKey(old(Abs()), k)
    {
      match k {
        case Escape =>
          steerInput := None;
        case Enter =>
          var m := steerInput.value;
          steerInput := None;
          if !Keys.Blank(m.input.value) {
            ghost var arm := OpenArm(Abs());
            Await(CallPlan(arm, m.job, m.mode, m.input.value), Planning(arm, m.job, m.mode, m.input.value));
          }
        case _ =>
          steerInput := Some(steerInput.value.(input := EditLine(steerInput.value.input, k)));
      }
    }

    method Revert()
      requires pendingRevert.Some?
      modifies this
      ensures Abs() == AnswerRevert(old(Abs()))
    {
      var target := pendingRevert.value;
      pendingRevert := None;
      Await(CallRevert(OpenArm(Abs()), target), Reverting);
    }

    /** The armed revert eats every key. */
    method HandleRevertKey(k: Key)
      requires pendingRevert.Some?
      modifies this
      ensures Abs() == if Is(k, 'y', 'Y') then AnswerRevert(old(Abs()))
                       else if Is(k, 'n', 'N') || k == Escape then old(Abs()).(revert := None)
                       else old(Abs())
    {
      if Is(k, 'y', 'Y') {
        Revert();
      } else if Is(k, 'n', 'N') || k == Escape {
        pendingRevert := None;
      }
    }

    /** `.finally(() => done(result))`: the answer waits for the clients to be gone. */
    ghost method Wait(result: Result)
      modifies this`pool, this`nextId
      ensures Abs() == old(Abs()).(pool := old(pool)[old(nextId) := Closing(result)], nextId := old(nextId) + 1)
    {
      pool, nextId := pool[nextId := Closing(result)], nextId + 1;
    }

    /** What follows an action's first call: a planned message is pushed, a closed overlay says so. */
    ghost method Settle(id: nat, planned: bool)
      requires id in pool
      modifies this`calls, this`pool, this`nextId
      ensures Abs() == SettleAct(old(Abs()), id, planned)
    {
      var a := pool[id];
      pool := pool - {id};
      match a {
        case Planning(arm, job, mode, text) =>
          if planned {
            Await(CallSend(arm, job, mode, text), Acting);
          }
        case Closing(result) =>
          calls := calls + [CallDone(result)];
        case _ =>
      }
    }
  }
}
