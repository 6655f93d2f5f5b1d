/**
 The overlay's state machine (admin/src/dashboard.ts, `makeDashboard`) as functions on a state value: one function per
 event, and the runs they make. The class in Dashboard.dfy is proved to take exactly these steps.

 A suspended coroutine is what it captured before its `await`, held under an id in the pool of its part of the panel.
 Resuming it is an event, in any order; what it resumes with is the environment's.
 */
module Overlay {
  import opened Wrappers
  import opened Keys
  import opened Rows
  import opened TailView

  // ---- constants ----

  const TAIL_LINES := 200

  type PageSize = p: nat | p > 0 witness 1

  /** The transcript's page and the entries its stream retains: any, here; 200 and 2,000 in the read model. */
  const TRANSCRIPT_PAGE: PageSize
  const LIVE_MAX_ENTRIES: nat

  /** The retained entries over a page each, plus one page for those that arrive meanwhile. */
  const TAIL_PAGES_MAX: nat := (LIVE_MAX_ENTRIES + TRANSCRIPT_PAGE - 1) / TRANSCRIPT_PAGE + 1

  datatype View =
    | List | Watch | RunDetail | TriggerDetail | Failed | HeldList
    | Allocation | Projects | Hosts | Venues | Parked | LiveTail

  // ---- LIST and its cursors ----

  datatype Lists = Lists(
    snapshot: Option<Snapshot>, selected: int, runSort: RunSort, runProject: Filter,
    held: int, parked: int, projects: int, venues: int, trigger: Option<nat>, pendingDelete: bool)

  function RowsOf(l: Lists): seq<Row> {
    BuildRows(l.snapshot, l.runSort, l.runProject)
  }

  function RowAt(l: Lists, i: int): Option<Row> {
    var rows := RowsOf(l);
    if 0 <= i < |rows| then Some(rows[i]) else None
  }

  // ---- WATCH ----

  /** `reading` is the guard flag, `known` whether there is something to show, `pool` the watch reads suspended. */
  datatype Watching = Watching(reading: bool, known: bool, pool: set<nat>, nextId: nat)

  function StartWatch(w: Watching): Watching {
    if w.reading then w else w.(reading := true, pool := w.pool + {w.nextId}, nextId := w.nextId + 1)
  }

  function WatchSettled(w: Watching, id: nat): Watching {
    w.(reading := false, known := true, pool := w.pool - {id})
  }

  // ---- the refresh and the tail ----

  /** A transcript entry: the job whose stream it is in, and its place in that stream. */
  datatype StreamEntry = StreamEntry(job: string, at: nat)

  /** What LIVE_TAIL shows: nothing yet, the transcript with the lines the last frame wrapped, or this host's log. */
  datatype Pane =
    | NoPane
    | Transcript(entries: seq<StreamEntry>, ended: Option<string>, wrapped: seq<string>)
    | LogFile(text: seq<string>)
    | NoLog

  function PaneLines(p: Pane): seq<string> {
    match p
    case Transcript(_, _, wrapped) => wrapped
    case LogFile(text) => text
    case _ => []
  }

  /** The tail's fields, which are dropped together when the view closes. */
  datatype Shown = Shown(
    job: Option<string>, pane: Pane, scroll: Scroll, search: Option<LineInput>, query: Option<string>,
    streaming: bool, entries: seq<StreamEntry>, cursor: Option<nat>, ended: Option<string>)

  const NO_TAIL := Shown(None, NoPane, BOTTOM, None, None, false, [], None, None)

  /**
   `gen` numbers the openings. `read` is the history: the places read since this opening; `gapless` says no page
   started past the cursor (the stream's head can be trimmed past it).
   */
  datatype Tail = Tail(shown: Shown, gen: nat, note: Option<string>, read: seq<nat>, gapless: bool)

  /** Where a refresh is suspended, with what it captured. */
  datatype RefreshCo =
    | ReadingSnapshot
    | AwaitingWatch(read: Option<nat>)
    | ReadingPhase
    | ReadingMeta(job: string, gen: nat)
    | ReadingPage(job: string, gen: nat, page: nat, after: Option<nat>)
    | ReadingLog(job: string, gen: nat)

  datatype RefreshAnswer =
    | Rejected(why: string)
    | Done
    | GotSnapshot(snapshot: Snapshot)
    | GotMeta(found: bool)
    | GotPage(from: nat, count: nat, ended: Option<string>)
    | GotNoPage(why: string)
    | GotLog(text: Option<seq<string>>)

  /** `fetching` is the single-flight flag, `pool` the refreshes suspended, `at` the id of the one that holds the flag. */
  datatype Refresh = Refresh(fetching: bool, pool: map<nat, RefreshCo>, at: nat, nextId: nat)

  function Suspend(r: Refresh, c: RefreshCo): Refresh {
    Refresh(true, r.pool[r.nextId := c], r.nextId, r.nextId + 1)
  }

  function StartRefresh(r: Refresh, disposed: bool): Refresh {
    if r.fetching || disposed then r else Suspend(r, ReadingSnapshot)
  }

  function EndRefresh(r: Refresh): Refresh {
    r.(fetching := false)
  }

  function NextAfter(after: Option<nat>): nat {
    if after.Some? then after.value + 1 else 0
  }

  function Last<T>(xs: seq<T>, n: nat): seq<T> {
    if |xs| <= n then xs else xs[|xs| - n..]
  }

  /** One page of a job's stream: `count` consecutive entries from `from` on. */
  function PageEntries(job: string, from: nat, count: nat): seq<StreamEntry> {
    seq(count, i requires 0 <= i < count => StreamEntry(job, from + i))
  }

  function PageAts(from: nat, count: nat): seq<nat> {
    seq(count, i requires 0 <= i < count => from + i)
  }

  /** A page lands in the tail: the entries kept are the last `TAIL_LINES`, the cursor is the last entry read. */
  function TakePage(t: Tail, job: string, from: nat, count: nat, ended: Option<string>): Tail {
    Tail(t.shown.(
           entries := Last(t.shown.entries + PageEntries(job, from, count), TAIL_LINES),
           cursor := if count == 0 then t.shown.cursor else Some(from + count - 1),
           ended := if ended.Some? then ended else t.shown.ended),
         t.gen, None, t.read + PageAts(from, count),
         t.gapless && (count == 0 || t.read == [] || from == NextAfter(t.shown.cursor)))
  }

  function ShowTranscript(t: Tail): Tail {
    var wrapped := if t.shown.pane.Transcript? then t.shown.pane.wrapped else [];
    t.(shown := t.shown.(pane := Transcript(t.shown.entries, t.shown.ended, wrapped)))
  }

  /** Where the transcript loop goes next: to another page, or out of the loop. */
  function ReadPage(r: Refresh, t: Tail, job: string, gen: nat, page: nat): (Refresh, Tail) {
    if page < TAIL_PAGES_MAX && t.shown.ended.None?
    then (Suspend(r, ReadingPage(job, gen, page, t.shown.cursor)), t)
    else (EndRefresh(r), ShowTranscript(t))
  }

  function ReadTail(r: Refresh, t: Tail, job: string): (Refresh, Tail) {
    if t.shown.streaming then ReadPage(r, t, job, t.gen, 0) else (Suspend(r, ReadingMeta(job, t.gen)), t)
  }

  function MetaResumes(r: Refresh, t: Tail, job: string, gen: nat, a: RefreshAnswer): (Refresh, Tail) {
    if a == GotMeta(true) then ReadPage(r, t.(shown := t.shown.(streaming := true)), job, gen, 0)
    else if t.shown.streaming then ReadPage(r, t, job, gen, 0)
    else (Suspend(r, ReadingLog(job, gen)), t)
  }

  function PageResumes(r: Refresh, t: Tail, job: string, gen: nat, page: nat, a: RefreshAnswer): (Refresh, Tail) {
    if !a.GotPage? then (EndRefresh(r), ShowTranscript(t.(note := Some(if a.GotNoPage? then a.why else "no answer"))))
    else if a.count < TRANSCRIPT_PAGE then (EndRefresh(r), ShowTranscript(TakePage(t, job, a.from, a.count, a.ended)))
    else ReadPage(r, TakePage(t, job, a.from, a.count, a.ended), job, gen, page + 1)
  }

  function LogResumes(t: Tail, a: RefreshAnswer): Tail {
    t.(shown := t.shown.(pane := if a.GotLog? && a.text.Some? then LogFile(a.text.value) else NoLog))
  }

  /** A suspended tail read resumes; `live` is whether its tail is still the one on screen. */
  function TailReadResumes(r: Refresh, t: Tail, c: RefreshCo, live: bool, a: RefreshAnswer): (Refresh, Tail) {
    if a.Rejected? then (EndRefresh(r), t.(note := Some(a.why)))
    else if !live then (EndRefresh(r), t)
    else match c
      case ReadingMeta(job, gen) => MetaResumes(r, t, job, gen, a)
      case ReadingPage(job, gen, page, after) => PageResumes(r, t, job, gen, page, a)
      case _ => (EndRefresh(r), LogResumes(t, a))
  }

  function OpenTail(t: Tail, job: string): Tail {
    Tail(NO_TAIL.(job := Some(job)), t.gen + 1, None, [], true)
  }

  function CloseTail(t: Tail): Tail {
    Tail(NO_TAIL, t.gen + 1, None, [], true)
  }

  // ---- RUN_DETAIL ----

  /** Where a run goes on: `id` is the recovery job's, `of` the run it was read for. */
  datatype Recovery = Recovery(of: string, id: string)
  datatype Continues = Continues(job: string, recovery: Option<Recovery>)
  datatype ContinuesRead = ContinuesRead(n: nat, job: string)

  datatype Detail = Detail(
    run: Option<Run>, from: View, continues: Option<Continues>, seq_: nat,
    pool: map<nat, ContinuesRead>, nextId: nat)

  function ReadContinues(d: Detail, r: Run): Detail {
    var n := d.seq_ + 1;
    if !r.recovering then d.(seq_ := n, continues := None)
    else d.(seq_ := n, continues := Some(Continues(r.jobId, None)),
            pool := d.pool[d.nextId := ContinuesRead(n, r.jobId)], nextId := d.nextId + 1)
  }

  function OpenDetail(d: Detail, r: Run, from: View): Detail {
    ReadContinues(d.(run := Some(r), from := from), r)
  }

  function LeaveDetail(d: Detail): Detail {
    d.(from := List, seq_ := d.seq_ + 1, continues := None)
  }

  /** `answer` is None for a read that was rejected, else the recovery job's id where there is one. */
  function ContinuesSettled(d: Detail, id: nat, answer: Option<Option<string>>, disposed: bool): Detail
    requires id in d.pool
  {
    var c, e := d.pool[id], d.(pool := d.pool - {id});
    if answer.None? || c.n != d.seq_ || disposed then e
    else e.(continues := Some(Continues(c.job, if answer.value.Some? then Some(Recovery(c.job, answer.value.value)) else None)))
  }

  // ---- PARKED ----

  datatype ByIdRead = ByIdRead(n: nat, job: string)
  datatype Inbox = Inbox(seq_: nat, pool: map<nat, ByIdRead>, nextId: nat)

  function ReadById(p: Inbox, job: string): Inbox {
    Inbox(p.seq_ + 1, p.pool[p.nextId := ByIdRead(p.seq_ + 1, job)], p.nextId + 1)
  }

  function Abandon(p: Inbox): Inbox {
    p.(seq_ := p.seq_ + 1)
  }

  // ---- HOSTS and VENUES ----

  /** The 7-day capacity report: being read, held (with a newer read running or not), or an answer without one. */
  datatype CapInfo = NoCap | CapLoading | CapReport(report: nat, refreshing: bool) | CapFailed

  predicate Waiting(c: CapInfo) {
    c.CapLoading? || (c.CapReport? && c.refreshing)
  }

  /** A request, numbered, awaiting the bounded read `read`. */
  datatype CapRequest = CapRequest(n: nat, read: nat)

  /** `read` is `capRead`, `races` the bounded reads running, `answers` what the settled ones answered, `latest` the newest request. */
  datatype Capacity = Capacity(
    info: CapInfo, seq_: nat, read: Option<nat>,
    races: set<nat>, answers: map<nat, CapInfo>, pool: map<nat, CapRequest>, latest: Option<nat>, nextId: nat)

  /** A request for the report: it joins the bounded read in flight, or starts one. */
  function LoadCapacity(c: Capacity): Capacity {
    var d := if c.read.Some? then c else c.(read := Some(c.nextId), races := c.races + {c.nextId}, nextId := c.nextId + 1);
    d.(seq_ := d.seq_ + 1, latest := Some(d.nextId), pool := d.pool[d.nextId := CapRequest(d.seq_ + 1, d.read.value)], nextId := d.nextId + 1)
  }

  function CapSettled(c: Capacity, id: nat, info: CapInfo): Capacity {
    c.(read := None, races := c.races - {id}, answers := c.answers[id := info])
  }

  function CapResumed(c: Capacity, id: nat, inView: bool, disposed: bool): Capacity
    requires id in c.pool && c.pool[id].read in c.answers
  {
    var q := c.pool[id];
    var d := c.(pool := c.pool - {id}, latest := if c.latest == Some(id) then None else c.latest);
    if q.n != c.seq_ || disposed || !inView then d else d.(info := c.answers[q.read])
  }

  function LeaveCapacity(c: Capacity): Capacity {
    c.(info := NoCap, seq_ := c.seq_ + 1, latest := None)
  }

  // ---- ALLOCATION ----

  /** A row of the allocation history; `revertible` says it carries a split to go back to. */
  datatype AllocRow = AllocRow(id: nat, revertible: bool)
  datatype AllocInfo = NoAlloc | AllocLoading | AllocReport(log: seq<AllocRow>) | AllocFailed
  datatype Allocations = Allocations(info: AllocInfo, selected: int, pool: set<nat>, nextId: nat)

  function LoadAllocation(a: Allocations): Allocations {
    a.(pool := a.pool + {a.nextId}, nextId := a.nextId + 1)
  }

  function AllocSettled(a: Allocations, id: nat, info: AllocInfo): Allocations {
    a.(info := info, pool := a.pool - {id})
  }

  function AllocLog(a: Allocations): seq<AllocRow> {
    if a.info.AllocReport? then a.info.log else []
  }

  // ---- what is asked of the operator, and of the world ----

  datatype Door = ActiveDoor | HeldDoor
  datatype Mode = SteerMode | FollowUpMode
  datatype Question = Question(job: string, door: Door)
  datatype Message = Message(job: string, mode: Mode, input: LineInput)

  /** What the overlay closes with. */
  datatype Result = Quit | OpenInsights | AddTrigger | EditSettings | ManagePauses | ManageLimits | EditTrigger(index: nat) | DeleteTrigger(index: nat)

  /** A target captured by a key that arms something. */
  datatype Arming = ArmCancel(job: string, door: Door) | ArmMessage(job: string, mode: Mode) | ArmRevert(row: AllocRow)

  /** A call through the injected seams; `arm` is the arming it answers. */
  datatype Call =
    | CallCancel(arm: nat, job: string, door: Door)
    | CallPlan(arm: nat, job: string, mode: Mode, text: string)
    | CallSend(arm: nat, job: string, mode: Mode, text: string)
    | CallRevert(arm: nat, row: AllocRow)
    | CallPause | CallResume
    | CallDispose
    | CallDone(result: Result)

  /** An action awaiting its call. */
  datatype Act =
    | Acting
    | Planning(arm: nat, job: string, mode: Mode, text: string)
    | Reverting
    | Closing(result: Result)

  /** The open question, message input and revert, and the history of what was armed and called. */
  datatype Desk = Desk(
    cancel: Option<Question>, steer: Option<Message>, revert: Option<AllocRow>,
    disposed: bool, arms: seq<Arming>, calls: seq<Call>, pool: map<nat, Act>, nextId: nat)

  function Perform(k: Desk, c: Call, a: Act): Desk {
    k.(calls := k.calls + [c], pool := k.pool[k.nextId := a], nextId := k.nextId + 1)
  }

  /** The arming that is open: only one can be, and it is the latest. */
  function OpenArm(k: Desk): nat {
    if k.arms == [] then 0 else |k.arms| - 1
  }

  function ArmQuestion(k: Desk, job: string, door: Door): Desk {
    k.(cancel := Some(Question(job, door)), arms := k.arms + [ArmCancel(job, door)])
  }

  function ArmInput(k: Desk, job: string, mode: Mode): Desk {
    k.(steer := Some(Message(job, mode, MakeLineInput(""))), arms := k.arms + [ArmMessage(job, mode)])
  }

  function ArmRow(k: Desk, row: AllocRow): Desk {
    k.(revert := Some(row), arms := k.arms + [ArmRevert(row)])
  }

  function AnswerQuestion(k: Desk): Desk
    requires k.cancel.Some?
  {
    Perform(k.(cancel := None), CallCancel(OpenArm(k), k.cancel.value.job, k.cancel.value.door), Acting)
  }

  function SendInput(k: Desk): Desk
    requires k.steer.Some?
  {
    var m := k.steer.value;
    if Keys.Blank(m.input.value) then k.(steer := None)
    else Perform(k.(steer := None), CallPlan(OpenArm(k), m.job, m.mode, m.input.value), Planning(OpenArm(k), m.job, m.mode, m.input.value))
  }

  function AnswerRevert(k: Desk): Desk
    requires k.revert.Some?
  {
    Perform(k.(revert := None), CallRevert(OpenArm(k), k.revert.value), Reverting)
  }

  /** A settled action: a planned message is pushed, a closed overlay says so. */
  function SettleAct(k: Desk, id: nat, planned: bool): Desk
    requires id in k.pool
  {
    var l := k.(pool := k.pool - {id});
    match k.pool[id]
    case Planning(arm, job, mode, text) => if planned then Perform(l, CallSend(arm, job, mode, text), Acting) else l
    case Closing(result) => l.(calls := l.calls + [CallDone(result)])
    case _ => l
  }

  function DisposeNow(k: Desk): Desk {
    if k.disposed then k else k.(disposed := true, calls := k.calls + [CallDispose])
  }

  /** `void dispose().finally(() => done(result))`. */
  function Close(k: Desk, result: Result): Desk {
    var l := DisposeNow(k);
    l.(pool := l.pool[l.nextId := Closing(result)], nextId := l.nextId + 1)
  }

  // ---- the whole panel ----

  datatype State = State(
    view: View, timer: bool, lists: Lists, watch: Watching, refresh: Refresh, tail: Tail, detail: Detail,
    inbox: Inbox, cap: Capacity, alloc: Allocations, desk: Desk)

  datatype Event =
    | Press(key: Key)
    | Tick
    | Render(lines: seq<string>)
    | Dispose
    | RefreshResumes(id: nat, answer: RefreshAnswer)
    | WatchSettles(id: nat)
    | ContinuesSettles(id: nat, continues: Option<Option<string>>)
    | ByIdSettles(id: nat, record: Option<Run>)
    | CapSettles(id: nat, cap: CapInfo)
    | CapResumes(id: nat)
    | AllocSettles(id: nat, alloc: AllocInfo)
    | ActSettles(id: nat, planned: bool)

  function Refreshed(s: State): State {
    s.(refresh := StartRefresh(s.refresh, s.desk.disposed))
  }

  // ---- the refresh, between its awaits ----

  function AfterSnapshot(s: State): State {
    if s.view != Watch then AfterWatch(s)
    else if s.watch.reading then s.(refresh := Suspend(s.refresh, AwaitingWatch(None)))
    else s.(refresh := Suspend(s.refresh, AwaitingWatch(Some(s.watch.nextId))), watch := StartWatch(s.watch))
  }

  function AfterWatch(s: State): State {
    if s.lists.snapshot.Some? && s.lists.snapshot.value.activeJobId.Some?
    then s.(refresh := Suspend(s.refresh, ReadingPhase))
    else AfterPhase(s)
  }

  function AfterPhase(s: State): State {
    if s.view == LiveTail && s.tail.shown.job.Some? && s.tail.shown.job.value != "" then
      var (r, t) := ReadTail(s.refresh, s.tail, s.tail.shown.job.value);
      s.(refresh := r, tail := t)
    else s.(refresh := EndRefresh(s.refresh))
  }

  /** Whether a tail read still belongs to the tail on screen. */
  predicate Current(s: State, gen: nat) {
    gen == s.tail.gen && s.view == LiveTail && !s.desk.disposed
  }

  function GenOf(c: RefreshCo): nat {
    match c
    case ReadingMeta(_, gen) => gen
    case ReadingPage(_, gen, _, _) => gen
    case ReadingLog(_, gen) => gen
    case _ => 0
  }

  function RefreshStep(s0: State, id: nat, a: RefreshAnswer): State
    requires id in s0.refresh.pool
  {
    var c, s := s0.refresh.pool[id], s0.(refresh := s0.refresh.(pool := s0.refresh.pool - {id}));
    match c
    case ReadingSnapshot =>
      if a.GotSnapshot? then AfterSnapshot(s.(lists := s.lists.(snapshot := Some(a.snapshot))))
      else s.(lists := s.lists.(snapshot := Some(UNREACHABLE)), refresh := EndRefresh(s.refresh))
    case AwaitingWatch(_) => AfterWatch(s)
    case ReadingPhase => AfterPhase(s)
    case _ => TailReadStep(s, c, a)
  }

  function TailReadStep(s: State, c: RefreshCo, a: RefreshAnswer): State {
    var (r, t) := TailReadResumes(s.refresh, s.tail, c, Current(s, GenOf(c)), a);
    s.(refresh := r, tail := t)
  }

  // ---- keys ----

  function FindIndex(rows: seq<Row>, p: Row -> bool, from: nat): Option<int>
    decreases |rows| - from
  {
    if from >= |rows| then None else if p(rows[from]) then Some(from) else FindIndex(rows, p, from + 1)
  }

  function ActiveIndex(rows: seq<Row>, job: string): Option<int> {
    FindIndex(rows, (r: Row) => r.ActiveRow? && r.jobId == job, 0)
  }

  function FindRun(runs: seq<Run>, job: string): Option<Run> {
    if runs == [] then None else if runs[0].jobId == job then Some(runs[0]) else FindRun(runs[1..], job)
  }

  function QuestionKey(k: Desk, key: Key): Desk
    requires k.cancel.Some?
  {
    if Is(key, 'y', 'Y') then AnswerQuestion(k)
    else if Is(key, 'n', 'N') || key == Escape then k.(cancel := None)
    else k
  }

  function MessageKey(k: Desk, key: Key): Desk
    requires k.steer.Some?
  {
    match key
    case Escape => k.(steer := None)
    case Enter => SendInput(k)
    case _ => k.(steer := Some(k.steer.value.(input := EditLine(k.steer.value.input, key))))
  }

  function RunDetailKey(s: State, k: Key): State {
    match k
    case Escape => s.(view := s.detail.from, detail := LeaveDetail(s.detail))
    case Left => WalkRuns(s, -1)
    case Right => WalkRuns(s, 1)
    case _ => s
  }

  function ShownIndex(l: Lists, shown: Option<Run>): Option<int> {
    FindIndex(RowsOf(l), (r: Row) => r.RunRow? && r.record.jobId != "" && shown.Some? && r.record.jobId == shown.value.jobId, 0)
  }

  function WalkRuns(s: State, step: int): State {
    var i := ShownIndex(s.lists, s.detail.run);
    if i.None? then s
    else match RowAt(s.lists, i.value + step)
      case Some(RunRow(r)) =>
        s.(detail := ReadContinues(s.detail.(run := Some(r)), r), lists := s.lists.(selected := i.value + step))
      case _ => s
  }

  function TriggerDetailKey(s: State, k: Key): State {
    var index := s.lists.trigger.GetOr(0);
    if s.lists.pendingDelete then
      if Is(k, 'y', 'Y') then s.(timer := false, desk := Close(s.desk, DeleteTrigger(index)))
      else if Is(k, 'n', 'N') || k == Escape then s.(lists := s.lists.(pendingDelete := false))
      else s
    else if k == Escape then s.(view := List, lists := s.lists.(trigger := None))
    else if Is(k, 'e', 'E') then s.(timer := false, desk := Close(s.desk, EditTrigger(index)))
    else if Is(k, 'x', 'X') then s.(lists := s.lists.(pendingDelete := true))
    else s
  }

  function AllocationKey(s: State, k: Key): State {
    if s.desk.revert.Some? then
      if Is(k, 'y', 'Y') then s.(desk := AnswerRevert(s.desk))
      else if Is(k, 'n', 'N') || k == Escape then s.(desk := s.desk.(revert := None))
      else s
    else AllocationCursorKey(s, k)
  }

  function AllocationCursorKey(s: State, k: Key): State {
    var rows, at := AllocLog(s.alloc), s.alloc.selected;
    if k == Escape then s.(view := List, alloc := s.alloc.(info := NoAlloc, selected := 0))
    else if k == Up then s.(alloc := s.alloc.(selected := Max(0, at - 1)))
    else if k == Down then s.(alloc := s.alloc.(selected := Min(Max(0, |rows| - 1), at + 1)))
    else if Is(k, 'r', 'R') && 0 <= at < |rows| && rows[at].revertible then s.(desk := ArmRow(s.desk, rows[at]))
    else s
  }

  function HostsKey(s: State, k: Key): State {
    if k == Escape then s.(view := List, cap := LeaveCapacity(s.cap))
    else if Is(k, 'u', 'U') then
      s.(cap := LoadCapacity(s.cap.(info := if s.cap.info.CapReport? then s.cap.info.(refreshing := true) else CapLoading)))
    else if Is(k, 'v', 'V') then s.(view := Venues)
    else s
  }

  function VenuesKey(s: State, k: Key): State {
    var count := if s.lists.snapshot.Some? then s.lists.snapshot.value.venues else 0;
    match k
    case Escape => s.(view := Hosts)
    case Up => s.(lists := s.lists.(venues := Max(0, s.lists.venues - 1)))
    case Down => s.(lists := s.lists.(venues := Min(Max(0, count - 1), s.lists.venues + 1)))
    case _ => s
  }

  /** The PROJECTS rows' keys: each project, then the runs under none. */
  function ProjectKeys(l: Lists): seq<Option<string>> {
    var ids := if l.snapshot.Some? then l.snapshot.value.projects else [];
    seq(|ids| + 1, i requires 0 <= i <= |ids| => if i < |ids| then Some(ids[i]) else None)
  }

  /** A cursor that a shorter list left past its end goes to the end. */
  function ClampCursor(at: int, len: nat): int {
    if at > len - 1 then Max(0, len - 1) else at
  }

  function ProjectsKey(s: State, k: Key): State {
    ProjectsKeyAt(s.(lists := s.lists.(projects := ClampCursor(s.lists.projects, |ProjectKeys(s.lists)|))), k)
  }

  function ProjectsKeyAt(s: State, k: Key): State {
    var keys, l := ProjectKeys(s.lists), s.lists;
    match k
    case Escape => s.(view := List)
    case Up => s.(lists := l.(projects := Max(0, l.projects - 1)))
    case Down => s.(lists := l.(projects := Min(Max(0, |keys| - 1), l.projects + 1)))
    case Enter =>
      if 0 <= l.projects < |keys| then
        var f := OnlyProject(keys[l.projects]);
        s.(lists := l.(runProject := if l.runProject == f then AllRuns else f), view := List)
      else s
    case _ => s
  }

  function ParkedRows(l: Lists): seq<string> {
    if l.snapshot.Some? then l.snapshot.value.parked else []
  }

  /** The job an Enter in PARKED would open, if there is one under the cursor. */
  function ParkedJob(l: Lists): Option<string> {
    var rows, at := ParkedRows(l), ClampCursor(l.parked, |ParkedRows(l)|);
    if 0 <= at < |rows| && rows[at] != "" then Some(rows[at]) else None
  }

  function KnownRun(l: Lists, job: string): Option<Run> {
    if l.snapshot.Some? then FindRun(l.snapshot.value.runs, job) else None
  }

  function ParkedKey(s: State, k: Key): State {
    ParkedKeyAt(s.(lists := s.lists.(parked := ClampCursor(s.lists.parked, |ParkedRows(s.lists)|))), k)
  }

  function ParkedKeyAt(s: State, k: Key): State {
    var n, l := |ParkedRows(s.lists)|, s.lists;
    match k
    case Escape => s.(lists := l.(parked := 0), view := List)
    case Up => s.(lists := l.(parked := Max(0, l.parked - 1)), inbox := Abandon(s.inbox))
    case Down => s.(lists := l.(parked := Min(Max(0, n - 1), l.parked + 1)), inbox := Abandon(s.inbox))
    case Enter =>
      var job := ParkedJob(l);
      if job.None? then s
      else
        var known := KnownRun(l, job.value);
        if known.Some? then s.(inbox := Abandon(s.inbox), detail := OpenDetail(s.detail, known.value, Parked), view := RunDetail)
        else s.(inbox := ReadById(s.inbox, job.value))
    case _ => s
  }

  function HeldKey(s: State, k: Key): State {
    HeldKeyAt(s.(lists := s.lists.(held := ClampCursor(s.lists.held, |HeldRows(s.lists)|))), k)
  }

  function HeldKeyAt(s: State, k: Key): State {
    var rows, l := HeldRows(s.lists), s.lists;
    if k == Escape then s.(lists := l.(held := 0), view := List)
    else if k == Up then s.(lists := l.(held := Max(0, l.held - 1)))
    else if k == Down then s.(lists := l.(held := Min(Max(0, |rows| - 1), l.held + 1)))
    else if Is(k, 'x', 'X') && 0 <= l.held < |rows| && rows[l.held].jobId != "" then
      s.(desk := ArmQuestion(s.desk, rows[l.held].jobId, HeldDoor))
    else s
  }

  function HeldRows(l: Lists): seq<HeldJob> {
    if l.snapshot.Some? then l.snapshot.value.held else []
  }

  function SearchKey(t: Shown, input: LineInput, k: Key): Shown {
    match k
    case Escape => t.(search := None, query := None, scroll := t.scroll.(matched := None))
    case Enter =>
      var q := if input.value == "" then None else Some(input.value);
      t.(search := None, query := q, scroll := if q.None? then t.scroll.(matched := None) else t.scroll)
    case _ => t.(search := Some(EditLine(input, k)))
  }

  function LiveTailKey(s: State, k: Key): State {
    var t := s.tail.shown;
    if k == Escape && t.search.None? && t.query.None? then
      s.(view := List, tail := CloseTail(s.tail),
         lists := s.lists.(selected := ActiveIndex(RowsOf(s.lists), t.job.GetOr("")).GetOr(-1)))
    else s.(tail := s.tail.(shown := TailKey(t, k)))
  }

  /** A LIVE_TAIL key that stays in the view: it edits the search, drops the query, or scrolls. */
  function TailKey(t: Shown, k: Key): Shown {
    if t.search.Some? then SearchKey(t, t.search.value, k)
    else if k == Escape then t.(query := None, scroll := t.scroll.(matched := None))
    else if k == Char('/') then t.(search := Some(MakeLineInput(t.query.GetOr(""))))
    else t.(scroll := ScrollKey(t.scroll, PaneLines(t.pane), t.query, k))
  }

  function NextSort(o: RunSort): RunSort {
    match o
    case ByTime => ByTokens
    case ByTokens => ByCost
    case ByCost => ByOutcome
    case ByOutcome => ByTime
  }

  function OpenRow(s: State): State {
    match RowAt(s.lists, s.lists.selected)
    case None => s
    case Some(TriggerRow(_, index)) => s.(lists := s.lists.(trigger := Some(index), pendingDelete := false), view := TriggerDetail)
    case Some(ActiveRow(job, _, _)) => Refreshed(s.(view := LiveTail, tail := OpenTail(s.tail, job)))
    case Some(RunRow(r)) => s.(detail := OpenDetail(s.detail, r, List), view := RunDetail)
  }

  /** `x`, `t` and `T` act on the ACTIVE row under the cursor, and nowhere else. */
  function RowKey(l: Lists, k: Desk, key: Key): Desk {
    match RowAt(l, l.selected)
    case Some(ActiveRow(job, steer, steerOpen)) =>
      if Is(key, 'x', 'X') then ArmQuestion(k, job, ActiveDoor)
      else if steer && steerOpen then ArmInput(k, job, if key == Char('T') then FollowUpMode else SteerMode)
      else k
    case _ => k
  }

  function CursorKey(l: Lists, k: Key): Lists {
    var rows := RowsOf(l);
    match k
    case Tab =>
      var n := if l.snapshot.Some? then |l.snapshot.value.triggers| else 0;
      if rows == [] then l else l.(selected := if l.selected < n && n < |rows| then n else 0)
    case Up => l.(selected := Max(0, l.selected - 1))
    case Down => l.(selected := Min(Max(0, |rows| - 1), l.selected + 1))
    case _ => l
  }

  /** The keys of the LIST view that open another view. */
  function OpenKey(s: State, k: Key): State {
    var snap := s.lists.snapshot.GetOr(UNREACHABLE);
    if Is(k, 'l', 'L') then
      if snap.activeJobId.Some? && snap.activeJobId.value != ""
      then Refreshed(s.(view := LiveTail, tail := OpenTail(s.tail, snap.activeJobId.value)))
      else s
    else if Is(k, 'f', 'F') then (if snap.failed == 0 then s else s.(view := Failed))
    else if Is(k, 'h', 'H') then (if snap.held == [] then s else s.(lists := s.lists.(held := 0), view := HeldList))
    else if Is(k, 'b', 'B') then
      s.(desk := s.desk.(revert := None), alloc := LoadAllocation(s.alloc.(selected := 0, info := AllocLoading)), view := Allocation)
    else OpenPageKey(s, k)
  }

  function OpenPageKey(s: State, k: Key): State {
    if Is(k, 'j', 'J') then s.(lists := s.lists.(projects := 0), view := Projects)
    else if Is(k, 'k', 'K') then s.(lists := s.lists.(parked := 0), inbox := Abandon(s.inbox), view := Parked)
    else if Is(k, 'u', 'U') then s.(cap := LoadCapacity(s.cap.(info := CapLoading)), view := Hosts)
    else s
  }

  /** The result a LIST key closes the overlay with, if it does. */
  function CloseResult(k: Key): Option<Result> {
    if k == Escape || Is(k, 'q', 'Q') then Some(Quit)
    else if Is(k, 'i', 'I') then Some(OpenInsights)
    else if Is(k, 'a', 'A') then Some(AddTrigger)
    else if Is(k, 's', 'S') then Some(EditSettings)
    else if Is(k, 'w', 'W') then Some(ManagePauses)
    else if Is(k, 'm', 'M') then Some(ManageLimits)
    else None
  }

  function ListKey(s: State, k: Key): State {
    if CloseResult(k).Some? then s.(timer := false, desk := Close(s.desk, CloseResult(k).value))
    else if k == Enter then OpenRow(s)
    else ListRowKey(s, k)
  }

  function ListRowKey(s: State, k: Key): State {
    if Is(k, 'x', 'X') || Is(k, 't', 'T') then s.(desk := RowKey(s.lists, s.desk, k))
    else if k == Tab || k == Up || k == Down then s.(lists := CursorKey(s.lists, k))
    else ListLetterKey(s, k)
  }

  function ListLetterKey(s: State, k: Key): State {
    if Is(k, 'o', 'O') then s.(lists := s.lists.(runSort := NextSort(s.lists.runSort)))
    else if Is(k, 'p', 'P') then s.(desk := Perform(s.desk, CallPause, Acting))
    else if Is(k, 'r', 'R') then s.(desk := Perform(s.desk, CallResume, Acting))
    else OpenKey(s, k)
  }

  function ViewKey(s: State, k: Key): State {
    match s.view
    case List => ListKey(s, k)
    case Watch => if k == Escape then s.(view := List) else s
    case RunDetail => RunDetailKey(s, k)
    case TriggerDetail => TriggerDetailKey(s, k)
    case Failed => if k == Escape then s.(view := List) else s
    case HeldList => HeldKey(s, k)
    case Allocation => AllocationKey(s, k)
    case Projects => ProjectsKey(s, k)
    case Hosts => HostsKey(s, k)
    case Venues => VenuesKey(s, k)
    case Parked => ParkedKey(s, k)
    case LiveTail => LiveTailKey(s, k)
  }

  function KeyStep(s: State, k: Key): State {
    if s.view == List && Is(k, 'z', 'Z') then s.(view := Watch, watch := StartWatch(s.watch.(known := false)))
    else if s.desk.cancel.Some? && (s.view == List || s.view == HeldList) then s.(desk := QuestionKey(s.desk, k))
    else if s.desk.steer.Some? && s.view == List then s.(desk := MessageKey(s.desk, k))
    else ViewKey(s, k)
  }

  // ---- frames, and one event ----

  /** A frame clamps the cursor and the tail's window; a transcript's entries become the lines the frame wrapped. */
  function RenderStep(s: State, lines: seq<string>): State {
    var l := s.lists.(selected := ClampCursor(s.lists.selected, |RowsOf(s.lists)|));
    if s.view != LiveTail then s.(lists := l)
    else
      var t := s.tail.shown;
      var pane := if t.pane.Transcript? then t.pane.(wrapped := lines) else t.pane;
      s.(lists := l, tail := s.tail.(shown := t.(pane := pane, scroll := Settle(t.scroll, |PaneLines(pane)|))))
  }

  function ByIdStep(s: State, id: nat, record: Option<Run>): State
    requires id in s.inbox.pool
  {
    var c, t := s.inbox.pool[id], s.(inbox := s.inbox.(pool := s.inbox.pool - {id}));
    if c.n != s.inbox.seq_ || s.desk.disposed || s.view != Parked || record.None? then t
    else t.(detail := OpenDetail(s.detail, record.value, Parked), view := RunDetail)
  }

  function ActStep(s: State, id: nat, planned: bool): State
    requires id in s.desk.pool
  {
    var a, t := s.desk.pool[id], s.(desk := SettleAct(s.desk, id, planned));
    match a
    case Acting => Refreshed(t)
    case Planning(_, _, _, _) => if planned then t else Refreshed(t)
    case Reverting => t.(alloc := LoadAllocation(s.alloc))
    case Closing(_) => t
  }

  function Step(s: State, e: Event): State
    requires Enabled(s, e)
  {
    match e
    case Press(k) => KeyStep(s, k)
    case Tick => Refreshed(s)
    case Render(lines) => RenderStep(s, lines)
    case Dispose => s.(timer := false, desk := DisposeNow(s.desk))
    case RefreshResumes(id, a) => RefreshStep(s, id, a)
    case WatchSettles(id) => s.(watch := WatchSettled(s.watch, id))
    case ContinuesSettles(id, a) => s.(detail := ContinuesSettled(s.detail, id, a, s.desk.disposed))
    case ByIdSettles(id, record) => ByIdStep(s, id, record)
    case CapSettles(id, info) => s.(cap := CapSettled(s.cap, id, info))
    case CapResumes(id) => s.(cap := CapResumed(s.cap, id, s.view == Hosts || s.view == Venues, s.desk.disposed))
    case AllocSettles(id, info) => s.(alloc := AllocSettled(s.alloc, id, info))
    case ActSettles(id, planned) => ActStep(s, id, planned)
  }

  /**
   What the environment can do: resume what is suspended, with an answer of its kind. A page is consecutive entries of
   the job's stream after the cursor (at most a page of them; later ones only where the stream's head was trimmed past
   it), a record read by id is that job's, and a request for the capacity report resumes once its read has settled.
   */
  predicate Enabled(s: State, e: Event) {
    match e
    case Press(_) => true
    case Tick => s.timer
    case Render(_) => true
    case Dispose => true
    case RefreshResumes(id, a) => id in s.refresh.pool && AnswerOk(s, s.refresh.pool[id], a)
    case WatchSettles(id) => id in s.watch.pool
    case ContinuesSettles(id, _) => id in s.detail.pool
    case ByIdSettles(id, record) => id in s.inbox.pool && (record.Some? ==> record.value.jobId == s.inbox.pool[id].job)
    case CapSettles(id, info) => id in s.cap.races && !Waiting(info)
    case CapResumes(id) => id in s.cap.pool && s.cap.pool[id].read in s.cap.answers
    case AllocSettles(id, info) => id in s.alloc.pool && !info.AllocLoading?
    case ActSettles(id, _) => id in s.desk.pool
  }

  predicate AnswerOk(s: State, c: RefreshCo, a: RefreshAnswer) {
    match c
    case ReadingPage(_, _, _, after) => a.GotPage? ==> a.from >= NextAfter(after) && a.count <= TRANSCRIPT_PAGE
    case AwaitingWatch(read) => read.Some? ==> read.value !in s.watch.pool
    case _ => true
  }

  // ---- runs ----

  function Closed(): State {
    State(List, true,
          Lists(None, 0, ByTime, AllRuns, 0, 0, 0, 0, None, false),
          Watching(false, false, {}, 0),
          Refresh(false, map[], 0, 0),
          Tail(NO_TAIL, 0, None, [], true),
          Detail(None, List, None, 0, map[], 0),
          Inbox(0, map[], 0),
          Capacity(NoCap, 0, None, {}, map[], map[], None, 0),
          Allocations(NoAlloc, 0, {}, 0),
          Desk(None, None, None, false, [], [], map[], 0))
  }

  /** The panel as it opens: on the LIST, or straight on a job's tail, with the first fetch started. */
  function Init(initialTail: Option<string>): State {
    var s := Closed();
    Refreshed(if initialTail.Some? then s.(view := LiveTail, tail := OpenTail(s.tail, initialTail.value)) else s)
  }

  predicate EnabledRun(s: State, es: seq<Event>)
    decreases |es|
  {
    es == [] || (Enabled(s, es[0]) && EnabledRun(Step(s, es[0]), es[1..]))
  }

  function RunFrom(s: State, es: seq<Event>): State
    requires EnabledRun(s, es)
    decreases |es|
  {
    if es == [] then s else RunFrom(Step(s, es[0]), es[1..])
  }

  /** A tail asked for at the start is a run id, so it is not empty. */
  predicate ValidTail(initialTail: Option<string>) {
    initialTail.Some? ==> initialTail.value != ""
  }

  ghost predicate Reachable(s: State) {
    exists t: Option<string>, es: seq<Event> :: ValidTail(t) && EnabledRun(Init(t), es) && RunFrom(Init(t), es) == s
  }
}
