/** No late event moves the overlay to another job: calls, opened runs, and the cursor. */
module OverlayTargets {
  import opened Wrappers
  import opened Keys
  import opened Rows
  import opened TailView
  import opened Overlay
  import opened OverlayInvariant
  import opened OverlaySteps
  import opened OverlayPromises
  import opened OverlayEscape

  // ---- armed targets and calls ----

  /**
   Over every run: each cancel carries the job and door its arming captured, each message the job and mode, each revert
   the row; a message is pushed only as it was planned; one arming yields at most one call of a kind; the client is
   disposed at most once, and exactly when the panel is; and no two questions or inputs are open together.
   */
  lemma CallsCarryWhatWasArmed(s: State)
    requires Reachable(s)
    ensures forall j :: 0 <= j < |s.desk.calls| ==>
              && CarriesCaptured(s.desk.arms, s.desk.calls[j])
              && (s.desk.calls[j].CallSend? ==> Planned(s.desk.calls[j]) in s.desk.calls)
    ensures forall i, j :: 0 <= i < j < |s.desk.calls| ==> !Repeats(s.desk.calls[i], s.desk.calls[j])
    ensures s.desk.disposed <==> CallDispose in s.desk.calls
    ensures s.desk.cancel.Some? ==> s.desk.steer.None? && s.desk.revert.None?
    ensures s.desk.steer.Some? ==> s.desk.revert.None?
  {
    ReachableInv(s);
  }

  /** What an arming captures is under the cursor of the view it is made in. */
  predicate UnderTheCursor(s: State, a: Arming) {
    match a
    case ArmCancel(job, ActiveDoor) =>
      var row := RowAt(s.lists, s.lists.selected);
      s.view == List && row.Some? && row.value.ActiveRow? && row.value.jobId == job
    case ArmCancel(job, HeldDoor) =>
      var held := if s.lists.snapshot.Some? then s.lists.snapshot.value.held else [];
      var at := ClampCursor(s.lists.held, |held|);
      s.view == HeldList && 0 <= at < |held| && held[at].jobId == job && job != ""
    case ArmMessage(job, _) =>
      s.view == List && RowAt(s.lists, s.lists.selected) == Some(ActiveRow(job, true, true))
    case ArmRevert(row) =>
      s.view == Allocation && row.revertible && 0 <= s.alloc.selected < |AllocLog(s.alloc)| && AllocLog(s.alloc)[s.alloc.selected] == row
  }

  /** The views whose keys arm nothing. */
  lemma QuietForArms(s: State, k: Key)
    ensures RunDetailKey(s, k).desk == ProjectsKey(s, k).desk == HostsKey(s, k).desk == s.desk
    ensures TriggerDetailKey(s, k).desk.arms == s.desk.arms
  {
    hide RowAt, ShownIndex, LeaveDetail, ReadContinues, LoadCapacity, LeaveCapacity, ProjectKeys, ClampCursor;
  }

  lemma QuietForArmsToo(s: State, k: Key)
    ensures VenuesKey(s, k).desk == ParkedKey(s, k).desk == LiveTailKey(s, k).desk == s.desk
  {
    hide RowsOf, ActiveIndex, OpenDetail, KnownRun, Abandon, ReadById, TailKey, CloseTail, ClampCursor;
  }

  lemma HeldAndAllocationArm(s: State, k: Key)
    ensures s.view == HeldList ==> ArmsTheRow(s, HeldKey(s, k).desk.arms)
    ensures s.view == Allocation ==> ArmsTheRow(s, AllocationKey(s, k).desk.arms)
  {
    hide RowAt, ClampCursor;
  }

  /** The armings after a key: as they were, or one more, for the row under the cursor. */
  predicate ArmsTheRow(s: State, arms: seq<Arming>) {
    var n := |s.desk.arms|;
    arms == s.desk.arms || (|arms| == n + 1 && arms[..n] == s.desk.arms && UnderTheCursor(s, arms[n]))
  }

  lemma AnswersArmNothing(d: Desk, k: Key)
    ensures d.cancel.Some? ==> QuestionKey(d, k).arms == d.arms
    ensures d.steer.Some? ==> MessageKey(d, k).arms == d.arms
  {
  }

  /** A key that arms something captures exactly the row under its cursor. */
  lemma KeysArmTheRowUnderTheCursor(s: State, k: Key)
    ensures ArmsTheRow(s, KeyStep(s, k).desk.arms)
  {
    QuietForArms(s, k);
    QuietForArmsToo(s, k);
    HeldAndAllocationArm(s, k);
    AnswersArmNothing(s.desk, k);
    if s.view == List { ListArms(s, k); }
    hide ListKey, RunDetailKey, TriggerDetailKey, HeldKey, AllocationKey, ProjectsKey, HostsKey, VenuesKey, ParkedKey, LiveTailKey, QuestionKey, MessageKey, StartWatch, UnderTheCursor;
  }

  lemma ListArms(s: State, k: Key)
    requires s.view == List
    ensures ArmsTheRow(s, ListKey(s, k).desk.arms)
  {
    RowKeyArms(s, k);
    OnlyRowKeysArm(s, k);
    hide ListKey, RowKey, UnderTheCursor;
  }

  lemma OnlyRowKeysArm(s: State, k: Key)
    ensures var d := ListKey(s, k).desk; d.arms == s.desk.arms || d == RowKey(s.lists, s.desk, k)
  {
    OpeningArmsNothing(s, k);
    hide OpenRow, OpenKey, RowKey, CursorKey;
  }

  lemma OpeningArmsNothing(s: State, k: Key)
    ensures OpenRow(s).desk == s.desk && OpenKey(s, k).desk.arms == s.desk.arms
  {
    hide RowAt, OpenDetail, LoadCapacity, StartRefresh, OpenTail, LoadAllocation, Abandon;
  }

  lemma RowKeyArms(s: State, k: Key)
    requires s.view == List
    ensures ArmsTheRow(s, RowKey(s.lists, s.desk, k).arms)
  {
    hide RowsOf;
  }

  /**
   While a question or the message input is open on its view, every key but LIST's `z` is its own: it moves no view and
   no cursor, arms nothing, and makes no call but for `y` to the question and Enter in the input; and what is typed or
   pasted goes into the message at its cursor, which ends up after it.
   */
  lemma OpenLayerTakesEveryKey(s: State, k: Key)
    requires (s.desk.cancel.Some? && s.view in {List, HeldList}) || (s.desk.steer.Some? && s.view == List)
    requires !(s.view == List && Is(k, 'z', 'Z'))
    ensures var t := KeyStep(s, k);
            && t == s.(desk := t.desk) && t.desk.arms == s.desk.arms
            && (t.desk.calls != s.desk.calls ==> if s.desk.cancel.Some? then Is(k, 'y', 'Y') else k == Enter)
            && (s.desk.cancel.None? && (k.Char? || k.Paste?) ==> TypedInto(s.desk.steer.value, t.desk.steer, Entered(if k.Char? then [k.c] else k.s)))
  {
    AnswersArmNothing(s.desk, k);
    if s.desk.cancel.Some? { OnlyYesCalls(s.desk, k); } else { TypedTextStays(s.desk, k); }
    hide ViewKey, QuestionKey, MessageKey, StartWatch;
  }

  lemma OnlyYesCalls(d: Desk, k: Key)
    requires d.cancel.Some?
    ensures QuestionKey(d, k).calls != d.calls ==> Is(k, 'y', 'Y')
  {
  }

  lemma TypedTextStays(d: Desk, k: Key)
    requires d.steer.Some?
    ensures MessageKey(d, k).calls != d.calls ==> k == Enter
    ensures k.Char? || k.Paste? ==> TypedInto(d.steer.value, MessageKey(d, k).steer, Entered(if k.Char? then [k.c] else k.s))
  {
    var i := d.steer.value.input;
    assert i.value == i.value[..i.At()] + i.value[i.At()..];
  }

  /** The message with a text at its cursor, and the cursor after it. */
  predicate TypedInto(m: Message, n: Option<Message>, text: string) {
    var at := m.input.At();
    && n.Some? && n.value.job == m.job && n.value.mode == m.mode
    && n.value.input.value == m.input.value[..at] + text + m.input.value[at..]
    && n.value.input.At() == at + |text|
  }

  /** No snapshot, tick, frame or settling read touches what is armed or makes a call for it. */
  lemma OnlyKeysTouchTheTarget(s: State, e: Event)
    requires Enabled(s, e) && !e.Press?
    ensures var k, l := s.desk, Step(s, e).desk;
            && l.arms == k.arms && l.cancel == k.cancel && l.steer == k.steer && l.revert == k.revert
            && (e.ActSettles? || e.Dispose? || l == k)
  {
    match e
    case RefreshResumes(id, a) => RefreshOnlyReads(s, id, a); hide RefreshStep;
    case ActSettles(id, planned) => SettleKeepsQuestions(s, id, planned); hide ActStep;
    case _ =>
  }

  // ---- runs opened from PARKED ----

  /** The run, with where it goes on said as far as its record tells, and read for where it went on as a recovery. */
  predicate RunOpened(before: Detail, d: Detail, r: Run, from: View) {
    && d.run == Some(r) && d.from == from && d.seq_ > before.seq_
    && if r.recovering then
         d.continues == Some(Continues(r.jobId, None)) && d.pool == before.pool[before.nextId := ContinuesRead(d.seq_, r.jobId)]
       else d.continues.None? && d.pool == before.pool
  }

  /** A by-id answer opens RUN_DETAIL on the very job its Enter captured, exactly under the current number, in PARKED, with the panel open and a record found. */
  lemma ByIdOpensItsJobIff(s: State, id: nat, record: Option<Run>)
    requires Enabled(s, ByIdSettles(id, record))
    ensures var t, c := Step(s, ByIdSettles(id, record)), s.inbox.pool[id];
            if c.n == s.inbox.seq_ && !s.desk.disposed && s.view == Parked && record.Some?
            then t.view == RunDetail && RunOpened(s.detail, t.detail, record.value, Parked) && record.value.jobId == c.job
            else t.view == s.view && t.detail == s.detail
  {
  }

  /** The job of the PARKED row under the cursor, where it names one; a cursor past the rows is on the last. */
  function JobUnderTheCursor(l: Lists): Option<string> {
    var rows := if l.snapshot.Some? then l.snapshot.value.parked else [];
    var at := if l.parked < |rows| then l.parked else |rows| - 1;
    if 0 <= at < |rows| && rows[at] != "" then Some(rows[at]) else None
  }

  /** The first of the snapshot's runs with that job id. */
  predicate IsFirstRun(l: Lists, i: nat, job: string) {
    l.snapshot.Some? && i < |l.snapshot.value.runs| && l.snapshot.value.runs[i].jobId == job
    && forall j :: 0 <= j < i ==> l.snapshot.value.runs[j].jobId != job
  }

  /** Enter in PARKED opens the first run the snapshot has for the job under its cursor, or where it has none reads that job by id under a new number. */
  lemma EnterCapturesTheParkedJob(s: State)
    requires s.view == Parked
    ensures var t, job := KeyStep(s, Enter), JobUnderTheCursor(s.lists);
            && (job.None? ==> t.inbox == s.inbox && t.view == Parked && t.detail == s.detail)
            && (job.Some? && (forall i: nat :: !IsFirstRun(s.lists, i, job.value)) ==>
                  && t.view == Parked && t.detail == s.detail && t.inbox.seq_ == s.inbox.seq_ + 1
                  && t.inbox.pool == s.inbox.pool[s.inbox.nextId := ByIdRead(t.inbox.seq_, job.value)])
            && (job.Some? ==> forall i: nat :: IsFirstRun(s.lists, i, job.value) ==>
                  && t.view == RunDetail && t.detail.run == Some(s.lists.snapshot.value.runs[i]) && t.detail.from == Parked
                  && t.inbox.seq_ == s.inbox.seq_ + 1 && t.inbox.pool == s.inbox.pool)
  {
    if s.lists.snapshot.Some? && ParkedJob(s.lists).Some? { FindRunIff(s.lists, ParkedJob(s.lists).value); }
    ReadContinuesKeepsFrom(s);
    ReadContinuesKeepsRun(s.detail);
    hide FindRun, ReadContinues, IsFirstRun;
  }

  lemma ReadContinuesKeepsRun(d: Detail)
    ensures forall e: Detail, r :: ReadContinues(e, r).run == e.run
  {
  }

  lemma FindRunIff(l: Lists, job: string)
    requires l.snapshot.Some?
    ensures match FindRun(l.snapshot.value.runs, job)
            case Some(r) => exists i: nat :: IsFirstRun(l, i, job) && r == l.snapshot.value.runs[i] && forall j: nat :: IsFirstRun(l, j, job) ==> j == i
            case None => forall i: nat :: !IsFirstRun(l, i, job)
  {
    FindRunFrom(l.snapshot.value.runs, job);
    if FindRun(l.snapshot.value.runs, job).Some? {
      var i: nat :| i < |l.snapshot.value.runs| && l.snapshot.value.runs[i] == FindRun(l.snapshot.value.runs, job).value
                    && l.snapshot.value.runs[i].jobId == job && forall j :: 0 <= j < i ==> l.snapshot.value.runs[j].jobId != job;
      assert IsFirstRun(l, i, job);
    }
  }

  lemma {:induction false} FindRunFrom(runs: seq<Run>, job: string)
    ensures match FindRun(runs, job)
            case Some(r) => exists i: nat :: i < |runs| && runs[i] == r && r.jobId == job && forall j :: 0 <= j < i ==> runs[j].jobId != job
            case None => forall i :: 0 <= i < |runs| ==> runs[i].jobId != job
  {
    if runs != [] && runs[0].jobId != job {
      FindRunFrom(runs[1..], job);
      assert forall i :: 1 <= i < |runs| ==> runs[i] == runs[1..][i - 1];
      if FindRun(runs, job).Some? {
        var i: nat :| i < |runs| - 1 && runs[1..][i] == FindRun(runs, job).value && forall j :: 0 <= j < i ==> runs[1..][j].jobId != job;
        assert runs[i + 1] == FindRun(runs, job).value;
      }
    }
  }

  /** A by-id read that the cursor, a newer Enter, `k`, or leaving PARKED has overtaken. */
  ghost predicate Overtaken(s: State, id: nat) {
    && id < s.inbox.nextId
    && (id in s.inbox.pool ==> s.inbox.pool[id].n < s.inbox.seq_ || (s.view != Parked && s.detail.from != Parked))
    && (id in s.inbox.pool ==> s.inbox.pool[id].n <= s.inbox.seq_)
  }

  /** What a key did to the inbox: nothing, a new number, or a new read; and it came no nearer to PARKED without one. */
  ghost predicate InboxMove(s: State, t: State) {
    && (t.inbox == s.inbox || t.inbox == Abandon(s.inbox) || exists job :: t.inbox == ReadById(s.inbox, job))
    && (t.inbox == s.inbox && s.view != Parked && s.detail.from != Parked ==> t.view != Parked && t.detail.from != Parked)
  }

  ghost predicate LeavesInbox(s: State, t: State) {
    t.inbox == s.inbox && t.detail == s.detail && (s.view != Parked ==> t.view != Parked)
  }

  lemma TriggerDetailLeavesTheInbox(s: State, k: Key)
    ensures LeavesInbox(s, TriggerDetailKey(s, k))
  {
  }

  lemma AllocationLeavesTheInbox(s: State, k: Key)
    ensures LeavesInbox(s, AllocationKey(s, k))
  {
    hide Close, AllocLog;
  }

  lemma HeldLeavesTheInbox(s: State, k: Key)
    ensures LeavesInbox(s, HeldKey(s, k))
  {
    hide ArmQuestion, ClampCursor, HeldRows;
  }

  lemma QuietForInbox(s: State, k: Key)
    ensures LeavesInbox(s, ProjectsKey(s, k)) && LeavesInbox(s, HostsKey(s, k)) && LeavesInbox(s, VenuesKey(s, k))
    ensures LeavesInbox(s, LiveTailKey(s, k))
  {
    hide TailKey, CloseTail, LoadCapacity, LeaveCapacity, ActiveIndex, RowsOf, ClampCursor, ProjectKeys;
  }

  lemma RunDetailAndTheInbox(s: State, k: Key)
    requires (s.detail.from == Parked || s.detail.from == List) && s.view == RunDetail
    ensures InboxMove(s, RunDetailKey(s, k))
  {
    hide RowAt, ShownIndex, ReadContinues;
    ReadContinuesKeepsFrom(s);
  }

  lemma ParkedAndTheInbox(s: State, k: Key)
    requires s.view == Parked
    ensures InboxMove(s, ParkedKey(s, k))
  {
    hide KnownRun, OpenDetail, Abandon, ReadById;
  }

  lemma KeysAndTheInbox(s: State, k: Key)
    requires s.detail.from == Parked ==> s.view == RunDetail
    requires s.detail.from == Parked || s.detail.from == List
    ensures InboxMove(s, KeyStep(s, k))
  {
    hide ViewKey, QuestionKey, MessageKey, StartWatch, Abandon, ReadById;
    if s.view == List && Is(k, 'z', 'Z') {
    } else if s.desk.cancel.Some? && (s.view == List || s.view == HeldList) {
    } else if s.desk.steer.Some? && s.view == List {
    } else {
      ViewsAndTheInbox(s, k);
      hide InboxMove;
    }
  }

  lemma ViewsAndTheInbox(s: State, k: Key)
    requires s.detail.from == Parked ==> s.view == RunDetail
    requires s.detail.from == Parked || s.detail.from == List
    ensures InboxMove(s, ViewKey(s, k))
  {
    hide ListKey, RunDetailKey, TriggerDetailKey, HeldKey, AllocationKey, ProjectsKey, HostsKey, VenuesKey, ParkedKey, LiveTailKey, Abandon, ReadById;
    match s.view
    case List => ListAndTheInbox(s, k);
    case Parked => ParkedAndTheInbox(s, k); hide InboxMove;
    case RunDetail => RunDetailAndTheInbox(s, k); hide InboxMove;
    case TriggerDetail => TriggerDetailLeavesTheInbox(s, k);
    case HeldList => HeldLeavesTheInbox(s, k);
    case Allocation => AllocationLeavesTheInbox(s, k);
    case Projects => QuietForInbox(s, k);
    case Hosts => QuietForInbox(s, k);
    case Venues => QuietForInbox(s, k);
    case LiveTail => QuietForInbox(s, k);
    case _ =>
  }

  lemma ReadContinuesKeepsFrom(s: State)
    ensures forall d: Detail, r :: ReadContinues(d, r).from == d.from
  {
  }

  lemma ListAndTheInbox(s: State, k: Key)
    requires s.detail.from == List && s.view == List
    ensures var t := ListKey(s, k);
            (t.inbox == s.inbox && t.view != Parked && t.detail.from != Parked) || (t.inbox == Abandon(s.inbox) && t.inbox != s.inbox)
  {
    ListOpensOrStays(s, k);
    OpenRowAndTheInbox(s);
    OpenKeyAndTheInbox(s, k);
    hide ListKey, OpenRow, OpenKey, Abandon;
  }

  /** A LIST key opens a row, opens a view, or stays. */
  lemma ListOpensOrStays(s: State, k: Key)
    ensures var t := ListKey(s, k);
            || (k == Enter && t == OpenRow(s))
            || t == OpenKey(s, k)
            || (t.view == s.view && t.inbox == s.inbox && t.detail == s.detail && t.tail == s.tail
                && (k == Tab || k == Up || k == Down || t.lists == s.lists.(runSort := t.lists.runSort)))
  {
    ListRowOpensOrStays(s, k);
    hide OpenRow, OpenKey, ListRowKey, Close;
  }

  lemma ListRowOpensOrStays(s: State, k: Key)
    ensures var t := ListRowKey(s, k);
            || t == OpenKey(s, k)
            || (t.view == s.view && t.inbox == s.inbox && t.detail == s.detail && t.tail == s.tail
                && (k == Tab || k == Up || k == Down || t.lists == s.lists.(runSort := t.lists.runSort)))
  {
    hide OpenKey, CursorKey, Perform, RowKey;
  }

  lemma OpenRowAndTheInbox(s: State)
    requires s.detail.from == List && s.view == List
    ensures var t := OpenRow(s); t.inbox == s.inbox && t.view != Parked && t.detail.from != Parked
  {
    hide ReadContinues, StartRefresh, OpenTail, RowAt;
    ReadContinuesKeepsFrom(s);
  }

  lemma OpenKeyAndTheInbox(s: State, k: Key)
    requires s.detail.from == List && s.view == List
    ensures var t := OpenKey(s, k);
            (t.inbox == s.inbox && t.view != Parked && t.detail.from != Parked) || (t.inbox == Abandon(s.inbox) && t.inbox != s.inbox)
  {
    hide LoadCapacity, StartRefresh, OpenTail, LoadAllocation;
  }

  lemma OvertakenStays(s: State, e: Event, id: nat)
    requires Inv(s) && Overtaken(s, id) && Enabled(s, e)
    ensures Overtaken(Step(s, e), id)
  {
    FromListOrParked(s);
    hide Inv, Overtaken;
    if IsOther(e) {
      OthersLeave(s, e);
      OvertakenIfLeft(s, Step(s, e), id);
      hide Step;
    } else {
      OvertakenByAnswers(s, e, id);
      hide Step;
    }
  }

  lemma OvertakenByAnswers(s: State, e: Event, id: nat)
    requires Overtaken(s, id) && Enabled(s, e) && !IsOther(e)
    requires (s.detail.from == Parked ==> s.view == RunDetail) && (s.detail.from == Parked || s.detail.from == List)
    ensures Overtaken(Step(s, e), id)
  {
    hide Overtaken;
    match e
    case Press(k) =>
      KeysAndTheInbox(s, k);
      OvertakenByMove(s, KeyStep(s, k), id);
      hide KeyStep, InboxMove;
    case RefreshResumes(i, a) =>
      RefreshOnlyReads(s, i, a);
      OvertakenIfLeft(s, RefreshStep(s, i, a), id);
      hide RefreshStep;
    case ActSettles(i, planned) =>
      SettleKeepsQuestions(s, i, planned);
      OvertakenIfLeft(s, ActStep(s, i, planned), id);
      hide ActStep;
    case ByIdSettles(i, record) =>
      OvertakenById(s, i, record, id);
      hide ByIdStep;
  }

  lemma OvertakenIfLeft(s: State, t: State, id: nat)
    requires Overtaken(s, id) && t.inbox == s.inbox && t.view == s.view && t.detail.from == s.detail.from
    ensures Overtaken(t, id)
  {
  }

  lemma FromListOrParked(s: State)
    requires Inv(s)
    ensures (s.detail.from == Parked ==> s.view == RunDetail) && (s.detail.from == Parked || s.detail.from == List)
  {
    hide WatchInv, FlightInv, TailInv, TailReadsOk, InboxInv, CapInv, AllocInv, LayerInv, DeskInv;
  }

  lemma OvertakenByMove(s: State, t: State, id: nat)
    requires Overtaken(s, id) && InboxMove(s, t)
    ensures Overtaken(t, id)
  {
  }

  lemma OvertakenById(s: State, i: nat, record: Option<Run>, id: nat)
    requires Overtaken(s, id) && i in s.inbox.pool
    ensures Overtaken(ByIdStep(s, i, record), id)
  {
    ReadContinuesKeepsFrom(s);
    hide ReadContinues;
  }

  lemma {:induction false} OvertakenRun(s: State, es: seq<Event>, id: nat)
    requires Inv(s) && Overtaken(s, id) && EnabledRun(s, es)
    ensures Overtaken(RunFrom(s, es), id)
    decreases |es|
  {
    if es != [] {
      OvertakenStays(s, es[0], id);
      StepKeeps(s, es[0]);
      OvertakenRun(Step(s, es[0]), es[1..], id);
    }
  }

  /** The keys that overtake every by-id read in flight. */
  predicate Overtakes(s: State, k: Key) {
    && (s.view == Parked ==> k == Escape || k == Up || k == Down || (k == Enter && ParkedJob(s.lists).Some?))
    && (s.view == List ==> Is(k, 'k', 'K') && s.desk.cancel.None? && s.desk.steer.None?)
    && (s.view == Parked || s.view == List)
  }

  /**
   A by-id read in flight when the cursor moved, another Enter opened or read a run, `k` reopened PARKED or Escape left
   it, never opens anything, whatever happens afterwards and however late it answers.
   */
  lemma OvertakenReadNeverOpens(s: State, k: Key, es: seq<Event>, id: nat, record: Option<Run>)
    requires Reachable(s) && id in s.inbox.pool && Overtakes(s, k)
    requires EnabledRun(KeyStep(s, k), es) && Enabled(RunFrom(KeyStep(s, k), es), ByIdSettles(id, record))
    ensures var t := RunFrom(KeyStep(s, k), es);
            var u := Step(t, ByIdSettles(id, record));
            u.view == t.view && u.detail == t.detail
  {
    ReachableInv(s);
    hide KeyStep, EnabledRun, RunFrom, Inv, Reachable, Overtaken, Step, Enabled;
    KeyOvertakes(s, k, id);
    KeyStepKeeps(s, k);
    OvertakenRun(KeyStep(s, k), es, id);
    OvertakenOpensNothing(RunFrom(KeyStep(s, k), es), id, record);
  }

  lemma OvertakenOpensNothing(t: State, id: nat, record: Option<Run>)
    requires Overtaken(t, id) && Enabled(t, ByIdSettles(id, record))
    ensures var u := Step(t, ByIdSettles(id, record)); u.view == t.view && u.detail == t.detail
  {
  }

  lemma KOpensParked(s: State, k: Key)
    requires s.view == List && Is(k, 'k', 'K') && s.desk.cancel.None? && s.desk.steer.None?
    ensures KeyStep(s, k) == s.(lists := s.lists.(parked := 0), inbox := Abandon(s.inbox), view := Parked)
  {
    hide RowKey, CursorKey, OpenRow, Close, Perform, LoadCapacity, LoadAllocation, OpenTail, RunDetailKey, TriggerDetailKey, HeldKey, AllocationKey, ProjectsKey, HostsKey, VenuesKey, ParkedKey, LiveTailKey;
  }

  lemma ParkedKeyOvertakes(s: State, k: Key, id: nat)
    requires InboxInv(s.inbox, false) && s.view == Parked && s.detail.from == List && id in s.inbox.pool && Overtakes(s, k)
    ensures Overtaken(ParkedKey(s, k), id)
  {
    hide KnownRun, ReadContinues;
    ReadContinuesKeepsFrom(s);
  }

  lemma KeyOvertakes(s: State, k: Key, id: nat)
    requires Inv(s) && id in s.inbox.pool && Overtakes(s, k)
    ensures Overtaken(KeyStep(s, k), id)
  {
    if s.view == List { KOpensParked(s, k); } else { ParkedKeyOvertakes(s, k, id); }
    hide ListKey, RunDetailKey, TriggerDetailKey, HeldKey, AllocationKey, ProjectsKey, HostsKey, VenuesKey, ParkedKey, LiveTailKey;
  }

  /** In RUN_DETAIL the "continues" fact names the run on screen and was read for it, for any answer order. */
  lemma ContinuesNamesTheRunOnScreen(s: State)
    requires Reachable(s) && s.detail.continues.Some?
    ensures s.view == RunDetail && s.detail.run.Some?
    ensures s.detail.continues.value.job == s.detail.run.value.jobId
    ensures s.detail.continues.value.recovery.Some? ==> s.detail.continues.value.recovery.value.of == s.detail.run.value.jobId
  {
    ReachableInv(s);
  }

  // ---- walking the runs in RUN_DETAIL ----

  predicate NamesJob(r: Row, job: string) {
    r.RunRow? && r.record.jobId != "" && r.record.jobId == job
  }

  /** The arrows leave everything as it was, or show the run on the next row, with the LIST cursor on it. */
  lemma WalkShowsTheRowUnderTheCursor(s: State, k: Key)
    requires s.view == RunDetail && (k == Left || k == Right)
    ensures var t := KeyStep(s, k);
            t == s || (t.view == RunDetail && t.detail.from == s.detail.from && t.detail.run.Some?
                       && RowAt(t.lists, t.lists.selected) == Some(RunRow(t.detail.run.value)))
  {
    WalksRuns(s, k);
    WalkRunsShows(s, if k == Left then -1 else 1);
    hide KeyStep, WalkRuns, RowAt;
  }

  lemma WalkRunsShows(s: State, step: int)
    requires s.view == RunDetail
    ensures var t := WalkRuns(s, step);
            t == s || (t.view == RunDetail && t.detail.from == s.detail.from && t.detail.run.Some?
                       && RowAt(t.lists, t.lists.selected) == Some(RunRow(t.detail.run.value)))
  {
    ReadContinuesKeepsFrom(s);
    hide BuildRows, ShownIndex;
  }

  lemma WalksRuns(s: State, k: Key)
    requires s.view == RunDetail && (k == Left || k == Right)
    ensures KeyStep(s, k) == WalkRuns(s, if k == Left then -1 else 1)
  {
    hide WalkRuns;
  }

  /**
   After one step right, one step left is back on the row left, if and only if the run stepped to has a job id that no
   earlier row names; and then the run shown is that row's again.
   */
  lemma WalkBackReturnsIff(s: State)
    requires s.view == RunDetail && ShownIndex(s.lists, s.detail.run).Some?
    ensures var i, rows := ShownIndex(s.lists, s.detail.run).value, RowsOf(s.lists);
            0 <= i && i + 1 < |rows| && rows[i + 1].RunRow? ==>
              var u := KeyStep(KeyStep(s, Right), Left);
              && (u.lists.selected == i <==>
                    rows[i + 1].record.jobId != "" && forall j :: 0 <= j <= i ==> !NamesJob(rows[j], rows[i + 1].record.jobId))
              && (u.lists.selected == i ==> rows[i].RunRow? && u.detail.run == Some(rows[i].record))
  {
    WalksRuns(s, Right);
    WalksRuns(WalkRuns(s, 1), Left);
    WalkRunsBack(s);
    hide KeyStep, BuildRows, ShownIndex, WalkRuns, NamesJob;
  }

  lemma WalkRunsBack(s: State)
    requires s.view == RunDetail && ShownIndex(s.lists, s.detail.run).Some?
    ensures var i, rows := ShownIndex(s.lists, s.detail.run).value, RowsOf(s.lists);
            0 <= i && i + 1 < |rows| && rows[i + 1].RunRow? ==>
              var t := WalkRuns(s, 1);
              var u := WalkRuns(t, -1);
              && t.view == RunDetail
              && (u.lists.selected == i <==>
                    rows[i + 1].record.jobId != "" && forall j :: 0 <= j <= i ==> !NamesJob(rows[j], rows[i + 1].record.jobId))
              && (u.lists.selected == i ==> rows[i].RunRow? && u.detail.run == Some(rows[i].record))
  {
    var i, rows := ShownIndex(s.lists, s.detail.run).value, RowsOf(s.lists);
    if 0 <= i && i + 1 < |rows| && rows[i + 1].RunRow? {
      ShownIsFirst(s.lists, s.detail.run);
      hide BuildRows, ShownIndex, WalkRuns;
      StepsOnAndBack(s, i, rows[i].record, rows[i + 1].record);
    }
  }

  lemma StepsOnAndBack(s: State, i: nat, last: Run, next: Run)
    requires s.view == RunDetail && ShownIndex(s.lists, s.detail.run) == Some(i)
    requires RowAt(s.lists, i) == Some(RunRow(last)) && RowAt(s.lists, i + 1) == Some(RunRow(next))
    ensures var t := WalkRuns(s, 1);
            var u := WalkRuns(t, -1);
            && t.view == RunDetail
            && (u.lists.selected == i <==> next.jobId != "" && forall j :: 0 <= j <= i ==> !NamesJob(RowsOf(s.lists)[j], next.jobId))
            && (u.lists.selected == i ==> u.detail.run == Some(last))
  {
    var t := WalkRuns(s, 1);
    StepsOn(s, i, next);
    assert RowAt(t.lists, i) == RowAt(s.lists, i) && RowAt(t.lists, i + 1) == RowAt(s.lists, i + 1);
    hide RowsOf, ShownIndex, WalkRuns;
    StepsBack(t, i, last);
    ShownIs(t.lists, next, i + 1);
  }

  lemma StepsOn(s: State, i: nat, next: Run)
    requires s.view == RunDetail && ShownIndex(s.lists, s.detail.run) == Some(i) && RowAt(s.lists, i + 1) == Some(RunRow(next))
    ensures var t := WalkRuns(s, 1);
            t.view == RunDetail && t.lists == s.lists.(selected := i + 1) && t.detail.run == Some(next)
    ensures RowsOf(WalkRuns(s, 1).lists) == RowsOf(s.lists)
  {
    hide BuildRows, ShownIndex;
  }

  lemma StepsBack(t: State, i: nat, last: Run)
    requires t.view == RunDetail && t.lists.selected == i + 1 && RowAt(t.lists, i) == Some(RunRow(last))
    ensures var u := WalkRuns(t, -1);
            && (u.lists.selected == i <==> ShownIndex(t.lists, t.detail.run) == Some(i + 1))
            && (u.lists.selected == i ==> u.detail.run == Some(last))
  {
    hide BuildRows, ShownIndex;
  }

  lemma ShownIs(l: Lists, r: Run, i: nat)
    requires RowAt(l, i) == Some(RunRow(r))
    ensures ShownIndex(l, Some(r)) == Some(i) <==> r.jobId != "" && forall j :: 0 <= j < i ==> !NamesJob(RowsOf(l)[j], r.jobId)
  {
    ShownIsFirst(l, Some(r));
    assert NamesJob(RowsOf(l)[i], r.jobId) <==> r.jobId != "";
    hide BuildRows, ShownIndex;
  }

  lemma ShownIsFirst(l: Lists, shown: Option<Run>)
    ensures match ShownIndex(l, shown)
            case Some(i) =>
              && 0 <= i < |RowsOf(l)| && shown.Some? && NamesJob(RowsOf(l)[i], shown.value.jobId)
              && (forall j :: 0 <= j < i ==> !NamesJob(RowsOf(l)[j], shown.value.jobId))
            case None => shown.Some? ==> forall j :: 0 <= j < |RowsOf(l)| ==> !NamesJob(RowsOf(l)[j], shown.value.jobId)
  {
    FindIndexFinds(RowsOf(l), (r: Row) => r.RunRow? && r.record.jobId != "" && shown.Some? && r.record.jobId == shown.value.jobId, 0);
    hide BuildRows;
  }

  // ---- the cursor after a tail ----

  lemma {:induction false} FindIndexFinds(rows: seq<Row>, p: Row -> bool, from: nat)
    ensures match FindIndex(rows, p, from)
            case Some(i) => from <= i < |rows| && p(rows[i]) && forall k :: from <= k < i ==> !p(rows[k])
            case None => forall i :: from <= i < |rows| ==> !p(rows[i])
    decreases |rows| - from
  {
    if from < |rows| && !p(rows[from]) { FindIndexFinds(rows, p, from + 1); }
  }

  /** Escape from a tail puts the cursor on its job's ACTIVE row, or, when the rows have none, on no row. */
  lemma EscapeLandsOnTheTailsRowOrNone(s: State)
    requires Reachable(s) && s.view == LiveTail && s.tail.shown.search.None? && s.tail.shown.query.None?
    ensures var t := KeyStep(s, Escape);
            var rows := RowsOf(t.lists);
            && t.view == List && t.desk.cancel.None? && t.desk.steer.None?
            && (|| (0 <= t.lists.selected < |rows| && rows[t.lists.selected].ActiveRow? && s.tail.shown.job == Some(rows[t.lists.selected].jobId))
                || (t.lists.selected == -1 && forall i :: 0 <= i < |rows| && rows[i].ActiveRow? ==> s.tail.shown.job != Some(rows[i].jobId)))
  {
    TailShown(s);
    var job := s.tail.shown.job.value;
    FindIndexFinds(RowsOf(s.lists), (r: Row) => r.ActiveRow? && r.jobId == job, 0);
    EscapeLeavesTheTail(s);
    hide Reachable, KeyStep, BuildRows, FindIndex;
  }

  lemma TailShown(s: State)
    requires Reachable(s) && s.view == LiveTail
    ensures s.tail.shown.job.Some? && s.desk.cancel.None? && s.desk.steer.None?
  {
    hide *;
    ReachableInv(s);
    TailHasAJob(s);
  }

  lemma TailHasAJob(s: State)
    requires Inv(s) && s.view == LiveTail
    ensures s.tail.shown.job.Some? && s.desk.cancel.None? && s.desk.steer.None?
  {
    hide FlightInv, TailReadsOk, DetailInv, InboxInv, CapInv, AllocInv, DeskInv, WatchInv;
  }

  lemma EscapeLeavesTheTail(s: State)
    requires s.view == LiveTail && s.tail.shown.search.None? && s.tail.shown.query.None?
    ensures var t := KeyStep(s, Escape);
            && t.view == List && t.desk == s.desk
            && t.lists == s.lists.(selected := ActiveIndex(RowsOf(s.lists), s.tail.shown.job.GetOr("")).GetOr(-1))
    ensures RowsOf(KeyStep(s, Escape).lists) == RowsOf(s.lists)
  {
    hide BuildRows, FindIndex, CloseTail, TailKey;
  }

  /** On no row, the keys that act on a row do nothing at all. */
  lemma NoRowNoAction(s: State, k: Key)
    requires s.view == List && s.lists.selected == -1 && s.desk.cancel.None? && s.desk.steer.None?
    requires k == Enter || Is(k, 'x', 'X') || Is(k, 't', 'T')
    ensures KeyStep(s, k) == s
  {
    hide BuildRows, OpenKey, CursorKey, OpenTail, OpenDetail, Refreshed, ArmQuestion, ArmInput, Close, Perform;
  }

  /** The keys that can move the cursor off no row: an arrow, Tab, and the Escape that leaves another tail. */
  predicate MovesCursor(s: State, e: Event) {
    match e
    case Press(k) => k in {Up, Down, Left, Right, Tab} || (k == Escape && s.view == LiveTail)
    case _ => false
  }

  lemma CursorStaysOffRows(s: State, e: Event)
    requires Enabled(s, e) && s.lists.selected == -1 && !MovesCursor(s, e)
    ensures Step(s, e).lists.selected == -1
  {
    match e
    case Press(k) => KeyLeavesCursor(s, k); hide KeyStep;
    case RefreshResumes(id, a) => RefreshOnlyReads(s, id, a); hide RefreshStep;
    case ActSettles(id, planned) => SettleKeepsQuestions(s, id, planned); hide ActStep;
    case _ => hide BuildRows;
  }

  lemma KeyLeavesCursor(s: State, k: Key)
    requires s.lists.selected == -1 && !MovesCursor(s, Press(k))
    ensures KeyStep(s, k).lists.selected == -1
  {
    hide BuildRows, ReadContinues, TailKey, LoadCapacity, StartRefresh, OpenTail, CloseTail, StartWatch, LoadAllocation, RowsOf, FindIndex, QuestionKey, MessageKey, Close, AnswerRevert, ReadById, Abandon;
    if s.view == List { ListLeavesCursor(s, k); hide ListKey; }
  }

  lemma ListLeavesCursor(s: State, k: Key)
    requires s.lists.selected == -1 && s.view == List && k !in {Up, Down, Tab}
    ensures ListKey(s, k).lists.selected == -1
  {
    ListOpensOrStays(s, k);
    OpenLeavesCursor(s, k);
    hide ListKey, OpenRow, OpenKey;
  }

  lemma OpenLeavesCursor(s: State, k: Key)
    requires s.lists.selected == -1
    ensures OpenRow(s).lists.selected == -1 && OpenKey(s, k).lists.selected == -1
  {
    hide ReadContinues, LoadCapacity, StartRefresh, OpenTail, LoadAllocation, Abandon, RowsOf;
  }

  predicate NeverMovesCursor(s: State, es: seq<Event>)
    requires EnabledRun(s, es)
    decreases |es|
  {
    es == [] || (!MovesCursor(s, es[0]) && NeverMovesCursor(Step(s, es[0]), es[1..]))
  }

  /** Across any number of snapshots and other events, the cursor stays off the rows until a key moves it. */
  lemma {:induction false} CursorStaysOffRowsUntilMoved(s: State, es: seq<Event>)
    requires s.lists.selected == -1 && EnabledRun(s, es) && NeverMovesCursor(s, es)
    ensures RunFrom(s, es).lists.selected == -1
    decreases |es|
  {
    if es != [] {
      CursorStaysOffRows(s, es[0]);
      CursorStaysOffRowsUntilMoved(Step(s, es[0]), es[1..]);
    }
  }
}
