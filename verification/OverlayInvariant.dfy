/** What every event of the overlay keeps: the invariant, one part of the panel at a time. */
module OverlayInvariant {
  import opened Wrappers
  import opened Keys
  import opened Rows
  import opened TailView
  import opened Overlay

  // ---- WATCH ----

  /** One watch read at a time, under its flag; WATCH with nothing to show has a read running. */
  ghost predicate WatchInv(w: Watching, view: View) {
    && (forall i :: i in w.pool ==> i < w.nextId)
    && (if w.reading then exists i :: w.pool == {i} else w.pool == {})
    && (view == Watch && !w.known ==> w.reading)
  }

  // ---- the refresh and the tail ----

  /** `fetching` is up exactly while one refresh is suspended, and there is never a second one. */
  ghost predicate FlightInv(r: Refresh) {
    && (forall i :: i in r.pool ==> i < r.nextId)
    && r.pool.Keys == (if r.fetching then {r.at} else {})
  }

  function EntriesOf(job: string, ats: seq<nat>): seq<StreamEntry> {
    seq(|ats|, i requires 0 <= i < |ats| => StreamEntry(job, ats[i]))
  }

  predicate Increasing(ats: seq<nat>) {
    forall i, j :: 0 <= i < j < |ats| ==> ats[i] < ats[j]
  }

  predicate Consecutive(ats: seq<nat>) {
    forall i :: 0 <= i < |ats| ==> ats[i] == ats[0] + i
  }

  predicate AllOf(es: seq<StreamEntry>, job: string) {
    forall j :: 0 <= j < |es| ==> es[j].job == job
  }

  /** The tail holds the last 200 entries read from the shown job's stream, in order, up to the cursor. */
  ghost predicate TailInv(t: Tail, inView: bool) {
    && (!inView ==> t.shown == NO_TAIL && t.read == [])
    && (inView ==> t.shown.job.Some? && t.shown.job.value != "")
    && t.shown.entries == Last(EntriesOf(t.shown.job.GetOr(""), t.read), TAIL_LINES)
    && Increasing(t.read)
    && t.shown.cursor == (if t.read == [] then None else Some(t.read[|t.read| - 1]))
    && (t.gapless ==> Consecutive(t.read))
    && (!t.shown.streaming ==> t.read == [] && t.shown.ended.None?)
    && (t.shown.pane.Transcript? ==> AllOf(t.shown.pane.entries, t.shown.job.GetOr("")))
  }

  /** A suspended tail read is of the shown job, and after the cursor as it still stands, unless its tail was closed. */
  predicate TailReadOk(t: Tail, c: RefreshCo) {
    match c
    case ReadingMeta(job, gen) => gen <= t.gen && (gen == t.gen ==> t.shown.job == Some(job))
    case ReadingLog(job, gen) => gen <= t.gen && (gen == t.gen ==> t.shown.job == Some(job))
    case ReadingPage(job, gen, page, after) =>
      gen <= t.gen && page < TAIL_PAGES_MAX && (gen == t.gen ==> t.shown.job == Some(job) && t.shown.cursor == after && t.shown.streaming && t.shown.ended.None?)
    case _ => true
  }

  ghost predicate TailReadsOk(t: Tail, r: Refresh) {
    forall i :: i in r.pool ==> TailReadOk(t, r.pool[i])
  }

  // ---- RUN_DETAIL and PARKED ----

  /** The "continues" fact names the run on screen, and so does every read that could still change it. */
  ghost predicate DetailInv(d: Detail, inView: bool) {
    && (forall i :: i in d.pool ==> i < d.nextId)
    && (inView ==> d.run.Some?)
    && (!inView ==> d.from == List)
    && (d.from == List || d.from == Parked)
    && (d.continues.Some? ==> inView && NamesRun(d.continues.value, d.run.value.jobId))
    && (forall i :: i in d.pool ==> ContinuesReadOk(d, inView, d.pool[i]))
  }

  predicate NamesRun(c: Continues, job: string) {
    c.job == job && (c.recovery.Some? ==> c.recovery.value.of == job)
  }

  predicate ContinuesReadOk(d: Detail, inView: bool, c: ContinuesRead) {
    c.n <= d.seq_ && (c.n == d.seq_ ==> inView && d.run.Some? && c.job == d.run.value.jobId)
  }

  /** By-id reads carry distinct numbers, and none is current once RUN_DETAIL was opened from PARKED. */
  ghost predicate InboxInv(p: Inbox, fromParked: bool) {
    && (forall i :: i in p.pool ==> i < p.nextId && p.pool[i].n <= p.seq_ && (fromParked ==> p.pool[i].n < p.seq_))
    && (forall i, j :: i in p.pool && j in p.pool && i != j ==> p.pool[i].n != p.pool[j].n)
  }

  // ---- HOSTS ----

  /** One bounded read; every request waits for it or for one that settled; a report that waits has its latest request. */
  ghost predicate CapInv(c: Capacity, inView: bool, disposed: bool) {
    && (forall i :: i in c.races ==> i < c.nextId)
    && (forall i :: i in c.pool ==> i < c.nextId)
    && c.races == (if c.read.Some? then {c.read.value} else {})
    && (forall i :: i in c.pool ==> CapRequestOk(c, i, c.pool[i]))
    && (c.latest.Some? ==> c.latest.value in c.pool)
    && (forall r :: r in c.answers ==> !Waiting(c.answers[r]))
    && (Waiting(c.info) ==> inView && (disposed || c.latest.Some?))
  }

  predicate CapRequestOk(c: Capacity, i: nat, q: CapRequest) {
    && q.n <= c.seq_
    && (q.n == c.seq_ <==> c.latest == Some(i))
    && (c.read == Some(q.read) || q.read in c.answers)
  }

  // ---- ALLOCATION ----

  /** ALLOCATION that says "loading" has a read running. */
  ghost predicate AllocInv(a: Allocations) {
    && (forall i :: i in a.pool ==> i < a.nextId)
    && (a.info.AllocLoading? ==> a.pool != {})
  }

  // ---- questions, inputs and calls ----

  /** Which question or input can be open in which view. */
  ghost predicate LayerInv(k: Desk, view: View, pendingDelete: bool, timer: bool) {
    && (k.cancel.Some? ==> if view == HeldList then k.cancel.value.door == HeldDoor
                           else (view == List || view == Watch) && k.cancel.value.door == ActiveDoor)
    && (k.steer.Some? ==> (view == List || view == Watch) && k.cancel.None?)
    && (k.revert.Some? ==> view == Allocation)
    && (pendingDelete ==> view == TriggerDetail)
    && (timer <==> !k.disposed)
  }

  /** The arming a call answers, if it answers one. */
  function ArmOf(c: Call): Option<nat> {
    match c
    case CallCancel(arm, _, _) => Some(arm)
    case CallPlan(arm, _, _, _) => Some(arm)
    case CallSend(arm, _, _, _) => Some(arm)
    case CallRevert(arm, _) => Some(arm)
    case _ => None
  }

  /** A call carries exactly what its arming captured. */
  predicate CarriesCaptured(arms: seq<Arming>, c: Call) {
    match c
    case CallCancel(arm, job, door) => arm < |arms| && arms[arm] == ArmCancel(job, door)
    case CallPlan(arm, job, mode, _) => arm < |arms| && arms[arm] == ArmMessage(job, mode)
    case CallSend(arm, job, mode, _) => arm < |arms| && arms[arm] == ArmMessage(job, mode)
    case CallRevert(arm, row) => arm < |arms| && arms[arm] == ArmRevert(row)
    case _ => true
  }

  /** Two calls that must not both be made: two of one kind for one arming, or two disposals. */
  predicate Repeats(a: Call, b: Call) {
    || (a == CallDispose && b == CallDispose)
    || (ArmOf(a).Some? && ArmOf(a) == ArmOf(b) && a.CallSend? == b.CallSend?)
  }

  /** The captured target that is open, as the arming it came from. */
  function OpenTarget(k: Desk): Option<Arming> {
    if k.cancel.Some? then Some(ArmCancel(k.cancel.value.job, k.cancel.value.door))
    else if k.steer.Some? then Some(ArmMessage(k.steer.value.job, k.steer.value.mode))
    else if k.revert.Some? then Some(ArmRevert(k.revert.value))
    else None
  }

  /** Every call carries its captured target, every message sent was planned, and no call is made twice. */
  ghost predicate CallsInv(arms: seq<Arming>, calls: seq<Call>) {
    && (forall j :: 0 <= j < |calls| ==> CarriesCaptured(arms, calls[j]) && (calls[j].CallSend? ==> Planned(calls[j]) in calls))
    && (forall i, j :: 0 <= i < j < |calls| ==> !Repeats(calls[i], calls[j]))
  }

  /** What is open is the latest arming, and no call has answered it yet. */
  ghost predicate OpenInv(open: Option<Arming>, arms: seq<Arming>, calls: seq<Call>) {
    open.Some? ==> arms != [] && arms[|arms| - 1] == open.value && Unanswered(calls, |arms| - 1)
  }

  ghost predicate Unanswered(calls: seq<Call>, arm: nat) {
    forall j :: 0 <= j < |calls| ==> ArmOf(calls[j]) != Some(arm)
  }

  ghost predicate PlansInv(calls: seq<Call>, pool: map<nat, Act>, nextId: nat) {
    && (forall i :: i in pool ==> i < nextId && PlanOk(calls, pool[i]))
    && (forall i, j :: i in pool && j in pool && i != j && pool[i].Planning? && pool[j].Planning? ==> pool[i].arm != pool[j].arm)
  }

  ghost predicate OneOpen(k: Desk) {
    && (k.cancel.Some? ==> k.steer.None? && k.revert.None?)
    && (k.steer.Some? ==> k.revert.None?)
  }

  ghost predicate DeskInv(k: Desk) {
    && OneOpen(k)
    && OpenInv(OpenTarget(k), k.arms, k.calls)
    && CallsInv(k.arms, k.calls)
    && PlansInv(k.calls, k.pool, k.nextId)
    && (k.disposed <==> CallDispose in k.calls)
  }

  /** The planning call of a message that was sent. */
  function Planned(c: Call): Call
    requires c.CallSend?
  {
    CallPlan(c.arm, c.job, c.mode, c.text)
  }

  /** A message being planned is in the history, and has not been sent. */
  predicate PlanOk(calls: seq<Call>, a: Act) {
    a.Planning? ==>
      && CallPlan(a.arm, a.job, a.mode, a.text) in calls
      && forall j :: 0 <= j < |calls| && calls[j].CallSend? ==> calls[j].arm != a.arm
  }

  ghost predicate Inv(s: State) {
    && WatchInv(s.watch, s.view)
    && FlightInv(s.refresh)
    && TailInv(s.tail, s.view == LiveTail)
    && TailReadsOk(s.tail, s.refresh)
    && DetailInv(s.detail, s.view == RunDetail)
    && InboxInv(s.inbox, s.detail.from == Parked)
    && CapInv(s.cap, s.view == Hosts || s.view == Venues, s.desk.disposed)
    && AllocInv(s.alloc)
    && LayerInv(s.desk, s.view, s.lists.pendingDelete, s.timer)
    && DeskInv(s.desk)
  }

  // ---- each part's operations ----

  lemma StartWatchKeeps(w: Watching, view: View)
    requires WatchInv(w, view)
    ensures WatchInv(StartWatch(w), view) && StartWatch(w).reading
  {
    if !w.reading { assert StartWatch(w).pool == {w.nextId}; }
  }

  lemma WatchSettledKeeps(w: Watching, view: View, id: nat)
    requires WatchInv(w, view) && id in w.pool
    ensures WatchInv(WatchSettled(w, id), view)
  {
    assert WatchSettled(w, id).pool == {};
  }

  lemma OpenTailKeeps(t: Tail, r: Refresh, job: string)
    requires TailReadsOk(t, r) && job != ""
    ensures TailInv(OpenTail(t, job), true) && TailReadsOk(OpenTail(t, job), r)
  {
  }

  lemma CloseTailKeeps(t: Tail, r: Refresh)
    requires TailReadsOk(t, r)
    ensures TailInv(CloseTail(t), false) && TailReadsOk(CloseTail(t), r)
  {
  }

  lemma SuspendKeeps(r: Refresh, t: Tail, c: RefreshCo)
    requires FlightInv(r) && r.pool == map[] && TailReadOk(t, c)
    ensures FlightInv(Suspend(r, c)) && TailReadsOk(t, Suspend(r, c))
  {
  }

  lemma TakePageKeeps(t: Tail, job: string, from: nat, count: nat, ended: Option<string>)
    requires TailInv(t, true) && t.shown.streaming && t.shown.job == Some(job) && from >= NextAfter(t.shown.cursor)
    ensures TailInv(TakePage(t, job, from, count, ended), true)
  {
    var u := TakePage(t, job, from, count, ended);
    assert EntriesOf(job, u.read) == EntriesOf(job, t.read) + PageEntries(job, from, count);
    LastOfLast(EntriesOf(job, t.read), PageEntries(job, from, count), TAIL_LINES);
  }

  lemma LastOfLast<T>(a: seq<T>, b: seq<T>, n: nat)
    ensures Last(Last(a, n) + b, n) == Last(a + b, n)
  {
  }

  lemma ReadPageKeeps(r: Refresh, t: Tail, job: string, page: nat)
    requires FlightInv(r) && r.pool == map[] && TailInv(t, true) && t.shown.job == Some(job) && t.shown.streaming
    ensures var (r', t') := ReadPage(r, t, job, t.gen, page);
            FlightInv(r') && TailInv(t', true) && TailReadsOk(t', r')
  {
    if page < TAIL_PAGES_MAX && t.shown.ended.None? {
      SuspendKeeps(r, t, ReadingPage(job, t.gen, page, t.shown.cursor));
    }
  }

  ghost predicate RefreshAndTailInv(rt: (Refresh, Tail), inView: bool) {
    FlightInv(rt.0) && TailInv(rt.1, inView) && TailReadsOk(rt.1, rt.0)
  }

  lemma MetaResumesKeeps(r: Refresh, t: Tail, job: string, a: RefreshAnswer)
    requires FlightInv(r) && r.pool == map[] && TailInv(t, true) && t.shown.job == Some(job)
    ensures RefreshAndTailInv(MetaResumes(r, t, job, t.gen, a), true)
  {
    if a == GotMeta(true) {
      ReadPageKeeps(r, t.(shown := t.shown.(streaming := true)), job, 0);
    } else if t.shown.streaming {
      ReadPageKeeps(r, t, job, 0);
    } else {
      SuspendKeeps(r, t, ReadingLog(job, t.gen));
    }
  }

  lemma PageResumesKeeps(r: Refresh, t: Tail, job: string, page: nat, a: RefreshAnswer)
    requires FlightInv(r) && r.pool == map[] && TailInv(t, true) && t.shown.job == Some(job) && t.shown.streaming
    requires a.GotPage? ==> a.from >= NextAfter(t.shown.cursor)
    ensures RefreshAndTailInv(PageResumes(r, t, job, t.gen, page, a), true)
  {
    if !a.GotPage? {
      ShowTranscriptKeeps(t.(note := Some(if a.GotNoPage? then a.why else "no answer")));
      hide ShowTranscript, TailInv;
    } else {
      var u := TakePage(t, job, a.from, a.count, a.ended);
      TakePageShape(t, job, a.from, a.count, a.ended);
      TakePageKeeps(t, job, a.from, a.count, a.ended);
      ShowTranscriptKeeps(u);
      hide TakePage, ReadPage, ShowTranscript, TailInv;
      ReadPageKeeps(r, u, job, page + 1);
    }
  }

  lemma TakePageShape(t: Tail, job: string, from: nat, count: nat, ended: Option<string>)
    ensures var u := TakePage(t, job, from, count, ended);
            u.gen == t.gen && u.shown.job == t.shown.job && u.shown.streaming == t.shown.streaming
  {
  }

  lemma ShowTranscriptKeeps(t: Tail)
    requires TailInv(t.(note := None), true)
    ensures TailInv(ShowTranscript(t), true)
  {
  }

  lemma TailReadResumesKeeps(r: Refresh, t: Tail, c: RefreshCo, inView: bool, live: bool, a: RefreshAnswer)
    requires FlightInv(r) && r.pool == map[] && TailInv(t, inView) && TailReadOk(t, c)
    requires c.ReadingMeta? || c.ReadingPage? || c.ReadingLog?
    requires live ==> inView && GenOf(c) == t.gen
    requires c.ReadingPage? && a.GotPage? ==> a.from >= NextAfter(c.after)
    ensures RefreshAndTailInv(TailReadResumes(r, t, c, live, a), inView)
  {
    if live && !a.Rejected? {
      match c
      case ReadingMeta(job, gen) => MetaResumesKeeps(r, t, job, a);
      case ReadingPage(job, gen, page, after) => PageResumesKeeps(r, t, job, page, a);
      case _ =>
    }
  }

  lemma ReadContinuesKeeps(d: Detail, r: Run, from: View)
    requires DetailInv(d, true) || DetailInv(d, false)
    requires from == List || from == Parked
    ensures DetailInv(OpenDetail(d, r, from), true)
  {
  }

  lemma LeaveDetailKeeps(d: Detail)
    requires DetailInv(d, true)
    ensures DetailInv(LeaveDetail(d), false)
  {
  }

  lemma ContinuesSettledKeeps(d: Detail, inView: bool, id: nat, answer: Option<Option<string>>, disposed: bool)
    requires DetailInv(d, inView) && id in d.pool
    ensures DetailInv(ContinuesSettled(d, id, answer, disposed), inView)
  {
  }

  lemma LoadCapacityKeeps(c: Capacity, disposed: bool, info: CapInfo)
    requires CapInv(c, true, disposed) || CapInv(c, false, disposed)
    ensures CapInv(LoadCapacity(c.(info := info)), true, disposed)
  {
  }

  lemma CapResumedKeeps(c: Capacity, inView: bool, disposed: bool, id: nat)
    requires CapInv(c, inView, disposed) && id in c.pool && c.pool[id].read in c.answers
    ensures CapInv(CapResumed(c, id, inView, disposed), inView, disposed)
  {
  }

  lemma CapSettledKeeps(c: Capacity, inView: bool, disposed: bool, id: nat, info: CapInfo)
    requires CapInv(c, inView, disposed) && id in c.races && !Waiting(info)
    ensures CapInv(CapSettled(c, id, info), inView, disposed)
  {
  }

  lemma LeaveCapacityKeeps(c: Capacity, disposed: bool)
    requires CapInv(c, true, disposed)
    ensures CapInv(LeaveCapacity(c), false, disposed)
  {
  }

  // the desk

  lemma ArmKeeps(k: Desk, a: Arming)
    requires DeskInv(k) && OpenTarget(k).None?
    ensures CallsInv(k.arms + [a], k.calls) && OpenInv(Some(a), k.arms + [a], k.calls)
  {
    forall j | 0 <= j < |k.calls| ensures CarriesCaptured(k.arms + [a], k.calls[j]) && ArmOf(k.calls[j]) != Some(|k.arms|) {
      assert CarriesCaptured(k.arms, k.calls[j]);
    }
  }

  /** One more call that carries its target and repeats none. */
  lemma AppendCall(arms: seq<Arming>, calls: seq<Call>, c: Call)
    requires CallsInv(arms, calls) && CarriesCaptured(arms, c)
    requires c.CallSend? ==> Planned(c) in calls
    requires forall j :: 0 <= j < |calls| ==> !Repeats(calls[j], c)
    ensures CallsInv(arms, calls + [c])
  {
    forall j | 0 <= j < |calls + [c]|
      ensures CarriesCaptured(arms, (calls + [c])[j]) && ((calls + [c])[j].CallSend? ==> Planned((calls + [c])[j]) in calls + [c])
    {
      if j < |calls| { assert (calls + [c])[j] == calls[j]; }
    }
  }

  lemma AppendKeepsPlans(calls: seq<Call>, c: Call, pool: map<nat, Act>, nextId: nat)
    requires PlansInv(calls, pool, nextId)
    requires c.CallSend? ==> forall i :: i in pool && pool[i].Planning? ==> pool[i].arm != c.arm
    ensures PlansInv(calls + [c], pool, nextId)
  {
    forall i | i in pool ensures PlanOk(calls + [c], pool[i]) {
      assert PlanOk(calls, pool[i]);
    }
  }

  /** A call that closes the open arming is the first of its kind for it. */
  lemma AnswerKeeps(k: Desk, c: Call, a: Act)
    requires DeskInv(k) && OpenTarget(k).Some?
    requires !c.CallSend? && CarriesCaptured(k.arms, c) && ArmOf(c) == Some(|k.arms| - 1)
    requires a.Planning? ==> c == CallPlan(a.arm, a.job, a.mode, a.text)
    ensures DeskInv(Perform(k.(cancel := None, steer := None, revert := None), c, a))
  {
    AppendCall(k.arms, k.calls, c);
    AppendKeepsPlans(k.calls, c, k.pool, k.nextId);
    if a.Planning? {
      forall i | i in k.pool && k.pool[i].Planning? ensures k.pool[i].arm != a.arm {
        assert PlanOk(k.calls, k.pool[i]);
        var p := CallPlan(k.pool[i].arm, k.pool[i].job, k.pool[i].mode, k.pool[i].text);
        var j :| 0 <= j < |k.calls| && k.calls[j] == p;
        assert ArmOf(k.calls[j]) != Some(|k.arms| - 1);
      }
    }
  }

  lemma QuestionKeyKeeps(k: Desk, key: Key)
    requires DeskInv(k) && k.cancel.Some?
    ensures DeskInv(QuestionKey(k, key))
  {
    AnswerKeeps(k, CallCancel(OpenArm(k), k.cancel.value.job, k.cancel.value.door), Acting);
  }

  lemma MessageKeyKeeps(k: Desk, key: Key)
    requires DeskInv(k) && k.steer.Some?
    ensures DeskInv(MessageKey(k, key))
  {
    var m := k.steer.value;
    var text := m.input.value;
    AnswerKeeps(k, CallPlan(OpenArm(k), m.job, m.mode, text), Planning(OpenArm(k), m.job, m.mode, text));
  }

  lemma AnswerRevertKeeps(k: Desk)
    requires DeskInv(k) && k.revert.Some?
    ensures DeskInv(AnswerRevert(k))
  {
    AnswerKeeps(k, CallRevert(OpenArm(k), k.revert.value), Reverting);
  }

  lemma DropKeepsPlans(k: Desk, id: nat)
    requires PlansInv(k.calls, k.pool, k.nextId)
    ensures PlansInv(k.calls, k.pool - {id}, k.nextId)
  {
  }

  /** A call that answers no arming changes nothing but the history. */
  lemma PlainCallKeeps(k: Desk, c: Call)
    requires DeskInv(k) && ArmOf(c).None? && (c.CallDispose? ==> !k.disposed)
    ensures DeskInv(k.(calls := k.calls + [c], disposed := k.disposed || c.CallDispose?))
  {
    AppendCall(k.arms, k.calls, c);
    AppendKeepsPlans(k.calls, c, k.pool, k.nextId);
  }

  /** The push of a planned message is the first for its arming. */
  lemma SendKeeps(k: Desk, id: nat)
    requires DeskInv(k) && id in k.pool && k.pool[id].Planning?
    ensures DeskInv(SettleAct(k, id, true))
  {
    var a := k.pool[id];
    var c := CallSend(a.arm, a.job, a.mode, a.text);
    assert PlanOk(k.calls, a);
    var p :| 0 <= p < |k.calls| && k.calls[p] == CallPlan(a.arm, a.job, a.mode, a.text);
    AppendCall(k.arms, k.calls, c);
    DropKeepsPlans(k, id);
    AppendKeepsPlans(k.calls, c, k.pool - {id}, k.nextId);
  }

  lemma SettleActKeeps(k: Desk, id: nat, planned: bool)
    requires DeskInv(k) && id in k.pool
    ensures DeskInv(SettleAct(k, id, planned))
  {
    if k.pool[id].Planning? && planned {
      SendKeeps(k, id);
    } else {
      DropKeepsPlans(k, id);
      if k.pool[id].Closing? { PlainCallKeeps(k.(pool := k.pool - {id}), CallDone(k.pool[id].result)); }
    }
  }

  lemma CloseKeeps(k: Desk, result: Result)
    requires DeskInv(k)
    ensures DeskInv(DisposeNow(k)) && DeskInv(Close(k, result))
  {
    if !k.disposed { PlainCallKeeps(k, CallDispose); }
  }

  lemma SwitchKeeps(k: Desk, c: Call)
    requires DeskInv(k) && (c == CallPause || c == CallResume)
    ensures DeskInv(Perform(k, c, Acting))
  {
    PlainCallKeeps(k, c);
  }
}
