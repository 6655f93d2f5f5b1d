/**
 The selectable rows of the LIST view (admin/src/dashboard.ts, `buildRows` and `sortRuns`), the viewport over them, and
 the writes to the triggers file that are addressed by a row's index (admin/src/index.ts).
 */
module Rows {
  import opened Wrappers
  import opened Sorting

  const RUNS_VIEWPORT := 10

  /** A trigger as the display holds it; `index` is its place in the raw file, absent on an old record. */
  datatype Trigger = Trigger(name: string, index: Option<nat>)

  datatype Outcome = Completed | Policy | Other

  /** A run record. `recovering` says its reason is `recovery-enqueued`; an absent or non-finite number is `None`. */
  datatype Run = Run(jobId: string, project: Option<string>, tokens: Option<real>, cost: Option<real>, outcome: Outcome, recovering: bool)

  datatype ActiveJob = ActiveJob(jobId: string, steer: bool, steerOpen: bool)

  datatype HeldJob = HeldJob(jobId: string)

  /** The part of the fleet snapshot the overlay's keys read. An unreachable fleet is the snapshot with nothing in it. */
  datatype Snapshot = Snapshot(
    triggers: seq<Trigger>,
    activeJobId: Option<string>,
    active: seq<ActiveJob>,
    runs: seq<Run>,
    held: seq<HeldJob>,
    failed: nat,
    parked: seq<string>,
    projects: seq<string>,
    venues: nat)

  const UNREACHABLE := Snapshot([], None, [], [], [], 0, [], [], 0)

  datatype RunSort = ByTime | ByTokens | ByCost | ByOutcome

  /** The project filter: every run, or the runs of one project (`None`: the runs under no project). */
  datatype Filter = AllRuns | OnlyProject(project: Option<string>)

  datatype Row =
    | TriggerRow(trigger: Trigger, index: nat)
    | ActiveRow(jobId: string, steer: bool, steerOpen: bool)
    | RunRow(record: Run)

  function Num(v: Option<real>): real {
    if v.Some? then v.value else -1.0
  }

  function OutcomeRank(o: Outcome): real {
    match o
    case Completed => 2.0
    case Policy => 1.0
    case Other => 0.0
  }

  /** The ascending key that a comparator orders by: `num(b) - num(a)` is ascending in `-num`. */
  function SortKey(order: RunSort): Run -> real {
    match order
    case ByTime => (r: Run) => 0.0
    case ByTokens => (r: Run) => -Num(r.tokens)
    case ByCost => (r: Run) => -Num(r.cost)
    case ByOutcome => (r: Run) => OutcomeRank(r.outcome)
  }

  function SortRuns(runs: seq<Run>, order: RunSort): seq<Run> {
    if order == ByTime || |runs| < 2 then runs else StableSort(runs, SortKey(order))
  }

  predicate Shown(r: Run, filter: Filter) {
    filter == AllRuns || filter == OnlyProject(r.project)
  }

  function Filtered(runs: seq<Run>, filter: Filter): seq<Run> {
    if runs == [] then []
    else (if Shown(runs[0], filter) then [runs[0]] else []) + Filtered(runs[1..], filter)
  }

  function RunRows(runs: seq<Run>): seq<Row> {
    seq(|runs|, i requires 0 <= i < |runs| => RunRow(runs[i]))
  }

  function TriggerRows(ts: seq<Trigger>): seq<Row> {
    seq(|ts|, i requires 0 <= i < |ts| => TriggerRow(ts[i], ts[i].index.GetOr(i)))
  }

  function FindActive(active: seq<ActiveJob>, jobId: string): Option<ActiveJob> {
    if active == [] then None
    else if active[0].jobId == jobId then Some(active[0])
    else FindActive(active[1..], jobId)
  }

  /** The ACTIVE row: present only for a non-empty job id; `steer` and `steerOpen` come from its registry row. */
  function ActiveRows(snap: Snapshot): seq<Row> {
    match snap.activeJobId
    case None => []
    case Some(id) =>
      if id == "" then []
      else
        var a := FindActive(snap.active, id);
        [ActiveRow(id, a.Some? && a.value.steer, a.Some? && a.value.steer && a.value.steerOpen)]
  }

  function BuildRows(snapshot: Option<Snapshot>, order: RunSort, filter: Filter): seq<Row> {
    match snapshot
    case None => []
    case Some(snap) =>
      TriggerRows(snap.triggers) + ActiveRows(snap) + RunRows(SortRuns(Filtered(snap.runs, filter), order))
  }

  /** Every ordering, "time" and short lists included, is THE stable sort of the filtered runs by its key. */
  lemma SortRunsIsStableSort(runs: seq<Run>, order: RunSort)
    ensures IsStableSort(SortRuns(runs, order), runs, SortKey(order))
    ensures multiset(SortRuns(runs, order)) == multiset(runs)
    ensures SortRuns(runs, order) == StableSort(runs, SortKey(order))
  {
    StableSortIsStable(runs, SortKey(order));
    assert IsStableSort(SortRuns(runs, order), runs, SortKey(order));
    StableSortIsUnique(SortRuns(runs, order), runs, SortKey(order));
  }

  /**
   What the orderings mean: under tokens and cost larger numbers come first, and an absent one after every number that
   counts something; under outcome failures come first, then the policy's stops, then what completed.
   */
  lemma SortRunsOrders(runs: seq<Run>, order: RunSort, i: nat, j: nat)
    requires i < j < |SortRuns(runs, order)|
    ensures var a, b := SortRuns(runs, order)[i], SortRuns(runs, order)[j];
            && (order == ByTime ==> SortRuns(runs, order) == runs)
            && (order == ByTokens ==> LargerFirst(a.tokens, b.tokens))
            && (order == ByCost ==> LargerFirst(a.cost, b.cost))
            && (order == ByOutcome ==> (a.outcome == Completed ==> b.outcome == Completed) && (a.outcome == Policy ==> b.outcome != Outcome.Other))
  {
    SortRunsIsStableSort(runs, order);
    var out, key := SortRuns(runs, order), SortKey(order);
    assert key(out[i]) <= key(out[j]);
  }

  predicate LargerFirst(a: Option<real>, b: Option<real>) {
    && (a.Some? && b.Some? ==> b.value <= a.value)
    && (b.Some? && b.value >= 0.0 ==> a.Some?)
  }

  lemma {:induction false} FilteredIsExact(runs: seq<Run>, filter: Filter)
    ensures forall r :: multiset(Filtered(runs, filter))[r] == if Shown(r, filter) then multiset(runs)[r] else 0
  {
    if runs != [] {
      FilteredIsExact(runs[1..], filter);
      assert runs == [runs[0]] + runs[1..];
    }
  }

  /** The registry's row for a job is the first that names it. */
  lemma {:induction false} FindActiveIsFirst(active: seq<ActiveJob>, jobId: string)
    ensures match FindActive(active, jobId)
            case Some(a) => exists i: nat :: i < |active| && active[i] == a && IsFirstOf(active, i, jobId)
            case None => forall i :: 0 <= i < |active| ==> active[i].jobId != jobId
  {
    if active != [] && active[0].jobId != jobId {
      FindActiveIsFirst(active[1..], jobId);
      assert forall i :: 1 <= i < |active| ==> active[i] == active[1..][i - 1];
      if FindActive(active, jobId).Some? {
        var i: nat :| i < |active| - 1 && active[1..][i] == FindActive(active, jobId).value && IsFirstOf(active[1..], i, jobId);
        assert IsFirstOf(active, i + 1, jobId);
      }
    }
  }

  predicate IsFirstOf(active: seq<ActiveJob>, i: nat, jobId: string) {
    i < |active| && active[i].jobId == jobId && forall j :: 0 <= j < i ==> active[j].jobId != jobId
  }

  /** A row for the active job where there is one, steered as the first registry row that names it says, open only where that is steered. */
  ghost predicate ActiveIsShown(snap: Snapshot, rows: seq<Row>) {
    if snap.activeJobId.None? || snap.activeJobId.value == "" then rows == []
    else
      && |rows| == 1 && rows[0].ActiveRow? && rows[0].jobId == snap.activeJobId.value
      && (forall i: nat :: IsFirstOf(snap.active, i, rows[0].jobId) ==>
            rows[0].steer == snap.active[i].steer && rows[0].steerOpen == (snap.active[i].steer && snap.active[i].steerOpen))
      && (rows[0].steer || rows[0].steerOpen ==> exists i: nat :: IsFirstOf(snap.active, i, rows[0].jobId))
  }

  lemma ActiveRowsShowTheActiveJob(snap: Snapshot)
    ensures ActiveIsShown(snap, ActiveRows(snap))
  {
    if snap.activeJobId.Some? { FindActiveIsFirst(snap.active, snap.activeJobId.value); }
  }

  /**
   The rows are the triggers, each with its raw index or else its position, then one ACTIVE row exactly where a job is
   active, then the stable sort of exactly the runs the filter shows.
   */
  lemma RowsAreTriggersThenActiveThenRuns(snap: Snapshot, order: RunSort, filter: Filter)
    ensures var rows := BuildRows(Some(snap), order, filter);
            var n, a := |snap.triggers|, if snap.activeJobId.Some? && snap.activeJobId.value != "" then 1 else 0;
            && n + a <= |rows|
            && (forall k :: 0 <= k < n ==> rows[k] == TriggerRow(snap.triggers[k], match snap.triggers[k].index case Some(i) => i case None => k))
            && ActiveIsShown(snap, rows[n..n + a])
            && exists runs :: rows[n + a..] == RunRows(runs)
                              && IsStableSort(runs, Filtered(snap.runs, filter), SortKey(order))
                              && forall r :: multiset(runs)[r] == if Shown(r, filter) then multiset(snap.runs)[r] else 0
    ensures BuildRows(None, order, filter) == []
  {
    var runs := SortRuns(Filtered(snap.runs, filter), order);
    SortRunsIsStableSort(Filtered(snap.runs, filter), order);
    FilteredIsExact(snap.runs, filter);
    ActiveRowsShowTheActiveJob(snap);
    var rows, n := BuildRows(Some(snap), order, filter), |snap.triggers|;
    assert rows == TriggerRows(snap.triggers) + ActiveRows(snap) + RunRows(runs);
    assert |ActiveRows(snap)| == if snap.activeJobId.Some? && snap.activeJobId.value != "" then 1 else 0;
    hide BuildRows, ActiveRows, SortRuns, Filtered, ActiveIsShown, IsStableSort, RunRows;
    InThree(TriggerRows(snap.triggers), ActiveRows(snap), RunRows(runs));
  }

  lemma InThree(xs: seq<Row>, ys: seq<Row>, zs: seq<Row>)
    ensures var all := xs + ys + zs;
            all[|xs|..|xs| + |ys|] == ys && all[|xs| + |ys|..] == zs && forall k :: 0 <= k < |xs| ==> all[k] == xs[k]
  {
  }

  /** A run has a row exactly where the filter shows it. */
  lemma RunsShown(snap: Snapshot, order: RunSort, filter: Filter)
    ensures forall r :: RunRow(r) in BuildRows(Some(snap), order, filter) <==> r in snap.runs && Shown(r, filter)
    ensures BuildRows(None, order, filter) == []
  {
    var shown := Filtered(snap.runs, filter);
    var runs := SortRuns(shown, order);
    SortRunsIsStableSort(shown, order);
    FilteredHas(snap.runs, filter);
    RunRowsHave(runs);
    RowsHave(snap, runs, order, filter);
    hide BuildRows, SortRuns, Filtered, RunRows, StableSort;
    SameMembers(runs, shown);
  }

  lemma SameMembers(a: seq<Run>, b: seq<Run>)
    requires multiset(a) == multiset(b)
    ensures forall r :: r in a <==> r in b
  {
    forall r ensures r in a <==> r in b { assert multiset(a)[r] == multiset(b)[r]; }
  }

  lemma RowsHave(snap: Snapshot, runs: seq<Run>, order: RunSort, filter: Filter)
    requires runs == SortRuns(Filtered(snap.runs, filter), order)
    ensures forall r :: RunRow(r) in BuildRows(Some(snap), order, filter) <==> RunRow(r) in RunRows(runs)
    ensures BuildRows(None, order, filter) == []
  {
    hide SortRuns, Filtered, RunRows;
  }

  lemma {:induction false} FilteredHas(runs: seq<Run>, filter: Filter)
    ensures forall r :: r in Filtered(runs, filter) <==> r in runs && Shown(r, filter)
  {
    if runs != [] { FilteredHas(runs[1..], filter); }
  }

  lemma RunRowsHave(runs: seq<Run>)
    ensures forall r :: RunRow(r) in RunRows(runs) <==> r in runs
  {
    forall r | r in runs ensures RunRow(r) in RunRows(runs) {
      var i :| 0 <= i < |runs| && runs[i] == r;
      assert RunRows(runs)[i] == RunRow(r);
    }
  }

  /** The viewport over the run rows: its top row and how many rows it shows. */
  function RunsWindow(len: nat, selected: int): (w: (int, nat)) {
    var count := if len < RUNS_VIEWPORT then len else RUNS_VIEWPORT;
    var want := if selected >= 0 then selected - RUNS_VIEWPORT / 2 else 0;
    (Min(Max(0, want), len - count), count)
  }

  /** The window lies in the list, is as full as it can be, shows the cursor, and sits on the top while the cursor is above. */
  lemma RunsWindowShowsCursor(len: nat, selected: int)
    ensures var (top, count) := RunsWindow(len, selected);
            && 0 <= top && top + count <= len && count == Min(len, RUNS_VIEWPORT)
            && (0 <= selected < len ==> top <= selected < top + count)
            && (selected < 0 ==> top == 0)
  {
  }

  // ---- writes addressed by raw index ----

  /** One entry of the raw triggers file; `usable` is whether the display can show it. */
  datatype Entry = Entry(name: string, flow: string, usable: bool)

  /** The display's records for a file: the usable entries, each carrying its raw index. */
  function Display(file: seq<Entry>, from: nat := 0): seq<Trigger> {
    if file == [] then []
    else (if file[0].usable then [Trigger(file[0].name, Some(from))] else []) + Display(file[1..], from + 1)
  }

  /** The file without the entry at a raw index. */
  function DeleteAt(file: seq<Entry>, index: int): seq<Entry> {
    if 0 <= index < |file| then file[..index] + file[index + 1..] else file
  }

  /** The file with another flow at a raw index. */
  function EditFlowAt(file: seq<Entry>, index: int, flow: string): seq<Entry> {
    seq(|file|, i requires 0 <= i < |file| => if i == index then file[i].(flow := flow) else file[i])
  }

  function Usable(file: seq<Entry>): seq<Entry> {
    if file == [] then [] else (if file[0].usable then [file[0]] else []) + Usable(file[1..])
  }

  /** The k-th record on display carries the raw index of the k-th usable entry. */
  ghost predicate IndexedAt(file: seq<Entry>, from: nat, k: nat) {
    && k < |Display(file, from)| == |Usable(file)|
    && var i := Display(file, from)[k].index;
       && i.Some? && from <= i.value < from + |file|
       && file[i.value - from] == Usable(file)[k] && Usable(file)[k].usable && Display(file, from)[k].name == Usable(file)[k].name
       && |Usable(file[..i.value - from])| == k
  }

  lemma {:induction false} DisplaySize(file: seq<Entry>, from: nat)
    ensures |Display(file, from)| == |Usable(file)|
  {
    if file != [] { DisplaySize(file[1..], from + 1); }
  }

  lemma {:induction false} DisplayIndexes(file: seq<Entry>, from: nat, k: nat)
    requires k < |Display(file, from)|
    ensures IndexedAt(file, from, k)
  {
    DisplaySize(file, from);
    DisplaySize(file[1..], from + 1);
    var h := if file[0].usable then 1 else 0;
    if k < h {
      assert file[..0] == [];
    } else {
      DisplayIndexes(file[1..], from + 1, k - h);
      hide IndexedAt;
      IndexedInTheRest(file, from, k, h);
    }
  }

  lemma IndexedInTheRest(file: seq<Entry>, from: nat, k: nat, h: nat)
    requires file != [] && h == (if file[0].usable then 1 else 0) && h <= k < |Display(file, from)| == |Usable(file)|
    requires IndexedAt(file[1..], from + 1, k - h)
    ensures IndexedAt(file, from, k)
  {
    DisplayStarts(file, from);
    UsableStarts(file);
    hide Display, Usable;
    var i := Display(file[1..], from + 1)[k - h].index.value;
    FrontStarts(file, i - from);
    UsableStarts(file[..i - from]);
  }

  lemma DisplayStarts(file: seq<Entry>, from: nat)
    requires file != []
    ensures Display(file, from) == (if file[0].usable then [Trigger(file[0].name, Some(from))] else []) + Display(file[1..], from + 1)
  {
  }

  lemma UsableStarts(file: seq<Entry>)
    requires file != []
    ensures Usable(file) == (if file[0].usable then [file[0]] else []) + Usable(file[1..])
  {
  }

  lemma FrontStarts(file: seq<Entry>, p: nat)
    requires 1 <= p <= |file|
    ensures file[..p] != [] && file[..p][0] == file[0] && file[..p][1..] == file[1..][..p - 1]
  {
  }

  lemma {:induction false} UsableConcat(a: seq<Entry>, b: seq<Entry>)
    ensures Usable(a + b) == Usable(a) + Usable(b)
  {
    if a == [] {
      assert a + b == b;
    } else {
      assert (a + b)[1..] == a[1..] + b;
      UsableConcat(a[1..], b);
    }
  }

  /**
   Deleting the k-th trigger on display, whatever unusable entries the display dropped: exactly that raw entry leaves
   the file, the others keep their order, and the display afterwards is the old one without its k-th row.
   */
  lemma DeleteDisplayedTrigger(file: seq<Entry>, k: nat)
    requires k < |Display(file)|
    ensures k < |Usable(file)|
    ensures var i := Display(file)[k].index;
            && i.Some? && i.value < |file|
            && file[i.value] == Usable(file)[k] && file[i.value].name == Display(file)[k].name
            && DeleteAt(file, i.value) == file[..i.value] + file[i.value + 1..]
            && Usable(DeleteAt(file, i.value)) == Usable(file)[..k] + Usable(file)[k + 1..]
  {
    DisplayIndexes(file, 0, k);
    var p := Display(file)[k].index.value;
    UsableWithout(file, p);
  }

  lemma UsableWithout(file: seq<Entry>, p: nat)
    requires p < |file| && file[p].usable
    ensures |Usable(file[..p])| < |Usable(file)|
    ensures var k := |Usable(file[..p])|;
            Usable(file[..p] + file[p + 1..]) == Usable(file)[..k] + Usable(file)[k + 1..]
  {
    var before, rest := file[..p], file[p + 1..];
    UsableConcat(before, rest);
    SplitUsable(before, file[p], rest);
    assert file == before + [file[p]] + rest;
  }

  lemma SplitUsable(before: seq<Entry>, e: Entry, rest: seq<Entry>)
    requires e.usable
    ensures Usable(before + [e] + rest) == Usable(before) + [e] + Usable(rest)
  {
    UsableConcat(before + [e], rest);
    UsableConcat(before, [e]);
  }

  /** Editing the k-th trigger on display changes the flow of exactly that raw entry. */
  lemma EditDisplayedTrigger(file: seq<Entry>, k: nat, flow: string)
    requires k < |Display(file)|
    ensures var t := Display(file)[k];
            && t.index.Some?
            && var after := EditFlowAt(file, t.index.value, flow);
               && |after| == |file|
               && (forall i :: 0 <= i < |file| && i != t.index.value ==> after[i] == file[i])
               && t.index.value < |file|
               && after[t.index.value] == file[t.index.value].(flow := flow)
               && k < |Usable(file)| && file[t.index.value] == Usable(file)[k] && file[t.index.value].name == t.name
  {
    DisplayIndexes(file, 0, k);
  }

  /**
   A record that predates the raw index falls back to its position. That position names the entry on display exactly
   when the file dropped nothing up to it.
   */
  lemma PositionNamesEntryIffNothingDropped(file: seq<Entry>, k: nat)
    requires k < |Display(file)|
    ensures Display(file)[k].index == Some(k) <==> (k < |file| && forall i :: 0 <= i <= k ==> file[i].usable)
  {
    DisplayIndexes(file, 0, k);
    var p := Display(file)[k].index.value;
    UsableLength(file[..p]);
    if p == k {
      FullMeansAllUsable(file[..p]);
      assert forall i :: 0 <= i < k ==> file[..p][i] == file[i];
    } else if forall i :: 0 <= i <= k ==> file[i].usable {
      AllUsable(file[..k + 1]);
      assert file[..p] == file[..k + 1] + file[k + 1..p];
      UsableConcat(file[..k + 1], file[k + 1..p]);
    }
  }

  lemma {:induction false} UsableLength(file: seq<Entry>)
    ensures |Usable(file)| <= |file|
  {
    if file != [] { UsableLength(file[1..]); }
  }

  lemma {:induction false} AllUsable(file: seq<Entry>)
    requires forall i :: 0 <= i < |file| ==> file[i].usable
    ensures Usable(file) == file
  {
    if file != [] { AllUsable(file[1..]); }
  }

  lemma {:induction false} FullMeansAllUsable(file: seq<Entry>)
    requires |Usable(file)| == |file|
    ensures forall i :: 0 <= i < |file| ==> file[i].usable
  {
    if file != [] {
      UsableLength(file[1..]);
      FullMeansAllUsable(file[1..]);
    }
  }
}
