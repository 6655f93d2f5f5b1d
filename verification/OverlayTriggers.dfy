/** From a trigger's row to the write on its file: the index opened is the index deleted, whatever happens in between. */
module OverlayTriggers {
  import opened Wrappers
  import opened Keys
  import opened Rows
  import opened Overlay
  import opened OverlayPromises
  import opened OverlayEscape

  predicate Opened(s: State, index: nat) {
    s.view == TriggerDetail && s.lists.trigger == Some(index)
  }

  lemma OpenedStays(s: State, e: Event, index: nat)
    requires Opened(s, index) && Enabled(s, e)
    ensures Opened(Step(s, e), index) || (e == Press(Escape) && Step(s, e).view == List)
  {
    match e
    case Press(k) => OpenedKey(s, k, index); hide KeyStep;
    case RefreshResumes(id, a) => RefreshOnlyReads(s, id, a); hide RefreshStep;
    case ActSettles(id, planned) => SettleKeepsQuestions(s, id, planned); hide ActStep;
    case _ =>
  }

  lemma OpenedKey(s: State, k: Key, index: nat)
    requires Opened(s, index)
    ensures KeyStep(s, k) == TriggerDetailKey(s, k)
    ensures Opened(KeyStep(s, k), index) || (k == Escape && KeyStep(s, k).view == List)
  {
    hide Close;
  }

  /** The trigger's view is not left. */
  predicate StaysOpen(s: State, es: seq<Event>)
    requires EnabledRun(s, es)
    decreases |es|
  {
    s.view == TriggerDetail && (es == [] || StaysOpen(Step(s, es[0]), es[1..]))
  }

  lemma {:induction false} OpenedRun(s: State, es: seq<Event>, index: nat)
    requires Opened(s, index) && EnabledRun(s, es) && StaysOpen(s, es)
    ensures Opened(RunFrom(s, es), index)
    decreases |es|
  {
    if es != [] {
      OpenedStays(s, es[0], index);
      hide Step, Enabled;
      OpenedRun(Step(s, es[0]), es[1..], index);
    }
  }

  /** Enter on the k-th trigger row opens the raw index the row carries. */
  lemma EnterOpensTheRow(s: State, file: seq<Entry>, k: nat)
    requires s.view == List && s.desk.cancel.None? && s.desk.steer.None?
    requires s.lists.snapshot.Some? && s.lists.snapshot.value.triggers == Display(file)
    requires k < |Display(file)| && s.lists.selected == k
    ensures Display(file)[k].index.Some? && Opened(KeyStep(s, Enter), Display(file)[k].index.value)
  {
    EnterOpensRow(s);
    TriggerRowAt(s.lists, file, k);
    hide KeyStep, RowAt, Display;
  }

  lemma EnterOpensRow(s: State)
    requires s.view == List && s.desk.cancel.None? && s.desk.steer.None?
    ensures KeyStep(s, Enter) == OpenRow(s)
  {
    hide OpenRow, Close, RowKey, CursorKey, OpenKey;
  }

  lemma TriggerRowAt(l: Lists, file: seq<Entry>, k: nat)
    requires l.snapshot.Some? && l.snapshot.value.triggers == Display(file) && k < |Display(file)|
    ensures var t := Display(file)[k]; t.index.Some? && RowAt(l, k) == Some(TriggerRow(t, t.index.value))
  {
    DisplayIndexes(file, 0, k);
    assert RowsOf(l)[k] == TriggerRows(l.snapshot.value.triggers)[k];
    hide Display, SortRuns, Filtered;
  }

  /**
   Enter on the k-th displayed trigger, and then, across any snapshots, ticks and keys that stay in its view, the delete
   that is confirmed there: it asks for exactly that entry of the file the row was read from, whatever unusable entries
   the display had dropped, and the file without it displays every other trigger as before.
   */
  lemma DeleteAsksForTheTriggerOpened(s: State, file: seq<Entry>, k: nat, es: seq<Event>)
    requires s.view == List && s.desk.cancel.None? && s.desk.steer.None?
    requires s.lists.snapshot.Some? && s.lists.snapshot.value.triggers == Display(file)
    requires k < |Display(file)| && s.lists.selected == k
    requires EnabledRun(KeyStep(s, Enter), es) && StaysOpen(KeyStep(s, Enter), es)
    requires RunFrom(KeyStep(s, Enter), es).lists.pendingDelete
    ensures var t := RunFrom(KeyStep(s, Enter), es);
            var u := KeyStep(t, Char('y'));
            && u.desk.disposed
            && t.desk.nextId in u.desk.pool
            && exists i: nat :: i < |file| && k < |Usable(file)|
                 && u.desk.pool[t.desk.nextId] == Closing(DeleteTrigger(i))
                 && file[i] == Usable(file)[k]
                 && Usable(DeleteAt(file, i)) == Usable(file)[..k] + Usable(file)[k + 1..]
  {
    EnterOpensTheRow(s, file, k);
    var i := Display(file)[k].index.value;
    OpenedRun(KeyStep(s, Enter), es, i);
    DeleteDisplayedTrigger(file, k);
    var t := RunFrom(KeyStep(s, Enter), es);
    ConfirmedDelete(t, i);
    hide KeyStep, RunFrom, Display, Usable, DeleteAt, StaysOpen, EnabledRun;
  }

  lemma ConfirmedDelete(t: State, i: nat)
    requires Opened(t, i) && t.lists.pendingDelete
    ensures var u := KeyStep(t, Char('y'));
            u.desk.disposed && t.desk.nextId in u.desk.pool && u.desk.pool[t.desk.nextId] == Closing(DeleteTrigger(i))
  {
    OpenedKey(t, Char('y'), i);
    hide KeyStep;
  }
}
