/** Escape pops one layer: from every reachable state three of them close the panel, whatever settles in between. */
module OverlayEscape {
  import opened Wrappers
  import opened Keys
  import opened Rows
  import opened TailView
  import opened Overlay
  import opened OverlayInvariant
  import opened OverlaySteps
  import opened OverlayPromises

  /** A by-id read that may still open RUN_DETAIL. */
  ghost predicate CurrentRead(p: Inbox) {
    exists i :: i in p.pool && p.pool[i].n == p.seq_
  }

  /** How many Escapes the panel is away from closing. */
  ghost function Layers(s: State): nat {
    if s.desk.disposed then 0
    else match s.view
      case List => if s.desk.cancel.Some? || s.desk.steer.Some? then 2 else 1
      case Watch => if s.desk.cancel.Some? || s.desk.steer.Some? then 3 else 2
      case RunDetail => if s.detail.from == Parked then 3 else 2
      case TriggerDetail => if s.lists.pendingDelete then 3 else 2
      case HeldList => if s.desk.cancel.Some? then 3 else 2
      case Allocation => if s.desk.revert.Some? then 3 else 2
      case Venues => 3
      case Parked => if CurrentRead(s.inbox) then 3 else 2
      case LiveTail => if s.tail.shown.search.Some? || s.tail.shown.query.Some? then 3 else 2
      case _ => 2
  }

  /** Each Escape takes at least one layer off. */
  lemma EscapePopsALayer(s: State)
    requires Inv(s) && !s.desk.disposed
    ensures Layers(KeyStep(s, Escape)) < Layers(s)
  {
    hide BuildRows, TailReadsOk, TailInv, FlightInv, CallsInv, PlansInv, CapInv;
  }

  /** Nothing but a key puts one on: a by-id answer only opens the run its layer was counted for. */
  lemma SettlingAddsNoLayer(s: State, e: Event)
    requires Inv(s) && Enabled(s, e) && !e.Press?
    ensures Layers(Step(s, e)) <= Layers(s)
  {
    hide Inv, Layers;
    if e.RefreshResumes? {
      RefreshOnlyReads(s, e.id, e.answer);
      ReadsAddNoLayer(s, RefreshStep(s, e.id, e.answer));
      hide RefreshStep;
    } else if e.ByIdSettles? {
      ByIdAddsNoLayer(s, e.id, e.record);
      hide ByIdStep;
    } else if e.ActSettles? {
      SettleKeepsQuestions(s, e.id, e.planned);
      ActsAddNoLayer(s, ActStep(s, e.id, e.planned));
      hide ActStep;
    } else {
      OthersLeave(s, e);
      LeavingAddsNoLayer(s, Step(s, e));
      hide Step;
    }
  }

  lemma ReadsAddNoLayer(s: State, t: State)
    requires OnlyReads(s, t)
    ensures Layers(t) <= Layers(s)
  {
  }

  lemma LeavingAddsNoLayer(s: State, t: State)
    requires Leaves(s, t)
    ensures Layers(t) <= Layers(s)
  {
  }

  lemma ActsAddNoLayer(s: State, t: State)
    requires t.view == s.view && t.desk.disposed == s.desk.disposed && t.desk.cancel == s.desk.cancel && t.desk.steer == s.desk.steer
    requires t.desk.revert == s.desk.revert && t.inbox == s.inbox && t.detail == s.detail && t.lists == s.lists && t.tail == s.tail
    ensures Layers(t) <= Layers(s)
  {
  }

  lemma ByIdAddsNoLayer(s: State, id: nat, record: Option<Run>)
    requires Inv(s) && id in s.inbox.pool
    ensures Layers(ByIdStep(s, id, record)) <= Layers(s)
  {
    hide ReadContinues;
  }

  lemma SettleKeepsQuestions(s: State, id: nat, planned: bool)
    requires id in s.desk.pool
    ensures var t := ActStep(s, id, planned);
            && t.view == s.view && t.desk.disposed == s.desk.disposed && t.desk.cancel == s.desk.cancel && t.desk.steer == s.desk.steer
            && t.desk.revert == s.desk.revert && t.desk.arms == s.desk.arms && t.inbox == s.inbox && t.detail == s.detail && t.lists == s.lists && t.tail == s.tail
  {
  }

  function Escapes(es: seq<Event>): nat {
    if es == [] then 0 else (if es[0] == Press(Escape) then 1 else 0) + Escapes(es[1..])
  }

  /** No key but Escape is pressed. */
  predicate OnlyEscapes(es: seq<Event>) {
    forall i :: 0 <= i < |es| && es[i].Press? ==> es[i] == Press(Escape)
  }

  lemma {:induction false} LayersComeOff(s: State, es: seq<Event>)
    requires Inv(s) && EnabledRun(s, es) && OnlyEscapes(es)
    ensures Layers(RunFrom(s, es)) == 0 || Layers(RunFrom(s, es)) + Escapes(es) <= Layers(s)
    decreases |es|
  {
    if es != [] {
      var t := Step(s, es[0]);
      assert OnlyEscapes(es[1..]);
      assert es[0].Press? ==> es[0] == Press(Escape);
      StepKeeps(s, es[0]);
      LayersComeOff(t, es[1..]);
      if es[0] == Press(Escape) {
        if s.desk.disposed { EscapeStaysDisposed(s); } else { EscapePopsALayer(s); }
      } else {
        SettlingAddsNoLayer(s, es[0]);
      }
      hide Inv, Step, Layers, EnabledRun;
    }
  }

  lemma EscapeStaysDisposed(s: State)
    requires s.desk.disposed
    ensures KeyStep(s, Escape).desk.disposed
  {
    hide BuildRows, OpenDetail, ReadContinues, TailKey;
  }

  /** From every reachable state, three Escapes dispose the panel, whatever reads, ticks and frames come between them. */
  lemma ThreeEscapesClose(s: State, es: seq<Event>)
    requires Reachable(s) && EnabledRun(s, es) && OnlyEscapes(es) && Escapes(es) >= 3
    ensures RunFrom(s, es).desk.disposed
    ensures CallDispose in RunFrom(s, es).desk.calls
  {
    hide Reachable, EnabledRun, RunFrom, Inv, Layers;
    ReachableInv(s);
    LayersComeOff(s, es);
    RunKeeps(s, es);
    AtMostThreeLayers(s);
    NoLayerIsDisposed(RunFrom(s, es));
  }

  lemma AtMostThreeLayers(s: State)
    ensures Layers(s) <= 3
  {
  }

  lemma NoLayerIsDisposed(t: State)
    requires Inv(t) && Layers(t) == 0
    ensures t.desk.disposed && CallDispose in t.desk.calls
  {
    hide WatchInv, FlightInv, TailInv, TailReadsOk, DetailInv, InboxInv, CapInv, AllocInv, LayerInv, CallsInv, PlansInv, OpenInv;
  }
}
