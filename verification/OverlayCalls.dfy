/** Exactly which calls and armings every event makes, from what is on screen: an independent account of the desk. */
module OverlayCalls {
  import opened Wrappers
  import opened Keys
  import opened Rows
  import opened TailView
  import opened Overlay
  import opened OverlayInvariant
  import opened OverlaySteps
  import opened OverlayPromises
  import opened OverlayEscape
  import opened OverlayTargets

  // ---- what takes a key ----

  /** What a key goes to: an open question, the open input, an armed revert or delete, or the view itself. */
  datatype Layer = Watches | Asks(q: Question) | Writes(m: Message) | Reverts(row: AllocRow) | Deletes(index: nat) | Views

  function LayerOf(s: State, k: Key): Layer {
    if s.view == List && Is(k, 'z', 'Z') then Watches
    else if s.view in {List, HeldList} && s.desk.cancel.Some? then Asks(s.desk.cancel.value)
    else if s.view == List && s.desk.steer.Some? then Writes(s.desk.steer.value)
    else if s.view == Allocation && s.desk.revert.Some? then Reverts(s.desk.revert.value)
    else if s.view == TriggerDetail && s.lists.pendingDelete then Deletes(s.lists.trigger.GetOr(0))
    else Views
  }

  // ---- what each event asks for ----

  /** The result a key closes the overlay with. */
  function ClosesWith(s: State, k: Key): Option<Result> {
    match LayerOf(s, k)
    case Deletes(index) => if Is(k, 'y', 'Y') then Some(DeleteTrigger(index)) else None
    case Views =>
      if s.view == TriggerDetail then (if Is(k, 'e', 'E') then Some(EditTrigger(s.lists.trigger.GetOr(0))) else None)
      else if s.view == List then ClosingLetter(k)
      else None
    case _ => None
  }

  /** LIST's keys that leave the panel, each for its own page or dialog. */
  function ClosingLetter(k: Key): Option<Result> {
    match k
    case Escape => Some(Quit)
    case Char(c) =>
      if c in "qQ" then Some(Quit) else if c in "iI" then Some(OpenInsights) else if c in "aA" then Some(AddTrigger)
      else if c in "sS" then Some(EditSettings) else if c in "wW" then Some(ManagePauses) else if c in "mM" then Some(ManageLimits)
      else None
    case _ => None
  }

  function Disposal(s: State): seq<Call> {
    if s.desk.disposed then [] else [CallDispose]
  }

  /** The arming that is open is the latest. */
  function Latest(s: State): nat {
    if s.desk.arms == [] then 0 else |s.desk.arms| - 1
  }

  /** What a key asks the world for, and the action that waits for it. */
  function AskedByKey(s: State, k: Key): (seq<Call>, Option<Act>) {
    if ClosesWith(s, k).Some? then (Disposal(s), Some(Closing(ClosesWith(s, k).value)))
    else match LayerOf(s, k)
      case Asks(q) => if Is(k, 'y', 'Y') then ([CallCancel(Latest(s), q.job, q.door)], Some(Acting)) else ([], None)
      case Writes(m) =>
        if k == Enter && !Keys.Blank(m.input.value)
        then ([CallPlan(Latest(s), m.job, m.mode, m.input.value)], Some(Planning(Latest(s), m.job, m.mode, m.input.value)))
        else ([], None)
      case Reverts(row) => if Is(k, 'y', 'Y') then ([CallRevert(Latest(s), row)], Some(Reverting)) else ([], None)
      case Views =>
        if s.view == List then AskedInList(k) else ([], None)
      case _ => ([], None)
  }

  function AskedInList(k: Key): (seq<Call>, Option<Act>) {
    if Is(k, 'p', 'P') then ([CallPause], Some(Acting)) else if Is(k, 'r', 'R') then ([CallResume], Some(Acting)) else ([], None)
  }

  /** What an event asks for: a planned message is sent, and a closed overlay is done with the result it closed with. */
  function Asked(s: State, e: Event): (seq<Call>, Option<Act>)
    requires Enabled(s, e)
  {
    match e
    case Press(k) => AskedByKey(s, k)
    case Dispose => (Disposal(s), None)
    case ActSettles(id, planned) =>
      (match s.desk.pool[id]
       case Planning(arm, job, mode, text) => if planned then ([CallSend(arm, job, mode, text)], Some(Acting)) else ([], None)
       case Closing(result) => ([CallDone(result)], None)
       case _ => ([], None))
    case _ => ([], None)
  }

  /** The actions awaiting their call: without the one that settled, and with the one asked for under a new number. */
  function Pending(s: State, e: Event): map<nat, Act>
    requires Enabled(s, e)
  {
    var left := if e.ActSettles? then s.desk.pool - {e.id} else s.desk.pool;
    if Asked(s, e).1.Some? then left[s.desk.nextId := Asked(s, e).1.value] else left
  }

  /** The ACTIVE row arms its cancel, and its message in the mode of the key where its inbox is open. */
  function ArmedByRow(row: Option<Row>, k: Key): seq<Arming> {
    match row
    case Some(ActiveRow(job, steer, steerOpen)) =>
      if Is(k, 'x', 'X') then [ArmCancel(job, ActiveDoor)]
      else if k == Char('t') && steer && steerOpen then [ArmMessage(job, SteerMode)]
      else if k == Char('T') && steer && steerOpen then [ArmMessage(job, FollowUpMode)]
      else []
    case _ => []
  }

  /** What a key arms: the row under the cursor, where it has something to arm. */
  function Armed(s: State, k: Key): seq<Arming> {
    if LayerOf(s, k) != Views then []
    else match s.view
      case List => ArmedByRow(RowAt(s.lists, s.lists.selected), k)
      case HeldList =>
        var held := if s.lists.snapshot.Some? then s.lists.snapshot.value.held else [];
        var at := if s.lists.held < |held| then s.lists.held else Max(0, |held| - 1);
        if Is(k, 'x', 'X') && 0 <= at < |held| && held[at].jobId != "" then [ArmCancel(held[at].jobId, HeldDoor)] else []
      case Allocation =>
        var log, at := if s.alloc.info.AllocReport? then s.alloc.info.log else [], s.alloc.selected;
        if Is(k, 'r', 'R') && 0 <= at < |log| && log[at].revertible then [ArmRevert(log[at])] else []
      case _ => []
  }

  ghost predicate KeyAccount(s: State, k: Key, d: Desk) {
    && d.calls == s.desk.calls + AskedByKey(s, k).0
    && d.pool == (match AskedByKey(s, k).1 case Some(a) => s.desk.pool[s.desk.nextId := a] case None => s.desk.pool)
    && d.nextId == s.desk.nextId + (if AskedByKey(s, k).1.Some? then 1 else 0)
    && d.arms == s.desk.arms + Armed(s, k)
    && (d.disposed <==> s.desk.disposed || ClosesWith(s, k).Some?)
  }

  /** The question after a key: armed, answered, or as it was. */
  function QuestionAfter(s: State, k: Key): Option<Question> {
    match LayerOf(s, k)
    case Asks(q) => if Is(k, 'y', 'Y') || Is(k, 'n', 'N') || k == Escape then None else Some(q)
    case Views => if |Armed(s, k)| == 1 && Armed(s, k)[0].ArmCancel? then Some(Question(Armed(s, k)[0].job, Armed(s, k)[0].door)) else s.desk.cancel
    case _ => s.desk.cancel
  }

  /** The revert after a key, which opening the view drops as well. */
  function RevertAfter(s: State, k: Key): Option<AllocRow> {
    match LayerOf(s, k)
    case Reverts(row) => if Is(k, 'y', 'Y') || Is(k, 'n', 'N') || k == Escape then None else Some(row)
    case Views =>
      if |Armed(s, k)| == 1 && Armed(s, k)[0].ArmRevert? then Some(Armed(s, k)[0].row)
      else if s.view == List && Is(k, 'b', 'B') then None
      else s.desk.revert
    case _ => s.desk.revert
  }

  /** The message input after a key: opened empty for what was armed, left by Enter and Escape, or with the same target. */
  predicate MessageAfter(s: State, k: Key, after: Option<Message>) {
    match LayerOf(s, k)
    case Writes(m) => if k == Enter || k == Escape then after.None? else after.Some? && after.value.job == m.job && after.value.mode == m.mode
    case Views =>
      if |Armed(s, k)| == 1 && Armed(s, k)[0].ArmMessage? then after == Some(Message(Armed(s, k)[0].job, Armed(s, k)[0].mode, MakeLineInput("")))
      else after == s.desk.steer
    case _ => after == s.desk.steer
  }

  ghost predicate OpenAccount(s: State, k: Key, d: Desk) {
    d.cancel == QuestionAfter(s, k) && d.revert == RevertAfter(s, k) && MessageAfter(s, k, d.steer)
  }

  ghost predicate NothingElse(s: State, d: Desk) {
    d.calls == s.desk.calls && d.pool == s.desk.pool && d.arms == s.desk.arms && d.nextId == s.desk.nextId && d.disposed == s.desk.disposed
  }

  lemma NothingAsked(s: State, k: Key, d: Desk)
    requires AskedByKey(s, k) == ([], None) && ClosesWith(s, k).None? && Armed(s, k) == [] && NothingElse(s, d)
    ensures KeyAccount(s, k, d)
  {
    hide AskedByKey, ClosesWith, Armed;
  }

  // What the account says of each layer, and then that the key does that.

  lemma AtAQuestion(s: State, k: Key)
    requires LayerOf(s, k).Asks?
    ensures s.desk.cancel == Some(LayerOf(s, k).q) && s.view in {List, HeldList} && !(s.view == List && Is(k, 'z', 'Z'))
    ensures var q := LayerOf(s, k).q;
            && ClosesWith(s, k).None? && Armed(s, k) == []
            && AskedByKey(s, k) == if Is(k, 'y', 'Y') then ([CallCancel(Latest(s), q.job, q.door)], Some(Acting)) else ([], None)
  {
  }

  lemma AtAMessage(s: State, k: Key)
    requires LayerOf(s, k).Writes?
    ensures s.desk.steer == Some(LayerOf(s, k).m) && s.view == List && !Is(k, 'z', 'Z') && s.desk.cancel.None?
    ensures var m := LayerOf(s, k).m;
            && ClosesWith(s, k).None? && Armed(s, k) == []
            && AskedByKey(s, k) == if k == Enter && !Keys.Blank(m.input.value)
                 then ([CallPlan(Latest(s), m.job, m.mode, m.input.value)], Some(Planning(Latest(s), m.job, m.mode, m.input.value)))
                 else ([], None)
  {
  }

  lemma AtARevert(s: State, k: Key)
    requires LayerOf(s, k).Reverts?
    ensures s.desk.revert == Some(LayerOf(s, k).row) && s.view == Allocation
    ensures ClosesWith(s, k).None? && Armed(s, k) == []
    ensures AskedByKey(s, k) == if Is(k, 'y', 'Y') then ([CallRevert(Latest(s), LayerOf(s, k).row)], Some(Reverting)) else ([], None)
  {
  }

  lemma AtADelete(s: State, k: Key)
    requires LayerOf(s, k).Deletes?
    ensures s.view == TriggerDetail && s.lists.pendingDelete && Armed(s, k) == []
    ensures ClosesWith(s, k) == if Is(k, 'y', 'Y') then Some(DeleteTrigger(s.lists.trigger.GetOr(0))) else None
    ensures AskedByKey(s, k) == if ClosesWith(s, k).Some? then (Disposal(s), Some(Closing(ClosesWith(s, k).value))) else ([], None)
  {
    hide Disposal;
  }

  lemma AtATrigger(s: State, k: Key)
    requires s.view == TriggerDetail && LayerOf(s, k) == Views
    ensures !s.lists.pendingDelete && Armed(s, k) == []
    ensures ClosesWith(s, k) == if Is(k, 'e', 'E') then Some(EditTrigger(s.lists.trigger.GetOr(0))) else None
    ensures AskedByKey(s, k) == if ClosesWith(s, k).Some? then (Disposal(s), Some(Closing(ClosesWith(s, k).value))) else ([], None)
  {
    hide Disposal;
  }

  lemma Nothing(s: State)
    ensures s.desk.calls + [] == s.desk.calls && s.desk.arms + [] == s.desk.arms
  {
  }

  lemma QuestionAccount(s: State, k: Key)
    requires LayerOf(s, k).Asks?
    ensures KeyAccount(s, k, KeyStep(s, k).desk) && OpenAccount(s, k, KeyStep(s, k).desk)
  {
    hide *;
    QuestionDesk(s, k);
    Nothing(s);
    AtAQuestion(s, k);
    QuestionCalls(s, k);
    QuestionOpens(s, k);
  }

  lemma QuestionDesk(s: State, k: Key)
    requires LayerOf(s, k).Asks?
    ensures s.desk.cancel.Some? && KeyStep(s, k).desk == QuestionKey(s.desk, k)
  {
    AtAQuestion(s, k);
    hide LayerOf, ViewKey, MessageKey, StartWatch, QuestionKey;
  }

  lemma QuestionCalls(s: State, k: Key)
    requires LayerOf(s, k).Asks? && s.desk.cancel.Some?
    ensures KeyAccount(s, k, QuestionKey(s.desk, k))
  {
    AtAQuestion(s, k);
    Nothing(s);
    hide LayerOf, AskedByKey, ClosesWith, Armed;
  }

  lemma QuestionOpens(s: State, k: Key)
    requires LayerOf(s, k).Asks? && s.desk.cancel.Some?
    ensures OpenAccount(s, k, QuestionKey(s.desk, k))
  {
    AtAQuestion(s, k);
    hide LayerOf, AskedByKey, ClosesWith, Armed;
  }

  lemma MessageAccount(s: State, k: Key)
    requires LayerOf(s, k).Writes?
    ensures KeyAccount(s, k, KeyStep(s, k).desk) && OpenAccount(s, k, KeyStep(s, k).desk)
  {
    AtAMessage(s, k);
    Nothing(s);
    hide LayerOf, AskedByKey, ClosesWith, Armed, ViewKey, QuestionKey, StartWatch, EditLine;
  }

  lemma RevertAccount(s: State, k: Key)
    requires LayerOf(s, k).Reverts?
    ensures KeyAccount(s, k, AllocationKey(s, k).desk) && OpenAccount(s, k, AllocationKey(s, k).desk)
  {
    AtARevert(s, k);
    Nothing(s);
    hide LayerOf, AskedByKey, ClosesWith, Armed, AllocationCursorKey;
  }

  lemma DeleteAccount(s: State, k: Key)
    requires LayerOf(s, k).Deletes?
    ensures KeyAccount(s, k, TriggerDetailKey(s, k).desk) && OpenAccount(s, k, TriggerDetailKey(s, k).desk)
  {
    AtADelete(s, k);
    Nothing(s);
    hide LayerOf, AskedByKey, ClosesWith, Armed;
  }

  lemma TriggerAccount(s: State, k: Key)
    requires s.view == TriggerDetail && LayerOf(s, k) == Views
    ensures KeyAccount(s, k, TriggerDetailKey(s, k).desk) && OpenAccount(s, k, TriggerDetailKey(s, k).desk)
  {
    AtATrigger(s, k);
    Nothing(s);
    hide LayerOf, AskedByKey, ClosesWith, Armed;
  }

  lemma HeldArms(s: State, k: Key)
    requires s.view == HeldList && LayerOf(s, k) == Views
    ensures var armed := Armed(s, k);
            && HeldKey(s, k).desk == (if armed == [] then s.desk else ArmQuestion(s.desk, armed[0].job, HeldDoor))
            && (armed != [] ==> armed == [ArmCancel(armed[0].job, HeldDoor)])
    ensures AskedByKey(s, k) == ([], None) && ClosesWith(s, k).None?
  {
    hide ArmQuestion;
  }

  lemma HeldAccount(s: State, k: Key)
    requires s.view == HeldList && LayerOf(s, k) == Views
    ensures KeyAccount(s, k, HeldKey(s, k).desk) && OpenAccount(s, k, HeldKey(s, k).desk)
  {
    HeldArms(s, k);
    assert s.desk.arms + [] == s.desk.arms && s.desk.calls + [] == s.desk.calls;
    hide HeldKey, Armed, AskedByKey, ClosesWith, LayerOf;
  }

  lemma AllocationAccount(s: State, k: Key)
    requires s.view == Allocation && LayerOf(s, k) == Views
    ensures KeyAccount(s, k, AllocationKey(s, k).desk)
  {
  }

  lemma AllocationOpens(s: State, k: Key)
    requires s.view == Allocation && LayerOf(s, k) == Views
    ensures OpenAccount(s, k, AllocationKey(s, k).desk)
  {
  }

  // ---- LIST ----

  /** What each of the letters is not. */
  lemma LettersClose(k: Key)
    ensures CloseResult(k) == ClosingLetter(k)
    ensures Is(k, 'x', 'X') || Is(k, 't', 'T') || Is(k, 'p', 'P') || Is(k, 'r', 'R') ==> CloseResult(k).None?
  {
  }

  lemma InList(s: State, k: Key)
    requires s.view == List && LayerOf(s, k) == Views
    ensures ClosesWith(s, k) == ClosingLetter(k)
    ensures AskedByKey(s, k) == if ClosingLetter(k).Some? then (Disposal(s), Some(Closing(ClosingLetter(k).value))) else AskedInList(k)
    ensures Armed(s, k) == ArmedByRow(RowAt(s.lists, s.lists.selected), k)
  {
    hide ClosingLetter, AskedInList, ArmedByRow, RowAt;
  }

  lemma OpeningAsksNothing(s: State, k: Key)
    ensures OpenRow(s).desk == s.desk
    ensures NothingElse(s, OpenKey(s, k).desk) && OpenKey(s, k).desk == s.desk.(revert := if Is(k, 'b', 'B') then None else s.desk.revert)
  {
    hide RowAt, OpenDetail, LoadCapacity, StartRefresh, OpenTail, LoadAllocation, Abandon;
  }

  /** The desk after a LIST key: closed, acted on by the row's keys, asked to pause or resume, or as it was. */
  lemma ListDesk(s: State, k: Key)
    ensures var d := ListKey(s, k).desk;
            if CloseResult(k).Some? then d == Close(s.desk, CloseResult(k).value)
            else if Is(k, 'x', 'X') || Is(k, 't', 'T') then d == RowKey(s.lists, s.desk, k)
            else if Is(k, 'p', 'P') then d == Perform(s.desk, CallPause, Acting)
            else if Is(k, 'r', 'R') then d == Perform(s.desk, CallResume, Acting)
            else NothingElse(s, d) && d == s.desk.(revert := if Is(k, 'b', 'B') then None else s.desk.revert)
  {
    OpeningAsksNothing(s, k);
    hide OpenRow, OpenKey, RowKey, CursorKey, Close, CloseResult;
  }

  lemma RowArms(s: State, k: Key)
    ensures ArmedByRow(RowAt(s.lists, s.lists.selected), k) != [] ==> Is(k, 'x', 'X') || Is(k, 't', 'T')
    ensures Is(k, 'x', 'X') || Is(k, 't', 'T') ==>
              var d := RowKey(s.lists, s.desk, k);
              && d.calls == s.desk.calls && d.pool == s.desk.pool && d.nextId == s.desk.nextId && d.disposed == s.desk.disposed
              && d.arms == s.desk.arms + ArmedByRow(RowAt(s.lists, s.lists.selected), k)
  {
    assert s.desk.arms + [] == s.desk.arms;
    hide RowAt;
  }

  lemma ListAccount(s: State, k: Key)
    requires s.view == List && LayerOf(s, k) == Views
    ensures KeyAccount(s, k, ListKey(s, k).desk)
  {
    hide *;
    LettersClose(k);
    InList(s, k);
    ListDesk(s, k);
    RowArms(s, k);
    SwitchesAre(k);
    var d := ListKey(s, k).desk;
    if CloseResult(k).Some? {
      ClosingAccount(s, k, d);
    } else if Is(k, 'p', 'P') || Is(k, 'r', 'R') {
      SwitchAccount(s, k, d, if Is(k, 'p', 'P') then CallPause else CallResume);
    } else {
      ArmingAccount(s, k, d);
    }
  }

  lemma SwitchesAre(k: Key)
    ensures AskedInList(k) == if Is(k, 'p', 'P') then ([CallPause], Some(Acting)) else if Is(k, 'r', 'R') then ([CallResume], Some(Acting)) else ([], None)
    ensures Is(k, 'x', 'X') || Is(k, 't', 'T') ==> !Is(k, 'p', 'P') && !Is(k, 'r', 'R')
    ensures Is(k, 'p', 'P') ==> !Is(k, 'r', 'R')
  {
  }

  lemma SwitchAccount(s: State, k: Key, d: Desk, call: Call)
    requires AskedByKey(s, k) == ([call], Some(Acting)) && ClosesWith(s, k).None? && Armed(s, k) == [] && d == Perform(s.desk, call, Acting)
    ensures KeyAccount(s, k, d)
  {
    Nothing(s);
    hide AskedByKey, ClosesWith, Armed;
  }

  lemma ArmingAccount(s: State, k: Key, d: Desk)
    requires AskedByKey(s, k) == ([], None) && ClosesWith(s, k).None?
    requires d.calls == s.desk.calls && d.pool == s.desk.pool && d.nextId == s.desk.nextId && d.disposed == s.desk.disposed
    requires d.arms == s.desk.arms + Armed(s, k)
    ensures KeyAccount(s, k, d)
  {
    Nothing(s);
    hide AskedByKey, ClosesWith, Armed;
  }

  lemma ClosingAccount(s: State, k: Key, d: Desk)
    requires ClosesWith(s, k).Some? && d == Close(s.desk, ClosesWith(s, k).value) && Armed(s, k) == []
    ensures KeyAccount(s, k, d)
  {
    Nothing(s);
    hide LayerOf, ClosesWith, Armed;
  }

  /** A key that arms nothing in LIST. */
  lemma NothingOpens(s: State, k: Key, d: Desk)
    requires s.view == List && LayerOf(s, k) == Views && Armed(s, k) == []
    requires d.cancel == s.desk.cancel && d.steer == s.desk.steer && d.revert == if Is(k, 'b', 'B') then None else s.desk.revert
    ensures OpenAccount(s, k, d)
  {
    hide LayerOf, Armed;
  }

  lemma RowOpens(s: State, k: Key)
    requires s.view == List && LayerOf(s, k) == Views && (Is(k, 'x', 'X') || Is(k, 't', 'T'))
    ensures OpenAccount(s, k, RowKey(s.lists, s.desk, k))
  {
    hide *;
    InList(s, k);
    RowKeyOpens(s, k);
    NotB(k);
    var d, armed := RowKey(s.lists, s.desk, k), Armed(s, k);
    if armed == [] { NothingOpens(s, k, d); } else if armed[0].ArmCancel? { QuestionOpened(s, k, d); } else { MessageOpened(s, k, d); }
  }

  lemma NotB(k: Key)
    requires Is(k, 'x', 'X') || Is(k, 't', 'T')
    ensures !Is(k, 'b', 'B')
  {
  }

  lemma QuestionOpened(s: State, k: Key, d: Desk)
    requires LayerOf(s, k) == Views && |Armed(s, k)| == 1 && Armed(s, k)[0].ArmCancel? && !Is(k, 'b', 'B')
    requires d.cancel == Some(Question(Armed(s, k)[0].job, Armed(s, k)[0].door)) && d.steer == s.desk.steer && d.revert == s.desk.revert
    ensures OpenAccount(s, k, d)
  {
    hide LayerOf, Armed;
  }

  lemma MessageOpened(s: State, k: Key, d: Desk)
    requires LayerOf(s, k) == Views && |Armed(s, k)| == 1 && Armed(s, k)[0].ArmMessage? && !Is(k, 'b', 'B')
    requires d.cancel == s.desk.cancel && d.revert == s.desk.revert
    requires d.steer == Some(Message(Armed(s, k)[0].job, Armed(s, k)[0].mode, MakeLineInput("")))
    ensures OpenAccount(s, k, d)
  {
    hide LayerOf, Armed;
  }

  /** What the row's keys open is what they arm. */
  lemma RowKeyOpens(s: State, k: Key)
    requires Is(k, 'x', 'X') || Is(k, 't', 'T')
    ensures var d, armed := RowKey(s.lists, s.desk, k), ArmedByRow(RowAt(s.lists, s.lists.selected), k);
            && d.revert == s.desk.revert
            && (armed == [] ==> d.cancel == s.desk.cancel && d.steer == s.desk.steer)
            && (armed != [] ==> |armed| == 1 && !armed[0].ArmRevert?)
            && (armed != [] && armed[0].ArmCancel? ==> d.cancel == Some(Question(armed[0].job, armed[0].door)) && d.steer == s.desk.steer)
            && (armed != [] && armed[0].ArmMessage? ==> d.cancel == s.desk.cancel && d.steer == Some(Message(armed[0].job, armed[0].mode, MakeLineInput(""))))
  {
    hide RowAt, MakeLineInput;
  }

  lemma QuietDesk(s: State, k: Key)
    requires !Is(k, 'x', 'X') && !Is(k, 't', 'T')
    ensures var d := ListKey(s, k).desk;
            d.cancel == s.desk.cancel && d.steer == s.desk.steer && d.revert == if Is(k, 'b', 'B') then None else s.desk.revert
  {
    ListDesk(s, k);
    assert Is(k, 'b', 'B') ==> CloseResult(k).None?;
    hide ListKey, CloseResult;
  }

  /** The layers a LIST key opens. */
  lemma ListOpens(s: State, k: Key)
    requires s.view == List && LayerOf(s, k) == Views
    ensures OpenAccount(s, k, ListKey(s, k).desk)
  {
    hide *;
    RowKeyDesk(s, k);
    if Is(k, 'x', 'X') || Is(k, 't', 'T') {
      RowOpens(s, k);
    } else {
      RowArms(s, k);
      InList(s, k);
      QuietDesk(s, k);
      NothingOpens(s, k, ListKey(s, k).desk);
    }
  }

  lemma RowKeyDesk(s: State, k: Key)
    ensures Is(k, 'x', 'X') || Is(k, 't', 'T') ==> ListKey(s, k).desk == RowKey(s.lists, s.desk, k)
  {
    LettersClose(k);
    ListDesk(s, k);
    hide ListKey, CloseResult, RowKey;
  }

  // ---- every key, every event, every run ----

  lemma QuietViewAccount(s: State, k: Key)
    requires s.view !in {List, HeldList, Allocation, TriggerDetail} || LayerOf(s, k).Watches?
    ensures KeyAccount(s, k, s.desk) && OpenAccount(s, k, s.desk)
  {
    NothingAsked(s, k, s.desk);
  }

  lemma QuietViewDesk(s: State, k: Key)
    requires s.view !in {List, HeldList, Allocation, TriggerDetail}
    ensures ViewKey(s, k).desk == s.desk
  {
    QuietForArms(s, k);
    QuietForArmsToo(s, k);
    hide RunDetailKey, ProjectsKey, HostsKey, VenuesKey, ParkedKey, LiveTailKey;
  }

  /** A key makes exactly the calls, leaves pending exactly the actions, and arms exactly what is said; and the layers open afterwards are those. */
  lemma KeysMakeTheirCalls(s: State, k: Key)
    ensures KeyAccount(s, k, KeyStep(s, k).desk) && OpenAccount(s, k, KeyStep(s, k).desk)
  {
    hide KeyAccount, OpenAccount, ViewKey, QuestionKey, MessageKey;
    match LayerOf(s, k)
    case Watches => QuietViewAccount(s, k); hide StartWatch;
    case Asks(_) => QuestionAccount(s, k);
    case Writes(_) => MessageAccount(s, k);
    case _ => ViewAccount(s, k); NotALayer(s, k);
  }

  lemma NotALayer(s: State, k: Key)
    requires LayerOf(s, k).Reverts? || LayerOf(s, k).Deletes? || LayerOf(s, k).Views?
    ensures KeyStep(s, k) == ViewKey(s, k)
  {
    hide ViewKey, QuestionKey, MessageKey, StartWatch;
  }

  lemma ViewAccount(s: State, k: Key)
    requires LayerOf(s, k).Reverts? || LayerOf(s, k).Deletes? || LayerOf(s, k).Views?
    ensures KeyAccount(s, k, ViewKey(s, k).desk) && OpenAccount(s, k, ViewKey(s, k).desk)
  {
    hide KeyAccount, OpenAccount, ListKey, HeldKey, AllocationKey, TriggerDetailKey, RunDetailKey, ProjectsKey, HostsKey, VenuesKey, ParkedKey, LiveTailKey;
    if s.view == Allocation {
      if LayerOf(s, k).Reverts? { RevertAccount(s, k); } else { AllocationAccount(s, k); AllocationOpens(s, k); }
    } else if s.view == TriggerDetail {
      if LayerOf(s, k).Deletes? { DeleteAccount(s, k); } else { TriggerAccount(s, k); }
    } else if s.view == List {
      ListAccount(s, k);
      ListOpens(s, k);
    } else if s.view == HeldList {
      HeldAccount(s, k);
    } else {
      QuietViewDesk(s, k);
      QuietViewAccount(s, k);
    }
  }

  function ArmedBy(s: State, e: Event): seq<Arming> {
    match e case Press(k) => Armed(s, k) case _ => []
  }

  /** The same of every event, the settling ones included. */
  lemma EventsMakeTheirCalls(s: State, e: Event)
    requires Enabled(s, e)
    ensures var d := Step(s, e).desk;
            && d.calls == s.desk.calls + Asked(s, e).0 && d.pool == Pending(s, e) && d.arms == s.desk.arms + ArmedBy(s, e)
            && d.nextId == s.desk.nextId + (if Asked(s, e).1.Some? then 1 else 0)
  {
    assert s.desk.calls + [] == s.desk.calls && s.desk.arms + [] == s.desk.arms;
    match e
    case Press(k) => KeysMakeTheirCalls(s, k); hide KeyStep, AskedByKey, Armed, OpenAccount;
    case ActSettles(id, planned) => SettleAccount(s, id, planned); hide Step, Asked, Pending, ArmedBy, Enabled;
    case Dispose =>
    case _ => OthersAskNothing(s, e); hide Step;
  }

  lemma OthersAskNothing(s: State, e: Event)
    requires Enabled(s, e) && !e.Press? && !e.ActSettles? && !e.Dispose?
    ensures Step(s, e).desk == s.desk
  {
    match e
    case RefreshResumes(id, a) => RefreshOnlyReads(s, id, a); hide RefreshStep;
    case ByIdSettles(_, _) => hide OpenDetail;
    case _ => hide StartRefresh, CapResumed, CapSettled, ContinuesSettled, RowsOf;
  }

  lemma SettleAccount(s: State, id: nat, planned: bool)
    requires Enabled(s, ActSettles(id, planned))
    ensures var e := ActSettles(id, planned);
            var d := Step(s, e).desk;
            && d.calls == s.desk.calls + Asked(s, e).0 && d.pool == Pending(s, e) && d.arms == s.desk.arms + ArmedBy(s, e)
            && d.nextId == s.desk.nextId + (if Asked(s, e).1.Some? then 1 else 0)
  {
    assert s.desk.calls + [] == s.desk.calls && s.desk.arms + [] == s.desk.arms;
    assert Step(s, ActSettles(id, planned)).desk == SettleAct(s.desk, id, planned) by { hide SettleAct, Refreshed, LoadAllocation; }
    hide Step;
  }

  /** What the events of a run ask for, in order. */
  function AllAsked(s: State, es: seq<Event>): seq<Call>
    requires EnabledRun(s, es)
    decreases |es|
  {
    if es == [] then [] else Asked(s, es[0]).0 + AllAsked(Step(s, es[0]), es[1..])
  }

  /** Over every run the calls made are exactly those its events ask for, in order. */
  lemma {:induction false} CallsAreWhatWasAsked(s: State, es: seq<Event>)
    requires EnabledRun(s, es)
    ensures RunFrom(s, es).desk.calls == s.desk.calls + AllAsked(s, es)
    decreases |es|
  {
    hide *;
    RunUnfolds(s, es);
    if es != [] {
      EventsMakeTheirCalls(s, es[0]);
      CallsAreWhatWasAsked(Step(s, es[0]), es[1..]);
    }
  }

  lemma RunUnfolds(s: State, es: seq<Event>)
    requires EnabledRun(s, es)
    ensures es == [] ==> RunFrom(s, es) == s && AllAsked(s, es) == [] && s.desk.calls + [] == s.desk.calls
    ensures es != [] ==>
              && Enabled(s, es[0]) && EnabledRun(Step(s, es[0]), es[1..])
              && RunFrom(s, es) == RunFrom(Step(s, es[0]), es[1..])
              && AllAsked(s, es) == Asked(s, es[0]).0 + AllAsked(Step(s, es[0]), es[1..])
  {
    hide Step, Enabled, Asked;
  }

  /**
   What a settled action is followed by: a refresh, unless one is in flight or the panel is disposed, after a call to cancel, pause,
   resume or send, and after a message that could not be planned; the allocation read again after a revert; nothing else.
   */
  lemma SettledActionsFollowUp(s: State, id: nat, planned: bool)
    requires Enabled(s, ActSettles(id, planned))
    ensures var t, a := Step(s, ActSettles(id, planned)), s.desk.pool[id];
            var refreshes := a.Acting? || (a.Planning? && !planned);
            && t == s.(desk := t.desk, refresh := t.refresh, alloc := t.alloc)
            && (if refreshes && !s.refresh.fetching && !s.desk.disposed
                then t.refresh.fetching && t.refresh.pool == s.refresh.pool[t.refresh.at := ReadingSnapshot]
                else t.refresh == s.refresh)
            && t.alloc.info == s.alloc.info && t.alloc.selected == s.alloc.selected
            && (if a.Reverting? then t.alloc.pool == s.alloc.pool + {s.alloc.nextId} else t.alloc == s.alloc)
  {
  }

  /** `y` to an open question cancels once, by the door and for the job its arming captured; the call is awaited and the question closed. */
  lemma YesCancels(s: State, k: Key)
    requires Reachable(s) && s.desk.cancel.Some? && s.view in {List, HeldList} && Is(k, 'y', 'Y')
    ensures var q, arm, d := s.desk.cancel.value, |s.desk.arms| - 1, KeyStep(s, k).desk;
            && 0 <= arm && s.desk.arms[arm] == ArmCancel(q.job, q.door)
            && d.calls == s.desk.calls + [CallCancel(arm, q.job, q.door)]
            && d.pool == s.desk.pool[s.desk.nextId := Acting] && d.cancel.None?
  {
    hide KeyStep, Reachable, Armed;
    KeysMakeTheirCalls(s, k);
    OpenIsLatest(s);
  }

  /** Enter in the input has its exact text planned, for the job and mode its arming captured, unless it is blank; and closes it. */
  lemma EnterPlans(s: State)
    requires Reachable(s) && s.desk.steer.Some? && s.view == List
    ensures var m, arm, d := s.desk.steer.value, |s.desk.arms| - 1, KeyStep(s, Enter).desk;
            && 0 <= arm && s.desk.arms[arm] == ArmMessage(m.job, m.mode) && d.steer.None?
            && if Keys.Blank(m.input.value) then d.calls == s.desk.calls && d.pool == s.desk.pool
               else && d.calls == s.desk.calls + [CallPlan(arm, m.job, m.mode, m.input.value)]
                    && d.pool == s.desk.pool[s.desk.nextId := Planning(arm, m.job, m.mode, m.input.value)]
  {
    hide KeyStep, Reachable, Armed;
    KeysMakeTheirCalls(s, Enter);
    OpenIsLatest(s);
  }

  /** `y` to a revert reverts to the row its arming captured. */
  lemma YesReverts(s: State, k: Key)
    requires Reachable(s) && s.desk.revert.Some? && Is(k, 'y', 'Y')
    ensures var row, arm, d := s.desk.revert.value, |s.desk.arms| - 1, KeyStep(s, k).desk;
            && 0 <= arm && s.desk.arms[arm] == ArmRevert(row)
            && d.calls == s.desk.calls + [CallRevert(arm, row)]
            && d.pool == s.desk.pool[s.desk.nextId := Reverting] && d.revert.None?
  {
    hide KeyStep, Reachable, Armed;
    KeysMakeTheirCalls(s, k);
    OpenIsLatest(s);
  }

  /** Escape, and `n` to a question, call nothing, leave nothing pending, and close what was open. */
  lemma NoCallsNothing(s: State, k: Key)
    requires LayerOf(s, k).Asks? || LayerOf(s, k).Writes? || LayerOf(s, k).Reverts? || LayerOf(s, k).Deletes?
    requires k == Escape || (Is(k, 'n', 'N') && !LayerOf(s, k).Writes?)
    ensures var d := KeyStep(s, k).desk;
            && d.calls == s.desk.calls && d.pool == s.desk.pool && d.arms == s.desk.arms && d.disposed == s.desk.disposed
            && (LayerOf(s, k).Asks? ==> d.cancel.None?) && (LayerOf(s, k).Writes? ==> d.steer.None?) && (LayerOf(s, k).Reverts? ==> d.revert.None?)
  {
    hide KeyStep, LayerOf;
    KeysMakeTheirCalls(s, k);
    assert s.desk.calls + [] == s.desk.calls && s.desk.arms + [] == s.desk.arms;
  }

  lemma OpenIsLatest(s: State)
    requires Reachable(s)
    ensures OpenTarget(s.desk).Some? ==> s.desk.arms != [] && s.desk.arms[|s.desk.arms| - 1] == OpenTarget(s.desk).value
    ensures s.desk.cancel.Some? ==> s.desk.steer.None? && s.desk.revert.None?
    ensures s.desk.steer.Some? ==> s.desk.revert.None?
    ensures s.desk.revert.Some? ==> s.view == Allocation
  {
    hide Reachable;
    ReachableInv(s);
    hide WatchInv, FlightInv, TailInv, TailReadsOk, DetailInv, InboxInv, CapInv, AllocInv, CallsInv, PlansInv, OpenTarget;
  }

  predicate NeverSettles(es: seq<Event>, id: nat) {
    forall i :: 0 <= i < |es| && es[i].ActSettles? ==> es[i].id != id
  }

  /** No action is lost: until its call settles it stays as it was asked for. */
  lemma {:induction false} PendingStays(s: State, es: seq<Event>, id: nat)
    requires EnabledRun(s, es) && NeverSettles(es, id)
    requires id < s.desk.nextId && id in s.desk.pool
    ensures var d := RunFrom(s, es).desk; id in d.pool && d.pool[id] == s.desk.pool[id]
    decreases |es|
  {
    hide *;
    RunUnfolds(s, es);
    if es != [] {
      EventsMakeTheirCalls(s, es[0]);
      PendingThrough(s, es, id);
      PendingStays(Step(s, es[0]), es[1..], id);
    }
  }

  lemma PendingThrough(s: State, es: seq<Event>, id: nat)
    requires es != [] && Enabled(s, es[0]) && NeverSettles(es, id) && id < s.desk.nextId && id in s.desk.pool
    ensures NeverSettles(es[1..], id) && id in Pending(s, es[0]) && Pending(s, es[0])[id] == s.desk.pool[id]
  {
    assert es[0].ActSettles? ==> es[0].id != id;
    hide Asked, Enabled;
  }

  /** A key that closes the panel disposes it, and once its clients are gone, whatever happens meanwhile, `done` is told exactly what it closed with. */
  lemma DoneIsToldWhatClosedIt(s: State, k: Key, es: seq<Event>, planned: bool)
    requires ClosesWith(s, k).Some?
    requires var t := KeyStep(s, k); EnabledRun(t, es) && NeverSettles(es, s.desk.nextId)
    ensures KeyStep(s, k).desk.disposed
    ensures var u, e := RunFrom(KeyStep(s, k), es), ActSettles(s.desk.nextId, planned);
            && Enabled(u, e)
            && Step(u, e).desk.calls == u.desk.calls + [CallDone(ClosesWith(s, k).value)]
  {
    hide *;
    KeysMakeTheirCalls(s, k);
    ClosingIsPending(s, k);
    PendingStays(KeyStep(s, k), es, s.desk.nextId);
    var u := RunFrom(KeyStep(s, k), es);
    DoneIsCalled(u, s.desk.nextId, ClosesWith(s, k).value, planned);
  }

  lemma ClosingIsPending(s: State, k: Key)
    requires ClosesWith(s, k).Some? && KeyAccount(s, k, KeyStep(s, k).desk)
    ensures var d := KeyStep(s, k).desk;
            d.disposed && s.desk.nextId in d.pool && d.pool[s.desk.nextId] == Closing(ClosesWith(s, k).value) && s.desk.nextId < d.nextId
  {
    hide KeyStep, ClosesWith, Armed;
  }

  lemma DoneIsCalled(u: State, id: nat, result: Result, planned: bool)
    requires id in u.desk.pool && u.desk.pool[id] == Closing(result)
    ensures Enabled(u, ActSettles(id, planned)) && Step(u, ActSettles(id, planned)).desk.calls == u.desk.calls + [CallDone(result)]
  {
    EventsMakeTheirCalls(u, ActSettles(id, planned));
    hide Step;
  }
}
