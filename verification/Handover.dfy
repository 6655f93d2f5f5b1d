/**
 The receiver container step of the setup wizard (admin/src/setup-wizard.ts, `offerTriggerEdge`'s compose branch, and
 worker/src/valkey-auth.mjs, `composeHandoverPlan`): `up`'s Valkey handed to compose on the same volume, step by step,
 with the override put back when a later step fails. What docker and the file system answer is a script.
 */
module Handover {
  import opened Wrappers

  /** `pi-dispatch-valkey`: absent, this deployment's, or another's (which may mount the queue's volume). */
  datatype UpValkey = Absent | Ours(running: bool) | Foreign(running: bool, onVolume: bool)

  /** Compose's own `valkey`, on its own volume or, through the override, on the queue's. */
  datatype ComposeValkey = Down | OnOwnVolume | OnQueueVolume

  /** Whose the queue's volume is; `dated` is whether docker gives its creation time. */
  datatype Volume = NoVolume | Mine | Other | Unlabelled(dated: bool)

  /**
   `others` says another deployment's container mounts the queue's volume, `check` that `up`'s owner check runs on it, and
   `record` that this folder adopted it.
   */
  datatype World = World(
    up: UpValkey, compose: ComposeValkey, volume: Volume, others: bool, check: bool, record: bool,
    override_: Option<string>, composeFile: Option<string>, proxyFile: Option<string>)

  /** What a failed step left behind: nothing, something partial, or all it was to do. */
  datatype Part = Untouched | Torn | Complete
  datatype Outcome = Done | Failed(part: Part)
  datatype Marker = ThisFolder | OtherFolder | Unreadable

  /** The answers of one run; `inspect`, `users` and `volumeRead` are whether docker answers those three questions. */
  datatype Script = Script(
    copyCompose: Outcome, copyProxy: Outcome, inspect: bool, users: bool, volumeRead: bool, confirm: bool,
    pull: Outcome, write: Outcome, stop: Outcome, remove: Outcome, start: Outcome, unlink: bool,
    marker: Marker, stopAgain: Outcome, keepRecord: Outcome)

  datatype Result =
    | CopyFailed | Refused | AdoptFirst | Declined
    | PullFailed | WriteFailed | StopFailed | RemoveFailed | StartFailed(handover: bool)
    | Started

  const COMPOSE_YML := "docker-compose.yml"
  const PROXY_CONF := "egress-proxy.conf"
  const OVERRIDE_YML := "services.valkey on pi-dispatch-valkey-data"
  const TORN := ""

  // ---- the plan ----

  datatype Plan = Refuse | Adopt | Go(handover: bool, record: bool)

  predicate Foreigners(w: World) {
    w.others || (w.up.Foreign? && w.up.onVolume)
  }

  function RecordMatches(w: World): bool {
    w.record && w.volume == Unlabelled(true)
  }

  function HandoverPlan(w: World, a: Script): Plan {
    var handover := w.up.Ours?;
    if !a.inspect then Refuse
    else if w.override_.None? && !handover then Go(false, false)
    else if !a.users || Foreigners(w) || !a.volumeRead || w.volume == Other then Refuse
    else if w.volume.Unlabelled? && !handover && !RecordMatches(w) then Adopt
    else Go(handover, handover && w.volume == Unlabelled(true) && !RecordMatches(w))
  }

  // ---- one run, as the states it goes through ----

  /** A file created only where there was none. */
  function Created(was: Option<string>, text: string, o: Outcome): Option<string> {
    if was.Some? then was
    else if o.Done? then Some(text)
    else match o.part case Untouched => None case Torn => Some(TORN) case Complete => Some(text)
  }

  function StopUp(w: World, o: Outcome): (r: World)
    ensures r == w.(up := r.up)
  {
    if w.up.Ours? && (o.Done? || o.part == Complete) then w.(up := Ours(false)) else w
  }

  function RemoveUp(w: World, o: Outcome): (r: World)
    ensures r == w.(up := r.up)
  {
    if o.Done? || o.part == Complete then w.(up := Absent) else w
  }

  function StartCompose(w: World, o: Outcome, onQueue: bool): (r: World)
    ensures r == w.(compose := r.compose)
  {
    var target := if onQueue then OnQueueVolume else OnOwnVolume;
    if o.Done? || o.part == Complete then w.(compose := target)
    else if o.part == Torn then w.(compose := Down)
    else w
  }

  function StopCompose(w: World, o: Outcome): (r: World)
    ensures r == w.(compose := r.compose)
  {
    if o.Done? || o.part == Complete then w.(compose := Down) else w
  }

  function PutBack(w: World, wrote: bool, unlink: bool): (r: World)
    ensures r == w.(override_ := r.override_)
  {
    if wrote && unlink then w.(override_ := None) else w
  }

  function CheckMarker(w: World, a: Script): (r: World)
    ensures r == w.(compose := r.compose)
  {
    if a.marker == OtherFolder then StopCompose(w, a.stopAgain) else w
  }

  function KeepRecord(w: World, keep: bool, o: Outcome): (r: World)
    ensures r == w.(record := r.record)
  {
    if keep && (o.Done? || o.part == Complete) then w.(record := true) else w
  }

  /** The states a run goes through, one for each step it takes, and how it ends. */
  function Run(w: World, a: Script): (seq<World>, Result) {
    var w1 := w.(composeFile := Created(w.composeFile, COMPOSE_YML, a.copyCompose));
    if w.composeFile.None? && a.copyCompose.Failed? then ([w1], CopyFailed)
    else
      var w2 := w1.(proxyFile := Created(w.proxyFile, PROXY_CONF, a.copyProxy));
      var (ws, r) := Steps(w2, a);
      ([w1, w2] + ws, r)
  }

  function Steps(w: World, a: Script): (seq<World>, Result) {
    match HandoverPlan(w, a)
    case Refuse => ([], Refused)
    case Adopt => ([], AdoptFirst)
    case Go(handover, record) =>
      if !a.confirm then ([], Declined)
      else if handover then HandOver(w, a, record)
      else JustStart(w, a)
  }

  /** The last of the states, or the first state where there is none. */
  function Last(w: World, ws: seq<World>): World {
    if ws == [] then w else ws[|ws| - 1]
  }

  function JustStart(w: World, a: Script): (seq<World>, Result) {
    var started := StartCompose(w, a.start, w.override_.Some?);
    if a.start.Failed? then ([started], StartFailed(false))
    else if w.override_.Some? then ([started, CheckMarker(started, a)], Started)
    else ([started], Started)
  }

  function HandOver(w: World, a: Script, record: bool): (seq<World>, Result) {
    if a.pull.Failed? then ([w], PullFailed)
    else
      var wrote := w.override_.None?;
      var written := w.(override_ := Created(w.override_, OVERRIDE_YML, a.write));
      if wrote && a.write.Failed? then ([w, written], WriteFailed)
      else
        var (ws, r) := Replace(written, a, wrote, record);
        ([w, written] + ws, r)
  }

  /** `up`'s container stopped and removed; `wrote` is whether the override is this run's. */
  function Replace(w: World, a: Script, wrote: bool, record: bool): (seq<World>, Result) {
    var stopped := StopUp(w, a.stop);
    if a.stop.Failed? then ([stopped, PutBack(stopped, wrote, a.unlink)], StopFailed)
    else
      var (ws, r) := RemoveThen(stopped, a, wrote, record);
      ([stopped] + ws, r)
  }

  function RemoveThen(w: World, a: Script, wrote: bool, record: bool): (seq<World>, Result) {
    var removed := RemoveUp(w, a.remove);
    if a.remove.Failed? then ([removed, PutBack(removed, wrote, a.unlink)], RemoveFailed)
    else
      var (ws, r) := Serve(removed, a, wrote, record);
      ([removed] + ws, r)
  }

  function Serve(w: World, a: Script, wrote: bool, record: bool): (seq<World>, Result) {
    var started := StartCompose(w, a.start, true);
    if a.start.Failed? then ([started, PutBack(started, wrote, a.unlink)], StartFailed(true))
    else
      var checked := CheckMarker(started, a);
      ([started, checked, KeepRecord(checked, record, a.keepRecord)], Started)
  }

  function End(w: World, a: Script): World {
    Last(w, Run(w, a).0)
  }

  // ---- the wizard ----

  class Deployment {
    var up: UpValkey
    var compose: ComposeValkey
    const volume: Volume
    const others: bool
    const check: bool
    var record: bool
    var override_: Option<string>
    var composeFile: Option<string>
    var proxyFile: Option<string>
    ghost var trace: seq<World>

    function Abs(): World reads this {
      World(up, compose, volume, others, check, record, override_, composeFile, proxyFile)
    }

    constructor (w: World)
      ensures Abs() == w && trace == []
    {
      up, compose, volume, others, check, record := w.up, w.compose, w.volume, w.others, w.check, w.record;
      override_, composeFile, proxyFile, trace := w.override_, w.composeFile, w.proxyFile, [];
    }

    ghost method Mark()
      modifies this`trace
      ensures trace == old(trace) + [Abs()]
    {
      trace := trace + [Abs()];
    }

    /** The compose branch, once: it goes through exactly the states of `Run`, and ends as `Run` says. */
    method ReceiverContainer(a: Script) returns (r: Result)
      modifies this
      ensures trace == old(trace) + Run(old(Abs()), a).0 && r == Run(old(Abs()), a).1
      ensures Abs() == End(old(Abs()), a)
    {
      hide Steps;
      if composeFile.None? {
        composeFile := Created(None, COMPOSE_YML, a.copyCompose);
        if a.copyCompose.Failed? {
          Mark();
          return CopyFailed;
        }
      }
      Mark();
      CopyProxy(a);
      r := CarryOut(a);
    }

    method CopyProxy(a: Script)
      modifies this`proxyFile, this`trace
      ensures Abs() == old(Abs()).(proxyFile := Created(old(proxyFile), PROXY_CONF, a.copyProxy))
      ensures trace == old(trace) + [Abs()]
    {
      if proxyFile.None? {
        proxyFile := Created(None, PROXY_CONF, a.copyProxy);
      }
      Mark();
    }

    /** What follows the copies: the plan, the question, and the steps. */
    method CarryOut(a: Script) returns (r: Result)
      modifies this`up, this`compose, this`override_, this`record, this`trace
      ensures var (ws, end) := Steps(old(Abs()), a);
              trace == old(trace) + ws && r == end && Abs() == Last(old(Abs()), ws)
    {
      hide JustStart, HandOver;
      var plan := HandoverPlan(Abs(), a);
      if plan == Refuse {
        return Refused;
      }
      if plan == Adopt {
        return AdoptFirst;
      }
      if !a.confirm {
        return Declined;
      }
      if plan.handover {
        r := GiveUpToCompose(a, plan.record);
      } else {
        r := StartReceiver(a);
      }
    }

    method StartReceiver(a: Script) returns (r: Result)
      modifies this`compose, this`trace
      ensures var (ws, end) := JustStart(old(Abs()), a);
              trace == old(trace) + ws && r == end && Abs() == Last(old(Abs()), ws) && ws != []
    {
      var started := StartCompose(Abs(), a.start, override_.Some?);
      compose := started.compose;
      Mark();
      if a.start.Failed? {
        return StartFailed(false);
      }
      if override_.Some? {
        OwnerMarker(a);
      }
      return Started;
    }

    /** The started queue's owner marker: another folder's stops compose's valkey again at once. */
    method OwnerMarker(a: Script)
      modifies this`compose, this`trace
      ensures Abs() == CheckMarker(old(Abs()), a) && trace == old(trace) + [Abs()]
    {
      if a.marker == OtherFolder {
        compose := StopCompose(Abs(), a.stopAgain).compose;
      }
      Mark();
    }

    method GiveUpToCompose(a: Script, keep: bool) returns (r: Result)
      requires up.Ours?
      modifies this`up, this`compose, this`override_, this`record, this`trace
      ensures var (ws, end) := HandOver(old(Abs()), a, keep);
              trace == old(trace) + ws && r == end && Abs() == Last(old(Abs()), ws) && ws != []
    {
      hide Replace;
      Mark();
      if a.pull.Failed? {
        return PullFailed;
      }
      var wrote := false;
      if override_.None? {
        override_ := Created(None, OVERRIDE_YML, a.write);
        if a.write.Failed? {
          Mark();
          return WriteFailed;
        }
        wrote := true;
      }
      Mark();
      r := ReplaceUp(a, wrote, keep);
    }

    method ReplaceUp(a: Script, wrote: bool, keep: bool) returns (r: Result)
      modifies this`up, this`compose, this`override_, this`record, this`trace
      ensures var (ws, end) := Replace(old(Abs()), a, wrote, keep);
              trace == old(trace) + ws && r == end && Abs() == Last(old(Abs()), ws) && ws != []
    {
      hide StopUp, RemoveThen, PutBack;
      up := StopUp(Abs(), a.stop).up;
      Mark();
      if a.stop.Failed? {
        Undo(wrote, a.unlink);
        return StopFailed;
      }
      r := RemoveAndStart(a, wrote, keep);
    }

    method RemoveAndStart(a: Script, wrote: bool, keep: bool) returns (r: Result)
      modifies this`up, this`compose, this`override_, this`record, this`trace
      ensures var (ws, end) := RemoveThen(old(Abs()), a, wrote, keep);
              trace == old(trace) + ws && r == end && Abs() == Last(old(Abs()), ws) && ws != []
    {
      hide RemoveUp, PutBack, Serve;
      up := RemoveUp(Abs(), a.remove).up;
      Mark();
      if a.remove.Failed? {
        Undo(wrote, a.unlink);
        return RemoveFailed;
      }
      r := StartInPlace(a, wrote, keep);
    }

    method StartInPlace(a: Script, wrote: bool, keep: bool) returns (r: Result)
      modifies this`compose, this`override_, this`record, this`trace
      ensures var (ws, end) := Serve(old(Abs()), a, wrote, keep);
              trace == old(trace) + ws && r == end && Abs() == Last(old(Abs()), ws) && ws != []
    {
      hide StartCompose, CheckMarker, KeepRecord, PutBack;
      compose := StartCompose(Abs(), a.start, true).compose;
      Mark();
      if a.start.Failed? {
        Undo(wrote, a.unlink);
        return StartFailed(true);
      }
      OwnerMarker(a);
      record := KeepRecord(Abs(), keep, a.keepRecord).record;
      Mark();
      return Started;
    }

    /** `putBack`: the override is removed only where this run wrote it. */
    method Undo(wrote: bool, unlink: bool)
      modifies this`override_, this`trace
      ensures Abs() == PutBack(old(Abs()), wrote, unlink) && trace == old(trace) + [Abs()]
    {
      if wrote && unlink {
        override_ := None;
      }
      Mark();
    }
  }

  // ---- what every state of a run keeps ----

  /** How many of this deployment's Valkeys serve the queue's volume. */
  function Serving(w: World): nat {
    (if w.up == Ours(true) then 1 else 0) + (if w.compose == OnQueueVolume then 1 else 0) + (if w.check then 1 else 0)
  }

  /** No two Valkeys serve the queue's volume, another deployment's included. */
  predicate OneServes(w: World) {
    Serving(w) == 0 || (Serving(w) == 1 && !Foreigners(w))
  }

  ghost predicate All(ws: seq<World>, p: World -> bool) {
    forall i :: 0 <= i < |ws| ==> p(ws[i])
  }

  lemma RemoveKeepsOneServing(w: World, a: Script, wrote: bool, record: bool)
    requires OneServes(w) && w.up == Ours(false) && !Foreigners(w) && !w.check
    ensures All(RemoveThen(w, a, wrote, record).0, OneServes)
  {
    hide PutBack, KeepRecord, RecordMatches;
  }

  lemma ReplaceKeepsOneServing(w: World, a: Script, wrote: bool, record: bool)
    requires OneServes(w) && w.up.Ours? && !Foreigners(w) && !w.check
    ensures All(Replace(w, a, wrote, record).0, OneServes)
  {
    var stopped := StopUp(w, a.stop);
    if a.stop.Done? { RemoveKeepsOneServing(stopped, a, wrote, record); }
    hide PutBack, RemoveThen;
  }

  lemma HandOverKeepsOneServing(w: World, a: Script, record: bool)
    requires OneServes(w) && w.up.Ours? && !Foreigners(w) && !w.check
    ensures All(HandOver(w, a, record).0, OneServes)
  {
    hide Replace;
    var written := w.(override_ := Created(w.override_, OVERRIDE_YML, a.write));
    ReplaceKeepsOneServing(written, a, w.override_.None?, record);
  }

  lemma RunKeepsOneServing(w: World, a: Script)
    requires OneServes(w) && !w.check
    ensures All(Run(w, a).0, OneServes) && !End(w, a).check
  {
    hide HandOver;
    var w2 := w.(composeFile := Created(w.composeFile, COMPOSE_YML, a.copyCompose), proxyFile := Created(w.proxyFile, PROXY_CONF, a.copyProxy));
    if w2.up.Ours? && !Foreigners(w2) {
      HandOverKeepsOneServing(w2, a, false);
      HandOverKeepsOneServing(w2, a, true);
    }
    RunChecksNothing(w, a);
  }

  /** What no step of a run changes. */
  predicate Unchecked(w: World, v: World) {
    v.check == w.check && v.others == w.others && v.volume == w.volume
  }

  lemma RunChecksNothing(w: World, a: Script)
    ensures Unchecked(w, End(w, a))
  {
    var w2 := w.(composeFile := Created(w.composeFile, COMPOSE_YML, a.copyCompose), proxyFile := Created(w.proxyFile, PROXY_CONF, a.copyProxy));
    HandOverChecksNothing(w2, a, false);
    HandOverChecksNothing(w2, a, true);
    hide HandOver, StartCompose, CheckMarker, Created, HandoverPlan;
  }

  lemma HandOverChecksNothing(w: World, a: Script, record: bool)
    ensures Unchecked(w, Last(w, HandOver(w, a, record).0))
  {
    ReplaceChecksNothing(w.(override_ := Created(w.override_, OVERRIDE_YML, a.write)), a, w.override_.None?, record);
    hide Replace, Created;
  }

  lemma RemoveChecksNothing(w: World, a: Script, wrote: bool, record: bool)
    ensures Unchecked(w, Last(w, RemoveThen(w, a, wrote, record).0)) && RemoveThen(w, a, wrote, record).0 != []
  {
    hide RemoveUp, StartCompose, CheckMarker, KeepRecord, PutBack;
  }

  lemma ReplaceChecksNothing(w: World, a: Script, wrote: bool, record: bool)
    ensures Unchecked(w, Last(w, Replace(w, a, wrote, record).0))
  {
    RemoveChecksNothing(StopUp(w, a.stop), a, wrote, record);
    hide StopUp, RemoveThen, PutBack;
  }

  /** `up`'s container goes only in a run whose pull and stop succeeded, it is stopped just before, and another deployment's never changes. */
  lemma RemovedOnlyAfterPullAndStop(w: World, a: Script, i: nat)
    requires i < |Run(w, a).0|
    ensures w.up.Ours? && Run(w, a).0[i].up == Absent ==>
              a.confirm && a.pull == Done && a.stop == Done && i >= 5 && Run(w, a).0[4].up == Ours(false)
    ensures w.up.Ours? && Run(w, a).0[i].up != w.up ==> a.pull == Done && Run(w, a).0[3].override_.Some?
    ensures !w.up.Ours? ==> Run(w, a).0[i].up == w.up
  {
  }

  /** A run reaches the hand-over's own steps: the compose file is there, the plan says so, and the images were pulled. */
  predicate HandsOver(w: World, a: Script) {
    && (w.composeFile.Some? || a.copyCompose.Done?)
    && w.up.Ours? && a.inspect && a.users && !Foreigners(w) && a.volumeRead && w.volume != Other
    && a.confirm && a.pull.Done?
  }

  /** A failed write of the override left something behind, or a later step failed and its unlink did too. */
  predicate OverrideLeft(w: World, a: Script) {
    && w.override_.None? && HandsOver(w, a)
    && (if a.write.Failed? then a.write.part != Untouched else !a.unlink && (a.stop.Failed? || a.remove.Failed? || a.start.Failed?))
  }

  /** A run that does not start the receiver leaves the override as it found it, except exactly then. */
  lemma FailedRunPutsTheOverrideBackIff(w: World, a: Script)
    ensures Run(w, a).1 != Started && End(w, a).override_ != w.override_ <==> OverrideLeft(w, a)
  {
    var w2 := w.(composeFile := Created(w.composeFile, COMPOSE_YML, a.copyCompose), proxyFile := Created(w.proxyFile, PROXY_CONF, a.copyProxy));
    HandOverLeavesTheOverride(w2, a, true);
    HandOverLeavesTheOverride(w2, a, false);
    hide HandOver, StartCompose, CheckMarker, Created;
  }

  lemma HandOverLeavesTheOverride(w: World, a: Script, record: bool)
    ensures HandOver(w, a, record).1 != Started && Last(w, HandOver(w, a, record).0).override_ != w.override_
       <==> a.pull.Done? && w.override_.None?
            && (if a.write.Failed? then a.write.part != Untouched else !a.unlink && (a.stop.Failed? || a.remove.Failed? || a.start.Failed?))
  {
    hide StopUp, RemoveUp, StartCompose, CheckMarker, KeepRecord;
  }

  lemma ServeKeepsFiles(w: World, a: Script, wrote: bool, record: bool)
    ensures forall i :: 0 <= i < |Serve(w, a, wrote, record).0| ==>
              var v := Serve(w, a, wrote, record).0[i];
              v.composeFile == w.composeFile && v.proxyFile == w.proxyFile && (!wrote ==> v.override_ == w.override_)
  {
    hide StartCompose, StopCompose, CheckMarker, KeepRecord;
  }

  lemma RemoveKeepsFiles(w: World, a: Script, wrote: bool, record: bool)
    ensures forall i :: 0 <= i < |RemoveThen(w, a, wrote, record).0| ==>
              var v := RemoveThen(w, a, wrote, record).0[i];
              v.composeFile == w.composeFile && v.proxyFile == w.proxyFile && (!wrote ==> v.override_ == w.override_)
  {
    ServeKeepsFiles(RemoveUp(w, a.remove), a, wrote, record);
    hide RemoveUp, Serve;
  }

  lemma ReplaceKeepsFiles(w: World, a: Script, wrote: bool, record: bool)
    ensures forall i :: 0 <= i < |Replace(w, a, wrote, record).0| ==>
              var v := Replace(w, a, wrote, record).0[i];
              v.composeFile == w.composeFile && v.proxyFile == w.proxyFile && (!wrote ==> v.override_ == w.override_)
  {
    RemoveKeepsFiles(StopUp(w, a.stop), a, wrote, record);
    hide StopUp, RemoveThen;
  }

  lemma HandOverKeepsFiles(w: World, a: Script, record: bool)
    ensures forall i :: 0 <= i < |HandOver(w, a, record).0| ==> SameFiles(w, HandOver(w, a, record).0[i])
  {
    hide Replace;
    ReplaceKeepsFiles(w.(override_ := Created(w.override_, OVERRIDE_YML, a.write)), a, w.override_.None?, record);
  }

  predicate SameFiles(w: World, v: World) {
    && (w.override_.Some? ==> v.override_ == w.override_)
    && (w.composeFile.Some? ==> v.composeFile == w.composeFile)
    && (w.proxyFile.Some? ==> v.proxyFile == w.proxyFile)
  }

  lemma RunKeepsFiles(w: World, a: Script)
    ensures forall i :: 0 <= i < |Run(w, a).0| ==> SameFiles(w, Run(w, a).0[i])
  {
    hide HandOver;
    var w2 := w.(composeFile := Created(w.composeFile, COMPOSE_YML, a.copyCompose), proxyFile := Created(w.proxyFile, PROXY_CONF, a.copyProxy));
    HandOverKeepsFiles(w2, a, false);
    HandOverKeepsFiles(w2, a, true);
  }

  // ---- what a run that succeeds serves ----

  predicate NothingFails(a: Script) {
    && a.copyCompose == Done && a.copyProxy == Done && a.inspect && a.users && a.volumeRead && a.confirm
    && a.pull == Done && a.write == Done && a.stop == Done && a.remove == Done && a.start == Done && a.marker != OtherFolder
  }

  /**
   Where nothing fails, the receiver starts exactly where the plan goes; the queue is then handed over, with the override
   that names its volume, if and only if `up`'s container is there to hand over or the override already is.
   */
  lemma CleanRunServesTheQueueIff(w: World, a: Script)
    requires NothingFails(a)
    ensures Run(w, a).1 == Started <==> HandoverPlan(w, a).Go?
    ensures HandoverPlan(w, a).Go? ==> (End(w, a).compose == OnQueueVolume <==> w.up.Ours? || w.override_.Some?)
    ensures HandoverPlan(w, a).Go? && End(w, a).compose == OnQueueVolume ==> !End(w, a).up.Ours? && End(w, a).override_.Some?
  {
  }

  /** What such a run leaves. */
  lemma CleanRunEndsServing(w: World, a: Script)
    requires NothingFails(a) && HandoverPlan(w, a).Go?
    ensures var v, queue := End(w, a), w.up.Ours? || w.override_.Some?;
            && Run(w, a).1 == Started
            && v.up == (if w.up.Ours? then Absent else w.up)
            && v.compose == (if queue then OnQueueVolume else OnOwnVolume)
            && v.override_ == (if w.up.Ours? && w.override_.None? then Some(OVERRIDE_YML) else w.override_)
            && v.composeFile == Some(w.composeFile.GetOr(COMPOSE_YML)) && v.proxyFile == Some(w.proxyFile.GetOr(PROXY_CONF))
            && v.volume == w.volume && v.others == w.others && v.check == w.check && (!w.up.Ours? ==> v.record == w.record)
  {
  }

  /** The hand-over of an unlabelled volume that this folder has no record of afterwards: docker dates none, or it was not kept. */
  predicate Unrecorded(w: World, v: World) {
    w.up.Ours? && v.volume.Unlabelled? && !RecordMatches(v)
  }

  /** Run again, it changes nothing more and starts again, except exactly after such a hand-over, where it asks for an adoption. */
  lemma CleanRunIsRepeatableIff(w: World, a: Script, b: Script)
    requires NothingFails(a) && NothingFails(b) && HandoverPlan(w, a).Go?
    ensures var v := End(w, a);
            && End(v, b) == v
            && Run(v, b).1 == if Unrecorded(w, v) then AdoptFirst else Started
  {
    CleanRunEndsServing(w, a);
    var v := End(w, a);
    GoMeans(w, a);
    if Unrecorded(w, v) {
      AdoptionChangesNothing(v, b);
    } else {
      hide Run, End;
      CleanRunEndsServing(v, b);
    }
  }

  lemma GoMeans(w: World, a: Script)
    requires HandoverPlan(w, a).Go?
    ensures w.override_.Some? || w.up.Ours? ==>
              !Foreigners(w) && w.volume != Other && (w.volume.Unlabelled? && !w.up.Ours? ==> RecordMatches(w))
  {
  }

  lemma AdoptionChangesNothing(v: World, b: Script)
    requires NothingFails(b) && HandoverPlan(v, b).Adopt? && v.composeFile.Some? && v.proxyFile.Some?
    ensures Run(v, b).1 == AdoptFirst && End(v, b) == v
  {
  }

  /** The upgrade: `up`'s container serves an unlabelled volume that docker does not date. */
  lemma AnUndatedVolumeIsAskedAboutAgain(w: World, a: Script, b: Script)
    requires NothingFails(a) && NothingFails(b)
    requires w.up == Ours(true) && w.volume == Unlabelled(false) && !w.others
    ensures Run(w, a).1 == Started && Run(End(w, a), b).1 == AdoptFirst
  {
    CleanRunServesTheQueueIff(w, a);
    CleanRunIsRepeatableIff(w, a, b);
    CleanRunEndsServing(w, a);
    hide Run, End;
  }

  // ---- whose queue it turned out to be ----

  /** The step has its effect, whether or not it says so. */
  predicate TakesEffect(o: Outcome) {
    o.Done? || o.part == Complete
  }

  /**
   A run that starts compose on the queue's volume leaves it there unless the queue's owner marker is another folder's;
   then it is stopped again, and runs on only where that stop does not take. Without the override it is started on its
   own volume, and the marker changes nothing.
   */
  lemma TheMarkerDecides(w: World, a: Script)
    requires Run(w, a).1 == Started
    ensures w.override_.Some? || w.up.Ours? ==>
              End(w, a).compose == if a.marker == OtherFolder && TakesEffect(a.stopAgain) then Down else OnQueueVolume
    ensures w.override_.None? && !w.up.Ours? ==>
              End(w, a).compose == OnOwnVolume && forall m, o :: Run(w, a.(marker := m, stopAgain := o)) == Run(w, a)
  {
  }

  /** A hand-over of an unlabelled volume that docker dates is recorded where the write takes, and then starts again on the next run. */
  lemma ADatedUpgradeStartsAgain(w: World, a: Script, b: Script)
    requires NothingFails(a) && NothingFails(b)
    requires w.up == Ours(true) && w.volume == Unlabelled(true) && !w.others && TakesEffect(a.keepRecord)
    ensures Run(w, a).1 == Started && End(w, a).record && Run(End(w, a), b).1 == Started
  {
    HandOverRecords(w, a);
    CleanRunIsRepeatableIff(w, a, b);
    CleanRunEndsServing(w, a);
    hide Run, End;
  }

  lemma HandOverRecords(w: World, a: Script)
    requires NothingFails(a) && w.up == Ours(true) && w.volume == Unlabelled(true) && !w.others && TakesEffect(a.keepRecord)
    ensures End(w, a).record && HandoverPlan(w, a).Go?
  {
  }

  // ---- which runs go ahead ----

  /** The compose file is there, or was copied. */
  predicate HasComposeFile(w: World, a: Script) {
    w.composeFile.Some? || a.copyCompose.Done?
  }

  /**
   How a run ends before its first step: without the compose file it cannot; it is refused where docker does not answer,
   or where the queue's volume would be used and another deployment uses it or owns it; it asks for an adoption where
   nobody can say whose that volume is; and it is declined. Each leaves every Valkey, the override and the record as they were.
   */
  lemma RunsGoAheadIff(w: World, a: Script)
    ensures var (r, v, queue) := (Run(w, a).1, End(w, a), w.override_.Some? || w.up.Ours?);
            var answered := a.inspect && (queue ==> a.users && a.volumeRead);
            var refused := !answered || (queue && (Foreigners(w) || w.volume == Other));
            var adopts := w.override_.Some? && !w.up.Ours? && w.volume.Unlabelled? && !(w.record && w.volume.dated);
            && (r == CopyFailed <==> !HasComposeFile(w, a))
            && (r == Refused <==> HasComposeFile(w, a) && refused)
            && (r == AdoptFirst <==> HasComposeFile(w, a) && !refused && adopts)
            && (r == Declined <==> HasComposeFile(w, a) && !refused && !adopts && !a.confirm)
            && (r in {CopyFailed, Refused, AdoptFirst, Declined} ==>
                  v.up == w.up && v.compose == w.compose && v.override_ == w.override_ && v.record == w.record)
  {
    hide HandOver, JustStart;
    HandOverGoesAhead(w.(composeFile := Created(w.composeFile, COMPOSE_YML, a.copyCompose), proxyFile := Created(w.proxyFile, PROXY_CONF, a.copyProxy)), a);
  }

  lemma HandOverGoesAhead(w: World, a: Script)
    ensures forall record :: HandOver(w, a, record).1 !in {CopyFailed, Refused, AdoptFirst, Declined}
    ensures JustStart(w, a).1 !in {CopyFailed, Refused, AdoptFirst, Declined}
  {
  }

  /** A file that is missing is there once its copy is made, at the end of the run as well. */
  lemma MissingFilesAreCopied(w: World, a: Script)
    ensures a.copyCompose.Done? ==> End(w, a).composeFile == Some(w.composeFile.GetOr(COMPOSE_YML))
    ensures HasComposeFile(w, a) && a.copyProxy.Done? ==> End(w, a).proxyFile == Some(w.proxyFile.GetOr(PROXY_CONF))
  {
    var w2 := w.(composeFile := Created(w.composeFile, COMPOSE_YML, a.copyCompose), proxyFile := Created(w.proxyFile, PROXY_CONF, a.copyProxy));
    HandOverKeepsFiles(w2, a, false);
    HandOverKeepsFiles(w2, a, true);
    hide HandOver;
  }
}
