/**
 Setup passes in any order: the receiver step of Handover.dfy, and the `pi-dispatch up` that each setup asks to run
 first (admin/src/setup-wizard.ts, step 5; worker/src/up.mjs, its Valkey step). `up` is another program, so it is its
 guards and what its commands leave behind; a Valkey that runs listens on the deployment's port.
 */
module Passes {
  import opened Wrappers
  import opened Handover

  /**
   The answers of one `up`: `here` is whether VALKEY_URL names this host, `listener` whether something else holds the
   port, `open` whether the listener takes no password where `.env` has one, `leftover` whether a stopped container of
   compose's is there; `adopt` and `consent` are the operator's.
   */
  datatype UpScript = UpScript(
    init: Outcome, here: bool, listener: bool, open: bool, leftover: bool,
    inspect: bool, users: bool, volumeRead: bool,
    adopt: bool, check: Outcome, checked: Marker, checkStop: Outcome, keepRecord: Outcome,
    consent: bool, create: Outcome, stop: Outcome, remove: Outcome, start: Outcome,
    marker: Marker, stopAgain: Outcome, removeAgain: Outcome, refresh: Option<string>)

  predicate Effective(o: Outcome) {
    o.Done? || o.part == Complete
  }

  /** The port is held: by `up`'s container, by compose's, or by something else. */
  predicate Busy(w: World, u: UpScript) {
    u.listener || w.up == Ours(true) || w.compose != Down
  }

  /** A container that cannot bind its port is made and does not run. */
  function Bound(o: Outcome, free: bool): Outcome {
    if free || !Effective(o) then o else Failed(Torn)
  }

  /** `docker run` of `pi-dispatch-valkey`. */
  function RunUp(w: World, o: Outcome): World {
    if Effective(o) then w.(up := Ours(true)) else if o.part == Torn then w.(up := Ours(false)) else w
  }

  // ---- whose the volume is ----

  predicate VolumeClear(w: World, u: UpScript) {
    u.users && !Foreigners(w)
  }

  function Recorded(w: World, u: UpScript): World {
    KeepRecord(w, w.volume == Unlabelled(true) && !w.record, u.keepRecord)
  }

  /**
   Whether a Valkey may start on the volume, and the states on the way. An unlabelled volume is adopted with consent once
   a Valkey without a network has read whose queue it holds; that Valkey is stopped, and nobody asks whether it did stop.
   */
  function VolumeUsable(w: World, u: UpScript, servedByOurs: bool): (seq<World>, bool) {
    if !u.volumeRead || w.volume == Other then ([], false)
    else if !w.volume.Unlabelled? || RecordMatches(w) then ([], true)
    else if servedByOurs then ([Recorded(w, u)], true)
    else if !u.adopt || w.check then ([], false)
    else if u.check.Failed? then ([w.(check := u.check.part == Complete)], false)
    else
      var ended := w.(check := !Effective(u.checkStop));
      if u.checked != ThisFolder then ([w.(check := true), ended], false)
      else ([w.(check := true), ended, Recorded(ended, u)], true)
  }

  // ---- what `up` starts ----

  /** Compose's valkey on the queue's volume, in a folder that has the override. */
  function StartOverridden(w: World, u: UpScript, servedByOurs: bool): seq<World> {
    if !VolumeClear(w, u) then []
    else
      var (ws, ok) := VolumeUsable(w, u, servedByOurs);
      if !ok || !u.consent then ws
      else ws + ComposeUp(Last(w, ws), u)
  }

  function ComposeUp(w: World, u: UpScript): seq<World> {
    var o := Bound(u.start, w.up != Ours(true) && !u.listener);
    var started := StartCompose(w, o, true);
    if o.Failed? then [started]
    else [started, if u.marker == OtherFolder then StopCompose(started, u.stopAgain) else started]
  }

  /** `up`'s own container, on the volume it creates where there is none. */
  function StartOwn(w: World, u: UpScript): seq<World> {
    if !VolumeClear(w, u) then []
    else
      var (ws, ok) := VolumeUsable(w, u, false);
      if !ok || !u.consent then ws
      else
        var v := Last(w, ws);
        var made := if v.volume.NoVolume? && Effective(u.create) then v.(volume := Mine) else v;
        if v.volume.NoVolume? && u.create.Failed? then ws + [made]
        else ws + [made] + Launch(made, u)
  }

  function Launch(w: World, u: UpScript): seq<World> {
    var o := Bound(u.start, w.compose == Down && !u.listener);
    var started := RunUp(w, o);
    if o.Failed? || u.marker != OtherFolder then [started]
    else
      var stopped := StopUp(started, u.stopAgain);
      [started, stopped, if u.stopAgain.Done? then RemoveUp(stopped, u.removeAgain) else stopped]
  }

  /** `up`'s own container, restarted with the password. */
  function Restart(w: World, u: UpScript): seq<World> {
    if !VolumeClear(w, u) then []
    else
      var (ws, ok) := VolumeUsable(w, u, true);
      if !ok || !u.consent then ws
      else
        var stopped := StopUp(Last(w, ws), u.stop);
        if u.stop.Failed? then ws + [stopped]
        else
          var removed := RemoveUp(stopped, u.remove);
          if u.remove.Failed? then ws + [stopped, removed]
          else ws + [stopped, removed] + Launch(removed, u)
  }

  function ValkeyStep(w: World, u: UpScript): seq<World> {
    if !u.here then []
    else if Busy(w, u) then
      if !u.open || !u.inspect then []
      else if w.override_.Some? then (if w.compose != Down || u.leftover then StartOverridden(w, u, true) else [])
      else if w.up.Ours? then Restart(w, u)
      else []
    else if w.override_.Some? then StartOverridden(w, u, false)
    else if !u.inspect || w.up != Absent then []
    else StartOwn(w, u)
  }

  /** The proxy's rules, scaffolded first and refreshed last, where the operator agrees. */
  function Scaffolded(w: World, u: UpScript): World {
    w.(proxyFile := Created(w.proxyFile, PROXY_CONF, u.init))
  }

  function Refreshed(w: World, u: UpScript): World {
    if w.proxyFile.Some? && u.refresh.Some? then w.(proxyFile := u.refresh) else w
  }

  function UpRun(w: World, u: UpScript): seq<World> {
    var w1 := Scaffolded(w, u);
    var ws := ValkeyStep(w1, u);
    [w1] + ws + [Refreshed(Last(w1, ws), u)]
  }

  function UpEnd(w: World, u: UpScript): World {
    Last(w, UpRun(w, u))
  }

  // ---- any sequence of passes ----

  datatype Pass = Setup(a: Script) | Up(u: UpScript)

  function States(w: World, p: Pass): seq<World> {
    match p case Setup(a) => Run(w, a).0 case Up(u) => UpRun(w, u)
  }

  function AfterPass(w: World, p: Pass): World {
    Last(w, States(w, p))
  }

  /** The states of a whole history: the first, and every one on the way. */
  function History(w: World, passes: seq<Pass>): seq<World>
    decreases |passes|
  {
    if passes == [] then [w] else [w] + States(w, passes[0]) + History(AfterPass(w, passes[0]), passes[1..])
  }

  // ---- one Valkey on the volume ----

  /** The owner check's Valkey is gone when `up` is done with it. */
  predicate CheckIsGone(u: UpScript) {
    if u.check.Done? then Effective(u.checkStop) else u.check.part != Complete
  }

  /**
   `up` finds the volume usable and starts a Valkey on it beside the owner check's: one that an earlier pass left there,
   where the volume needs no adoption, or the one that this pass adopts it with and does not stop.
   */
  predicate BesideCheck(w: World, u: UpScript, servedByOurs: bool) {
    && VolumeClear(w, u) && u.volumeRead && w.volume != Other && u.consent && Effective(u.start)
    && var unattributed := !servedByOurs && w.volume.Unlabelled? && !RecordMatches(w);
       if w.check then !unattributed
       else unattributed && u.adopt && u.check.Done? && u.checked == ThisFolder && !Effective(u.checkStop)
  }

  /** So does `up` as a whole: to recreate compose's valkey, to start it, or to start its own container. */
  predicate UpStartsBeside(w: World, u: UpScript) {
    && u.here && !u.listener
    && if Busy(w, u) then
         u.open && u.inspect && w.override_.Some? && w.up != Ours(true) && BesideCheck(w, u, true)
       else
         && BesideCheck(w, u, false)
         && (w.override_.Some? || (u.inspect && w.up == Absent && (w.volume.NoVolume? ==> u.create.Done?)))
  }

  /** A receiver step starts compose on the volume beside the owner check that an earlier `up` left there. */
  predicate SetupStartsBeside(w: World, a: Script) {
    && w.check
    && (w.composeFile.Some? || a.copyCompose.Done?) && HandoverPlan(w, a).Go? && a.confirm && Effective(a.start)
    && (if w.up.Ours? then a.pull.Done? && (w.override_.None? ==> a.write.Done?) && a.stop.Done? && a.remove.Done?
        else w.override_.Some?)
  }

  predicate StartsBeside(w: World, p: Pass) {
    match p case Setup(a) => SetupStartsBeside(w, a) case Up(u) => UpStartsBeside(w, u)
  }

  /** No pass, in the state it finds, starts a Valkey beside an owner check's. */
  predicate NeverBeside(w: World, passes: seq<Pass>)
    decreases |passes|
  {
    passes == [] || (!StartsBeside(w, passes[0]) && NeverBeside(AfterPass(w, passes[0]), passes[1..]))
  }

  lemma {:induction false} AllAppend(xs: seq<World>, ys: seq<World>, p: World -> bool)
    ensures All(xs + ys, p) <==> All(xs, p) && All(ys, p)
  {
    assert forall i :: 0 <= i < |ys| ==> (xs + ys)[|xs| + i] == ys[i];
    assert forall i :: 0 <= i < |xs| ==> (xs + ys)[i] == xs[i];
  }

  lemma LastAppend(w: World, xs: seq<World>, ys: seq<World>)
    ensures Last(w, xs + ys) == Last(Last(w, xs), ys)
  {
  }

  lemma LastServes(w: World, ws: seq<World>)
    requires OneServes(w) && All(ws, OneServes)
    ensures OneServes(Last(w, ws))
  {
  }

  lemma UsableServes(w: World, u: UpScript, servedByOurs: bool)
    requires OneServes(w) && !Foreigners(w)
    requires !servedByOurs ==> w.up != Ours(true) && w.compose != OnQueueVolume
    ensures var (ws, ok) := VolumeUsable(w, u, servedByOurs);
            var v := Last(w, ws);
            var unattributed := !servedByOurs && w.volume.Unlabelled? && !RecordMatches(w);
            && All(ws, OneServes)
            && v == w.(check := v.check, record := v.record)
            && (ok <==> u.volumeRead && w.volume != Other
                        && (unattributed ==> !w.check && u.adopt && u.check.Done? && u.checked == ThisFolder))
            && (ok ==> (v.check <==> w.check || (unattributed && !Effective(u.checkStop))))
            && (CheckIsGone(u) && !w.check ==> !v.check)
  {
  }

  lemma ComposeUpServes(w: World, u: UpScript)
    requires OneServes(w) && !Foreigners(w)
    ensures All(ComposeUp(w, u), OneServes) <==> !(w.check && w.up != Ours(true) && !u.listener && Effective(u.start))
    ensures Last(w, ComposeUp(w, u)).check == w.check
  {
    var ws := ComposeUp(w, u);
    assert ws[0] == StartCompose(w, Bound(u.start, w.up != Ours(true) && !u.listener), true);
  }

  lemma LaunchServes(w: World, u: UpScript)
    requires OneServes(w) && !Foreigners(w) && w.up != Ours(true)
    ensures All(Launch(w, u), OneServes) <==> !(w.check && w.compose == Down && !u.listener && Effective(u.start))
    ensures Last(w, Launch(w, u)).check == w.check
  {
    var ws := Launch(w, u);
    assert ws[0] == RunUp(w, Bound(u.start, w.compose == Down && !u.listener));
  }

  lemma StartOverriddenServes(w: World, u: UpScript, servedByOurs: bool)
    requires OneServes(w) && (!servedByOurs ==> w.up != Ours(true) && w.compose != OnQueueVolume)
    ensures All(StartOverridden(w, u, servedByOurs), OneServes)
       <==> !(BesideCheck(w, u, servedByOurs) && !u.listener && w.up != Ours(true))
    ensures CheckIsGone(u) && !w.check ==> !Last(w, StartOverridden(w, u, servedByOurs)).check
  {
    if VolumeClear(w, u) {
      UsableServes(w, u, servedByOurs);
      var (ws, ok) := VolumeUsable(w, u, servedByOurs);
      var v := Last(w, ws);
      hide VolumeUsable, ComposeUp;
      if ok && u.consent {
        LastServes(w, ws);
        ComposeUpServes(v, u);
        AllAppend(ws, ComposeUp(v, u), OneServes);
        LastAppend(w, ws, ComposeUp(v, u));
      }
    }
  }

  lemma StartOwnServes(w: World, u: UpScript)
    requires OneServes(w) && w.compose == Down && !u.listener && w.up == Absent
    ensures All(StartOwn(w, u), OneServes) <==> !(BesideCheck(w, u, false) && (w.volume.NoVolume? ==> u.create.Done?))
    ensures CheckIsGone(u) && !w.check ==> !Last(w, StartOwn(w, u)).check
  {
    if VolumeClear(w, u) {
      UsableServes(w, u, false);
      var (ws, ok) := VolumeUsable(w, u, false);
      var v := Last(w, ws);
      hide VolumeUsable, Launch;
      if ok && u.consent {
        LastServes(w, ws);
        var made := if v.volume.NoVolume? && Effective(u.create) then v.(volume := Mine) else v;
        AllAppend(ws, [made], OneServes);
        LastAppend(w, ws, [made]);
        LaunchServes(made, u);
        AllAppend(ws + [made], Launch(made, u), OneServes);
        LastAppend(w, ws + [made], Launch(made, u));
      }
    }
  }

  lemma RestartServes(w: World, u: UpScript)
    requires OneServes(w) && w.up.Ours? && Busy(w, u)
    ensures All(Restart(w, u), OneServes)
    ensures CheckIsGone(u) && !w.check ==> !Last(w, Restart(w, u)).check
  {
    if VolumeClear(w, u) {
      UsableServes(w, u, true);
      var (ws, ok) := VolumeUsable(w, u, true);
      var v := Last(w, ws);
      hide VolumeUsable, Launch;
      if ok && u.consent {
        LastServes(w, ws);
        var stopped := StopUp(v, u.stop);
        var removed := RemoveUp(stopped, u.remove);
        AllAppend(ws, [stopped], OneServes);
        AllAppend(ws, [stopped, removed], OneServes);
        LastAppend(w, ws, [stopped]);
        LastAppend(w, ws, [stopped, removed]);
        if u.stop.Done? && u.remove.Done? {
          LaunchServes(removed, u);
          AllAppend(ws + [stopped, removed], Launch(removed, u), OneServes);
          LastAppend(w, ws + [stopped, removed], Launch(removed, u));
        }
      }
    }
  }

  lemma ValkeyStepServes(w: World, u: UpScript)
    requires OneServes(w)
    ensures All(ValkeyStep(w, u), OneServes) <==> !UpStartsBeside(w, u)
    ensures CheckIsGone(u) && !w.check ==> !Last(w, ValkeyStep(w, u)).check
  {
    hide StartOverridden, StartOwn, Restart;
    if u.here && Busy(w, u) && u.open && u.inspect {
      StartOverriddenServes(w, u, true);
      if w.up.Ours? { RestartServes(w, u); }
    }
    if u.here && !Busy(w, u) {
      StartOverriddenServes(w, u, false);
      if w.up == Absent { StartOwnServes(w, u); }
    }
  }

  /** One `up` never has two Valkeys on the volume, except exactly where it starts one beside an owner check's. */
  lemma UpServesIff(w: World, u: UpScript)
    requires OneServes(w)
    ensures All(UpRun(w, u), OneServes) <==> !UpStartsBeside(w, u)
    ensures CheckIsGone(u) && !w.check ==> !UpEnd(w, u).check && !UpStartsBeside(w, u)
  {
    var w1 := Scaffolded(w, u);
    var ws := ValkeyStep(w1, u);
    ValkeyStepServes(w1, u);
    hide ValkeyStep;
    var end := Refreshed(Last(w1, ws), u);
    AllAppend([w1], ws, OneServes);
    AllAppend([w1] + ws, [end], OneServes);
    if All(ws, OneServes) { LastServes(w1, ws); }
  }

  lemma HandOverServesIff(w: World, a: Script, record: bool)
    requires OneServes(w) && w.check && w.up.Ours?
    ensures All(HandOver(w, a, record).0, OneServes)
       <==> !(a.pull.Done? && (w.override_.None? ==> a.write.Done?) && a.stop.Done? && a.remove.Done? && Effective(a.start))
  {
    hide KeepRecord, PutBack, RecordMatches;
    var ws := HandOver(w, a, record).0;
    if a.pull.Done? && (w.override_.None? ==> a.write.Done?) && a.stop.Done? && a.remove.Done? {
      assert ws[4].check && (Effective(a.start) ==> ws[4].compose == OnQueueVolume);
    }
  }

  lemma JustStartServesIff(w: World, a: Script)
    requires OneServes(w) && w.check
    ensures All(JustStart(w, a).0, OneServes) <==> !(w.override_.Some? && Effective(a.start))
  {
    var ws := JustStart(w, a).0;
    assert ws[0].check && (w.override_.Some? && Effective(a.start) ==> ws[0].compose == OnQueueVolume);
  }

  /** One receiver step never does, except exactly where it starts compose beside an owner check's that was left. */
  lemma SetupServesIff(w: World, a: Script)
    requires OneServes(w)
    ensures All(Run(w, a).0, OneServes) <==> !SetupStartsBeside(w, a)
  {
    if !w.check {
      RunKeepsOneServing(w, a);
    } else {
      var w1 := w.(composeFile := Created(w.composeFile, COMPOSE_YML, a.copyCompose));
      var w2 := w1.(proxyFile := Created(w.proxyFile, PROXY_CONF, a.copyProxy));
      assert HandoverPlan(w2, a) == HandoverPlan(w, a);
      AllAppend([w1, w2], Steps(w2, a).0, OneServes);
      if w.up.Ours? {
        HandOverServesIff(w2, a, true);
        HandOverServesIff(w2, a, false);
      }
      JustStartServesIff(w2, a);
      hide HandOver, JustStart;
    }
  }

  /** Whatever fails in whatever pass, two Valkeys are on the volume in some state on the way if and only if a pass starts one beside an owner check's. */
  lemma {:induction false} NeverTwoOnTheVolumeIff(w: World, passes: seq<Pass>)
    requires OneServes(w)
    ensures All(History(w, passes), OneServes) <==> NeverBeside(w, passes)
    decreases |passes|
  {
    if passes != [] {
      var p := passes[0];
      var ws, rest := States(w, p), History(AfterPass(w, p), passes[1..]);
      assert All(ws, OneServes) <==> !StartsBeside(w, p) by {
        match p case Setup(a) => SetupServesIff(w, a); case Up(u) => UpServesIff(w, u);
      }
      AllAppend([w], ws, OneServes);
      AllAppend([w] + ws, rest, OneServes);
      if !StartsBeside(w, p) {
        LastServes(w, ws);
        NeverTwoOnTheVolumeIff(AfterPass(w, p), passes[1..]);
      }
    }
  }

  /** Every `up` stops its owner check's Valkey. */
  predicate ChecksAreGone(passes: seq<Pass>) {
    forall i :: 0 <= i < |passes| && passes[i].Up? ==> CheckIsGone(passes[i].u)
  }

  /** Which no pass does where every `up` stops its own and none was left at the start. */
  lemma {:induction false} StoppedChecksAreNeverBeside(w: World, passes: seq<Pass>)
    requires OneServes(w) && !w.check && ChecksAreGone(passes)
    ensures NeverBeside(w, passes)
    decreases |passes|
  {
    if passes != [] {
      var p := passes[0];
      assert !StartsBeside(w, p) && OneServes(AfterPass(w, p)) && !AfterPass(w, p).check by {
        match p
        case Setup(a) => RunKeepsOneServing(w, a); LastServes(w, Run(w, a).0);
        case Up(u) => UpServesIff(w, u); LastServes(w, UpRun(w, u));
      }
      assert ChecksAreGone(passes[1..]);
      StoppedChecksAreNeverBeside(AfterPass(w, p), passes[1..]);
    }
  }

  // ---- the owner check's Valkey left behind ----

  /** An unlabelled volume is adopted, the check's stop fails, and the container is started. */
  const ADOPTED := World(Absent, Down, Unlabelled(true), false, false, false, None, None, None)
  const STOP_FAILS := UpScript(
    Done, true, false, false, false, true, true, true,
    true, Done, ThisFolder, Failed(Untouched), Done,
    true, Done, Done, Done, Done, ThisFolder, Done, Done, None)

  lemma TheOwnerCheckCanServeBesideUp()
    ensures OneServes(ADOPTED) && !ADOPTED.check
    ensures UpEnd(ADOPTED, STOP_FAILS).check && UpEnd(ADOPTED, STOP_FAILS).up == Ours(true)
    ensures !All(UpRun(ADOPTED, STOP_FAILS), OneServes)
  {
    UpServesIff(ADOPTED, STOP_FAILS);
  }

  /** The same `up` with the start declined, and a later one in which nothing fails. */
  const DECLINED := STOP_FAILS.(consent := false)
  const CLEAN := STOP_FAILS.(checkStop := Done)

  /** Neither would have two Valkeys alone: the check left by the first is beside the container of the second. */
  lemma ALaterUpCanServeBesideIt()
    ensures All(UpRun(ADOPTED, DECLINED), OneServes) && UpEnd(ADOPTED, DECLINED).check && UpEnd(ADOPTED, DECLINED).up == Absent
    ensures CheckIsGone(CLEAN) && All(UpRun(ADOPTED, CLEAN), OneServes)
    ensures UpEnd(UpEnd(ADOPTED, DECLINED), CLEAN).check && UpEnd(UpEnd(ADOPTED, DECLINED), CLEAN).up == Ours(true)
    ensures !All(History(ADOPTED, [Up(DECLINED), Up(CLEAN)]), OneServes)
  {
    DeclinedLeaves();
    UpServesIff(ADOPTED, DECLINED);
    UpServesIff(ADOPTED, CLEAN);
    var passes := [Up(DECLINED), Up(CLEAN)];
    assert passes[1..] == [Up(CLEAN)];
    NeverTwoOnTheVolumeIff(ADOPTED, passes);
    LaterUpServes();
    hide UpRun;
  }

  /** What the first leaves: the volume recorded as this folder's, and the check on it. */
  const LEFT := ADOPTED.(check := true, record := true, proxyFile := Some(PROXY_CONF))

  lemma DeclinedLeaves()
    ensures UpEnd(ADOPTED, DECLINED) == LEFT
  {
  }

  lemma LaterUpServes()
    ensures UpEnd(LEFT, CLEAN).check && UpEnd(LEFT, CLEAN).up == Ours(true)
  {
  }

  // ---- `up`'s Valkey and compose's ----

  /** `up`'s Valkey and compose's do not both serve the volume. */
  predicate NotBoth(w: World) {
    !(w.up == Ours(true) && w.compose == OnQueueVolume)
  }

  lemma UsableNotBoth(w: World, u: UpScript, servedByOurs: bool)
    requires NotBoth(w)
    ensures var ws := VolumeUsable(w, u, servedByOurs).0;
            All(ws, NotBoth) && Last(w, ws).up == w.up && Last(w, ws).compose == w.compose
  {
  }

  lemma StartsNotBoth(w: World, u: UpScript)
    requires NotBoth(w)
    ensures All(ComposeUp(w, u), NotBoth)
    ensures w.up != Ours(true) ==> All(Launch(w, u), NotBoth)
  {
  }

  lemma StartOverriddenNotBoth(w: World, u: UpScript, servedByOurs: bool)
    requires NotBoth(w)
    ensures All(StartOverridden(w, u, servedByOurs), NotBoth)
  {
    UsableNotBoth(w, u, servedByOurs);
    var ws := VolumeUsable(w, u, servedByOurs).0;
    StartsNotBoth(Last(w, ws), u);
    AllAppend(ws, ComposeUp(Last(w, ws), u), NotBoth);
    hide VolumeUsable, ComposeUp;
  }

  lemma StartOwnNotBoth(w: World, u: UpScript)
    requires NotBoth(w) && w.up == Absent
    ensures All(StartOwn(w, u), NotBoth)
  {
    UsableNotBoth(w, u, false);
    var ws := VolumeUsable(w, u, false).0;
    var v := Last(w, ws);
    hide VolumeUsable, Launch;
    var made := if v.volume.NoVolume? && Effective(u.create) then v.(volume := Mine) else v;
    StartsNotBoth(made, u);
    AllAppend(ws, [made], NotBoth);
    AllAppend(ws + [made], Launch(made, u), NotBoth);
  }

  lemma RestartNotBoth(w: World, u: UpScript)
    requires NotBoth(w) && w.up.Ours?
    ensures All(Restart(w, u), NotBoth)
  {
    UsableNotBoth(w, u, true);
    var ws := VolumeUsable(w, u, true).0;
    var stopped := StopUp(Last(w, ws), u.stop);
    var removed := RemoveUp(stopped, u.remove);
    hide VolumeUsable, Launch;
    AllAppend(ws, [stopped], NotBoth);
    AllAppend(ws, [stopped, removed], NotBoth);
    if u.stop.Done? && u.remove.Done? {
      StartsNotBoth(removed, u);
      AllAppend(ws + [stopped, removed], Launch(removed, u), NotBoth);
    }
  }

  lemma UpNotBoth(w: World, u: UpScript)
    requires NotBoth(w)
    ensures All(UpRun(w, u), NotBoth)
  {
    var w1 := Scaffolded(w, u);
    var ws := ValkeyStep(w1, u);
    StartOverriddenNotBoth(w1, u, true);
    StartOverriddenNotBoth(w1, u, false);
    if w.up == Absent { StartOwnNotBoth(w1, u); }
    if w.up.Ours? { RestartNotBoth(w1, u); }
    hide StartOverridden, StartOwn, Restart;
    assert All(ws, NotBoth);
    AllAppend([w1], ws, NotBoth);
    AllAppend([w1] + ws, [Refreshed(Last(w1, ws), u)], NotBoth);
  }

  lemma SetupNotBoth(w: World, a: Script)
    requires NotBoth(w)
    ensures All(Run(w, a).0, NotBoth)
  {
    var w1 := w.(composeFile := Created(w.composeFile, COMPOSE_YML, a.copyCompose));
    var w2 := w1.(proxyFile := Created(w.proxyFile, PROXY_CONF, a.copyProxy));
    AllAppend([w1, w2], Steps(w2, a).0, NotBoth);
    if w.up.Ours? {
      HandOverNotBoth(w2, a, true);
      HandOverNotBoth(w2, a, false);
    }
    hide HandOver;
  }

  lemma HandOverNotBoth(w: World, a: Script, record: bool)
    requires NotBoth(w) && w.up.Ours?
    ensures All(HandOver(w, a, record).0, NotBoth)
  {
    var written := w.(override_ := Created(w.override_, OVERRIDE_YML, a.write));
    ReplaceNotBoth(written, a, w.override_.None?, record);
    AllAppend([w, written], Replace(written, a, w.override_.None?, record).0, NotBoth);
    hide Replace;
  }

  lemma ReplaceNotBoth(w: World, a: Script, wrote: bool, record: bool)
    requires NotBoth(w) && w.up.Ours?
    ensures All(Replace(w, a, wrote, record).0, NotBoth)
  {
    if a.stop.Done? && a.remove.Done? {
      var removed := RemoveUp(StopUp(w, a.stop), a.remove);
      ServeNotBoth(removed, a, wrote, record);
      AllAppend([StopUp(w, a.stop), removed], Serve(removed, a, wrote, record).0, NotBoth);
    }
    hide PutBack, Serve;
  }

  lemma ServeNotBoth(w: World, a: Script, wrote: bool, record: bool)
    requires w.up == Absent
    ensures All(Serve(w, a, wrote, record).0, NotBoth)
  {
    hide StartCompose, CheckMarker, KeepRecord, PutBack;
  }

  /** `up`'s Valkey and compose's never both serve the volume, in any state of any sequence of passes. */
  lemma {:induction false} NeverBothOnTheVolume(w: World, passes: seq<Pass>)
    requires NotBoth(w)
    ensures All(History(w, passes), NotBoth)
    decreases |passes|
  {
    if passes != [] {
      var p := passes[0];
      var ws, rest := States(w, p), History(AfterPass(w, p), passes[1..]);
      match p { case Setup(a) => SetupNotBoth(w, a); case Up(u) => UpNotBoth(w, u); }
      NeverBothOnTheVolume(AfterPass(w, p), passes[1..]);
      AllAppend([w], ws, NotBoth);
      AllAppend([w] + ws, rest, NotBoth);
    }
  }

  // ---- what was there stays ----

  /** Only an `up` that is let refresh the proxy's rules rewrites them. */
  predicate Kept(w: World, v: World, rules: bool) {
    && (w.override_.Some? ==> v.override_ == w.override_)
    && (w.composeFile.Some? ==> v.composeFile == w.composeFile)
    && (rules && w.proxyFile.Some? ==> v.proxyFile == w.proxyFile)
  }

  predicate NoRefresh(passes: seq<Pass>) {
    forall i :: 0 <= i < |passes| && passes[i].Up? ==> passes[i].u.refresh.None?
  }

  predicate FilesAs(w: World, v: World) {
    v.override_ == w.override_ && v.composeFile == w.composeFile && v.proxyFile == w.proxyFile
  }

  ghost predicate AllAs(w: World, ws: seq<World>) {
    forall i :: 0 <= i < |ws| ==> FilesAs(w, ws[i])
  }

  lemma StartsKeepFiles(w: World, u: UpScript)
    ensures AllAs(w, ComposeUp(w, u)) && AllAs(w, Launch(w, u))
    ensures AllAs(w, VolumeUsable(w, u, true).0) && AllAs(w, VolumeUsable(w, u, false).0)
  {
  }

  lemma ValkeyStepKeepsFiles(w: World, u: UpScript)
    ensures AllAs(w, ValkeyStep(w, u))
  {
    assert AllAs(w, StartOverridden(w, u, true)) && AllAs(w, StartOverridden(w, u, false)) by {
      OverriddenKeepsFiles(w, u, true);
      OverriddenKeepsFiles(w, u, false);
    }
    OwnKeepsFiles(w, u);
    RestartKeepsFiles(w, u);
    hide StartOverridden, StartOwn, Restart;
  }

  lemma OverriddenKeepsFiles(w: World, u: UpScript, servedByOurs: bool)
    ensures AllAs(w, StartOverridden(w, u, servedByOurs))
  {
    StartsKeepFiles(w, u);
    StartsKeepFiles(Last(w, VolumeUsable(w, u, servedByOurs).0), u);
    hide ComposeUp, VolumeUsable;
  }

  lemma OwnKeepsFiles(w: World, u: UpScript)
    ensures AllAs(w, StartOwn(w, u))
  {
    var v := Last(w, VolumeUsable(w, u, false).0);
    StartsKeepFiles(w, u);
    StartsKeepFiles(v, u);
    StartsKeepFiles(v.(volume := Mine), u);
    hide Launch, VolumeUsable;
  }

  lemma RestartKeepsFiles(w: World, u: UpScript)
    ensures AllAs(w, Restart(w, u))
  {
    var v := Last(w, VolumeUsable(w, u, true).0);
    StartsKeepFiles(w, u);
    StartsKeepFiles(RemoveUp(StopUp(v, u.stop), u.remove), u);
    hide Launch, VolumeUsable;
  }

  lemma PassKeepsFiles(w: World, p: Pass)
    ensures forall i :: 0 <= i < |States(w, p)| ==> Kept(w, States(w, p)[i], p.Setup? || p.u.refresh.None?)
  {
    match p
    case Setup(a) => RunKeepsFiles(w, a);
    case Up(u) => ValkeyStepKeepsFiles(Scaffolded(w, u), u); hide ValkeyStep;
  }

  /**
   What was there stays: in no pass, and at no step, is an existing override or compose file changed, nor, where no `up`
   is let refresh them, the proxy's rules.
   */
  lemma {:induction false} ExistingFilesAreKept(w: World, passes: seq<Pass>, i: nat)
    requires i < |History(w, passes)|
    ensures Kept(w, History(w, passes)[i], NoRefresh(passes))
    decreases |passes|
  {
    if passes != [] && i > 0 {
      var ws := States(w, passes[0]);
      var v := AfterPass(w, passes[0]);
      PassKeepsFiles(w, passes[0]);
      assert NoRefresh(passes) ==> NoRefresh(passes[1..]) && (passes[0].Setup? || passes[0].u.refresh.None?);
      hide States, NoRefresh;
      if i <= |ws| {
        assert History(w, passes)[i] == ws[i - 1];
      } else {
        assert History(w, passes)[i] == History(v, passes[1..])[i - 1 - |ws|];
        ExistingFilesAreKept(v, passes[1..], i - 1 - |ws|);
      }
    }
  }

  // ---- a setup that is retried ----

  /**
   `up` starts its own container, or leaves one that does not run, and keeps it: the port is free, docker answers, the
   volume is this deployment's or adopted, the operator agrees, and the start does not fail without a trace.
   */
  predicate BringsUp(w: World, u: UpScript) {
    && u.here && !Busy(w, u) && u.inspect && VolumeClear(w, u) && u.volumeRead && w.volume != Other && u.consent
    && (w.volume.Unlabelled? && !RecordMatches(w) ==> !w.check && u.adopt && u.check.Done? && u.checked == ThisFolder)
    && (w.volume.NoVolume? ==> u.create.Done?)
    && (u.start.Failed? ==> u.start.part != Untouched)
    && !(u.start.Done? && u.marker == OtherFolder && u.stopAgain.Done? && Effective(u.removeAgain))
  }

  /** Where there is no container and no override, `up` has its container afterwards exactly then. */
  lemma BringsUpIff(w: World, u: UpScript)
    requires w.up == Absent && w.override_.None?
    ensures var v := UpEnd(w, u);
            && (v.up.Ours? <==> BringsUp(w, u)) && (v.up == Absent || v.up.Ours?)
            && v.override_.None? && v.others == w.others && (v.volume == w.volume || v.volume == Mine)
  {
    ValkeyStepKeepsFiles(Scaffolded(w, u), u);
    ValkeyStepBringsUp(Scaffolded(w, u), u);
    hide ValkeyStep;
  }

  lemma ValkeyStepBringsUp(w: World, u: UpScript)
    requires w.up == Absent && w.override_.None?
    ensures var v := Last(w, ValkeyStep(w, u));
            && (v.up.Ours? <==> BringsUp(w, u)) && (v.up == Absent || v.up.Ours?)
            && v.others == w.others && (v.volume == w.volume || v.volume == Mine)
  {
    if u.here && !Busy(w, u) && u.inspect && VolumeClear(w, u) {
      var (ws, ok) := VolumeUsable(w, u, false);
      var v := Last(w, ws);
      UsableForUp(w, u);
      hide VolumeUsable;
      if ok && u.consent {
        var made := if v.volume.NoVolume? && Effective(u.create) then v.(volume := Mine) else v;
        LastAppend(w, ws, [made]);
        LastAppend(w, ws + [made], Launch(made, u));
        LaunchKeepsItsContainer(made, u);
        hide Launch;
      }
    }
  }

  lemma UsableForUp(w: World, u: UpScript)
    requires VolumeClear(w, u)
    ensures var (ws, ok) := VolumeUsable(w, u, false);
            var v := Last(w, ws);
            && v == w.(check := v.check, record := v.record)
            && (ok <==> u.volumeRead && w.volume != Other
                        && (w.volume.Unlabelled? && !RecordMatches(w) ==> !w.check && u.adopt && u.check.Done? && u.checked == ThisFolder))
  {
  }

  lemma LaunchKeepsItsContainer(w: World, u: UpScript)
    requires w.up == Absent && w.compose == Down && !u.listener
    ensures var v := Last(w, Launch(w, u));
            && v == w.(up := v.up)
            && (v.up == Absent || v.up.Ours?)
            && (v.up.Ours? <==> (u.start.Failed? ==> u.start.part != Untouched)
                                && !(u.start.Done? && u.marker == OtherFolder && u.stopAgain.Done? && Effective(u.removeAgain)))
  {
  }

  /**
   A compose that fails once `up`'s container is gone takes its override away again. A setup run again, in whose receiver
   step nothing fails, serves the queue if and only if its `up` brings the container back, which it does not do where it is
   declined, where it fails, and where the failed compose left its own valkey on the port.
   */
  lemma RetryServesTheQueueIff(w: World, a: Script, u: UpScript, b: Script)
    requires w.up.Ours? && w.override_.None? && Run(w, a).1 == StartFailed(true) && a.unlink
    requires NothingFails(b)
    ensures var v := End(w, a);
            && (End(UpEnd(v, u), b).compose == OnQueueVolume <==> BringsUp(v, u))
            && (BringsUp(v, u) ==> v.compose == Down)
            && (!BringsUp(v, u) ==> End(UpEnd(v, u), b).compose == OnOwnVolume)
  {
    var v := End(w, a);
    FailedStartLeaves(w, a);
    BringsUpIff(v, u);
    assert HandoverPlan(UpEnd(v, u), b).Go?;
    hide UpEnd, Run, End, HandoverPlan;
    CleanRunEndsServing(UpEnd(v, u), b);
  }

  lemma FailedStartLeaves(w: World, a: Script)
    requires w.up.Ours? && w.override_.None? && Run(w, a).1 == StartFailed(true) && a.unlink
    ensures var v := End(w, a);
            && v.up == Absent && v.override_.None? && v.check == w.check && v.record == w.record
            && v.volume == w.volume && v.volume != Other && v.others == w.others && !Foreigners(v)
    ensures a.start.Failed?
    ensures End(w, a).compose == Down <==> a.start.part == Torn || (a.start.part == Untouched && w.compose == Down)
  {
  }

  /** An `up` in which the operator agrees and nothing fails. */
  predicate CleanUp(u: UpScript) {
    && u.here && !u.listener && u.inspect && u.users && u.volumeRead && u.adopt && u.check.Done? && u.checked == ThisFolder
    && u.consent && u.create.Done? && u.start.Done? && u.marker != OtherFolder
  }

  /** Even then the queue is left where the failed compose's own valkey still runs, or a check left before stands in an adoption's way. */
  lemma CleanRetryServesTheQueueIff(w: World, a: Script, u: UpScript, b: Script)
    requires w.up.Ours? && w.override_.None? && Run(w, a).1 == StartFailed(true) && a.unlink
    requires CleanUp(u) && NothingFails(b)
    ensures End(UpEnd(End(w, a), u), b).compose == OnQueueVolume
       <==> (a.start.part == Torn || (a.start.part == Untouched && w.compose == Down))
            && (w.volume.Unlabelled? && !RecordMatches(w) ==> !w.check)
  {
    RetryServesTheQueueIff(w, a, u, b);
    FailedStartLeaves(w, a);
    hide UpEnd, Run, End;
  }

  // ---- what an `up` ends with ----

  /** A Valkey of this deployment serves the queue. */
  predicate ServesQueue(w: World) {
    w.up == Ours(true) || w.compose == OnQueueVolume
  }

  /** Nobody can say whose the volume is. */
  predicate Unattributed(w: World) {
    w.volume.Unlabelled? && !(w.record && w.volume.dated)
  }

  /** The volume may be used: nobody else's, and attributed, by an adoption where it has to be. */
  predicate MayServe(w: World, u: UpScript, servedByOurs: bool) {
    && u.users && !w.others && !(w.up.Foreign? && w.up.onVolume) && u.volumeRead && w.volume != Other
    && (!servedByOurs && Unattributed(w) ==> !w.check && u.adopt && u.check.Done? && u.checked == ThisFolder)
  }

  /** Compose after `up` starts it: as the start left it, and stopped again where the queue turns out to be another folder's. */
  function ComposeAfter(w: World, u: UpScript, free: bool): ComposeValkey {
    if !free && TakesEffect(u.start) then Down
    else match u.start
      case Done => if u.marker == OtherFolder && TakesEffect(u.stopAgain) then Down else OnQueueVolume
      case Failed(Complete) => OnQueueVolume
      case Failed(Torn) => Down
      case Failed(Untouched) => w.compose
  }

  lemma ComposeUpEnds(w: World, u: UpScript)
    ensures var v := Last(w, ComposeUp(w, u));
            v == w.(compose := v.compose) && v.compose == ComposeAfter(w, u, w.up != Ours(true) && !u.listener)
  {
  }

  /** With the override, `up` starts compose's valkey on the queue's volume exactly where it may be used and the operator agrees, and the marker decides as in a setup. */
  lemma UpWithTheOverride(w: World, u: UpScript)
    requires w.override_.Some? && u.here
    requires Busy(w, u) ==> u.open && u.inspect && (w.compose != Down || u.leftover)
    ensures var v := UpEnd(w, u);
            && v.up == w.up
            && v.compose == if MayServe(w, u, Busy(w, u)) && u.consent then ComposeAfter(w, u, w.up != Ours(true) && !u.listener) else w.compose
  {
    var w1, busy := Scaffolded(w, u), Busy(w, u);
    UsableForQueue(w1, u, busy);
    var (ws, ok) := VolumeUsable(w1, u, busy);
    ComposeUpEnds(Last(w1, ws), u);
    LastAppend(w1, ws, ComposeUp(Last(w1, ws), u));
    UpEndIs(w, u);
    hide VolumeUsable, ComposeUp, UpRun, UpEnd;
  }

  /** What `up` leaves is what its Valkey step leaves, with the proxy's rules refreshed. */
  lemma UpEndIs(w: World, u: UpScript)
    ensures UpEnd(w, u) == Refreshed(Last(Scaffolded(w, u), ValkeyStep(Scaffolded(w, u), u)), u)
  {
    hide ValkeyStep;
  }

  lemma UsableForQueue(w: World, u: UpScript, servedByOurs: bool)
    ensures var (ws, ok) := VolumeUsable(w, u, servedByOurs);
            var v := Last(w, ws);
            && v == w.(check := v.check, record := v.record)
            && (VolumeClear(w, u) && ok <==> MayServe(w, u, servedByOurs))
  {
  }

  /** `up`'s own container once it has started it: stopped and removed again where the queue turns out to be another folder's. */
  function OwnAfter(u: UpScript): UpValkey {
    match u.start
    case Failed(Untouched) => Absent
    case Failed(Torn) => Ours(false)
    case Failed(Complete) => Ours(true)
    case Done =>
      if u.marker != OtherFolder then Ours(true)
      else if u.stopAgain.Done? && TakesEffect(u.removeAgain) then Absent
      else Ours(!TakesEffect(u.stopAgain))
  }

  /** Where the port is free and there is no container, `up` makes its own; where a foreign folder's marker is found, it stops and removes it again. */
  lemma UpStartsItsOwn(w: World, u: UpScript)
    requires w.override_.None? && w.up == Absent && u.here && u.inspect && !Busy(w, u)
    ensures var v, go := UpEnd(w, u), MayServe(w, u, false) && u.consent && (w.volume.NoVolume? ==> u.create.Done?);
            && v.compose == w.compose
            && v.up == (if go then OwnAfter(u) else Absent)
            && (go && w.volume.NoVolume? ==> v.volume == Mine)
  {
    var w1 := Scaffolded(w, u);
    UsableForQueue(w1, u, false);
    var (ws, ok) := VolumeUsable(w1, u, false);
    var x := Last(w1, ws);
    var made := if x.volume.NoVolume? && Effective(u.create) then x.(volume := Mine) else x;
    LastAppend(w1, ws, [made]);
    LastAppend(w1, ws + [made], Launch(made, u));
    UpEndIs(w, u);
    LaunchEnds(made, u);
    hide VolumeUsable, Launch, UpRun, UpEnd;
  }

  lemma LaunchEnds(w: World, u: UpScript)
    requires !u.listener && w.compose == Down && w.up == Absent
    ensures var v := Last(w, Launch(w, u));
            && v == w.(up := v.up)
            && v.up == OwnAfter(u)
  {
  }

  /** An `up` in which nothing fails, for its restart as well. */
  predicate AllGoesWell(u: UpScript) {
    CleanUp(u) && u.stop.Done? && u.remove.Done?
  }

  /** Two of this deployment's Valkeys do not run at once: they would listen on one port. */
  predicate OnePort(w: World) {
    w.up == Ours(true) ==> w.compose == Down
  }

  /** After an `up` in which nothing fails the queue is served, if and only if it was before, or the volume may be used and there is something to start on it. */
  lemma ACleanUpServesIff(w: World, u: UpScript)
    requires AllGoesWell(u) && OnePort(w)
    ensures ServesQueue(UpEnd(w, u)) <==>
              || ServesQueue(w)
              || (!Foreigners(w) && w.volume != Other
                  && if w.compose == OnOwnVolume then u.open && w.override_.Some?
                     else (w.override_.Some? || w.up == Absent) && (Unattributed(w) ==> !w.check))
  {
    UpEndIs(w, u);
    if w.override_.Some? && (Busy(w, u) ==> u.open && (w.compose != Down || u.leftover)) {
      UpWithTheOverride(w, u);
      hide UpEnd, ValkeyStep, UpRun;
    } else if w.override_.None? && w.up == Absent && !Busy(w, u) {
      UpStartsItsOwn(w, u);
      hide UpEnd, ValkeyStep, UpRun;
    } else if w.override_.None? && w.up.Ours? && Busy(w, u) && u.open {
      RestartEnds(Scaffolded(w, u), u);
      hide UpEnd, Restart, UpRun;
    } else {
      hide UpEnd, StartOverridden, StartOwn, Restart, UpRun;
    }
  }

  lemma RestartEnds(w: World, u: UpScript)
    requires AllGoesWell(u) && w.up.Ours? && w.override_.None? && Busy(w, u)
    ensures var ws := Restart(w, u);
            && Last(w, ws).compose == w.compose && Last(w, ws).up == (if !MayServe(w, u, true) then w.up else Ours(w.compose == Down))
            && (MayServe(w, u, true) ==> exists i :: 0 <= i < |ws| && ws[i].up == Absent)
            && (!MayServe(w, u, true) ==> ws == [])
  {
    UsableForQueue(w, u, true);
    var (ws, ok) := VolumeUsable(w, u, true);
    var x := Last(w, ws);
    var stopped := StopUp(x, u.stop);
    var removed := RemoveUp(stopped, u.remove);
    LastAppend(w, ws, [stopped, removed]);
    LastAppend(w, ws + [stopped, removed], Launch(removed, u));
    assert (ws + [stopped, removed] + Launch(removed, u))[|ws| + 1] == removed;
    hide VolumeUsable;
  }

  /**
   Where this deployment's own container answers without the password, an `up` in which nothing fails removes it on the
   way and leaves it running again, exactly where the volume may be used; else it is never touched.
   */
  lemma UpRestartsItsOwn(w: World, u: UpScript)
    requires AllGoesWell(u) && w.up.Ours? && w.override_.None? && Busy(w, u) && u.open
    ensures var ws := UpRun(w, u);
            && UpEnd(w, u).compose == w.compose
            && UpEnd(w, u).up == (if MayServe(w, u, true) then Ours(w.compose == Down) else w.up)
            && (MayServe(w, u, true) ==> exists i :: 0 <= i < |ws| && ws[i].up == Absent)
            && (!MayServe(w, u, true) ==> forall i :: 0 <= i < |ws| ==> ws[i].up == w.up)
  {
    var w1 := Scaffolded(w, u);
    var ws := Restart(w1, u);
    RestartEnds(w1, u);
    assert ValkeyStep(w1, u) == ws by { hide Restart; }
    assert UpRun(w, u) == [w1] + ws + [Refreshed(Last(w1, ws), u)] by { hide ValkeyStep, Restart; }
    hide UpRun, Restart, ValkeyStep;
    if MayServe(w, u, true) {
      var i :| 0 <= i < |ws| && ws[i].up == Absent;
      assert UpRun(w, u)[i + 1] == ws[i];
    }
  }

  /** The proxy's rules are there once `init` has written them, and are what a refresh makes them. */
  lemma TheRulesAreThere(w: World, u: UpScript)
    ensures u.init.Done? ==> UpEnd(w, u).proxyFile == if u.refresh.Some? then u.refresh else Some(w.proxyFile.GetOr(PROXY_CONF))
  {
    ValkeyStepKeepsFiles(Scaffolded(w, u), u);
    UpEndIs(w, u);
    hide UpRun, UpEnd, ValkeyStep;
  }
}
