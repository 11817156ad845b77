/**
 The functions of the admin server and of main that change the restore state, as
 the code runs them when nothing else moves in between.  `world` is the state of
 the model; each method leaves it where a named run of the model's steps leads.
 */
module RestoreServer {
  import opened Options
  import opened RestoreModel
  import opened RestoreTruth
  import opened RestoreRecord

  datatype SlotError = NoError | Busy | ShuttingDown | MarkerNotWritten

  // ---------------------------------------------------------------- where each function leads

  function HandlerStep(w: World, l: Step): World
    requires w.process.Some? && HandlerEnabled(w, w.process.value, l)
  {
    HandlerNext(w, w.process.value, l)
  }

  function MainStep(w: World, l: Step): World
    requires w.process.Some? && MainEnabled(w, w.process.value, l)
  {
    MainNext(w, w.process.value, l)
  }

  function HouseStep(w: World, l: Step): World
    requires w.process.Some? && HouseEnabled(w, w.process.value, l)
  {
    HouseNext(w, w.process.value, l)
  }

  predicate ReadyToHandOff(w: World, r: Ref) {
    w.process.Some? && At(w.process.value, r, Built) && LockFree(w.process.value)
  }

  /** The hand-off up to and including the marker. */
  function AfterMarker(w: World, r: Ref): World
    requires ReadyToHandOff(w, r) && w.process.value.server.slot.Staging?
  {
    HandlerStep(HandlerStep(w, Check(r)), WriteMarker(r, true))
  }

  /** The section under the lock: the restore is sent to main, or the marker is taken back. */
  function AfterSend(w: World, r: Ref, removeOk: bool): World
    requires w.process.Some? && At(w.process.value, r, Marked) && LockFree(w.process.value)
  {
    var w1 := HandlerStep(w, Recheck(r));
    if At(w1.process.value, r, Sending) then HandlerStep(w1, Commit(r)) else HandlerStep(w1, RemoveMarker(r, removeOk))
  }

  function AfterHandOff(w: World, r: Ref, writeOk: bool, removeOk: bool): World
    requires ReadyToHandOff(w, r)
  {
    if !w.process.value.server.slot.Staging? then HandlerStep(w, Check(r))
    else if !writeOk then HandlerStep(HandlerStep(w, Check(r)), WriteMarker(r, false))
    else AfterSend(AfterMarker(w, r), r, removeOk)
  }

  function HandOffTrace(r: Ref, s: Server, writeOk: bool, removeOk: bool): seq<Step> {
    if !s.slot.Staging? then [Check(r)]
    else if !writeOk then [Check(r), WriteMarker(r, false)]
    else if s.channel.None? then [Check(r), WriteMarker(r, true), Recheck(r), Commit(r)]
    else [Check(r), WriteMarker(r, true), Recheck(r), RemoveMarker(r, removeOk)]
  }

  function AfterRead(w: World): World
    requires w.process.Some? && w.process.value.house.Loading?
  {
    HouseStep(HouseStep(w, LoadStatus), ReadMarkers)
  }

  function AfterSave(w: World, saveOk: bool): World
    requires w.process.Some? && w.process.value.house.Saving?
  {
    HouseStep(HouseStep(w, SaveStatus(saveOk)), Show)
  }

  function AfterDrop(w: World, outcomeOk: bool, markerOk: bool): World
    requires w.process.Some? && w.process.value.house.DroppingOutcome?
  {
    HouseStep(HouseStep(w, DropOutcome(outcomeOk)), DropMarker(markerOk))
  }

  function AfterAbsorb(w: World, saveOk: bool, outcomeOk: bool, markerOk: bool): World
    requires w.process.Some? && w.process.value.house.Loading?
  {
    var w1 := AfterRead(w);
    if ReadBack(w.disk).None? then w1
    else if saveOk then AfterDrop(AfterSave(w1, true), outcomeOk, markerOk)
    else AfterSave(w1, false)
  }

  function AbsorbTrace(d: Disk, saveOk: bool, outcomeOk: bool, markerOk: bool): seq<Step> {
    [LoadStatus, ReadMarkers] +
    if ReadBack(d).None? then []
    else [SaveStatus(saveOk), Show] + if saveOk then [DropOutcome(outcomeOk), DropMarker(markerOk)] else []
  }

  function AfterGivingUp(w: World, dropOk: bool, markOk: bool): World
    requires w.process.Some? && w.process.value.main.Dropping?
  {
    MainStep(MainStep(w, DropStaged(dropOk)), MarkNotCarriedOut(markOk))
  }

  function AfterSwap(w: World, r: Ref, closeOk: bool, c: SwapChecks, dropOk: bool, markOk: bool): World
    requires w.process.Some? && w.process.value.main == Draining(Some(r))
  {
    var w1 := MainStep(w, CloseStore(closeOk));
    if closeOk && MayRename(w.disk, r, c) then MainStep(w1, Rename(c))
    else AfterGivingUp(if closeOk then MainStep(w1, RefuseSwap) else w1, dropOk, markOk)
  }

  function SwapTrace(d: Disk, r: Ref, closeOk: bool, c: SwapChecks, dropOk: bool, markOk: bool): seq<Step> {
    if closeOk && MayRename(d, r, c) then [CloseStore(true), Rename(c)]
    else (if closeOk then [CloseStore(true), RefuseSwap] else [CloseStore(false)])
         + [DropStaged(dropOk), MarkNotCarriedOut(markOk)]
  }

  function AfterReport(w: World, outcomeOk: bool, clearOk: bool): World
    requires w.process.Some? && w.process.value.main.Reporting?
  {
    var w1 := MainStep(w, WriteOutcome(outcomeOk));
    if outcomeOk then MainStep(w1, ClearMarker(clearOk)) else w1
  }

  function ReportTrace(outcomeOk: bool, clearOk: bool): seq<Step> {
    if outcomeOk then [WriteOutcome(true), ClearMarker(clearOk)] else [WriteOutcome(false)]
  }

  function AckStep(w: World, l: Step): World
    requires w.process.Some? && AckEnabled(w.process.value, l)
  {
    AckNext(w, w.process.value, l)
  }

  /** An acknowledgement of the shown result that nothing disturbs. */
  function AfterAck(w: World, a: nat, removeOk: bool): World
    requires w.process.Some? && AckEnabled(w.process.value, AckRead(a))
  {
    var w2 := AckStep(AckStep(w, AckRead(a)), AckRemove(a, removeOk));
    if removeOk then AckStep(w2, AckClear(a)) else w2
  }

  function AckTrace(a: nat, removeOk: bool): seq<Step> {
    [AckRead(a), AckRemove(a, removeOk)] + if removeOk then [AckClear(a)] else []
  }

  // ---------------------------------------------------------------- those are runs of the model

  lemma OneStep(w: World, l: Step)
    requires Enabled(w, l)
    ensures IsRun(w, [l], Next(w, l))
  {
  }

  lemma TwoSteps(w: World, a: Step, b: Step)
    requires Enabled(w, a) && Enabled(Next(w, a), b)
    ensures IsRun(w, [a, b], Next(Next(w, a), b))
  {
  }

  lemma AfterMarkerIsRun(w: World, r: Ref)
    requires ReadyToHandOff(w, r) && w.process.value.server.slot.Staging?
    ensures IsRun(w, [Check(r), WriteMarker(r, true)], AfterMarker(w, r))
  {
  }

  lemma AfterSendIsRun(w: World, r: Ref, removeOk: bool)
    requires w.process.Some? && At(w.process.value, r, Marked) && LockFree(w.process.value)
    requires w.process.value.server.slot.Staging?
    ensures
      var last := if w.process.value.server.channel.None? then Commit(r) else RemoveMarker(r, removeOk);
      IsRun(w, [Recheck(r), last], AfterSend(w, r, removeOk))
  {
    TwoSteps(w, Recheck(r), if w.process.value.server.channel.None? then Commit(r) else RemoveMarker(r, removeOk));
  }

  /** An undisturbed hand-off is the check, the marker, the second check and the send, in this order. */
  lemma HandOffIsRun(w: World, r: Ref, writeOk: bool, removeOk: bool)
    requires ReadyToHandOff(w, r)
    ensures IsRun(w, HandOffTrace(r, w.process.value.server, writeOk, removeOk), AfterHandOff(w, r, writeOk, removeOk))
  {
    var s := w.process.value.server;
    if !s.slot.Staging? {
      OneStep(w, Check(r));
    } else if !writeOk {
      TwoSteps(w, Check(r), WriteMarker(r, false));
    } else {
      var last := if s.channel.None? then Commit(r) else RemoveMarker(r, removeOk);
      AfterMarkerIsRun(w, r);
      AfterSendIsRun(AfterMarker(w, r), r, removeOk);
      RunConcat(w, [Check(r), WriteMarker(r, true)], AfterMarker(w, r), [Recheck(r), last], AfterHandOff(w, r, writeOk, removeOk));
      assert [Check(r), WriteMarker(r, true)] + [Recheck(r), last] == HandOffTrace(r, s, writeOk, removeOk);
    }
  }

  lemma AfterReadIsRun(w: World)
    requires w.process.Some? && w.process.value.house.Loading?
    ensures IsRun(w, [LoadStatus, ReadMarkers], AfterRead(w))
  {
    TwoSteps(w, LoadStatus, ReadMarkers);
  }

  lemma AfterSaveIsRun(w: World, saveOk: bool)
    requires w.process.Some? && w.process.value.house.Saving?
    ensures IsRun(w, [SaveStatus(saveOk), Show], AfterSave(w, saveOk))
  {
  }

  lemma AfterDropIsRun(w: World, outcomeOk: bool, markerOk: bool)
    requires w.process.Some? && w.process.value.house.DroppingOutcome?
    ensures IsRun(w, [DropOutcome(outcomeOk), DropMarker(markerOk)], AfterDrop(w, outcomeOk, markerOk))
  {
  }

  /** Absorbing the markers is a run of housekeeping steps. */
  lemma AbsorbIsRun(w: World, saveOk: bool, outcomeOk: bool, markerOk: bool)
    requires w.process.Some? && w.process.value.house.Loading?
    ensures IsRun(w, AbsorbTrace(w.disk, saveOk, outcomeOk, markerOk), AfterAbsorb(w, saveOk, outcomeOk, markerOk))
  {
    AfterReadIsRun(w);
    var w1 := AfterRead(w);
    if ReadBack(w.disk).None? {
      assert [LoadStatus, ReadMarkers] + [] == [LoadStatus, ReadMarkers];
    } else {
      AfterSaveIsRun(w1, saveOk);
      var w2 := AfterSave(w1, saveOk);
      var tail := [SaveStatus(saveOk), Show];
      if saveOk {
        AfterDropIsRun(w2, outcomeOk, markerOk);
        RunConcat(w1, tail, w2, [DropOutcome(outcomeOk), DropMarker(markerOk)], AfterDrop(w2, outcomeOk, markerOk));
        tail := tail + [DropOutcome(outcomeOk), DropMarker(markerOk)];
      } else {
        assert tail + [] == tail;
      }
      RunConcat(w, [LoadStatus, ReadMarkers], w1, tail, AfterAbsorb(w, saveOk, outcomeOk, markerOk));
    }
  }

  lemma AfterGivingUpIsRun(w: World, dropOk: bool, markOk: bool)
    requires w.process.Some? && w.process.value.main.Dropping?
    ensures IsRun(w, [DropStaged(dropOk), MarkNotCarriedOut(markOk)], AfterGivingUp(w, dropOk, markOk))
  {
  }

  /** The swap is a run of main's steps. */
  lemma SwapIsRun(w: World, r: Ref, closeOk: bool, c: SwapChecks, dropOk: bool, markOk: bool)
    requires w.process.Some? && w.process.value.main == Draining(Some(r))
    ensures IsRun(w, SwapTrace(w.disk, r, closeOk, c, dropOk, markOk), AfterSwap(w, r, closeOk, c, dropOk, markOk))
  {
    var w1 := MainStep(w, CloseStore(closeOk));
    if closeOk && MayRename(w.disk, r, c) {
      TwoSteps(w, CloseStore(true), Rename(c));
    } else if closeOk {
      TwoSteps(w, CloseStore(true), RefuseSwap);
      var w2 := MainStep(w1, RefuseSwap);
      AfterGivingUpIsRun(w2, dropOk, markOk);
      RunConcat(w, [CloseStore(true), RefuseSwap], w2, [DropStaged(dropOk), MarkNotCarriedOut(markOk)], AfterGivingUp(w2, dropOk, markOk));
    } else {
      OneStep(w, CloseStore(false));
      AfterGivingUpIsRun(w1, dropOk, markOk);
      RunConcat(w, [CloseStore(false)], w1, [DropStaged(dropOk), MarkNotCarriedOut(markOk)], AfterGivingUp(w1, dropOk, markOk));
    }
  }

  /** Writing the outcome is a run of main's steps. */
  lemma ReportIsRun(w: World, outcomeOk: bool, clearOk: bool)
    requires w.process.Some? && w.process.value.main.Reporting?
    ensures IsRun(w, ReportTrace(outcomeOk, clearOk), AfterReport(w, outcomeOk, clearOk))
  {
    if outcomeOk {
      TwoSteps(w, WriteOutcome(true), ClearMarker(clearOk));
    } else {
      OneStep(w, WriteOutcome(false));
    }
  }

  lemma AckTailIsRun(w: World, a: nat, removeOk: bool)
    requires w.process.Some? && AckEnabled(w.process.value, AckRemove(a, removeOk))
    ensures
      var w1 := AckStep(w, AckRemove(a, removeOk));
      IsRun(w, AckTrace(a, removeOk)[1..], if removeOk then AckStep(w1, AckClear(a)) else w1)
  {
    if removeOk {
      TwoSteps(w, AckRemove(a, true), AckClear(a));
      assert AckTrace(a, true)[1..] == [AckRemove(a, true), AckClear(a)];
    } else {
      OneStep(w, AckRemove(a, false));
      assert AckTrace(a, false)[1..] == [AckRemove(a, false)];
    }
  }

  /** Acknowledging the shown result reads it, removes the saved copy, and only then clears it. */
  lemma AckIsRun(w: World, a: nat, removeOk: bool)
    requires w.process.Some? && AckEnabled(w.process.value, AckRead(a))
    ensures IsRun(w, AckTrace(a, removeOk), AfterAck(w, a, removeOk))
  {
    var w1 := AckStep(w, AckRead(a));
    OneStep(w, AckRead(a));
    AckTailIsRun(w1, a, removeOk);
    RunConcat(w, [AckRead(a)], w1, AckTrace(a, removeOk)[1..], AfterAck(w, a, removeOk));
    assert [AckRead(a)] + AckTrace(a, removeOk)[1..] == AckTrace(a, removeOk);
  }

  /** Sweeping any of the staged files is a run of housekeeping steps. */
  lemma {:induction false} SweepIsRun(w: World, gone: set<Ref>) returns (run: seq<Step>)
    requires w.process.Some? && w.process.value.house.Sweeping? && gone <= w.disk.staged
    ensures IsRun(w, run, w.(disk := w.disk.(staged := w.disk.staged - gone)))
    ensures forall l <- run :: l.Sweep? && l.r in gone
    decreases gone
  {
    if gone == {} {
      run := [];
      assert w.disk.staged - gone == w.disk.staged;
    } else {
      var r :| r in gone;
      var w1 := Next(w, Sweep(r));
      assert w1 == w.(disk := w.disk.(staged := w.disk.staged - {r}));
      var rest := SweepIsRun(w1, gone - {r});
      OneStep(w, Sweep(r));
      assert w.disk.staged - {r} - (gone - {r}) == w.disk.staged - gone;
      RunConcat(w, [Sweep(r)], w1, rest, w.(disk := w.disk.(staged := w.disk.staged - gone)));
      run := [Sweep(r)] + rest;
    }
  }

  lemma SwapHappensOrNot(w: World, r: Ref, closeOk: bool, c: SwapChecks, dropOk: bool, markOk: bool)
    requires Inv(w) && w.process.Some? && w.process.value.main == Draining(Some(r))
    ensures
      var swapped := closeOk && MayRename(w.disk, r, c);
      var w' := AfterSwap(w, r, closeOk, c, dropOk, markOk);
      && Inv(w')
      && w'.process.Some? && w'.process.value.main == Reporting(r, swapped)
      && w'.renamed == (if swapped then w.renamed + {r} else w.renamed)
      && w'.disk.database == (if swapped then Some(r) else w.disk.database)
  {
    SwapIsRun(w, r, closeOk, c, dropOk, markOk);
    RunKeepsInv(w, SwapTrace(w.disk, r, closeOk, c, dropOk, markOk), AfterSwap(w, r, closeOk, c, dropOk, markOk));
  }

  lemma ReportNamesTheRestore(w: World, r: Ref, swapped: bool, outcomeOk: bool, clearOk: bool)
    requires Inv(w) && w.process.Some? && w.process.value.main == Reporting(r, swapped)
    ensures
      var w' := AfterReport(w, outcomeOk, clearOk);
      && Inv(w')
      && w'.renamed == w.renamed && w'.disk.database == w.disk.database
      && (r in w.renamed <==> swapped)
      && (if outcomeOk
          then w'.disk.outcome == Some(Report(Some(r), if swapped then Success else PreviousInPlace))
          else w'.disk.pending.Some? && w'.disk.pending.value.ref == r)
  {
    ReportIsRun(w, outcomeOk, clearOk);
    RunKeepsInv(w, ReportTrace(outcomeOk, clearOk), AfterReport(w, outcomeOk, clearOk));
  }

  // ---------------------------------------------------------------- the code

  class AdminServer {
    // files next to the database
    var staged: set<Ref>
    var pending: Option<Marker>
    var outcome: Option<Report>
    var status: Option<Report>
    var database: Option<Ref>
    var log: Log
    // memory
    var slot: Slot
    var handed: Option<Ref>
    var channel: Option<Ref>
    var shown: Option<Report>
    var version: nat                          // which result object is shown

    ghost var world: World

    ghost function Files(): Disk
      reads this
    {
      Disk(staged, pending, outcome, status, database, log)
    }

    ghost function Memory(): Server
      reads this
    {
      Server(slot, handed, channel, shown, version)
    }

    /** The fields are those of the model's state, and a process is running. */
    ghost predicate Valid()
      reads this
    {
      world.process.Some? && world.disk == Files() && world.process.value.server == Memory()
    }

    /** Takes the slot for one restore; a second one is turned away. */
    method BeginRestore(r: Ref) returns (e: SlotError)
      requires Valid() && r !in world.used
      requires world.process.value.house.Ready? && LockFree(world.process.value)
      modifies this
      ensures Valid()
      ensures e == if old(slot).Idle? then NoError else if old(slot).Closed? then ShuttingDown else Busy
      ensures world == if e.NoError? then HandlerStep(old(world), Begin(r)) else old(world)
    {
      match slot {
        case Idle =>
          slot := Staging;
          world := HandlerStep(world, Begin(r));
          e := NoError;
        case Closed =>
          e := ShuttingDown;
        case _ =>
          e := Busy;
      }
    }

    /** A restore that was not handed over frees the slot, unless shutdown closed it meanwhile. */
    method AbortRestore(r: Ref)
      requires Valid() && At(world.process.value, r, Aborting) && LockFree(world.process.value)
      modifies this
      ensures Valid() && world == HandlerStep(old(world), Abort(r))
      ensures slot == if old(slot).Staging? then Idle else old(slot)
    {
      world := HandlerStep(world, Abort(r));
      if slot.Staging? {
        slot := Idle;
      }
    }

    /**
     The marker goes to disk before the restore goes to main, so whatever main was sent
     can be found by the next start.
     */
    method HandOffRestore(r: Ref, writeOk: bool, removeOk: bool) returns (e: SlotError)
      requires Valid() && ReadyToHandOff(world, r)
      modifies this
      ensures Valid()
      ensures world == AfterHandOff(old(world), r, writeOk, removeOk)
      ensures e.NoError? <==> old(slot).Staging? && writeOk && old(channel).None?
      ensures !old(slot).Staging? ==> e.ShuttingDown?
      ensures !old(slot).Staging? || !writeOk ==> pending == old(pending) && staged == old(staged)
      ensures !e.NoError? ==>
                && At(world.process.value, r, Failing) && r !in world.accepted - old(world).accepted
                && handed == old(handed) && channel == old(channel) && slot == old(slot)
      ensures e.NoError? ==>
                && r in world.accepted && handed == Some(r) && channel == Some(r)
                && pending == Some(Marker(r, false))
    {
      var state := slot;
      world := HandlerStep(world, Check(r));
      if !state.Staging? {
        return ShuttingDown;
      }
      world := HandlerStep(world, WriteMarker(r, writeOk));
      if !writeOk {
        return MarkerNotWritten;
      }
      pending := Some(Marker(r, false));
      e := SendToMain(r, removeOk);
    }

    /** The last part of the hand-off, under the restore lock. */
    method SendToMain(r: Ref, removeOk: bool) returns (e: SlotError)
      requires Valid() && At(world.process.value, r, Marked) && LockFree(world.process.value)
      modifies this
      ensures Valid()
      ensures world == AfterSend(old(world), r, removeOk)
      ensures e == if !old(slot).Staging? then ShuttingDown else if old(channel).Some? then Busy else NoError
      ensures if e.NoError? then r in world.accepted && handed == Some(r) && channel == Some(r) && pending == old(pending)
              else handed == old(handed) && channel == old(channel) && slot == old(slot) && (removeOk ==> pending.None?)
      ensures !e.NoError? ==> At(world.process.value, r, Failing) && world.accepted == old(world).accepted
    {
      world := HandlerStep(world, Recheck(r));
      if !slot.Staging? || channel.Some? {
        e := if !slot.Staging? then ShuttingDown else Busy;
        world := HandlerStep(world, RemoveMarker(r, removeOk));
        if removeOk {
          pending := None;
        }
        return;
      }
      channel := Some(r);
      world := HandlerStep(world, Commit(r));
      slot := HandedOff;
      handed := Some(r);
      e := NoError;
    }

    /** Closes the slot and names the restore that was handed off, if any. */
    method CloseForShutdown(received: Option<Ref>) returns (path: Option<Ref>)
      requires Valid() && world.process.value.main == Leaving(received) && LockFree(world.process.value)
      modifies this
      ensures Valid() && world == MainStep(old(world), CloseRestores)
      ensures slot.Closed? && world.process.value.main == Draining(path)
      ensures path == if received.Some? then received else old(handed)
    {
      world := MainStep(world, CloseRestores);
      slot := Closed;
      path := received;
      if path.None? {
        path := handed;
      }
    }

    /** What the markers say: the outcome as written, else a verdict made from the pending marker. */
    method ReadMarkersBack() returns (o: Option<Report>)
      ensures o == ReadBack(Files())
      ensures outcome.Some? ==> o == outcome
      ensures outcome.None? && pending.Some? ==>
                var m := pending.value;
                o == Some(Report(Some(m.ref), if m.notCarriedOut || m.ref in staged then PreviousInPlace else Undecided))
      ensures outcome.None? && pending.None? ==> o.None?
    {
      o := outcome;
      if o.None? && pending.Some? {
        var m := pending.value;
        var verdict := Undecided;
        if m.notCarriedOut || m.ref in staged {
          verdict := PreviousInPlace;
        }
        o := Some(Report(Some(m.ref), verdict));
      }
    }

    /** The restore part of a start: the markers are dropped only once their result is saved. */
    method AbsorbRestoreOutcome(saveOk: bool, outcomeOk: bool, markerOk: bool)
      requires Valid() && world.process.value.house.Loading?
      modifies this
      ensures Valid()
      ensures world == AfterAbsorb(old(world), saveOk, outcomeOk, markerOk)
      ensures shown == if ReadBack(old(Files())).Some? then ReadBack(old(Files())) else old(status)
      ensures
        var o := ReadBack(old(Files()));
        var saved := o.Some? && saveOk;
        && status == (if saved then o else old(status))
        && outcome == (if saved && outcomeOk then None else old(outcome))
        && pending == (if saved && markerOk then None else old(pending))
        && staged == old(staged) && database == old(database)
    {
      shown, version := status, version + 1;
      var o := ReadMarkersBack();
      world := AfterRead(world);
      if o.Some? {
        var saved := SaveResult(o.value, saveOk);
        if saved {
          DropMarkers(outcomeOk, markerOk);
        }
      }
    }

    method SaveResult(o: Report, saveOk: bool) returns (saved: bool)
      requires Valid() && world.process.value.house == Saving(o)
      modifies this
      ensures Valid() && saved == saveOk && world == AfterSave(old(world), saveOk)
      ensures shown == Some(o) && status == (if saveOk then Some(o) else old(status))
      ensures outcome == old(outcome) && pending == old(pending) && staged == old(staged) && database == old(database)
    {
      if saveOk {
        status := Some(o);
      }
      shown, version := Some(o), version + 1;
      world := AfterSave(world, saveOk);
      saved := saveOk;
    }

    method DropMarkers(outcomeOk: bool, markerOk: bool)
      requires Valid() && world.process.value.house.DroppingOutcome?
      modifies this
      ensures Valid() && world == AfterDrop(old(world), outcomeOk, markerOk)
      ensures shown == old(shown) && status == old(status) && staged == old(staged) && database == old(database)
      ensures outcome == (if outcomeOk then None else old(outcome)) && pending == (if markerOk then None else old(pending))
    {
      if outcomeOk {
        outcome := None;
      }
      if markerOk {
        pending := None;
      }
      world := AfterDrop(world, outcomeOk, markerOk);
    }

    /**
     The checks before the rename, in the order they are made; the first that fails
     refuses the swap.  A log that can be inspected is seen as it is.
     */
    method SwapAllowed(r: Ref, c: SwapChecks) returns (ok: bool)
      requires SeenAsItIs(c, log)
      ensures ok <==> MayRename(Files(), r, c)
      ensures ok ==> r in staged && c.regular && c.valid && log.bytes == 0 && !c.wal.Unclear? && !c.shm.Unclear?
      ensures r in staged && c.regular && c.valid && c.renameOk && log.bytes == 0 && !c.wal.Unclear? && !c.shm.Unclear? ==> ok
    {
      if r !in staged || !c.regular {
        return false;
      }
      if !c.valid {
        return false;
      }
      if c.wal.Unclear? || (c.wal.Present? && c.wal.bytes > 0) {
        return false;
      }
      if c.shm.Unclear? {
        return false;
      }
      ok := c.renameOk;
    }

    /** Closes the store and swaps the staged database in by a rename, or gives the restore up. */
    method SwapStagedRestore(r: Ref, closeOk: bool, c: SwapChecks, dropOk: bool, markOk: bool) returns (swapped: bool)
      requires Valid() && world.process.value.main == Draining(Some(r)) && SeenAsItIs(c, log)
      modifies this
      ensures Valid()
      ensures world == AfterSwap(old(world), r, closeOk, c, dropOk, markOk)
      ensures world.process.value.main == Reporting(r, swapped)
      ensures swapped <==> closeOk && MayRename(old(Files()), r, c)
      ensures database == if swapped then Some(r) else old(database)
      ensures !swapped && markOk && old(pending).Some? ==> pending == Some(Marker(old(pending).value.ref, true))
      ensures swapped || dropOk ==> r !in staged
    {
      world := MainStep(world, CloseStore(closeOk));
      if closeOk {
        var ok := SwapAllowed(r, c);
        if ok {
          staged := staged - {r};
          database := Some(r);
          world := MainStep(world, Rename(c));
          return true;
        }
        world := MainStep(world, RefuseSwap);
      }
      GiveUp(r, dropOk, markOk);
      swapped := false;
    }

    /** Removes the staged file and notes in the pending marker that the restore was not carried out. */
    method GiveUp(r: Ref, dropOk: bool, markOk: bool)
      requires Valid() && world.process.value.main == Dropping(r)
      modifies this
      ensures Valid() && world == AfterGivingUp(old(world), dropOk, markOk)
      ensures world.process.value.main == Reporting(r, false)
      ensures staged == if dropOk then old(staged) - {r} else old(staged)
      ensures pending == if markOk && old(pending).Some? then Some(Marker(old(pending).value.ref, true)) else old(pending)
      ensures outcome == old(outcome) && status == old(status) && database == old(database)
    {
      world := AfterGivingUp(world, dropOk, markOk);
      if dropOk {
        staged := staged - {r};
      }
      if markOk && pending.Some? {
        pending := Some(pending.value.(notCarriedOut := true));
      }
    }

    /** Writes how the restore ended, then removes the pending marker. */
    method WriteRestoreOutcome(swapped: bool, outcomeOk: bool, clearOk: bool) returns (ref: Option<Ref>)
      requires Valid() && world.process.value.main.Reporting? && world.process.value.main.renamed == swapped
      modifies this
      ensures Valid()
      ensures world == AfterReport(old(world), outcomeOk, clearOk)
      ensures ref == if old(pending).Some? then Some(old(pending).value.ref) else None
      ensures outcome == if outcomeOk then Some(Report(ref, if swapped then Success else PreviousInPlace)) else old(outcome)
      ensures pending == if outcomeOk && clearOk then None else old(pending)
    {
      ref := None;
      if pending.Some? {
        ref := Some(pending.value.ref);
      }
      world := MainStep(world, WriteOutcome(outcomeOk));
      if !outcomeOk {
        return;
      }
      outcome := Some(Report(ref, if swapped then Success else PreviousInPlace));
      world := MainStep(world, ClearMarker(clearOk));
      if clearOk {
        pending := None;
      }
    }

    /**
     What main does with the restore it was handed.  The outcome it leaves names that
     restore and tells the truth; if it could not be written the marker still names it.
     */
    method PerformRestore(r: Ref, closeOk: bool, c: SwapChecks, dropOk: bool, markOk: bool,
                          outcomeOk: bool, clearOk: bool)
      requires Valid() && Inv(world) && world.process.value.main == Draining(Some(r)) && SeenAsItIs(c, log)
      modifies this
      ensures Valid() && Inv(world)
      ensures database == if r in world.renamed then Some(r) else old(database)
      ensures if outcomeOk
              then outcome == Some(Report(Some(r), if r in world.renamed then Success else PreviousInPlace))
              else pending.Some? && pending.value.ref == r
      ensures r in world.renamed <==>
                && closeOk && r in old(staged) && c.regular && c.valid && c.renameOk
                && old(log).bytes == 0 && !c.wal.Unclear? && !c.shm.Unclear?
    {
      SwapHappensOrNot(world, r, closeOk, c, dropOk, markOk);
      var swapped := SwapStagedRestore(r, closeOk, c, dropOk, markOk);
      ReportNamesTheRestore(world, r, swapped, outcomeOk, clearOk);
      var ref := WriteRestoreOutcome(swapped, outcomeOk, clearOk);
    }

    /** Clears the shown result if it is the one the client saw. */
    method AcknowledgeRestoreResult(ref: Option<Ref>, removeOk: bool, ghost a: nat) returns (cleared: bool)
      requires Valid() && a !in world.process.value.acks
      modifies this
      ensures Valid()
      ensures world == if old(shown).Some? && old(shown).value.ref == ref then AfterAck(old(world), a, removeOk) else old(world)
      ensures cleared <==> old(shown).None? || (old(shown).value.ref == ref && removeOk)
      ensures cleared ==> shown.None? && (old(shown).Some? ==> status.None?)
      ensures !cleared ==> shown == old(shown) && status == old(status)
    {
      if shown.None? {
        return true;
      }
      var cur, seen := shown.value, version;
      if cur.ref != ref {
        return false;
      }
      world := AfterAck(world, a, removeOk);
      if !removeOk {
        return false;
      }
      status := None;
      if version == seen {
        shown := None;
      }
      cleared := true;
    }

    /** Sweeps the staged files; a directory that cannot be listed is left alone and counts nothing as stuck. */
    method CleanupStagedRestores(listOk: bool, undeletable: set<Ref>) returns (stuck: nat)
      requires Valid() && world.process.value.house.Sweeping?
      modifies `staged, `world
      ensures Valid()
      ensures staged == if listOk then old(staged) * undeletable else old(staged)
      ensures stuck == if listOk then |staged| else 0
      ensures world == old(world).(disk := old(world).disk.(staged := staged))
    {
      if !listOk {
        return 0;
      }
      staged, stuck := RemoveEach(staged, undeletable);
      world := world.(disk := world.disk.(staged := staged));
    }
  }

  /** Tries to remove each file once; what stays is exactly what could not be removed. */
  method RemoveEach(files: set<Ref>, undeletable: set<Ref>) returns (left: set<Ref>, stuck: nat)
    ensures left == files * undeletable && stuck == |left|
  {
    var entries := files;
    left, stuck := {}, 0;
    while entries != {}
      invariant entries <= files
      invariant left == (files - entries) * undeletable
      invariant stuck == |left|
      decreases entries
    {
      var r :| r in entries;
      entries := entries - {r};
      if r in undeletable {
        left := left + {r};
        stuck := stuck + 1;
      }
    }
  }
}
