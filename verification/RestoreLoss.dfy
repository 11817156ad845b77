/**
 How the record of an accepted restore is lost after all, for every state in which it
 can be, and what a start guarantees when its file operations work.
 */
module RestoreLoss {
  import opened Options
  import opened RestoreModel
  import opened RestoreTruth
  import opened RestoreRecord
  import opened RestoreServer

  // ---------------------------------------------------------------- building runs

  /** Nothing is acknowledged and no restore is accepted. */
  predicate Quiet(l: Step) {
    !l.AckRemove? && !l.Commit?
  }

  /** `w'` comes after `w`; with `quiet`, by quiet steps only. */
  ghost predicate Reaches(w: World, w': World, quiet: bool) {
    exists ls :: IsRun(w, ls, w') && (quiet ==> forall l <- ls :: Quiet(l))
  }

  lemma Stay(w: World)
    ensures Reaches(w, w, true)
  {
    assert IsRun(w, [], w);
  }

  lemma ReachesReachable(w: World, w': World, quiet: bool)
    requires Reachable(w) && Reaches(w, w', quiet)
    ensures Reachable(w')
  {
    var w0, ls :| Init(w0) && IsRun(w0, ls, w);
    var ms :| IsRun(w, ms, w');
    RunConcat(w0, ls, w, ms, w');
  }

  lemma Go(w0: World, w: World, l: Step, quiet: bool)
    requires Reaches(w0, w, quiet) && Enabled(w, l) && (quiet ==> Quiet(l))
    ensures Reaches(w0, Next(w, l), quiet)
  {
    var ls :| IsRun(w0, ls, w) && (quiet ==> forall k <- ls :: Quiet(k));
    OneStep(w, l);
    RunConcat(w0, ls, w, [l], Next(w, l));
    assert forall k <- ls + [l] :: k in ls || k == l;
  }

  lemma GoHandler(w0: World, w: World, l: Step, quiet: bool) returns (w': World)
    requires Reaches(w0, w, quiet) && (quiet ==> Quiet(l)) && w.process.Some? && HandlerEnabled(w, w.process.value, l)
    ensures w' == HandlerStep(w, l) && Reaches(w0, w', quiet)
  {
    Go(w0, w, l, quiet);
    w' := HandlerStep(w, l);
  }

  lemma GoMain(w0: World, w: World, l: Step, quiet: bool) returns (w': World)
    requires Reaches(w0, w, quiet) && (quiet ==> Quiet(l)) && w.process.Some? && MainEnabled(w, w.process.value, l)
    ensures w' == MainStep(w, l) && Reaches(w0, w', quiet)
  {
    Go(w0, w, l, quiet);
    w' := MainStep(w, l);
  }

  lemma GoHouse(w0: World, w: World, l: Step, quiet: bool) returns (w': World)
    requires Reaches(w0, w, quiet) && (quiet ==> Quiet(l)) && w.process.Some? && HouseEnabled(w, w.process.value, l)
    ensures w' == HouseStep(w, l) && Reaches(w0, w', quiet)
  {
    Go(w0, w, l, quiet);
    w' := HouseStep(w, l);
  }

  lemma GoKill(w0: World, w: World, quiet: bool) returns (w': World)
    requires Reaches(w0, w, quiet) && w.process.Some?
    ensures w' == w.(process := None) && Reaches(w0, w', quiet)
  {
    Go(w0, w, Kill, quiet);
    w' := w.(process := None);
  }

  lemma GoRestart(w0: World, w: World, quiet: bool) returns (w': World)
    requires Reaches(w0, w, quiet) && w.process.None?
    ensures w' == w.(process := Some(FreshProcess)) && Reaches(w0, w', quiet)
  {
    Go(w0, w, Restart, quiet);
    w' := w.(process := Some(FreshProcess));
  }

  // ---------------------------------------------------------------- stretches of a run

  predicate IdleServer(w: World) {
    && w.process.Some?
    && w.process.value.server.slot.Idle? && w.process.value.server.channel.None?
    && w.process.value.handlers == map[] && w.process.value.house.Ready? && w.process.value.main.Serving?
  }

  /** The state in which an idle server has staged `r` and written its marker. */
  function MarkedWorld(w: World, r: Ref): World
    requires w.process.Some?
  {
    var p := w.process.value;
    w.(disk := w.disk.(staged := w.disk.staged + {r}, pending := Some(Marker(r, false))),
       process := Some(p.(handlers := map[r := Marked], server := p.server.(slot := Staging))),
       used := w.used + {r})
  }

  lemma StageAndMark(w0: World, w: World, r: Ref, quiet: bool) returns (w': World)
    requires Reaches(w0, w, quiet) && IdleServer(w) && r !in w.used
    ensures w' == MarkedWorld(w, r) && Reaches(w0, w', quiet)
  {
    var w1 := GoHandler(w0, w, Begin(r), quiet);
    var w2 := GoHandler(w0, w1, StageDone(r), quiet);
    var w3 := GoHandler(w0, w2, Check(r), quiet);
    w' := GoHandler(w0, w3, WriteMarker(r, true), quiet);
    assert w'.process.value.handlers == map[r := Marked];
  }

  /** An idle server takes restore `r` all the way to its 202. */
  lemma HandOff(w0: World, w: World, r: Ref) returns (w': World)
    requires Reaches(w0, w, false) && IdleServer(w) && r !in w.used
    ensures Reaches(w0, w', false)
    ensures
      var p := w.process.value;
      w' == w.(disk := w.disk.(staged := w.disk.staged + {r}, pending := Some(Marker(r, false))),
               process := Some(p.(server := p.server.(slot := HandedOff, handed := Some(r), channel := Some(r)))),
               used := w.used + {r}, accepted := w.accepted + {r})
  {
    var w1 := StageAndMark(w0, w, r, false);
    var w2 := GoHandler(w0, w1, Recheck(r), false);
    w' := GoHandler(w0, w2, Commit(r), false);
    assert w'.process.value.handlers == map[];
  }

  /** A process that has just finished its start and shows `o`. */
  function Started(o: Option<Report>, version: nat): Process {
    Process(Server(Idle, None, None, o, version), map[], Serving, Ready, map[])
  }

  /** A start that finds no marker. */
  lemma StartClean(w0: World, w: World, quiet: bool) returns (w': World)
    requires Reaches(w0, w, quiet) && w.process.None? && ReadBack(w.disk).None?
    ensures w' == w.(process := Some(Started(w.disk.status, 1))) && Reaches(w0, w', quiet)
  {
    var w1 := GoRestart(w0, w, quiet);
    var w2 := GoHouse(w0, w1, LoadStatus, quiet);
    var w3 := GoHouse(w0, w2, ReadMarkers, quiet);
    w' := GoHouse(w0, w3, EndHousekeeping, quiet);
  }

  lemma StartReads(w0: World, w: World, o: Report, quiet: bool) returns (w': World)
    requires Reaches(w0, w, quiet) && w.process.None? && ReadBack(w.disk) == Some(o)
    ensures w' == w.(process := Some(Process(Server(Idle, None, None, w.disk.status, 1), map[], Serving, Saving(o), map[])))
    ensures Reaches(w0, w', quiet)
  {
    var w1 := GoRestart(w0, w, quiet);
    var w2 := GoHouse(w0, w1, LoadStatus, quiet);
    w' := GoHouse(w0, w2, ReadMarkers, quiet);
  }

  /** A start that folds a marker in, with every file operation working. */
  lemma StartAbsorbs(w0: World, w: World, o: Report, quiet: bool) returns (w': World)
    requires Reaches(w0, w, quiet) && w.process.None? && ReadBack(w.disk) == Some(o)
    ensures w' == w.(disk := w.disk.(status := Some(o), outcome := None, pending := None), process := Some(Started(Some(o), 2)))
    ensures Reaches(w0, w', quiet)
  {
    var w3 := StartReads(w0, w, o, quiet);
    var w5 := SaveAndShow(w0, w3, o, true, quiet);
    var w6 := GoHouse(w0, w5, DropOutcome(true), quiet);
    var w7 := GoHouse(w0, w6, DropMarker(true), quiet);
    w' := GoHouse(w0, w7, EndHousekeeping, quiet);
  }

  lemma SaveAndShow(w0: World, w: World, o: Report, ok: bool, quiet: bool) returns (w': World)
    requires Reaches(w0, w, quiet) && w.process.Some? && w.process.value.house == Saving(o)
    ensures Reaches(w0, w', quiet)
    ensures
      var p := w.process.value;
      w' == w.(disk := if ok then w.disk.(status := Some(o)) else w.disk,
               process := Some(p.(house := if ok then DroppingOutcome else Sweeping, server := Display(p.server, Some(o)))))
  {
    var w4 := GoHouse(w0, w, SaveStatus(ok), quiet);
    w' := GoHouse(w0, w4, Show, quiet);
  }

  /** A start whose status save fails: everything on disk stays as it was. */
  lemma StartCannotSave(w0: World, w: World, o: Report, quiet: bool) returns (w': World)
    requires Reaches(w0, w, quiet) && w.process.None? && ReadBack(w.disk) == Some(o)
    ensures w' == w.(process := Some(Started(Some(o), 2))) && Reaches(w0, w', quiet)
  {
    var w3 := StartReads(w0, w, o, quiet);
    var w5 := SaveAndShow(w0, w3, o, false, quiet);
    w' := GoHouse(w0, w5, EndHousekeeping, quiet);
  }

  lemma {:induction false} FreshRef(s: set<Ref>) returns (r: Ref)
    ensures forall x <- s :: x < r
    decreases s
  {
    r := 0;
    if s != {} {
      var x :| x in s;
      var q := FreshRef(s - {x});
      r := if q > x then q else x + 1;
      assert forall y <- s :: y == x || y in s - {x};
    }
  }

  // ---------------------------------------------------------------- acceptance does not protect

  /** `r` survives until it is acknowledged or another restore is accepted. */
  ghost predicate KeptUntilAccepted(w: World, r: Ref) {
    forall w' :: Reaches(w, w', true) ==> Recorded(w', r)
  }

  /**
   Nothing accepted later and nothing acknowledged is not enough: whatever state the
   hand-off of `r` succeeds in, some continuation with no acknowledgement and no
   further acceptance loses its record.  Only the marker of another restore is needed.
   */
  lemma AcceptanceNeverProtects(w: World, r: Ref)
    requires Reachable(w) && Enabled(w, Commit(r))
    ensures !KeptUntilAccepted(Next(w, Commit(r)), r)
  {
    ReachableInv(w);
    StepKeepsInv(w, Commit(r));
    var w1 := HandlerStep(w, Commit(r));
    Stay(w1);
    var w2 := GoKill(w1, w1, true);
    var o := ReadBack(w2.disk).value;
    var w3 := StartAbsorbs(w1, w2, o, true);
    if o.ref == Some(r) {
      var q := FreshRef(w3.used);
      var w4 := StageAndMark(w1, w3, q, true);
      var w5 := GoKill(w1, w4, true);
      var w6 := StartAbsorbs(w1, w5, Synthesize(Marker(q, false), w5.disk.staged), true);
      assert !Recorded(w6, r);
    } else {
      assert !Recorded(w3, r);
    }
  }

  // ---------------------------------------------------------------- what handlers leave alone

  /** The results, on disk and on screen, and everything that works on them. */
  predicate SameResults(w: World, w': World) {
    && w.process.Some? && w'.process.Some?
    && w'.disk.status == w.disk.status && w'.disk.outcome == w.disk.outcome
    && w'.process.value.house == w.process.value.house && w'.process.value.acks == w.process.value.acks
    && w'.process.value.main == w.process.value.main
    && w'.process.value.server.shown == w.process.value.server.shown
  }

  lemma HandlerLeavesResults(w: World, p: Process, l: Step)
    requires w.process == Some(p) && HandlerEnabled(w, p, l)
    ensures SameResults(w, HandlerNext(w, p, l))
  {
  }

  // ---------------------------------------------------------------- results of restores never accepted

  /** Between its marker and the send, or taking the marker back. */
  predicate InHandOff(p: Process, r: Ref) {
    r in p.handlers && (p.handlers[r].Marked? || p.handlers[r].Refused? || p.handlers[r].Sending?)
  }

  /** The restores a step leaves behind with their marker: a kill in mid hand-off, or a failed removal. */
  function AbandonedBy(w: World, l: Step): set<Ref> {
    if w.process.None? then {}
    else if l.Kill? then set r | r in w.process.value.handlers && InHandOff(w.process.value, r)
    else if l.RemoveMarker? && !l.ok then {l.r}
    else {}
  }

  ghost function Abandoned(w: World, ls: seq<Step>): set<Ref>
    decreases ls
  {
    if ls == [] || !Enabled(w, ls[0]) then {} else AbandonedBy(w, ls[0]) + Abandoned(Next(w, ls[0]), ls[1..])
  }

  ghost predicate ProcessHistory(w: World, p: Process, gone: set<Ref>) {
    && (forall r <- p.handlers :: r !in w.accepted && (r in gone ==> p.handlers[r].Failing? || p.handlers[r].Aborting?))
    && (!p.house.Ready? ==> forall a <- p.acks :: p.acks[a].early)
  }

  /** `gone` are the restores abandoned so far. */
  ghost predicate History(w: World, gone: set<Ref>) {
    && gone !! w.accepted && gone <= w.used
    && (w.disk.outcome.Some? && w.disk.outcome.value.ref.Some? ==> w.disk.outcome.value.ref.value in w.accepted)
    && (w.disk.pending.Some? && w.disk.pending.value.ref !in w.accepted ==>
          || w.disk.pending.value.ref in gone
          || (w.process.Some? && InHandOff(w.process.value, w.disk.pending.value.ref)))
    && (w.process.Some? ==> ProcessHistory(w, w.process.value, gone))
  }

  lemma HandlerKeepsHistory(w: World, p: Process, l: Step, gone: set<Ref>)
    requires Inv(w) && History(w, gone) && w.process == Some(p) && HandlerEnabled(w, p, l)
    ensures History(HandlerNext(w, p, l), gone + AbandonedBy(w, l))
  {
    if ChangesSlot(l) {
      ClaimKeepsHistory(w, p, l, gone);
    } else if l.RemoveMarker? {
      RemovalKeepsHistory(w, p, l, gone);
    } else {
      StagingKeepsHistory(w, p, l, gone);
    }
  }

  lemma ClaimKeepsHistory(w: World, p: Process, l: Step, gone: set<Ref>)
    requires Inv(w) && History(w, gone) && w.process == Some(p) && HandlerEnabled(w, p, l) && ChangesSlot(l)
    ensures History(HandlerNext(w, p, l), gone + AbandonedBy(w, l))
  {
    assert gone + AbandonedBy(w, l) == gone;
  }

  lemma RemovalKeepsHistory(w: World, p: Process, l: Step, gone: set<Ref>)
    requires Inv(w) && History(w, gone) && w.process == Some(p) && HandlerEnabled(w, p, l) && l.RemoveMarker?
    ensures History(HandlerNext(w, p, l), gone + AbandonedBy(w, l))
  {
  }

  lemma StagingKeepsHistory(w: World, p: Process, l: Step, gone: set<Ref>)
    requires Inv(w) && History(w, gone) && w.process == Some(p) && HandlerEnabled(w, p, l)
    requires !ChangesSlot(l) && !l.RemoveMarker?
    ensures History(HandlerNext(w, p, l), gone + AbandonedBy(w, l))
  {
    assert gone + AbandonedBy(w, l) == gone;
  }

  lemma MainKeepsHistory(w: World, p: Process, l: Step, gone: set<Ref>)
    requires Inv(w) && History(w, gone) && w.process == Some(p) && MainEnabled(w, p, l)
    ensures History(MainNext(w, p, l), gone + AbandonedBy(w, l))
  {
  }

  lemma HouseKeepsHistory(w: World, p: Process, l: Step, gone: set<Ref>)
    requires Inv(w) && History(w, gone) && w.process == Some(p) && HouseEnabled(w, p, l)
    ensures History(HouseNext(w, p, l), gone + AbandonedBy(w, l))
  {
  }

  lemma AckKeepsHistory(w: World, p: Process, l: Step, gone: set<Ref>)
    requires Inv(w) && History(w, gone) && w.process == Some(p) && AckEnabled(p, l)
    ensures History(AckNext(w, p, l), gone + AbandonedBy(w, l))
  {
  }

  lemma KillKeepsHistory(w: World, gone: set<Ref>)
    requires History(w, gone) && w.process.Some? && Inv(w)
    ensures History(w.(process := None), gone + AbandonedBy(w, Kill))
  {
  }

  lemma StepKeepsHistory(w: World, l: Step, gone: set<Ref>)
    requires Inv(w) && History(w, gone) && Enabled(w, l)
    ensures History(Next(w, l), gone + AbandonedBy(w, l))
  {
    match w.process
    case None =>
      assert gone + AbandonedBy(w, l) == gone;
    case Some(p) =>
      if l.Kill? {
        KillKeepsHistory(w, gone);
      } else if HandlerEnabled(w, p, l) {
        HandlerKeepsHistory(w, p, l, gone);
      } else if MainEnabled(w, p, l) {
        MainKeepsHistory(w, p, l, gone);
      } else if HouseEnabled(w, p, l) {
        HouseKeepsHistory(w, p, l, gone);
      } else {
        AckKeepsHistory(w, p, l, gone);
      }
  }

  lemma {:induction false} RunKeepsHistory(w: World, ls: seq<Step>, w': World, gone: set<Ref>)
    requires Inv(w) && History(w, gone) && IsRun(w, ls, w')
    ensures History(w', gone + Abandoned(w, ls))
    decreases ls
  {
    if ls == [] {
      assert gone + Abandoned(w, ls) == gone;
    } else {
      StepKeepsInv(w, ls[0]);
      StepKeepsHistory(w, ls[0], gone);
      var more := gone + AbandonedBy(w, ls[0]);
      RunKeepsHistory(Next(w, ls[0]), ls[1..], w', more);
      assert more + Abandoned(Next(w, ls[0]), ls[1..]) == gone + Abandoned(w, ls);
    }
  }

  /** The start that follows a kill is about to save a result naming a restore nobody accepted. */
  predicate NamesUnaccepted(w: World) {
    && w.process.Some? && w.process.value.house.Saving?
    && w.process.value.house.report.ref.Some? && w.process.value.house.report.ref.value !in w.accepted
  }

  /**
   After a kill at any point of any run, the next start reports on a restore that was
   never accepted exactly when no outcome is on disk and the pending marker belongs to
   a restore killed in mid hand-off, now or earlier, or whose marker could not be
   taken back.
   */
  lemma NamesUnacceptedIff(w0: World, ls: seq<Step>, w: World) returns (w': World)
    requires Init(w0) && IsRun(w0, ls, w) && w.process.Some?
    ensures IsRun(w, KillAndRead, w') && w'.disk == w.disk
    ensures NamesUnaccepted(w') <==>
              && w.disk.outcome.None? && w.disk.pending.Some?
              && (w.disk.pending.value.ref in Abandoned(w0, ls) || InHandOff(w.process.value, w.disk.pending.value.ref))
  {
    w' := KillRun(w);
    RunKeepsInv(w0, ls, w);
    RunKeepsHistory(w0, ls, w, {});
    assert {} + Abandoned(w0, ls) == Abandoned(w0, ls);
  }

  /**
   Such a result replaces whatever was saved: a restore killed between its marker and
   the send becomes the only one on record, though its request was never answered.
   */
  lemma UnacceptedRestoreSupersedes(w: World, q: Ref) returns (w': World)
    requires Reachable(w) && w.process.Some? && w.disk.outcome.None?
    requires At(w.process.value, q, Marked) || At(w.process.value, q, Sending)
    ensures Reaches(w, w', true) && q !in w'.accepted
    ensures w'.disk.status == Some(Synthesize(Marker(q, false), w.disk.staged))
    ensures forall r: Ref :: r != q ==> !Recorded(w', r)
  {
    ReachableHistory(w);
    ReachableInv(w);
    Stay(w);
    var w1 := GoKill(w, w, true);
    w' := StartAbsorbs(w, w1, Synthesize(Marker(q, false), w.disk.staged), true);
  }

  lemma ReachableHistory(w: World)
    requires Reachable(w)
    ensures exists gone :: History(w, gone)
  {
    var w0, ls :| Init(w0) && IsRun(w0, ls, w);
    RunKeepsHistory(w0, ls, w, {});
  }

  // ---------------------------------------------------------------- acknowledgements during a start

  /** The save of a new result with an acknowledgement of an older one falling in right after it. */
  function SaveThenAck(a: nat): seq<Step> {
    [SaveStatus(true), AckRemove(a, true), Show, DropOutcome(true), DropMarker(true)]
  }

  /**
   Whenever a start is about to save a result while an acknowledgement it did not wait
   for is still to remove the file, the save can be undone and the markers dropped all
   the same: nothing on disk answers for any restore any more.
   */
  lemma EarlyAckLosesResult(w: World, a: nat) returns (w': World)
    requires w.process.Some? && w.process.value.house.Saving?
    requires a in w.process.value.acks && !w.process.value.acks[a].removed
    ensures IsRun(w, SaveThenAck(a), w') && forall r: Ref :: !Recorded(w', r)
  {
    var w1 := HouseStep(w, SaveStatus(true));
    OneStep(w, SaveStatus(true));
    w' := AckThenDrop(w1, a);
    RunConcat(w, [SaveStatus(true)], w1, SaveThenAck(a)[1..], w');
    assert [SaveStatus(true)] + SaveThenAck(a)[1..] == SaveThenAck(a);
  }

  lemma AckThenDrop(w: World, a: nat) returns (w': World)
    requires w.process.Some? && w.process.value.house.Showing? && w.process.value.house.saved
    requires a in w.process.value.acks && !w.process.value.acks[a].removed
    ensures IsRun(w, SaveThenAck(a)[1..], w') && forall r: Ref :: !Recorded(w', r)
  {
    var w1 := AckStep(w, AckRemove(a, true));
    var w2 := HouseStep(w1, Show);
    TwoSteps(w, AckRemove(a, true), Show);
    w' := AfterDrop(w2, true, true);
    AfterDropIsRun(w2, true, true);
    RunConcat(w, [AckRemove(a, true), Show], w2, [DropOutcome(true), DropMarker(true)], w');
    assert [AckRemove(a, true), Show] + [DropOutcome(true), DropMarker(true)] == SaveThenAck(a)[1..];
  }

  /** The file, if it is there, holds this result. */
  ghost predicate Match(o: Option<Report>, report: Report) {
    o.Some? ==> o.value == report
  }

  /** Every acknowledgement read after the start removes the result it read, or nothing. */
  ghost predicate LateAcksFit(w: World) {
    w.process.Some? ==>
      forall a <- w.process.value.acks :: !w.process.value.acks[a].early ==>
        Match(w.disk.status, w.process.value.acks[a].report)
  }

  /** What a start with a working save keeps about the file and the shown result. */
  ghost predicate StartMatches(w: World, p: Process) {
    var h, shown := p.house, p.server.shown;
    && (!h.Ready? ==> forall a <- p.acks :: p.acks[a].early)
    && (h.Showing? ==> h.saved && Match(w.disk.status, h.report))
    && (shown.Some? && (h.Reading? || h.DroppingOutcome? || h.DroppingMarker? || h.Sweeping? || h.Ready?) ==>
          Match(w.disk.status, shown.value))
  }

  ghost predicate Fits(w: World) {
    w.process.Some? && StartMatches(w, w.process.value) && LateAcksFit(w)
  }

  predicate SavesAndLives(l: Step) {
    !l.Kill? && (l.SaveStatus? ==> l.ok)
  }

  lemma HouseKeepsFits(w: World, p: Process, l: Step)
    requires Fits(w) && w.process == Some(p) && HouseEnabled(w, p, l) && SavesAndLives(l)
    ensures Fits(HouseNext(w, p, l))
  {
  }

  lemma AckKeepsFits(w: World, p: Process, l: Step)
    requires Fits(w) && w.process == Some(p) && AckEnabled(p, l)
    ensures Fits(AckNext(w, p, l))
  {
  }

  lemma MainKeepsFits(w: World, p: Process, l: Step)
    requires Fits(w) && w.process == Some(p) && MainEnabled(w, p, l)
    ensures Fits(MainNext(w, p, l))
  {
  }

  lemma HandlerKeepsFits(w: World, p: Process, l: Step)
    requires Fits(w) && w.process == Some(p) && HandlerEnabled(w, p, l)
    ensures Fits(HandlerNext(w, p, l))
  {
    HandlerLeavesResults(w, p, l);
    SameResultsFit(w, HandlerNext(w, p, l));
  }

  lemma SameResultsFit(w: World, w': World)
    requires Fits(w) && SameResults(w, w')
    ensures Fits(w')
  {
  }

  lemma {:induction false} RunKeepsFits(w: World, ls: seq<Step>, w': World)
    requires Fits(w) && IsRun(w, ls, w') && forall l <- ls :: SavesAndLives(l)
    ensures Fits(w')
    decreases ls
  {
    if ls != [] {
      var p, l := w.process.value, ls[0];
      assert SavesAndLives(l);
      if HandlerEnabled(w, p, l) {
        HandlerKeepsFits(w, p, l);
      } else if MainEnabled(w, p, l) {
        MainKeepsFits(w, p, l);
      } else if HouseEnabled(w, p, l) {
        HouseKeepsFits(w, p, l);
      } else {
        AckKeepsFits(w, p, l);
      }
      RunKeepsFits(Next(w, l), ls[1..], w');
    }
  }

  /** In the rest of this process's life, a late acknowledgement removes only the result it read. */
  ghost predicate LateAcksStayFit(w: World) {
    forall ls, w' :: IsRun(w, ls, w') && (forall l <- ls :: SavesAndLives(l)) ==> LateAcksFit(w')
  }

  /** A process whose start does not fail to save is safe from late acknowledgements throughout. */
  lemma LateAckRemovesItsOwn(w: World)
    requires w.process == Some(FreshProcess)
    ensures LateAcksStayFit(w)
  {
    forall ls, w' | IsRun(w, ls, w') && (forall l <- ls :: SavesAndLives(l))
      ensures LateAcksFit(w')
    {
      RunKeepsFits(w, ls, w');
    }
  }

  /**
   Exactly then: with a different result saved before, the step that saves the new one
   decides whether a later acknowledgement can remove a result its client never saw.
   */
  lemma LateAckRemovesItsOwnIff(w: World, o: Report, ok: bool)
    requires Reachable(w) && w.process.Some? && w.process.value.house == Saving(o)
    requires w.disk.status.Some? && w.disk.status != Some(o)
    ensures LateAcksStayFit(HouseStep(w, SaveStatus(ok))) <==> ok
  {
    ReachableHistory(w);
    var w1 := HouseStep(w, SaveStatus(ok));
    if ok {
      forall ls, w' | IsRun(w1, ls, w') && (forall l <- ls :: SavesAndLives(l))
        ensures LateAcksFit(w')
      {
        RunKeepsFits(w1, ls, w');
      }
    } else {
      UnsavedResultIsShown(w1, o);
    }
  }

  lemma UnsavedResultIsShown(w: World, o: Report)
    requires w.process.Some? && w.process.value.house == Showing(o, false)
    requires w.disk.status.Some? && w.disk.status != Some(o)
    ensures !LateAcksStayFit(w)
  {
    var a := FreshRef(w.process.value.acks.Keys);
    var w2 := HouseStep(HouseStep(w, Show), EndHousekeeping);
    var w3 := AckStep(w2, AckRead(a));
    TwoSteps(w, Show, EndHousekeeping);
    OneStep(w2, AckRead(a));
    RunConcat(w, [Show, EndHousekeeping], w2, [AckRead(a)], w3);
    assert !w3.process.value.acks[a].early && w3.process.value.acks[a].report == o;
    assert !LateAcksFit(w3);
  }

  // ---------------------------------------------------------------- what is shown

  /** Acknowledgements have read this result object or an earlier one. */
  ghost predicate VersionsFit(w: World) {
    w.process.Some? ==>
      forall a <- w.process.value.acks :: w.process.value.acks[a].version <= w.process.value.server.version
  }

  lemma HandlerKeepsVersions(w: World, p: Process, l: Step)
    requires VersionsFit(w) && w.process == Some(p) && HandlerEnabled(w, p, l)
    ensures VersionsFit(HandlerNext(w, p, l)) && HandlerNext(w, p, l).process.value.server.version == p.server.version
  {
  }

  lemma OthersKeepVersions(w: World, p: Process, l: Step)
    requires VersionsFit(w) && w.process == Some(p) && Enabled(w, l) && !HandlerEnabled(w, p, l)
    ensures VersionsFit(Next(w, l))
  {
  }

  lemma {:induction false} RunKeepsVersions(w: World, ls: seq<Step>, w': World)
    requires VersionsFit(w) && IsRun(w, ls, w')
    ensures VersionsFit(w')
    decreases ls
  {
    if ls != [] {
      if w.process.Some? {
        if HandlerEnabled(w, w.process.value, ls[0]) {
          HandlerKeepsVersions(w, w.process.value, ls[0]);
        } else {
          OthersKeepVersions(w, w.process.value, ls[0]);
        }
      }
      RunKeepsVersions(Next(w, ls[0]), ls[1..], w');
    }
  }

  /** `o` is shown, and every acknowledgement under way has read something older. */
  ghost predicate ShowsToOlderAcks(w: World, o: Report) {
    && w.process.Some? && w.process.value.server.shown == Some(o)
    && !w.process.value.house.Loading? && !w.process.value.house.Reading? && !w.process.value.house.Saving? && !w.process.value.house.Showing?
    && forall a <- w.process.value.acks :: w.process.value.acks[a].version < w.process.value.server.version
  }

  lemma HandlerKeepsShowing(w: World, p: Process, l: Step, o: Report)
    requires ShowsToOlderAcks(w, o) && w.process == Some(p) && HandlerEnabled(w, p, l)
    ensures ShowsToOlderAcks(HandlerNext(w, p, l), o)
  {
    HandlerLeavesResults(w, p, l);
    HandlerLeavesVersion(w, p, l);
  }

  lemma HandlerLeavesVersion(w: World, p: Process, l: Step)
    requires w.process == Some(p) && HandlerEnabled(w, p, l)
    ensures HandlerNext(w, p, l).process.value.server.version == p.server.version
  {
  }

  lemma OthersKeepShowing(w: World, p: Process, l: Step, o: Report)
    requires ShowsToOlderAcks(w, o) && w.process == Some(p) && Enabled(w, l) && !HandlerEnabled(w, p, l)
    requires !l.Kill? && !l.AckRead?
    ensures ShowsToOlderAcks(Next(w, l), o)
  {
  }

  lemma {:induction false} RunKeepsShowing(w: World, ls: seq<Step>, w': World, o: Report)
    requires ShowsToOlderAcks(w, o) && IsRun(w, ls, w') && forall l <- ls :: !l.Kill? && !l.AckRead?
    ensures ShowsToOlderAcks(w', o)
    decreases ls
  {
    if ls != [] {
      assert !ls[0].Kill? && !ls[0].AckRead?;
      if HandlerEnabled(w, w.process.value, ls[0]) {
        HandlerKeepsShowing(w, w.process.value, ls[0], o);
      } else {
        OthersKeepShowing(w, w.process.value, ls[0], o);
      }
      RunKeepsShowing(Next(w, ls[0]), ls[1..], w', o);
    }
  }

  /**
   A result a start has just put on screen stays there until it is read by an
   acknowledgement: those that had read an older one, even one that says the same, do
   not clear it.
   */
  lemma NewerResultStaysShown(w: World, ls: seq<Step>, w': World)
    requires Reachable(w) && w.process.Some? && w.process.value.house.Showing?
    requires IsRun(HouseStep(w, Show), ls, w') && forall l <- ls :: !l.Kill? && !l.AckRead?
    ensures w'.process.Some? && w'.process.value.server.shown == Some(w.process.value.house.report)
  {
    var w0, ms :| Init(w0) && IsRun(w0, ms, w);
    RunKeepsVersions(w0, ms, w);
    RunKeepsShowing(HouseStep(w, Show), ls, w', w.process.value.house.report);
  }

  // ---------------------------------------------------------------- a start that works

  /** Neither the save nor the removal of the outcome marker fails, and the process lives. */
  predicate StartWorks(l: Step) {
    SavesAndLives(l) && (l.DropOutcome? ==> l.ok)
  }

  /** Past its start, the process has no outcome marker beside it until main writes one. */
  ghost predicate NoOldOutcome(w: World) {
    w.process.Some? && PastOldOutcome(w.disk, w.process.value)
  }

  ghost predicate PastOldOutcome(d: Disk, p: Process) {
    && (p.house.Showing? ==> p.house.saved)
    && ((p.house.DroppingMarker? || p.house.Sweeping? || p.house.Ready?) && !p.main.Clearing? && !p.main.Exiting? ==>
          d.outcome.None?)
  }

  lemma HouseKeepsNoOldOutcome(w: World, p: Process, l: Step)
    requires NoOldOutcome(w) && w.process == Some(p) && HouseEnabled(w, p, l) && StartWorks(l)
    ensures NoOldOutcome(HouseNext(w, p, l))
  {
  }

  lemma HandlerKeepsNoOldOutcome(w: World, p: Process, l: Step)
    requires NoOldOutcome(w) && w.process == Some(p) && HandlerEnabled(w, p, l)
    ensures NoOldOutcome(HandlerNext(w, p, l))
  {
    HandlerLeavesResults(w, p, l);
    SameResultsNoOldOutcome(w, HandlerNext(w, p, l));
  }

  lemma SameResultsNoOldOutcome(w: World, w': World)
    requires NoOldOutcome(w) && SameResults(w, w')
    ensures NoOldOutcome(w')
  {
  }

  lemma StepKeepsNoOldOutcome(w: World, l: Step)
    requires NoOldOutcome(w) && Enabled(w, l) && StartWorks(l)
    ensures NoOldOutcome(Next(w, l))
  {
    var p := w.process.value;
    if HandlerEnabled(w, p, l) {
      HandlerKeepsNoOldOutcome(w, p, l);
    } else if HouseEnabled(w, p, l) {
      HouseKeepsNoOldOutcome(w, p, l);
    }
  }

  lemma {:induction false} RunKeepsNoOldOutcome(w: World, ls: seq<Step>, w': World)
    requires NoOldOutcome(w) && IsRun(w, ls, w') && forall l <- ls :: StartWorks(l)
    ensures NoOldOutcome(w')
    decreases ls
  {
    if ls != [] {
      assert StartWorks(ls[0]);
      StepKeepsNoOldOutcome(w, ls[0]);
      RunKeepsNoOldOutcome(Next(w, ls[0]), ls[1..], w');
    }
  }

  /**
   A process whose own start saved the result and removed the outcome marker never
   accepts a restore that can vanish, whatever earlier processes left behind.
   */
  lemma WorkingStartProtects(w: World, ls: seq<Step>, w': World, r: Ref)
    requires Reachable(w) && w.process == Some(FreshProcess)
    requires IsRun(w, ls, w') && (forall l <- ls :: StartWorks(l)) && Enabled(w', Commit(r))
    ensures NeverVanishes(Next(w', Commit(r)), r)
  {
    ReachableInv(w);
    RunKeepsInv(w, ls, w');
    RunKeepsNoOldOutcome(w, ls, w');
    assert Reaches(w, w', false);
    ReachesReachable(w, w', false);
    AcceptedRestoreNeverVanishes(w', r);
  }

  // ---------------------------------------------------------------- a save that is retried

  /** A start that cannot save and then sweeps the staged files `gone`. */
  lemma StartFailsAndSweeps(w: World, o: Report, gone: set<Ref>) returns (w': World)
    requires w.process.None? && ReadBack(w.disk) == Some(o) && gone <= w.disk.staged
    ensures w' == w.(disk := w.disk.(staged := w.disk.staged - gone)) && Reaches(w, w', false)
  {
    Stay(w);
    assert Reaches(w, w, false);
    var w3 := StartReads(w, w, o, false);
    var w5 := SaveAndShow(w, w3, o, false, false);
    var ls :| IsRun(w, ls, w5);
    var ms := SweepIsRun(w5, gone);
    var w6 := w5.(disk := w5.disk.(staged := w5.disk.staged - gone));
    RunConcat(w, ls, w5, ms, w6);
    assert Reaches(w, w6, false);
    w' := GoKill(w, w6, false);
  }

  /**
   A failed save is retried at the next start, but not always with the same answer:
   exactly when the answer rests on the staged file alone and the sweep after the
   failed save removed it, "the previous database is in place" becomes undecided.
   */
  lemma RetryKeepsAnswerIff(w: World, o: Report, gone: set<Ref>) returns (w': World, o': Report)
    requires w.process.None? && ReadBack(w.disk) == Some(o) && gone <= w.disk.staged
    ensures Reaches(w, w', false) && w'.process.None? && ReadBack(w'.disk) == Some(o')
    ensures w'.disk.staged == w.disk.staged - gone
    ensures o' == o <==> w.disk.outcome.Some? || w.disk.pending.value.notCarriedOut || w.disk.pending.value.ref !in gone
    ensures o' != o ==> o.verdict.PreviousInPlace? && o'.verdict.Undecided? && o'.ref == o.ref
  {
    w' := StartFailsAndSweeps(w, o, gone);
    o' := ReadBack(w'.disk).value;
  }

  // ---------------------------------------------------------------- the failures are real

  lemma FirstStart() returns (w: World)
    ensures Init(w) && Reachable(w) && Reaches(w, w, false)
  {
    w := World(Disk({}, None, None, None, None, Log(None, 0)), None, {}, {}, {});
    assert IsRun(w, [], w);
  }

  /** Main performs the restore it was handed, writes the outcome, and the process ends. */
  lemma SwapAndDie(w0: World, w: World, r: Ref) returns (w': World)
    requires Reaches(w0, w, false) && w.process.Some? && w.process.value.main == Swapping(r) && r in w.disk.staged
    requires w.disk.pending == Some(Marker(r, false)) && w.disk.log.bytes == 0
    ensures Reaches(w0, w', false)
    ensures w' == w.(disk := w.disk.(staged := w.disk.staged - {r}, pending := None,
                                     outcome := Some(Report(Some(r), Success)), database := Some(r)),
                     process := None, renamed := w.renamed + {r})
  {
    var w1 := GoMain(w0, w, Rename(SwapChecks(true, true, Absent, Absent, true)), false);
    var w2 := GoMain(w0, w1, WriteOutcome(true), false);
    var w3 := GoMain(w0, w2, ClearMarker(true), false);
    w' := GoKill(w0, w3, false);
  }

  /** Restore 1 is accepted, swapped in, and its outcome recorded before the process ends. */
  lemma FirstRestore(w0: World) returns (w: World)
    requires Init(w0)
    ensures Reaches(w0, w, false)
    ensures w == World(Disk({}, None, Some(Report(Some(1), Success)), None, Some(1), Log(None, 0)), None, {1}, {1}, {1})
  {
    assert IsRun(w0, [], w0);
    var w1 := StartClean(w0, w0, false);
    var w2 := HandOff(w0, w1, 1);
    var w3 := GoMain(w0, w2, Receive, false);
    var w4 := GoMain(w0, w3, CloseRestores, false);
    var w5 := GoMain(w0, w4, CloseStore(true), false);
    w := SwapAndDie(w0, w5, 1);
  }

  /**
   The status save fails at the next start, so the outcome marker of restore 1 stays;
   restore 2 is about to be accepted beside it.
   */
  lemma StaleOutcomeIsReachable() returns (w: World)
    ensures Reachable(w) && Enabled(w, Commit(2)) && w.disk.outcome == Some(Report(Some(1), Success))
    ensures !NeverVanishes(Next(w, Commit(2)), 2)
  {
    var w0 := FirstStart();
    var w1 := FirstRestore(w0);
    var w2 := StartCannotSave(w0, w1, Report(Some(1), Success), false);
    var w3 := StageAndMark(w0, w2, 2, false);
    w := GoHandler(w0, w3, Recheck(2), false);
    ReachesReachable(w0, w, false);
    AcceptedRestoreNeverVanishes(w, 2);
  }

  /** A start folding in restore 2 with an acknowledgement of restore 1 on its way. */
  lemma EarlyAckIsReachable() returns (w: World, w': World)
    ensures Reachable(w) && 2 in w.accepted && Recorded(w, 2)
    ensures w.process.Some? && 0 in w.process.value.acks && w.process.value.acks[0].report.ref == Some(1)
    ensures IsRun(w, SaveThenAck(0), w') && !Recorded(w', 2)
  {
    var w0 := FirstStart();
    var w4 := SecondRestore(w0);
    var w5 := GoRestart(w0, w4, false);
    var w6 := GoHouse(w0, w5, LoadStatus, false);
    Go(w0, w6, AckRead(0), false);
    var w7 := AckStep(w6, AckRead(0));
    w := GoHouse(w0, w7, ReadMarkers, false);
    ReachesReachable(w0, w, false);
    w' := EarlyAckLosesResult(w, 0);
  }

  /** The result of restore 1 is saved, restore 2 is accepted, and the process is killed. */
  lemma SecondRestore(w0: World) returns (w: World)
    requires Init(w0)
    ensures Reaches(w0, w, false) && w.process.None? && 2 in w.accepted
    ensures w.disk.status == Some(Report(Some(1), Success)) && w.disk.outcome.None? && w.disk.pending == Some(Marker(2, false))
  {
    var w1 := FirstRestore(w0);
    var w2 := StartAbsorbs(w0, w1, Report(Some(1), Success), false);
    var w3 := HandOff(w0, w2, 2);
    w := GoKill(w0, w3, false);
  }
}
