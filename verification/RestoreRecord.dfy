/**
 What the disk remembers of an accepted restore: when its record can be lost, and
 when it cannot.
 */
module RestoreRecord {
  import opened Options
  import opened RestoreModel
  import opened RestoreTruth

  /** Some file on disk still answers for restore `r`. */
  predicate Recorded(w: World, r: Ref) {
    || (w.disk.pending.Some? && w.disk.pending.value.ref == r)
    || Names(w.disk.outcome, r)
    || Names(w.disk.status, r)
  }

  /**
   The step neither writes the marker of another restore, nor is the operator
   acknowledging `r`, nor is it an acknowledgement of something else that was read
   before housekeeping saved the result of `r` and removes the file after it.
   */
  predicate Spares(w: World, l: Step, r: Ref) {
    && (l.WriteMarker? && l.ok ==> l.r == r)
    && (l.AckRemove? && l.ok && w.process.Some? && l.a in w.process.value.acks ==>
          var ack := w.process.value.acks[l.a];
          ack.report.ref != Some(r) && (ack.early ==> !Names(w.disk.status, r)))
  }

  ghost predicate SparesRun(w: World, ls: seq<Step>, r: Ref)
    decreases ls
  {
    ls != [] ==> Spares(w, ls[0], r) && (Enabled(w, ls[0]) ==> SparesRun(Next(w, ls[0]), ls[1..], r))
  }

  /** Every continuation that spares `r` keeps a record of it. */
  ghost predicate NeverVanishes(w: World, r: Ref) {
    forall ls, w' :: IsRun(w, ls, w') && SparesRun(w, ls, r) ==> Recorded(w', r)
  }

  // ---------------------------------------------------------------- what keeps the record

  predicate NoneOr(o: Option<Report>, r: Ref) {
    o.Some? ==> o.value.ref == Some(r)
  }

  ghost predicate DiskKeeps(w: World, r: Ref) {
    && r in w.accepted
    && NoneOr(w.disk.outcome, r)
    && (w.disk.pending.Some? ==> w.disk.pending.value.ref == r)
    && Recorded(w, r)
  }

  ghost predicate ProcessKeeps(w: World, p: Process, r: Ref) {
    var s, h := p.server, p.house;
    && r !in p.handlers
    && (forall q <- p.handlers :: !p.handlers[q].Marked? && !p.handlers[q].Sending? && !p.handlers[q].Refused?)
    && (s.handed.Some? ==> s.handed.value == r && !Names(w.disk.status, r))
    && (h.Saving? || h.Showing? ==> h.report.ref == Some(r))
    && ((h.Showing? && h.saved) || h.DroppingOutcome? || h.DroppingMarker? ==> Names(w.disk.status, r))
    && (s.handed.None? ==>
          && (h.Reading? && w.disk.outcome.None? && w.disk.pending.None? ==> NoneOr(s.shown, r))
          && (h.DroppingOutcome? || h.DroppingMarker? || h.Sweeping? || h.Ready? ==> NoneOr(s.shown, r))
          && (forall a <- p.acks :: p.acks[a].report.ref == Some(r) || p.acks[a].early))
  }

  ghost predicate Keeps(w: World, r: Ref) {
    DiskKeeps(w, r) && (w.process.Some? ==> ProcessKeeps(w, w.process.value, r))
  }

  lemma ClaimSpares(w: World, p: Process, l: Step, r: Ref)
    requires Inv(w) && w.process == Some(p) && HandlerEnabled(w, p, l) && ChangesSlot(l)
    requires Keeps(w, r) && Spares(w, l, r)
    ensures Keeps(HandlerNext(w, p, l), r)
  {
  }

  lemma HandlerSpares(w: World, p: Process, l: Step, r: Ref)
    requires Inv(w) && w.process == Some(p) && HandlerEnabled(w, p, l)
    requires Keeps(w, r) && Spares(w, l, r)
    ensures Keeps(HandlerNext(w, p, l), r)
  {
    if ChangesSlot(l) {
      ClaimSpares(w, p, l, r);
    }
  }

  lemma MainSpares(w: World, p: Process, l: Step, r: Ref)
    requires Inv(w) && w.process == Some(p) && MainEnabled(w, p, l)
    requires Keeps(w, r) && Spares(w, l, r)
    ensures Keeps(MainNext(w, p, l), r)
  {
    if BeforeSwap(l) {
      LeavingSpares(w, p, l, r);
    }
  }

  lemma LeavingSpares(w: World, p: Process, l: Step, r: Ref)
    requires Inv(w) && w.process == Some(p) && MainEnabled(w, p, l) && BeforeSwap(l)
    requires Keeps(w, r) && Spares(w, l, r)
    ensures Keeps(MainNext(w, p, l), r)
  {
  }

  lemma HouseSpares(w: World, p: Process, l: Step, r: Ref)
    requires Inv(w) && w.process == Some(p) && HouseEnabled(w, p, l)
    requires Keeps(w, r) && Spares(w, l, r)
    ensures Keeps(HouseNext(w, p, l), r)
  {
  }

  lemma AckSpares(w: World, p: Process, l: Step, r: Ref)
    requires Inv(w) && w.process == Some(p) && AckEnabled(p, l)
    requires Keeps(w, r) && Spares(w, l, r)
    ensures Keeps(AckNext(w, p, l), r)
  {
  }

  lemma StepSpares(w: World, l: Step, r: Ref)
    requires Inv(w) && Enabled(w, l) && Keeps(w, r) && Spares(w, l, r)
    ensures Keeps(Next(w, l), r)
  {
    match w.process
    case None =>
    case Some(p) =>
      if l.Kill? {
      } else if HandlerEnabled(w, p, l) {
        HandlerSpares(w, p, l, r);
      } else if MainEnabled(w, p, l) {
        MainSpares(w, p, l, r);
      } else if HouseEnabled(w, p, l) {
        HouseSpares(w, p, l, r);
      } else {
        AckSpares(w, p, l, r);
      }
  }

  lemma {:induction false} RunSpares(w: World, ls: seq<Step>, w': World, r: Ref)
    requires Inv(w) && Keeps(w, r) && IsRun(w, ls, w') && SparesRun(w, ls, r)
    ensures Keeps(w', r)
    decreases ls
  {
    if ls != [] {
      StepKeepsInv(w, ls[0]);
      StepSpares(w, ls[0], r);
      RunSpares(Next(w, ls[0]), ls[1..], w', r);
    }
  }

  // ---------------------------------------------------------------- the theorem

  lemma RunConcat(w: World, ls: seq<Step>, w1: World, ms: seq<Step>, w2: World)
    requires IsRun(w, ls, w1) && IsRun(w1, ms, w2)
    ensures IsRun(w, ls + ms, w2)
    decreases ls
  {
    if ls == [] {
      assert ls + ms == ms;
    } else {
      RunConcat(Next(w, ls[0]), ls[1..], w1, ms, w2);
      assert (ls + ms)[1..] == ls[1..] + ms;
    }
  }

  /** A start whose every file operation works, up to the point where the markers are gone. */
  const AbsorbAll: seq<Step> := [SaveStatus(true), Show, DropOutcome(true), DropMarker(true)]

  /**
   An outcome marker left by an earlier restore answers first at the next start,
   and the pending marker of the newer restore is removed with it.
   */
  lemma StaleOutcomeLosesRestore(w: World, r: Ref)
    requires Inv(w) && w.process.Some? && w.process.value.server.handed == Some(r)
    requires w.disk.outcome.Some? && !Names(w.disk.outcome, r) && !Names(w.disk.status, r)
    ensures !NeverVanishes(w, r)
  {
    var w4 := KillRun(w);
    var w8 := AbsorbRun(w4);
    RunConcat(w, KillAndRead, w4, AbsorbAll, w8);
    NoAckNoMarkerSpares(w, KillAndRead + AbsorbAll, r);
    assert !Recorded(w8, r);
  }

  lemma AbsorbRun(w: World) returns (w': World)
    requires w.process.Some? && w.process.value.house.Saving?
    ensures IsRun(w, AbsorbAll, w')
    ensures w'.disk.status == Some(w.process.value.house.report) && w'.disk.outcome.None? && w'.disk.pending.None?
  {
    w' := Next(Next(Next(Next(w, SaveStatus(true)), Show), DropOutcome(true)), DropMarker(true));
    RunOfFour(w, SaveStatus(true), Show, DropOutcome(true), DropMarker(true));
  }

  lemma {:induction false} NoAckNoMarkerSpares(w: World, ls: seq<Step>, r: Ref)
    requires forall l <- ls :: !l.WriteMarker? && !l.AckRemove?
    ensures SparesRun(w, ls, r)
    decreases ls
  {
    if ls != [] && Enabled(w, ls[0]) {
      NoAckNoMarkerSpares(Next(w, ls[0]), ls[1..], r);
    }
  }

  /**
   No accepted restore vanishes, exactly when no outcome marker of an earlier
   restore is on disk at the moment the hand-off succeeds.
   */
  lemma AcceptedRestoreNeverVanishes(w: World, r: Ref)
    requires Reachable(w) && Enabled(w, Commit(r))
    ensures NeverVanishes(Next(w, Commit(r)), r) <==> w.disk.outcome.None?
  {
    ReachableInv(w);
    StepKeepsInv(w, Commit(r));
    var w1 := Next(w, Commit(r));
    if w.disk.outcome.None? {
      assert Keeps(w1, r);
      forall ls, w' | IsRun(w1, ls, w') && SparesRun(w1, ls, r)
        ensures Recorded(w', r)
      {
        RunSpares(w1, ls, w', r);
      }
    } else {
      StaleOutcomeLosesRestore(w1, r);
    }
  }
}
