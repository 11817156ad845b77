/**
 What every run keeps: a result that names a restore tells the truth about it,
 main swaps exactly the restore whose hand-off succeeded, and the channel to main
 is never found full.
 */
module RestoreTruth {
  import opened Options
  import opened RestoreModel

  // ---------------------------------------------------------------- the invariant

  /** The claim a result makes about the restore it names. */
  ghost predicate Truthful(w: World, o: Option<Report>) {
    o.Some? && o.value.ref.Some? ==>
      && (o.value.verdict.Success? ==> o.value.ref.value in w.renamed)
      && (o.value.verdict.PreviousInPlace? ==> o.value.ref.value !in w.renamed)
  }

  predicate Names(o: Option<Report>, r: Ref) {
    o.Some? && o.value.ref == Some(r)
  }

  /** The phases in which main may still swap the restore it was handed. */
  predicate MaySwap(m: Main) {
    m.Serving? || m.Leaving? || m.Draining? || m.Swapping?
  }

  /** Restores of this process that have not been swapped but still could be. */
  function Live(p: Process): set<Ref> {
    p.handlers.Keys + (if MaySwap(p.main) && p.server.handed.Some? then {p.server.handed.value} else {})
  }

  /** A result is true, names a known restore, and that restore can no longer be swapped. */
  ghost predicate Settled(w: World, o: Option<Report>) {
    o.Some? && o.value.ref.Some? ==>
      var r := o.value.ref.value;
      && Truthful(w, o)
      && r in w.used
      && (w.process.Some? ==> r !in Live(w.process.value))
  }

  ghost predicate DiskInv(w: World) {
    var d := w.disk;
    && w.renamed <= w.accepted <= w.used && d.staged <= w.used
    && d.staged !! w.renamed
    && (d.database.Some? ==> d.database.value in w.renamed)
    && (d.outcome.Some? ==> !d.outcome.value.verdict.Undecided?)
    && (d.pending.Some? ==> d.pending.value.ref in w.used)
    && (d.pending.Some? && d.pending.value.notCarriedOut ==>
          && d.pending.value.ref !in w.renamed
          && (w.process.Some? ==> d.pending.value.ref !in Live(w.process.value)))
  }

  /** The results held anywhere: on disk, on screen, or in a half-finished operation. */
  ghost predicate ReportsInv(w: World) {
    && Settled(w, w.disk.outcome)
    && Settled(w, w.disk.status)
    && (w.process.Some? ==>
          var p := w.process.value;
          && Settled(w, p.server.shown)
          && (p.house.Saving? || p.house.Showing? ==> Settled(w, Some(p.house.report)))
          && (forall a <- p.acks :: Settled(w, Some(p.acks[a].report))))
  }

  /** The slot, the channel and the handlers. */
  ghost predicate SlotInv(w: World, p: Process) {
    var s := p.server;
    && Live(p) <= w.used && Live(p) !! w.renamed
    && (forall r <- p.handlers, q <- p.handlers :: r == q)
    && (s.slot.Idle? || s.slot.HandedOff? ==> p.handlers == map[])
    && (s.slot.Idle? ==> s.handed.None? && s.channel.None?)
    && (s.slot.Staging? ==> s.handed.None?)
    && (s.slot.Staging? && s.channel.Some? ==> At(p, s.channel.value, Sending))
    && (s.slot.HandedOff? ==> s.handed.Some?)
    && (s.handed.Some? ==> s.handed.value in w.accepted && p.house.Ready? && p.handlers == map[])
    && (!p.house.Ready? ==> p.handlers == map[] && s.handed.None?)
  }

  /** Main and the handler in its last part agree on which restore is on its way. */
  ghost predicate MainInv(w: World, p: Process) {
    var s, m := p.server, p.main;
    && (s.slot.Closed? <==> !m.Serving? && !m.Leaving?)
    && (s.channel.Some? && !s.slot.Staging? ==> s.channel == s.handed)
    && (m.Serving? || m == Leaving(None) ==> s.channel.None? ==> s.handed.None?)
    && (m.Leaving? && m.received.Some? ==>
          && s.channel.None?
          && (if s.slot.HandedOff? then s.handed == m.received else s.slot.Staging? && At(p, m.received.value, Sending)))
    && (forall r <- p.handlers :: p.handlers[r].Sending? ==>
          && s.slot.Staging?
          && (s.channel == Some(r) || m == Leaving(Some(r))))
    && (m.Draining? ==> m.path == s.handed)
    && (m.Swapping? || m.Dropping? || m.Marking? || m.Reporting? || m.Clearing? ==> s.handed == Some(m.ref))
    && (m.Dropping? || m.Marking? ==> m.ref !in w.renamed)
    && (m.Reporting? ==> (m.ref in w.renamed <==> m.renamed))
    && ((m.Swapping? || m.Dropping? || m.Marking? || m.Reporting? || m.Clearing?) ==> m.ref in w.used)
  }

  /** The pending marker is in place for as long as the restore it names is on its way. */
  ghost predicate MarkerInv(w: World, p: Process) {
    var d, s, m := w.disk, p.server, p.main;
    && (forall r <- p.handlers :: p.handlers[r].Marked? || p.handlers[r].Sending? ==> d.pending == Some(Marker(r, false)))
    && (s.handed.Some? && (MaySwap(m) || m.Dropping? || m.Marking? || (m.Reporting? && m.renamed)) ==>
          d.pending == Some(Marker(s.handed.value, false)))
    && (m.Reporting? ==> d.pending.Some? && d.pending.value.ref == m.ref)
    && (m.Clearing? ==> Names(d.outcome, m.ref))
    && (s.handed.Some? ==>
          if d.pending.Some? then d.pending.value.ref == s.handed.value else Names(d.outcome, s.handed.value))
  }

  ghost predicate Inv(w: World) {
    && DiskInv(w)
    && ReportsInv(w)
    && (w.process.Some? ==>
          && SlotInv(w, w.process.value)
          && MainInv(w, w.process.value)
          && MarkerInv(w, w.process.value))
  }

  // ---------------------------------------------------------------- it is kept

  /** The handler steps that claim the slot, pass it on or give it back. */
  predicate ChangesSlot(l: Step) {
    l.Begin? || l.Recheck? || l.Commit? || l.Abort?
  }

  /**
   A step that keeps the history, renames only a live restore, and brings only
   fresh references to life.
   */
  ghost predicate Narrows(w: World, w': World) {
    && w.process.Some? && w'.process.Some?
    && w.used <= w'.used && w.renamed <= w'.renamed
    && w'.renamed <= w.renamed + Live(w.process.value)
    && Live(w'.process.value) <= Live(w.process.value) + (w'.used - w.used)
  }

  lemma NarrowingKeepsReport(w: World, w': World, o: Option<Report>)
    requires Narrows(w, w') && Settled(w, o)
    ensures Settled(w', o)
  {
  }

  lemma NarrowingKeepsReports(w: World, w': World)
    requires Narrows(w, w') && ReportsInv(w)
    requires w'.disk.status == w.disk.status
    requires
      var p, p' := w.process.value, w'.process.value;
      p'.server.shown == p.server.shown && p'.house == p.house && p'.acks == p.acks
    requires Settled(w', w'.disk.outcome)
    ensures ReportsInv(w')
  {
  }

  lemma HandlerKeepsDisk(w: World, p: Process, l: Step)
    requires Inv(w) && w.process == Some(p) && HandlerEnabled(w, p, l)
    ensures var w' := HandlerNext(w, p, l); DiskInv(w')
  {
    if ChangesSlot(l) {
      ClaimKeepsDisk(w, p, l);
    }
  }

  lemma ClaimKeepsDisk(w: World, p: Process, l: Step)
    requires Inv(w) && w.process == Some(p) && HandlerEnabled(w, p, l) && ChangesSlot(l)
    ensures var w' := HandlerNext(w, p, l); DiskInv(w')
  {
  }

  lemma HandlerKeepsReports(w: World, p: Process, l: Step)
    requires Inv(w) && w.process == Some(p) && HandlerEnabled(w, p, l)
    ensures var w' := HandlerNext(w, p, l); ReportsInv(w')
  {
    var w' := HandlerNext(w, p, l);
    assert Narrows(w, w');
    NarrowingKeepsReport(w, w', w.disk.outcome);
    NarrowingKeepsReports(w, w');
  }

  lemma ClaimKeepsSlot(w: World, p: Process, l: Step)
    requires Inv(w) && w.process == Some(p) && HandlerEnabled(w, p, l) && ChangesSlot(l)
    ensures var w' := HandlerNext(w, p, l); SlotInv(w', w'.process.value)
  {
  }

  lemma HandlerKeepsSlot(w: World, p: Process, l: Step)
    requires Inv(w) && w.process == Some(p) && HandlerEnabled(w, p, l)
    ensures var w' := HandlerNext(w, p, l); SlotInv(w', w'.process.value)
  {
    if ChangesSlot(l) {
      ClaimKeepsSlot(w, p, l);
    }
  }

  lemma ClaimKeepsMain(w: World, p: Process, l: Step)
    requires Inv(w) && w.process == Some(p) && HandlerEnabled(w, p, l) && ChangesSlot(l)
    ensures var w' := HandlerNext(w, p, l); MainInv(w', w'.process.value)
  {
  }

  lemma HandlerKeepsMain(w: World, p: Process, l: Step)
    requires Inv(w) && w.process == Some(p) && HandlerEnabled(w, p, l)
    ensures var w' := HandlerNext(w, p, l); MainInv(w', w'.process.value)
  {
    if ChangesSlot(l) {
      ClaimKeepsMain(w, p, l);
    }
  }

  lemma ClaimKeepsMarker(w: World, p: Process, l: Step)
    requires Inv(w) && w.process == Some(p) && HandlerEnabled(w, p, l) && ChangesSlot(l)
    ensures var w' := HandlerNext(w, p, l); MarkerInv(w', w'.process.value)
  {
  }

  lemma HandlerKeepsMarker(w: World, p: Process, l: Step)
    requires Inv(w) && w.process == Some(p) && HandlerEnabled(w, p, l)
    ensures var w' := HandlerNext(w, p, l); MarkerInv(w', w'.process.value)
  {
    if ChangesSlot(l) {
      ClaimKeepsMarker(w, p, l);
    }
  }

  /** Main's steps up to the point where it swaps or gives up. */
  predicate BeforeSwap(l: Step) {
    l.Receive? || l.Signal? || l.WriteLog? || l.CloseRestores? || l.CloseStore? || l.RefuseSwap?
  }

  lemma LeavingKeepsDisk(w: World, p: Process, l: Step)
    requires Inv(w) && w.process == Some(p) && MainEnabled(w, p, l) && BeforeSwap(l)
    ensures var w' := MainNext(w, p, l); DiskInv(w')
  {
  }

  lemma MainKeepsDisk(w: World, p: Process, l: Step)
    requires Inv(w) && w.process == Some(p) && MainEnabled(w, p, l)
    ensures var w' := MainNext(w, p, l); DiskInv(w')
  {
    if BeforeSwap(l) {
      LeavingKeepsDisk(w, p, l);
    }
  }

  lemma MainKeepsReports(w: World, p: Process, l: Step)
    requires Inv(w) && w.process == Some(p) && MainEnabled(w, p, l)
    ensures var w' := MainNext(w, p, l); ReportsInv(w')
  {
    var w' := MainNext(w, p, l);
    assert Narrows(w, w');
    if !l.WriteOutcome? {
      NarrowingKeepsReport(w, w', w.disk.outcome);
    }
    NarrowingKeepsReports(w, w');
  }

  lemma LeavingKeepsSlot(w: World, p: Process, l: Step)
    requires Inv(w) && w.process == Some(p) && MainEnabled(w, p, l) && BeforeSwap(l)
    ensures var w' := MainNext(w, p, l); SlotInv(w', w'.process.value)
  {
  }

  lemma MainKeepsSlot(w: World, p: Process, l: Step)
    requires Inv(w) && w.process == Some(p) && MainEnabled(w, p, l)
    ensures var w' := MainNext(w, p, l); SlotInv(w', w'.process.value)
  {
    if BeforeSwap(l) {
      LeavingKeepsSlot(w, p, l);
    }
  }

  lemma LeavingKeepsMain(w: World, p: Process, l: Step)
    requires Inv(w) && w.process == Some(p) && MainEnabled(w, p, l) && BeforeSwap(l)
    ensures var w' := MainNext(w, p, l); MainInv(w', w'.process.value)
  {
  }

  lemma MainKeepsMain(w: World, p: Process, l: Step)
    requires Inv(w) && w.process == Some(p) && MainEnabled(w, p, l)
    ensures var w' := MainNext(w, p, l); MainInv(w', w'.process.value)
  {
    if BeforeSwap(l) {
      LeavingKeepsMain(w, p, l);
    }
  }

  lemma LeavingKeepsMarker(w: World, p: Process, l: Step)
    requires Inv(w) && w.process == Some(p) && MainEnabled(w, p, l) && BeforeSwap(l)
    ensures var w' := MainNext(w, p, l); MarkerInv(w', w'.process.value)
  {
  }

  lemma MainKeepsMarker(w: World, p: Process, l: Step)
    requires Inv(w) && w.process == Some(p) && MainEnabled(w, p, l)
    ensures var w' := MainNext(w, p, l); MarkerInv(w', w'.process.value)
  {
    if BeforeSwap(l) {
      LeavingKeepsMarker(w, p, l);
    }
  }

  lemma HouseKeepsDisk(w: World, p: Process, l: Step)
    requires Inv(w) && w.process == Some(p) && HouseEnabled(w, p, l)
    ensures var w' := HouseNext(w, p, l); DiskInv(w')
  {
  }

  lemma HouseKeepsReports(w: World, p: Process, l: Step)
    requires Inv(w) && w.process == Some(p) && HouseEnabled(w, p, l)
    ensures var w' := HouseNext(w, p, l); ReportsInv(w')
  {
    var w' := HouseNext(w, p, l);
    assert Narrows(w, w');
    NarrowingKeepsReport(w, w', w.disk.outcome);
    NarrowingKeepsReport(w, w', w.disk.status);
    NarrowingKeepsReport(w, w', p.server.shown);
    forall a <- p.acks
      ensures Settled(w', Some(p.acks[a].report))
    {
      NarrowingKeepsReport(w, w', Some(p.acks[a].report));
    }
  }

  lemma HouseKeepsSlot(w: World, p: Process, l: Step)
    requires Inv(w) && w.process == Some(p) && HouseEnabled(w, p, l)
    ensures var w' := HouseNext(w, p, l); SlotInv(w', w'.process.value)
  {
  }

  lemma HouseKeepsMain(w: World, p: Process, l: Step)
    requires Inv(w) && w.process == Some(p) && HouseEnabled(w, p, l)
    ensures var w' := HouseNext(w, p, l); MainInv(w', w'.process.value)
  {
  }

  lemma HouseKeepsMarker(w: World, p: Process, l: Step)
    requires Inv(w) && w.process == Some(p) && HouseEnabled(w, p, l)
    ensures var w' := HouseNext(w, p, l); MarkerInv(w', w'.process.value)
  {
  }

  lemma AckKeepsDisk(w: World, p: Process, l: Step)
    requires Inv(w) && w.process == Some(p) && AckEnabled(p, l)
    ensures var w' := AckNext(w, p, l); DiskInv(w')
  {
  }

  lemma AckKeepsReports(w: World, p: Process, l: Step)
    requires Inv(w) && w.process == Some(p) && AckEnabled(p, l)
    ensures var w' := AckNext(w, p, l); ReportsInv(w')
  {
    var w' := AckNext(w, p, l);
    assert Narrows(w, w');
    NarrowingKeepsReport(w, w', w.disk.outcome);
    NarrowingKeepsReport(w, w', w.disk.status);
    NarrowingKeepsReport(w, w', p.server.shown);
    forall a <- p.acks
      ensures Settled(w', Some(p.acks[a].report))
    {
      NarrowingKeepsReport(w, w', Some(p.acks[a].report));
    }
  }

  lemma AckKeepsSlot(w: World, p: Process, l: Step)
    requires Inv(w) && w.process == Some(p) && AckEnabled(p, l)
    ensures var w' := AckNext(w, p, l); SlotInv(w', w'.process.value)
  {
  }

  lemma AckKeepsMain(w: World, p: Process, l: Step)
    requires Inv(w) && w.process == Some(p) && AckEnabled(p, l)
    ensures var w' := AckNext(w, p, l); MainInv(w', w'.process.value)
  {
  }

  lemma AckKeepsMarker(w: World, p: Process, l: Step)
    requires Inv(w) && w.process == Some(p) && AckEnabled(p, l)
    ensures var w' := AckNext(w, p, l); MarkerInv(w', w'.process.value)
  {
  }

  lemma HandlerKeepsInv(w: World, p: Process, l: Step)
    requires Inv(w) && w.process == Some(p) && HandlerEnabled(w, p, l)
    ensures Inv(HandlerNext(w, p, l))
  {
    HandlerKeepsDisk(w, p, l);
    HandlerKeepsReports(w, p, l);
    HandlerKeepsSlot(w, p, l);
    HandlerKeepsMain(w, p, l);
    HandlerKeepsMarker(w, p, l);
  }

  lemma MainKeepsInv(w: World, p: Process, l: Step)
    requires Inv(w) && w.process == Some(p) && MainEnabled(w, p, l)
    ensures Inv(MainNext(w, p, l))
  {
    MainKeepsDisk(w, p, l);
    MainKeepsReports(w, p, l);
    MainKeepsSlot(w, p, l);
    MainKeepsMain(w, p, l);
    MainKeepsMarker(w, p, l);
  }

  lemma HouseKeepsInv(w: World, p: Process, l: Step)
    requires Inv(w) && w.process == Some(p) && HouseEnabled(w, p, l)
    ensures Inv(HouseNext(w, p, l))
  {
    HouseKeepsDisk(w, p, l);
    HouseKeepsReports(w, p, l);
    HouseKeepsSlot(w, p, l);
    HouseKeepsMain(w, p, l);
    HouseKeepsMarker(w, p, l);
  }

  lemma AckKeepsInv(w: World, p: Process, l: Step)
    requires Inv(w) && w.process == Some(p) && AckEnabled(p, l)
    ensures Inv(AckNext(w, p, l))
  {
    AckKeepsDisk(w, p, l);
    AckKeepsReports(w, p, l);
    AckKeepsSlot(w, p, l);
    AckKeepsMain(w, p, l);
    AckKeepsMarker(w, p, l);
  }

  /** Every step, a kill and a restart included, keeps the invariant. */
  lemma StepKeepsInv(w: World, l: Step)
    requires Inv(w) && Enabled(w, l)
    ensures Inv(Next(w, l))
  {
    match w.process
    case None =>
    case Some(p) =>
      if l.Kill? {
      } else if HandlerEnabled(w, p, l) {
        HandlerKeepsInv(w, p, l);
      } else if MainEnabled(w, p, l) {
        MainKeepsInv(w, p, l);
      } else if HouseEnabled(w, p, l) {
        HouseKeepsInv(w, p, l);
      } else {
        AckKeepsInv(w, p, l);
      }
  }

  lemma {:induction false} RunKeepsInv(w: World, ls: seq<Step>, w': World)
    requires Inv(w) && IsRun(w, ls, w')
    ensures Inv(w')
    decreases ls
  {
    if ls != [] {
      StepKeepsInv(w, ls[0]);
      RunKeepsInv(Next(w, ls[0]), ls[1..], w');
    }
  }

  lemma ReachableInv(w: World)
    requires Reachable(w)
    ensures Inv(w)
  {
    var w0, ls :| Init(w0) && IsRun(w0, ls, w);
    RunKeepsInv(w0, ls, w);
  }

  // ---------------------------------------------------------------- the theorems

  /**
   Truthful restore report.  Whatever was killed whenever, a result that names a
   restore, saved, waiting in the outcome marker or on screen, says "success" only
   if that restore was renamed into place, and "the previous database is still in
   place" only if it was not (so the database in place is not that restore's).
   */
  lemma ReportsAreTruthful(w: World, o: Option<Report>)
    requires Reachable(w)
    requires o == w.disk.status || o == w.disk.outcome || (w.process.Some? && o == w.process.value.server.shown)
    ensures Truthful(w, o)
    ensures o.Some? && o.value.ref.Some? && o.value.verdict.PreviousInPlace? ==> w.disk.database != o.value.ref
  {
    ReachableInv(w);
  }

  /**
   Shutdown race.  Once main has closed the slot it holds exactly the restore whose
   hand-off succeeded in this process, if there is one; what it renames into place
   is an accepted restore; no hand-off succeeds any more; and a handler that finds
   the slot still open never finds the channel full.
   */
  lemma MainSwapsTheAcceptedRestore(w: World)
    requires Reachable(w) && w.process.Some?
    ensures
      var p := w.process.value;
      && (p.main.Draining? ==> p.main.path == p.server.handed)
      && (p.server.handed.Some? ==> p.server.handed.value in w.accepted)
      && (forall c :: Enabled(w, Rename(c)) ==> p.server.handed == Some(p.main.ref) && p.main.ref !in w.renamed)
      && (!p.main.Serving? && !p.main.Leaving? ==> forall r: Ref :: !Enabled(w, Commit(r)))
      && (forall r: Ref :: Enabled(w, Recheck(r)) && p.server.slot.Staging? ==> p.server.channel.None?)
    ensures w.renamed <= w.accepted
  {
    ReachableInv(w);
  }

  /** The steps from a kill to the point where the next start has read the markers. */
  const KillAndRead: seq<Step> := [Kill, Restart, LoadStatus, ReadMarkers]

  /**
   What the next start says about an accepted restore, wherever main was when the
   process died and no older outcome was on disk: the written outcome if there is
   one; otherwise that the database is the previous one exactly when the staged
   file is still there or main noted that it gave up; otherwise undecided.
   */
  lemma VerdictAfterKill(w: World, r: Ref)
    requires Reachable(w) && w.process.Some? && w.process.value.server.handed == Some(r)
    requires w.disk.outcome.None? || Names(w.disk.outcome, r)
    ensures
      var d := w.disk;
      var report :=
        Report(Some(r), if d.outcome.Some? then (if r in w.renamed then Success else PreviousInPlace)
                        else if (d.pending.Some? && d.pending.value.notCarriedOut) || r in d.staged then PreviousInPlace
                        else Undecided);
      exists w' :: IsRun(w, KillAndRead, w') && w'.process.Some? && w'.process.value.house == Saving(report)
  {
    ReachableInv(w);
    var w4 := KillRun(w);
  }

  /** A kill and a start leave the files as they are and read the markers back. */
  lemma KillRun(w: World) returns (w': World)
    requires w.process.Some?
    ensures IsRun(w, KillAndRead, w') && w'.disk == w.disk && w'.accepted == w.accepted && w'.process.Some?
    ensures w'.process.value.house == match ReadBack(w.disk) case None => Sweeping case Some(o) => Saving(o)
  {
    w' := Next(Next(Next(Next(w, Kill), Restart), LoadStatus), ReadMarkers);
    RunOfFour(w, Kill, Restart, LoadStatus, ReadMarkers);
  }

  lemma RunOfFour(w: World, a: Step, b: Step, c: Step, d: Step)
    requires Enabled(w, a) && Enabled(Next(w, a), b) && Enabled(Next(Next(w, a), b), c)
    requires Enabled(Next(Next(Next(w, a), b), c), d)
    ensures IsRun(w, [a, b, c, d], Next(Next(Next(Next(w, a), b), c), d))
  {
    var w1 := Next(w, a);
    var w2 := Next(w1, b);
    var w3 := Next(w2, c);
    assert [a, b, c, d][1..] == [b, c, d] && [b, c, d][1..] == [c, d] && [c, d][1..] == [d] && [d][1..] == [];
    assert IsRun(w3, [d], Next(w3, d));
    assert IsRun(w2, [c, d], Next(w3, d));
    assert IsRun(w1, [b, c, d], Next(w3, d));
  }
}
