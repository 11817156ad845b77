/**
 What the swap and giving up mean over whole runs: the write-ahead log never ends up
 beside another database, a restore that was given up is never left undecided, and
 every staged file is accounted for.
 */
module RestoreSwap {
  import opened Options
  import opened RestoreModel
  import opened RestoreTruth
  import opened RestoreRecord
  import opened RestoreServer
  import opened RestoreLoss

  // ---------------------------------------------------------------- the write-ahead log

  /** Data in the log belongs to the database in place. */
  predicate LogFits(d: Disk) {
    d.log.bytes > 0 ==> d.log.of == d.database
  }

  /** The database, its log and what was ever renamed. */
  predicate SameDatabase(w: World, w': World) {
    w'.disk.database == w.disk.database && w'.disk.log == w.disk.log && w'.renamed == w.renamed
  }

  lemma HandlerLeavesDatabase(w: World, p: Process, l: Step)
    requires w.process == Some(p) && HandlerEnabled(w, p, l)
    ensures SameDatabase(w, HandlerNext(w, p, l))
  {
  }

  lemma HouseLeavesDatabase(w: World, p: Process, l: Step)
    requires w.process == Some(p) && HouseEnabled(w, p, l)
    ensures SameDatabase(w, HouseNext(w, p, l))
  {
  }

  lemma OnlyMainChangesDatabase(w: World, p: Process, l: Step)
    requires w.process == Some(p) && Enabled(w, l) && !MainEnabled(w, p, l)
    ensures SameDatabase(w, Next(w, l))
  {
    if HandlerEnabled(w, p, l) {
      HandlerLeavesDatabase(w, p, l);
    } else if HouseEnabled(w, p, l) {
      HouseLeavesDatabase(w, p, l);
    }
  }

  lemma MainChangesDatabaseCleanly(w: World, p: Process, l: Step)
    requires w.process == Some(p) && MainEnabled(w, p, l)
    requires MainNext(w, p, l).disk.database != w.disk.database || MainNext(w, p, l).renamed != w.renamed
    ensures l.Rename? && w.disk.log.bytes == 0 && !l.checks.wal.Unclear? && !l.checks.shm.Unclear?
    ensures p.main.Swapping? && MainNext(w, p, l).disk.database == Some(p.main.ref)
  {
  }

  /** The database changes in one step only, and never over a log with data or an unclear sidecar. */
  lemma DatabaseChangesCleanly(w: World, l: Step)
    requires Enabled(w, l) && (Next(w, l).disk.database != w.disk.database || Next(w, l).renamed != w.renamed)
    ensures l.Rename? && w.disk.log.bytes == 0 && !l.checks.wal.Unclear? && !l.checks.shm.Unclear?
    ensures w.process.Some? && w.process.value.main.Swapping? && Next(w, l).disk.database == Some(w.process.value.main.ref)
  {
    if w.process.Some? {
      var p := w.process.value;
      if MainEnabled(w, p, l) {
        MainChangesDatabaseCleanly(w, p, l);
      } else {
        OnlyMainChangesDatabase(w, p, l);
      }
    }
  }

  lemma StepKeepsLog(w: World, l: Step)
    requires LogFits(w.disk) && Enabled(w, l)
    ensures LogFits(Next(w, l).disk)
  {
    if Next(w, l).disk.database != w.disk.database {
      DatabaseChangesCleanly(w, l);
    }
    LogIsWrittenBesideItsDatabase(w, l);
  }

  lemma LogIsWrittenBesideItsDatabase(w: World, l: Step)
    requires Enabled(w, l)
    ensures Next(w, l).disk.log == w.disk.log || Next(w, l).disk.log.of == Next(w, l).disk.database
  {
    if w.process.Some? {
      if MainEnabled(w, w.process.value, l) {
        MainWritesLogBesideItsDatabase(w, w.process.value, l);
      } else {
        OnlyMainChangesDatabase(w, w.process.value, l);
      }
    }
  }

  lemma MainWritesLogBesideItsDatabase(w: World, p: Process, l: Step)
    requires w.process == Some(p) && MainEnabled(w, p, l)
    ensures MainNext(w, p, l).disk.log == w.disk.log || MainNext(w, p, l).disk.log.of == MainNext(w, p, l).disk.database
  {
  }

  lemma {:induction false} RunKeepsLog(w: World, ls: seq<Step>, w': World)
    requires LogFits(w.disk) && IsRun(w, ls, w')
    ensures LogFits(w'.disk)
    decreases ls
  {
    if ls != [] {
      StepKeepsLog(w, ls[0]);
      RunKeepsLog(Next(w, ls[0]), ls[1..], w');
    }
  }

  /** In every reachable state unflushed data is beside the database it belongs to, so it is never replayed against another. */
  lemma LogBelongsToDatabase(w: World)
    requires Reachable(w)
    ensures w.disk.log.bytes > 0 ==> w.disk.log.of == w.disk.database
  {
    var w0, ls :| Init(w0) && IsRun(w0, ls, w);
    RunKeepsLog(w0, ls, w);
  }

  // ---------------------------------------------------------------- giving up

  predicate NotUndecided(o: Option<Report>, r: Ref) {
    Names(o, r) ==> !o.value.verdict.Undecided?
  }

  ghost predicate ProcessDecided(p: Process, r: Ref) {
    && r !in p.handlers
    && NotUndecided(p.server.shown, r)
    && (p.house.Saving? || p.house.Showing? ==> NotUndecided(Some(p.house.report), r))
  }

  /** Whatever speaks about `r`, or could be made to, leaves nothing open. */
  ghost predicate Decided(w: World, r: Ref) {
    && r in w.used
    && (w.disk.pending.Some? && w.disk.pending.value.ref == r ==> w.disk.pending.value.notCarriedOut)
    && NotUndecided(w.disk.outcome, r) && NotUndecided(w.disk.status, r)
    && (w.process.Some? ==> ProcessDecided(w.process.value, r))
  }

  lemma HandlerKeepsDecided(w: World, p: Process, l: Step, r: Ref)
    requires Decided(w, r) && w.process == Some(p) && HandlerEnabled(w, p, l)
    ensures Decided(HandlerNext(w, p, l), r)
  {
  }

  lemma MainKeepsDecided(w: World, p: Process, l: Step, r: Ref)
    requires Decided(w, r) && w.process == Some(p) && MainEnabled(w, p, l)
    ensures Decided(MainNext(w, p, l), r)
  {
  }

  lemma HouseKeepsDecided(w: World, p: Process, l: Step, r: Ref)
    requires Decided(w, r) && w.process == Some(p) && HouseEnabled(w, p, l)
    ensures Decided(HouseNext(w, p, l), r)
  {
  }

  lemma AckKeepsDecided(w: World, p: Process, l: Step, r: Ref)
    requires Decided(w, r) && w.process == Some(p) && AckEnabled(p, l)
    ensures Decided(AckNext(w, p, l), r)
  {
  }

  lemma StepKeepsDecided(w: World, l: Step, r: Ref)
    requires Decided(w, r) && Enabled(w, l)
    ensures Decided(Next(w, l), r)
  {
    match w.process
    case None =>
    case Some(p) =>
      if l.Kill? {
      } else if HandlerEnabled(w, p, l) {
        HandlerKeepsDecided(w, p, l, r);
      } else if MainEnabled(w, p, l) {
        MainKeepsDecided(w, p, l, r);
      } else if HouseEnabled(w, p, l) {
        HouseKeepsDecided(w, p, l, r);
      } else {
        AckKeepsDecided(w, p, l, r);
      }
  }

  lemma {:induction false} RunKeepsDecided(w: World, ls: seq<Step>, w': World, r: Ref)
    requires Decided(w, r) && IsRun(w, ls, w')
    ensures Decided(w', r)
    decreases ls
  {
    if ls != [] {
      StepKeepsDecided(w, ls[0], r);
      RunKeepsDecided(Next(w, ls[0]), ls[1..], w', r);
    }
  }

  /** Until main reports, nothing says anything about the restore it is giving up. */
  ghost predicate Unreported(w: World) {
    w.process.Some? && (w.process.value.main.Dropping? || w.process.value.main.Marking?) ==>
      var r := w.process.value.main.ref;
      && !Names(w.disk.outcome, r) && !Names(w.disk.status, r) && !Names(w.process.value.server.shown, r)
  }

  lemma MainKeepsUnreported(w: World, p: Process, l: Step)
    requires Inv(w) && Unreported(w) && w.process == Some(p) && MainEnabled(w, p, l)
    ensures Unreported(MainNext(w, p, l))
  {
    if BeforeSwap(l) {
      LeavingKeepsUnreported(w, p, l);
    }
  }

  lemma LeavingKeepsUnreported(w: World, p: Process, l: Step)
    requires Inv(w) && w.process == Some(p) && MainEnabled(w, p, l) && BeforeSwap(l)
    ensures Unreported(MainNext(w, p, l))
  {
  }

  lemma HouseKeepsUnreported(w: World, p: Process, l: Step)
    requires Inv(w) && Unreported(w) && w.process == Some(p) && HouseEnabled(w, p, l)
    ensures Unreported(HouseNext(w, p, l))
  {
  }

  lemma AckKeepsUnreported(w: World, p: Process, l: Step)
    requires Unreported(w) && w.process == Some(p) && AckEnabled(p, l)
    ensures Unreported(AckNext(w, p, l))
  {
  }

  lemma HandlerKeepsUnreported(w: World, p: Process, l: Step)
    requires Unreported(w) && w.process == Some(p) && HandlerEnabled(w, p, l)
    ensures Unreported(HandlerNext(w, p, l))
  {
    HandlerLeavesResults(w, p, l);
    SameResultsUnreported(w, HandlerNext(w, p, l));
  }

  lemma SameResultsUnreported(w: World, w': World)
    requires Unreported(w) && SameResults(w, w')
    ensures Unreported(w')
  {
  }

  lemma StepKeepsUnreported(w: World, l: Step)
    requires Inv(w) && Unreported(w) && Enabled(w, l)
    ensures Unreported(Next(w, l))
  {
    match w.process
    case None =>
    case Some(p) =>
      if l.Kill? {
      } else if HandlerEnabled(w, p, l) {
        HandlerKeepsUnreported(w, p, l);
      } else if MainEnabled(w, p, l) {
        MainKeepsUnreported(w, p, l);
      } else if HouseEnabled(w, p, l) {
        HouseKeepsUnreported(w, p, l);
      } else {
        AckKeepsUnreported(w, p, l);
      }
  }

  lemma {:induction false} RunKeepsUnreported(w: World, ls: seq<Step>, w': World)
    requires Inv(w) && Unreported(w) && IsRun(w, ls, w')
    ensures Unreported(w')
    decreases ls
  {
    if ls != [] {
      StepKeepsInv(w, ls[0]);
      StepKeepsUnreported(w, ls[0]);
      RunKeepsUnreported(Next(w, ls[0]), ls[1..], w');
    }
  }

  lemma ReachableUnreported(w: World)
    requires Reachable(w)
    ensures Unreported(w)
  {
    var w0, ls :| Init(w0) && IsRun(w0, ls, w);
    RunKeepsUnreported(w0, ls, w);
  }

  /** The steps of main when it gives up and its note is written. */
  function GiveUpSteps(dropOk: bool): seq<Step> {
    [DropStaged(dropOk), MarkNotCarriedOut(true)]
  }

  lemma GivenUpIsDecided(w: World, r: Ref, dropOk: bool) returns (w': World)
    requires Reachable(w) && w.process.Some? && w.process.value.main == Dropping(r)
    ensures IsRun(w, GiveUpSteps(dropOk), w') && Inv(w') && Decided(w', r)
    ensures w'.process.Some? && w'.process.value.main == Reporting(r, false) && w'.renamed == w.renamed
    ensures w'.disk.pending == Some(Marker(r, true)) && w'.disk.outcome == w.disk.outcome
  {
    ReachableInv(w);
    ReachableUnreported(w);
    AfterGivingUpIsRun(w, dropOk, true);
    w' := AfterGivingUp(w, dropOk, true);
    RunKeepsInv(w, GiveUpSteps(dropOk), w');
  }

  /**
   A restore main gave up, with its note written, is never left undecided: in every state
   of every later run, through any kills, starts and failures, whatever names it says that
   the previous database is in place.
   */
  lemma GivenUpIsNeverUndecided(w: World, r: Ref, dropOk: bool, w1: World, ls: seq<Step>, w2: World, o: Option<Report>)
    requires Reachable(w) && w.process.Some? && w.process.value.main == Dropping(r)
    requires IsRun(w, GiveUpSteps(dropOk), w1) && IsRun(w1, ls, w2)
    requires o == w2.disk.status || o == w2.disk.outcome || (w2.process.Some? && o == w2.process.value.server.shown) ||
             (w2.process.Some? && w2.process.value.house.Saving? && o == Some(w2.process.value.house.report))
    requires Names(o, r)
    ensures o.value.verdict.PreviousInPlace?
  {
    var v := GivenUpIsDecided(w, r, dropOk);
    SameRunSameEnd(w, GiveUpSteps(dropOk), v, w1);
    RunKeepsDecided(w1, ls, w2, r);
    RunKeepsInv(w1, ls, w2);
    NotRenamed(w1, ls, w2, r);
  }

  lemma {:induction false} SameRunSameEnd(w: World, ls: seq<Step>, v: World, v': World)
    requires IsRun(w, ls, v) && IsRun(w, ls, v')
    ensures v == v'
    decreases ls
  {
    if ls != [] {
      SameRunSameEnd(Next(w, ls[0]), ls[1..], v, v');
    }
  }

  /** A restore that is neither in a handler nor with main any more is never renamed. */
  ghost predicate Settling(w: World, r: Ref) {
    r in w.used && r !in w.renamed && (w.process.Some? ==> r !in Live(w.process.value))
  }

  lemma StepKeepsSettling(w: World, l: Step, r: Ref)
    requires Inv(w) && Settling(w, r) && Enabled(w, l)
    ensures Settling(Next(w, l), r)
  {
    var o := Some(Report(Some(r), PreviousInPlace));
    assert Settled(w, o);
    StepSettles(w, l, o);
  }

  lemma StepSettles(w: World, l: Step, o: Option<Report>)
    requires Inv(w) && Settled(w, o) && Enabled(w, l)
    ensures Settled(Next(w, l), o)
  {
    match w.process
    case None =>
    case Some(p) =>
      if l.Kill? {
      } else if HandlerEnabled(w, p, l) {
        HandlerNarrows(w, p, l);
        NarrowingKeepsReport(w, HandlerNext(w, p, l), o);
      } else if MainEnabled(w, p, l) {
        MainNarrows(w, p, l);
        NarrowingKeepsReport(w, MainNext(w, p, l), o);
      } else if HouseEnabled(w, p, l) {
        NarrowingKeepsReport(w, HouseNext(w, p, l), o);
      } else {
        NarrowingKeepsReport(w, AckNext(w, p, l), o);
      }
  }

  lemma HandlerNarrows(w: World, p: Process, l: Step)
    requires Inv(w) && w.process == Some(p) && HandlerEnabled(w, p, l)
    ensures Narrows(w, HandlerNext(w, p, l))
  {
    if ChangesSlot(l) {
      ClaimNarrows(w, p, l);
    }
  }

  lemma ClaimNarrows(w: World, p: Process, l: Step)
    requires Inv(w) && w.process == Some(p) && HandlerEnabled(w, p, l) && ChangesSlot(l)
    ensures Narrows(w, HandlerNext(w, p, l))
  {
  }

  lemma MainNarrows(w: World, p: Process, l: Step)
    requires Inv(w) && w.process == Some(p) && MainEnabled(w, p, l)
    ensures Narrows(w, MainNext(w, p, l))
  {
    if BeforeSwap(l) {
      LeavingNarrows(w, p, l);
    }
  }

  lemma LeavingNarrows(w: World, p: Process, l: Step)
    requires Inv(w) && w.process == Some(p) && MainEnabled(w, p, l) && BeforeSwap(l)
    ensures Narrows(w, MainNext(w, p, l))
  {
  }

  lemma {:induction false} NotRenamed(w: World, ls: seq<Step>, w': World, r: Ref)
    requires Inv(w) && Settling(w, r) && IsRun(w, ls, w')
    ensures r !in w'.renamed
    decreases ls
  {
    if ls != [] {
      StepKeepsInv(w, ls[0]);
      StepKeepsSettling(w, ls[0], r);
      NotRenamed(Next(w, ls[0]), ls[1..], w', r);
    }
  }

  /** Main is past giving up `r`: its note, or the outcome, is on disk and says so. */
  ghost predicate TellsGivenUp(w: World, r: Ref) {
    && w.process.Some? && w.process.value.server.handed == Some(r)
    && (w.process.value.main == Reporting(r, false) || w.process.value.main.Clearing? || w.process.value.main.Exiting?)
    && (if w.process.value.main.Clearing? then w.disk.outcome.Some? else true)
    && (if w.disk.outcome.Some? then w.disk.outcome.value == Report(Some(r), PreviousInPlace)
        else w.disk.pending == Some(Marker(r, true)))
  }

  lemma MainKeepsTelling(w: World, p: Process, l: Step, r: Ref)
    requires Inv(w) && TellsGivenUp(w, r) && w.process == Some(p) && MainEnabled(w, p, l)
    ensures TellsGivenUp(MainNext(w, p, l), r)
  {
  }

  lemma OthersKeepTelling(w: World, p: Process, l: Step, r: Ref)
    requires Inv(w) && TellsGivenUp(w, r) && w.process == Some(p) && Enabled(w, l) && !MainEnabled(w, p, l) && !l.Kill?
    ensures TellsGivenUp(Next(w, l), r)
  {
    NobodyElseMoves(w, p, l, r);
    AckKeepsTelling(w, p, l, r);
  }

  /** With a restore handed over, no handler is left and the start is long over. */
  lemma NobodyElseMoves(w: World, p: Process, l: Step, r: Ref)
    requires Inv(w) && TellsGivenUp(w, r) && w.process == Some(p)
    ensures !HandlerEnabled(w, p, l) && !HouseEnabled(w, p, l)
  {
    assert p.handlers == map[] && p.house.Ready? && p.server.slot.Closed?;
  }

  lemma AckKeepsTelling(w: World, p: Process, l: Step, r: Ref)
    requires TellsGivenUp(w, r) && w.process == Some(p) && AckEnabled(p, l)
    ensures TellsGivenUp(AckNext(w, p, l), r)
  {
  }

  lemma {:induction false} RunKeepsTelling(w: World, ls: seq<Step>, w': World, r: Ref)
    requires Inv(w) && TellsGivenUp(w, r) && IsRun(w, ls, w') && Kill !in ls
    ensures TellsGivenUp(w', r)
    decreases ls
  {
    if ls != [] {
      StepKeepsInv(w, ls[0]);
      if MainEnabled(w, w.process.value, ls[0]) {
        MainKeepsTelling(w, w.process.value, ls[0], r);
      } else {
        OthersKeepTelling(w, w.process.value, ls[0], r);
      }
      RunKeepsTelling(Next(w, ls[0]), ls[1..], w', r);
    }
  }

  /**
   And the next start does speak of it: wherever the process is killed after the note was
   written, whether or not the outcome could be, the start reads that restore `r` was not
   carried out and the previous database is in place, unless an older outcome was there.
   */
  lemma NextStartSaysGivenUp(w: World, r: Ref, dropOk: bool, w1: World, ls: seq<Step>, w2: World) returns (w3: World)
    requires Reachable(w) && w.process.Some? && w.process.value.main == Dropping(r) && w.disk.outcome.None?
    requires IsRun(w, GiveUpSteps(dropOk), w1) && IsRun(w1, ls, w2) && Kill !in ls
    ensures IsRun(w2, KillAndRead, w3) && w3.process.Some?
    ensures w3.process.value.house == Saving(Report(Some(r), PreviousInPlace))
  {
    var v := GivenUpIsDecided(w, r, dropOk);
    SameRunSameEnd(w, GiveUpSteps(dropOk), v, w1);
    RunKeepsTelling(w1, ls, w2, r);
    w3 := KillRun(w2);
  }

  // ---------------------------------------------------------------- staged files

  /** The restores whose staged file a step leaves behind: those of a killed process, and one that could not be removed. */
  function LeftBehindBy(w: World, l: Step): set<Ref> {
    if l.Kill? then w.disk.staged
    else if l.RemoveStaged? && !l.ok then {l.r}
    else if l.DropStaged? && !l.ok && w.process.Some? && w.process.value.main.Dropping? then {w.process.value.main.ref}
    else {}
  }

  ghost function LeftBehind(w: World, ls: seq<Step>): set<Ref>
    decreases ls
  {
    if ls == [] || !Enabled(w, ls[0]) then {} else LeftBehindBy(w, ls[0]) + LeftBehind(Next(w, ls[0]), ls[1..])
  }

  /** A handler that has not yet cleaned up, or main before it has swapped or given up, still needs the file. */
  predicate StillNeeded(p: Process, r: Ref) {
    || (r in p.handlers && !p.handlers[r].Aborting?)
    || (p.server.handed == Some(r) && (MaySwap(p.main) || p.main.Dropping?))
  }

  ghost predicate Accounted(w: World, left: set<Ref>) {
    forall r <- w.disk.staged :: r in left || (w.process.Some? && StillNeeded(w.process.value, r))
  }

  lemma HandlerKeepsAccount(w: World, p: Process, l: Step, left: set<Ref>)
    requires Inv(w) && Accounted(w, left) && w.process == Some(p) && HandlerEnabled(w, p, l)
    ensures Accounted(HandlerNext(w, p, l), left + LeftBehindBy(w, l))
  {
    if ChangesSlot(l) {
      ClaimKeepsAccount(w, p, l, left);
    }
  }

  lemma ClaimKeepsAccount(w: World, p: Process, l: Step, left: set<Ref>)
    requires Inv(w) && Accounted(w, left) && w.process == Some(p) && HandlerEnabled(w, p, l) && ChangesSlot(l)
    ensures Accounted(HandlerNext(w, p, l), left + LeftBehindBy(w, l))
  {
  }

  lemma MainKeepsAccount(w: World, p: Process, l: Step, left: set<Ref>)
    requires Inv(w) && Accounted(w, left) && w.process == Some(p) && MainEnabled(w, p, l)
    ensures Accounted(MainNext(w, p, l), left + LeftBehindBy(w, l))
  {
    if BeforeSwap(l) {
      LeavingKeepsAccount(w, p, l, left);
    }
  }

  lemma LeavingKeepsAccount(w: World, p: Process, l: Step, left: set<Ref>)
    requires Inv(w) && Accounted(w, left) && w.process == Some(p) && MainEnabled(w, p, l) && BeforeSwap(l)
    ensures Accounted(MainNext(w, p, l), left + LeftBehindBy(w, l))
  {
  }

  lemma HouseKeepsAccount(w: World, p: Process, l: Step, left: set<Ref>)
    requires Accounted(w, left) && w.process == Some(p) && HouseEnabled(w, p, l)
    ensures Accounted(HouseNext(w, p, l), left + LeftBehindBy(w, l))
  {
  }

  lemma AckKeepsAccount(w: World, p: Process, l: Step, left: set<Ref>)
    requires Accounted(w, left) && w.process == Some(p) && AckEnabled(p, l)
    ensures Accounted(AckNext(w, p, l), left + LeftBehindBy(w, l))
  {
  }

  lemma StepKeepsAccount(w: World, l: Step, left: set<Ref>)
    requires Inv(w) && Accounted(w, left) && Enabled(w, l)
    ensures Accounted(Next(w, l), left + LeftBehindBy(w, l))
  {
    match w.process
    case None =>
    case Some(p) =>
      if l.Kill? {
      } else if HandlerEnabled(w, p, l) {
        HandlerKeepsAccount(w, p, l, left);
      } else if MainEnabled(w, p, l) {
        MainKeepsAccount(w, p, l, left);
      } else if HouseEnabled(w, p, l) {
        HouseKeepsAccount(w, p, l, left);
      } else {
        AckKeepsAccount(w, p, l, left);
      }
  }

  lemma {:induction false} RunKeepsAccount(w: World, ls: seq<Step>, w': World, left: set<Ref>)
    requires Inv(w) && Accounted(w, left) && IsRun(w, ls, w')
    ensures Accounted(w', left + LeftBehind(w, ls))
    decreases ls
  {
    if ls == [] {
      assert left + LeftBehind(w, ls) == left;
    } else {
      StepKeepsInv(w, ls[0]);
      StepKeepsAccount(w, ls[0], left);
      var more := left + LeftBehindBy(w, ls[0]);
      RunKeepsAccount(Next(w, ls[0]), ls[1..], w', more);
      assert more + LeftBehind(Next(w, ls[0]), ls[1..]) == left + LeftBehind(w, ls);
    }
  }

  /**
   Every staged file on disk is still needed by a handler or by main, or was left by a
   kill or a removal that failed: a restore that is refused, fails or is given up cleans up.
   */
  lemma StagedFilesAreAccountedFor(w0: World, ls: seq<Step>, w: World, r: Ref)
    requires Init(w0) && IsRun(w0, ls, w) && r in w.disk.staged && r !in LeftBehind(w0, ls)
    ensures w.process.Some? && StillNeeded(w.process.value, r)
  {
    RunKeepsAccount(w0, ls, w, {});
    assert {} + LeftBehind(w0, ls) == LeftBehind(w0, ls);
  }
}
