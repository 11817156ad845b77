/**
 The hand-off of a staged restore to the main goroutine, the database swap, and
 the markers that carry the result across the restart.

 Everything that other goroutines can observe is one step of `Next`: a critical
 section under the restore lock, a channel operation, one file operation, or one
 read of shared memory.  The process can be killed between any two steps and
 started again.  A marker write or a file removal either happens as a whole or
 fails and changes nothing (`ok == false`).
 */
module RestoreModel {
  import opened Options

  /** A restore reference; every restore attempt gets a fresh one. */
  type Ref = nat

  /** What a restore result tells the operator. */
  datatype Verdict = Success | PreviousInPlace | Undecided

  /** A restore result; `ref` is absent when no pending marker named one. */
  datatype Report = Report(ref: Option<Ref>, verdict: Verdict)

  /** The pending marker.  The staged file it names is the one of its own reference. */
  datatype Marker = Marker(ref: Ref, notCarriedOut: bool)

  /** The write-ahead log: the database its data belongs to, and how much is not flushed. */
  datatype Log = Log(of: Option<Ref>, bytes: nat)

  /** The files next to the database. `database` is the restore whose data is in place, if any. */
  datatype Disk = Disk(
    staged: set<Ref>,
    pending: Option<Marker>,
    outcome: Option<Report>,
    status: Option<Report>,
    database: Option<Ref>,
    log: Log)

  /** What inspecting a sidecar of the old database finds. */
  datatype Sidecar = Absent | Unclear | Present(bytes: nat)

  /** What the checks before the rename find, and whether the rename itself works. */
  datatype SwapChecks = SwapChecks(regular: bool, valid: bool, wal: Sidecar, shm: Sidecar, renameOk: bool)

  /** The restore slot of the admin server. */
  datatype Slot = Idle | Staging | HandedOff | Closed

  /**
   The admin server's restore fields and the one-slot channel to main.  `version` tells
   apart the result objects shown one after the other, even when they read the same.
   */
  datatype Server = Server(slot: Slot, handed: Option<Ref>, channel: Option<Ref>, shown: Option<Report>, version: nat)

  /** Where a restore request handler is. `Refused` and `Sending` hold the restore lock. */
  datatype Phase = Building | Built | Checked | Marked | Refused | Sending | Failing | Aborting

  /** Where the main goroutine is. */
  datatype Main =
    | Serving
    | Leaving(received: Option<Ref>)
    | Draining(path: Option<Ref>)
    | Swapping(ref: Ref)
    | Dropping(ref: Ref)
    | Marking(ref: Ref)
    | Reporting(ref: Ref, renamed: bool)
    | Clearing(ref: Ref)
    | Exiting

  /** Where the start-up housekeeping is. */
  datatype House =
    | Loading
    | Reading
    | Saving(report: Report)
    | Showing(report: Report, saved: bool)
    | DroppingOutcome
    | DroppingMarker
    | Sweeping
    | Ready

  /**
   An acknowledgement in progress: the result it read and its version, whether it read
   it before housekeeping ended, and whether the saved copy is already removed.
   */
  datatype Ack = Ack(report: Report, version: nat, early: bool, removed: bool)

  datatype Process = Process(
    server: Server,
    handlers: map<Ref, Phase>,
    main: Main,
    house: House,
    acks: map<nat, Ack>)

  /** `used`, `accepted` and `renamed` are history: references ever given out, accepted with a 202, swapped in. */
  datatype World = World(
    disk: Disk,
    process: Option<Process>,
    used: set<Ref>,
    accepted: set<Ref>,
    renamed: set<Ref>)

  datatype Step =
    // a restore request handler
    | Begin(r: Ref)
    | StageCreate(r: Ref)
    | StageDone(r: Ref)
    | StageFail(r: Ref)
    | Check(r: Ref)
    | WriteMarker(r: Ref, ok: bool)
    | Recheck(r: Ref)
    | Commit(r: Ref)
    | RemoveMarker(r: Ref, ok: bool)
    | RemoveStaged(r: Ref, ok: bool)
    | Abort(r: Ref)
    // main
    | Receive
    | Signal
    | CloseRestores
    | WriteLog(bytes: nat)
    | CloseStore(ok: bool)
    | RefuseSwap
    | Rename(checks: SwapChecks)
    | DropStaged(ok: bool)
    | MarkNotCarriedOut(ok: bool)
    | WriteOutcome(ok: bool)
    | ClearMarker(ok: bool)
    // start-up housekeeping
    | LoadStatus
    | ReadMarkers
    | SaveStatus(ok: bool)
    | Show
    | DropOutcome(ok: bool)
    | DropMarker(ok: bool)
    | Sweep(r: Ref)
    | EndHousekeeping
    // acknowledging a result
    | AckRead(a: nat)
    | AckRemove(a: nat, ok: bool)
    | AckClear(a: nat)
    // the environment
    | Kill
    | Restart

  // ---------------------------------------------------------------- operations

  /** abortRestore: the slot is given back only while it is still claimed for staging. */
  function GiveBack(s: Server): Server {
    if s.slot.Staging? then s.(slot := Idle) else s
  }

  /** A result object read or made at start becomes the shown one. */
  function Display(s: Server, o: Option<Report>): Server {
    s.(shown := o, version := s.version + 1)
  }

  /** The pass CloseRestores makes over the server: it closes the slot. */
  function CloseSlot(s: Server): Server {
    s.(slot := Closed)
  }

  /** What main swaps: the path it received, or else the one the closed server names. */
  function PathToSwap(received: Option<Ref>, s: Server): Option<Ref> {
    if received.Some? then received else s.handed
  }

  /** synthesizePendingOutcome: the result of a restore whose outcome was never written. */
  function Synthesize(m: Marker, staged: set<Ref>): Report {
    Report(Some(m.ref), if m.notCarriedOut || m.ref in staged then PreviousInPlace else Undecided)
  }

  /** What the next start makes of the markers: the outcome first, else the pending marker. */
  function ReadBack(d: Disk): Option<Report> {
    if d.outcome.Some? then d.outcome
    else if d.pending.Some? then Some(Synthesize(d.pending.value, d.staged))
    else None
  }

  /** WriteRestoreOutcome takes the reference from the pending marker. */
  function OutcomeFor(d: Disk, renamed: bool): Report {
    Report(if d.pending.Some? then Some(d.pending.value.ref) else None,
           if renamed then Success else PreviousInPlace)
  }

  /** A log that can be inspected is seen as it is. */
  predicate SeenAsItIs(c: SwapChecks, log: Log) {
    (c.wal.Absent? ==> log.bytes == 0) && (c.wal.Present? ==> c.wal.bytes == log.bytes)
  }

  /** The old write-ahead log must be gone or empty, and nothing may be unclear. */
  predicate Passes(c: SwapChecks) {
    && c.regular && c.valid && c.renameOk
    && (c.wal.Absent? || c.wal == Present(0)) && !c.shm.Unclear?
  }

  predicate MayRename(d: Disk, r: Ref, c: SwapChecks) {
    r in d.staged && SeenAsItIs(c, d.log) && Passes(c)
  }

  const FreshProcess: Process :=
    Process(Server(Idle, None, None, None, 0), map[], Serving, Loading, map[])

  // ---------------------------------------------------------------- the step relation

  /** The restore lock is free unless a handler is inside the last part of its hand-off. */
  predicate LockFree(p: Process) {
    forall r <- p.handlers :: !p.handlers[r].Refused? && !p.handlers[r].Sending?
  }

  predicate At(p: Process, r: Ref, phase: Phase) {
    r in p.handlers && p.handlers[r] == phase
  }

  predicate HandlerEnabled(w: World, p: Process, l: Step) {
    match l
    case Begin(r) => r !in w.used && p.house.Ready? && LockFree(p) && p.server.slot.Idle?
    case StageCreate(r) => At(p, r, Building)
    case StageDone(r) => At(p, r, Building)
    case StageFail(r) => At(p, r, Building)
    case Check(r) => At(p, r, Built) && LockFree(p)
    case WriteMarker(r, _) => At(p, r, Checked)
    case Recheck(r) => At(p, r, Marked) && LockFree(p)
    case Commit(r) => At(p, r, Sending)
    case RemoveMarker(r, _) => At(p, r, Refused)
    case RemoveStaged(r, _) => At(p, r, Failing)
    case Abort(r) => At(p, r, Aborting) && LockFree(p)
    case _ => false
  }

  predicate MainEnabled(w: World, p: Process, l: Step) {
    match l
    case Receive => p.main.Serving? && p.server.channel.Some?
    case Signal => p.main.Serving?
    case CloseRestores => p.main.Leaving? && LockFree(p)
    case WriteLog(_) => p.main.Serving? || p.main.Leaving? || p.main.Draining?
    case CloseStore(_) => p.main.Draining? && p.main.path.Some?
    case RefuseSwap => p.main.Swapping?
    case Rename(checks) => p.main.Swapping? && MayRename(w.disk, p.main.ref, checks)
    case DropStaged(_) => p.main.Dropping?
    case MarkNotCarriedOut(_) => p.main.Marking?
    case WriteOutcome(_) => p.main.Reporting?
    case ClearMarker(_) => p.main.Clearing?
    case _ => false
  }

  predicate HouseEnabled(w: World, p: Process, l: Step) {
    match l
    case LoadStatus => p.house.Loading?
    case ReadMarkers => p.house.Reading?
    case SaveStatus(_) => p.house.Saving?
    case Show => p.house.Showing?
    case DropOutcome(_) => p.house.DroppingOutcome?
    case DropMarker(_) => p.house.DroppingMarker?
    case Sweep(r) => p.house.Sweeping? && r in w.disk.staged
    case EndHousekeeping => p.house.Sweeping?
    case _ => false
  }

  predicate AckEnabled(p: Process, l: Step) {
    match l
    case AckRead(a) => a !in p.acks && p.server.shown.Some?
    case AckRemove(a, _) => a in p.acks && !p.acks[a].removed
    case AckClear(a) => a in p.acks && p.acks[a].removed
    case _ => false
  }

  predicate Enabled(w: World, l: Step) {
    match w.process
    case None => l.Restart?
    case Some(p) =>
      || l.Kill?
      || HandlerEnabled(w, p, l)
      || MainEnabled(w, p, l)
      || HouseEnabled(w, p, l)
      || AckEnabled(p, l)
  }

  function Move(p: Process, r: Ref, phase: Phase): Process {
    p.(handlers := p.handlers[r := phase])
  }

  function With(w: World, d: Disk, p: Process): World {
    w.(disk := d, process := Some(p))
  }

  function HandlerNext(w: World, p: Process, l: Step): World
    requires HandlerEnabled(w, p, l)
  {
    var d, s := w.disk, p.server;
    match l
    case Begin(r) =>
      With(w, d, Move(p, r, Building).(server := s.(slot := Staging))).(used := w.used + {r})
    case StageCreate(r) => With(w, d.(staged := d.staged + {r}), p)
    case StageDone(r) => With(w, d.(staged := d.staged + {r}), Move(p, r, Built))
    case StageFail(r) => With(w, d, Move(p, r, Failing))
    case Check(r) => With(w, d, Move(p, r, if s.slot.Staging? then Checked else Failing))
    case WriteMarker(r, ok) =>
      if ok then With(w, d.(pending := Some(Marker(r, false))), Move(p, r, Marked))
      else With(w, d, Move(p, r, Failing))
    case Recheck(r) =>
      if s.slot.Staging? && s.channel.None? then
        With(w, d, Move(p, r, Sending).(server := s.(channel := Some(r))))
      else
        With(w, d, Move(p, r, Refused))
    case Commit(r) =>
      With(w, d, p.(handlers := p.handlers - {r}, server := s.(slot := HandedOff, handed := Some(r))))
      .(accepted := w.accepted + {r})
    case RemoveMarker(r, ok) =>
      With(w, if ok then d.(pending := None) else d, Move(p, r, Failing))
    case RemoveStaged(r, ok) =>
      With(w, if ok then d.(staged := d.staged - {r}) else d, Move(p, r, Aborting))
    case Abort(r) =>
      With(w, d, p.(handlers := p.handlers - {r}, server := GiveBack(s)))
  }

  function MainNext(w: World, p: Process, l: Step): World
    requires MainEnabled(w, p, l)
  {
    var d, s := w.disk, p.server;
    match l
    case Receive => With(w, d, p.(main := Leaving(s.channel), server := s.(channel := None)))
    case Signal => With(w, d, p.(main := Leaving(None)))
    case CloseRestores =>
      With(w, d, p.(main := Draining(PathToSwap(p.main.received, s)), server := CloseSlot(s)))
    case WriteLog(bytes) => With(w, d.(log := Log(d.database, bytes)), p)
    case CloseStore(ok) =>
      With(w, d, p.(main := if ok then Swapping(p.main.path.value) else Dropping(p.main.path.value)))
    case RefuseSwap => With(w, d, p.(main := Dropping(p.main.ref)))
    case Rename(_) =>
      var r := p.main.ref;
      With(w, d.(staged := d.staged - {r}, database := Some(r)), p.(main := Reporting(r, true)))
      .(renamed := w.renamed + {r})
    case DropStaged(ok) =>
      With(w, if ok then d.(staged := d.staged - {p.main.ref}) else d, p.(main := Marking(p.main.ref)))
    case MarkNotCarriedOut(ok) =>
      var d' := if ok && d.pending.Some?
                then d.(pending := Some(d.pending.value.(notCarriedOut := true))) else d;
      With(w, d', p.(main := Reporting(p.main.ref, false)))
    case WriteOutcome(ok) =>
      if ok then
        With(w, d.(outcome := Some(OutcomeFor(d, p.main.renamed))), p.(main := Clearing(p.main.ref)))
      else
        With(w, d, p.(main := Exiting))
    case ClearMarker(ok) =>
      With(w, if ok then d.(pending := None) else d, p.(main := Exiting))
  }

  function HouseNext(w: World, p: Process, l: Step): World
    requires HouseEnabled(w, p, l)
  {
    var d, s := w.disk, p.server;
    match l
    case LoadStatus => With(w, d, p.(house := Reading, server := Display(s, d.status)))
    case ReadMarkers =>
      With(w, d, p.(house := match ReadBack(d) case None => Sweeping case Some(o) => Saving(o)))
    case SaveStatus(ok) =>
      With(w, if ok then d.(status := Some(p.house.report)) else d,
           p.(house := Showing(p.house.report, ok)))
    case Show =>
      With(w, d, p.(house := if p.house.saved then DroppingOutcome else Sweeping,
                    server := Display(s, Some(p.house.report))))
    case DropOutcome(ok) => With(w, if ok then d.(outcome := None) else d, p.(house := DroppingMarker))
    case DropMarker(ok) => With(w, if ok then d.(pending := None) else d, p.(house := Sweeping))
    case Sweep(r) => With(w, d.(staged := d.staged - {r}), p)
    case EndHousekeeping => With(w, d, p.(house := Ready))
  }

  function AckNext(w: World, p: Process, l: Step): World
    requires AckEnabled(p, l)
  {
    var d, s := w.disk, p.server;
    match l
    case AckRead(a) =>
      With(w, d, p.(acks := p.acks[a := Ack(s.shown.value, s.version, !p.house.Ready?, false)]))
    case AckRemove(a, ok) =>
      if ok then
        With(w, d.(status := None), p.(acks := p.acks[a := p.acks[a].(removed := true)]))
      else
        With(w, d, p.(acks := p.acks - {a}))
    case AckClear(a) =>
      With(w, d, p.(acks := p.acks - {a},
                    server := if s.version == p.acks[a].version then s.(shown := None) else s))
  }

  function Next(w: World, l: Step): World
    requires Enabled(w, l)
  {
    match w.process
    case None => w.(process := Some(FreshProcess))
    case Some(p) =>
      if l.Kill? then w.(process := None)
      else if HandlerEnabled(w, p, l) then HandlerNext(w, p, l)
      else if MainEnabled(w, p, l) then MainNext(w, p, l)
      else if HouseEnabled(w, p, l) then HouseNext(w, p, l)
      else AckNext(w, p, l)
  }

  /** `w'` is reached from `w` by the steps `ls`. */
  ghost predicate IsRun(w: World, ls: seq<Step>, w': World)
    decreases ls
  {
    if ls == [] then w == w'
    else Enabled(w, ls[0]) && IsRun(Next(w, ls[0]), ls[1..], w')
  }

  /** A first start: nothing on disk names a restore. */
  predicate Init(w: World) {
    w == World(Disk({}, None, None, None, None, Log(None, 0)), None, {}, {}, {})
  }

  ghost predicate Reachable(w: World) {
    exists w0, ls :: Init(w0) && IsRun(w0, ls, w)
  }
}
