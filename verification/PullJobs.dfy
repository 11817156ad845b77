/**
 Model pulls: the job table, the job status, and the goroutine that downloads and
 then optionally checks that the model loads.  The table lock and the lock of each
 job are separate, so cancels and reports fall between the sweeper's look at a job
 and its removal from the table.
 */
module PullJobs {
  import opened Options

  type Id = nat
  type Key = string   // node and model

  datatype Status = Downloading | Verifying | Succeeded | Failed | LoadFailed | Cancelled

  predicate Active(s: Status) {
    s.Downloading? || s.Verifying?
  }

  /** Where the job's goroutine is. */
  datatype Pc = Fetching | Fetched | Probing | Reporting(outcome: Status) | Ended

  datatype Job = Job(key: Key, verify: bool, status: Status, pc: Pc)

  /** Who holds the table lock: nobody, or the sweeper, possibly with a key it found finished. */
  datatype Lock = Free | Sweeping(found: Option<Key>)

  /** `checks` and `cancels` are history: jobs whose load check began, and cancels that were accepted. */
  datatype State = State(jobs: map<Id, Job>, table: map<Key, Id>, lock: Lock, checks: set<Id>, cancels: set<Id>)

  datatype Step =
    | Start(id: Id, key: Key, verify: bool)
    | FetchFails(id: Id)
    | FetchDone(id: Id)
    | BeginCheck(id: Id)
    | CheckDone(id: Id, loads: bool)
    | Report(id: Id)
    | Cancel(id: Id)
    | SweepBegin
    | SweepFind(key: Key)
    | SweepDelete
    | SweepEnd

  // ---------------------------------------------------------------- the methods of a job

  /** finish: a terminal status is set unless one is already there. */
  function Finish(s: Status, outcome: Status): Status {
    if Active(s) then outcome else s
  }

  predicate Enabled(s: State, l: Step) {
    match l
    case Start(id, key, _) =>
      id !in s.jobs && s.lock.Free? &&
      !(key in s.table && s.table[key] in s.jobs && Active(s.jobs[s.table[key]].status))
    case FetchFails(id) => id in s.jobs && s.jobs[id].pc.Fetching?
    case FetchDone(id) => id in s.jobs && s.jobs[id].pc.Fetching?
    case BeginCheck(id) => id in s.jobs && s.jobs[id].pc.Fetched?
    case CheckDone(id, _) => id in s.jobs && s.jobs[id].pc.Probing?
    case Report(id) => id in s.jobs && s.jobs[id].pc.Reporting?
    case Cancel(id) => id in s.jobs
    case SweepBegin => s.lock.Free?
    case SweepFind(key) =>
      s.lock == Sweeping(None) && key in s.table && s.table[key] in s.jobs && !Active(s.jobs[s.table[key]].status)
    case SweepDelete => s.lock.Sweeping? && s.lock.found.Some?
    case SweepEnd => s.lock == Sweeping(None)
  }

  function Next(s: State, l: Step): State
    requires Enabled(s, l)
  {
    match l
    case Start(id, key, verify) =>
      s.(jobs := s.jobs[id := Job(key, verify, Downloading, Fetching)], table := s.table[key := id])
    case FetchFails(id) => s.(jobs := s.jobs[id := s.jobs[id].(pc := Reporting(Failed))])
    case FetchDone(id) =>
      s.(jobs := s.jobs[id := s.jobs[id].(pc := if s.jobs[id].verify then Fetched else Reporting(Succeeded))])
    case BeginCheck(id) =>
      if s.jobs[id].status.Downloading? then
        s.(jobs := s.jobs[id := s.jobs[id].(status := Verifying, pc := Probing)], checks := s.checks + {id})
      else
        s.(jobs := s.jobs[id := s.jobs[id].(pc := Ended)])
    case CheckDone(id, loads) =>
      s.(jobs := s.jobs[id := s.jobs[id].(pc := Reporting(if loads then Succeeded else LoadFailed))])
    case Report(id) =>
      var j := s.jobs[id];
      s.(jobs := s.jobs[id := j.(status := Finish(j.status, j.pc.outcome), pc := Ended)])
    case Cancel(id) =>
      if Active(s.jobs[id].status) then
        s.(jobs := s.jobs[id := s.jobs[id].(status := Cancelled)], cancels := s.cancels + {id})
      else s
    case SweepBegin => s.(lock := Sweeping(None))
    case SweepFind(key) => s.(lock := Sweeping(Some(key)))
    case SweepDelete => s.(table := s.table - {s.lock.found.value}, lock := Sweeping(None))
    case SweepEnd => s.(lock := Free)
  }

  ghost predicate IsRun(s: State, ls: seq<Step>, s': State)
    decreases ls
  {
    if ls == [] then s == s' else Enabled(s, ls[0]) && IsRun(Next(s, ls[0]), ls[1..], s')
  }

  const Initial: State := State(map[], map[], Free, {}, {})

  ghost predicate Reachable(s: State) {
    exists ls :: IsRun(Initial, ls, s)
  }

  // ---------------------------------------------------------------- the invariant

  /** The status of a job, its place in the table, and its accepted cancel. */
  ghost predicate StatusInv(s: State, id: Id)
    requires id in s.jobs
  {
    var j := s.jobs[id];
    && (Active(j.status) ==> j.key in s.table && s.table[j.key] == id)
    && (j.pc.Ended? ==> !Active(j.status))
    && (j.status.Verifying? ==> j.pc.Probing? || j.pc.Reporting?)
    && (j.pc.Reporting? ==> !Active(j.pc.outcome) && !j.pc.outcome.Cancelled?)
    && (j.status.Cancelled? <==> id in s.cancels)
  }

  /** What the load check leaves behind. */
  ghost predicate CheckInv(s: State, id: Id)
    requires id in s.jobs
  {
    var j := s.jobs[id];
    && (j.pc.Fetched? ==> j.verify)
    && (id in s.checks ==> j.verify && (j.pc.Probing? || j.pc.Reporting? || j.pc.Ended?))
    && (j.pc.Probing? ==> id in s.checks)
    && (j.status.LoadFailed? || (j.status.Succeeded? && j.verify) ==> id in s.checks)
    && (j.pc.Reporting? && (j.pc.outcome.LoadFailed? || (j.pc.outcome.Succeeded? && j.verify)) ==> id in s.checks)
  }

  ghost predicate Inv(s: State) {
    (forall id <- s.jobs :: StatusInv(s, id) && CheckInv(s, id)) && TableInv(s)
  }

  /** The table and what the sweeper found in it. */
  ghost predicate TableInv(s: State) {
    && (forall k <- s.table :: s.table[k] in s.jobs && s.jobs[s.table[k]].key == k)
    && s.checks <= s.jobs.Keys && s.cancels <= s.jobs.Keys
    && (s.lock.Sweeping? && s.lock.found.Some? ==>
          s.lock.found.value in s.table && s.table[s.lock.found.value] in s.jobs &&
          !Active(s.jobs[s.table[s.lock.found.value]].status))
  }

  /** The steps that change the table. */
  predicate ChangesTable(l: Step) {
    l.Start? || l.SweepBegin? || l.SweepFind? || l.SweepDelete? || l.SweepEnd?
  }

  lemma TableStepKeepsStatus(s: State, l: Step, id: Id)
    requires Inv(s) && Enabled(s, l) && ChangesTable(l) && id in Next(s, l).jobs
    ensures StatusInv(Next(s, l), id)
  {
    if id in s.jobs {
      assert StatusInv(s, id);
    }
  }

  lemma StepKeepsStatus(s: State, l: Step, id: Id)
    requires Inv(s) && Enabled(s, l) && id in Next(s, l).jobs
    ensures StatusInv(Next(s, l), id)
  {
    if ChangesTable(l) {
      TableStepKeepsStatus(s, l, id);
    } else {
      assert StatusInv(s, id);
    }
  }

  lemma StepKeepsCheck(s: State, l: Step, id: Id)
    requires Inv(s) && Enabled(s, l) && id in Next(s, l).jobs
    ensures CheckInv(Next(s, l), id)
  {
    if id in s.jobs {
      assert CheckInv(s, id);
    }
  }

  lemma StepKeepsTable(s: State, l: Step)
    requires TableInv(s) && Enabled(s, l)
    ensures TableInv(Next(s, l))
  {
  }

  lemma StepKeepsInv(s: State, l: Step)
    requires Inv(s) && Enabled(s, l)
    ensures Inv(Next(s, l))
  {
    var t := Next(s, l);
    StepKeepsTable(s, l);
    forall id <- t.jobs
      ensures StatusInv(t, id) && CheckInv(t, id)
    {
      StepKeepsStatus(s, l, id);
      StepKeepsCheck(s, l, id);
    }
  }

  lemma {:induction false} RunKeepsInv(s: State, ls: seq<Step>, s': State)
    requires Inv(s) && IsRun(s, ls, s')
    ensures Inv(s')
    decreases ls
  {
    if ls != [] {
      StepKeepsInv(s, ls[0]);
      RunKeepsInv(Next(s, ls[0]), ls[1..], s');
    }
  }

  lemma ReachableInv(s: State)
    requires Reachable(s)
    ensures Inv(s)
  {
    var ls :| IsRun(Initial, ls, s);
    RunKeepsInv(Initial, ls, s);
  }

  // ---------------------------------------------------------------- the theorems

  /**
   At most one active job per node and model, because every active job ever created is
   still in the table; a job that has ended its goroutine is no longer active.
   */
  lemma OneActiveJobPerKey(s: State, i: Id, j: Id)
    requires Reachable(s) && i in s.jobs && j in s.jobs
    requires Active(s.jobs[i].status) && Active(s.jobs[j].status) && s.jobs[i].key == s.jobs[j].key
    ensures i == j && s.jobs[i].key in s.table && s.table[s.jobs[i].key] == i && !s.jobs[i].pc.Ended?
  {
    ReachableInv(s);
    assert StatusInv(s, i) && StatusInv(s, j);
  }

  /** A pull is refused, while the table is free, exactly when a job for that node and model is still active. */
  lemma StartRefusedIffActive(s: State, id: Id, key: Key, verify: bool)
    requires Reachable(s) && s.lock.Free? && id !in s.jobs
    ensures !Enabled(s, Start(id, key, verify)) <==>
              exists j <- s.jobs :: s.jobs[j].key == key && (s.jobs[j].status.Downloading? || s.jobs[j].status.Verifying?)
  {
    ReachableInv(s);
    if j :| j in s.jobs && s.jobs[j].key == key && Active(s.jobs[j].status) {
      assert StatusInv(s, j);
    }
  }

  /** A terminal status never changes, whatever interleaves with it. */
  lemma {:induction false} TerminalIsFinal(s: State, ls: seq<Step>, s': State, id: Id)
    requires IsRun(s, ls, s') && id in s.jobs && !Active(s.jobs[id].status)
    ensures id in s'.jobs && s'.jobs[id].status == s.jobs[id].status
    decreases ls
  {
    if ls != [] {
      TerminalIsFinal(Next(s, ls[0]), ls[1..], s', id);
    }
  }

  /** An accepted cancel is the outcome for good, and a load check that had not begun never begins. */
  lemma {:induction false} AcceptedCancelIsFinal(s: State, ls: seq<Step>, s': State, id: Id)
    requires Reachable(s) && IsRun(s, ls, s') && id in s.cancels
    ensures id in s'.jobs && s'.jobs[id].status.Cancelled?
    ensures id in s'.checks ==> id in s.checks
    decreases ls
  {
    ReachableInv(s);
    assert StatusInv(s, id);
    TerminalIsFinal(s, ls, s', id);
    NoCheckAfterEnd(s, ls, s', id);
  }

  lemma {:induction false} NoCheckAfterEnd(s: State, ls: seq<Step>, s': State, id: Id)
    requires IsRun(s, ls, s') && id in s.jobs && !Active(s.jobs[id].status)
    ensures id in s'.checks ==> id in s.checks
    decreases ls
  {
    if ls != [] {
      NoCheckAfterEnd(Next(s, ls[0]), ls[1..], s', id);
    }
  }

  /** The load check of a job begins at step `i` of a run. */
  ghost predicate CheckBeginsAt(ls: seq<Step>, i: nat, id: Id) {
    && i < |ls| && ls[i] == BeginCheck(id)
    && exists t :: IsRun(Initial, ls[..i], t) && id in t.jobs && t.jobs[id].status.Downloading? && t.jobs[id].verify && id !in t.checks
  }

  lemma {:induction false} RunSplit(s: State, ls: seq<Step>, l: Step, s': State) returns (t: State)
    requires IsRun(s, ls + [l], s')
    ensures IsRun(s, ls, t) && Enabled(t, l) && s' == Next(t, l)
    decreases ls
  {
    if ls == [] {
      t := s;
      assert (ls + [l])[1..] == [];
    } else {
      assert (ls + [l])[1..] == ls[1..] + [l];
      t := RunSplit(Next(s, ls[0]), ls[1..], l, s');
    }
  }

  /** A job reaches its check at most once. */
  lemma CheckOnlyOnce(s: State, l: Step, id: Id)
    requires Inv(s) && Enabled(s, l) && id in s.checks
    ensures l != BeginCheck(id)
  {
    assert CheckInv(s, id);
  }

  /** A job that is still to reach its check has not begun one before. */
  lemma {:induction false} NotBegunBefore(ls: seq<Step>, s: State, id: Id)
    requires IsRun(Initial, ls, s) && (id in s.jobs ==> s.jobs[id].pc.Fetching? || s.jobs[id].pc.Fetched?)
    ensures BeginCheck(id) !in ls
    decreases |ls|
  {
    if ls != [] {
      var before, l := ls[..|ls| - 1], ls[|ls| - 1];
      assert ls == before + [l];
      var t := RunSplit(Initial, before, l, s);
      NotBegunBefore(before, t, id);
    }
  }

  /**
   Every load check that ever began did so at exactly one step of the run, for a job
   whose client asked for it and which was downloading right before that step.
   */
  lemma {:induction false} CheckBeginsOnce(ls: seq<Step>, s: State, id: Id) returns (i: nat)
    requires IsRun(Initial, ls, s) && id in s.checks
    ensures CheckBeginsAt(ls, i, id)
    ensures forall j :: 0 <= j < |ls| && ls[j] == BeginCheck(id) ==> j == i
    decreases |ls|
  {
    var before, l := ls[..|ls| - 1], ls[|ls| - 1];
    assert ls == before + [l];
    var t := RunSplit(Initial, before, l, s);
    RunKeepsInv(Initial, before, t);
    if id in t.checks {
      i := CheckBeginsOnce(before, t, id);
      CheckOnlyOnce(t, l, id);
      assert before[..i] == ls[..i];
    } else {
      i := |ls| - 1;
      assert ls[..i] == before;
      assert CheckInv(t, id);
      NotBegunBefore(before, t, id);
    }
  }

  /** What a run must contain for a job to have, or be about to report, an outcome. */
  ghost predicate Earned(ls: seq<Step>, id: Id, verify: bool, outcome: Status) {
    match outcome
    case Succeeded => if verify then CheckDone(id, true) in ls else FetchDone(id) in ls
    case LoadFailed => verify && CheckDone(id, false) in ls
    case Failed => FetchFails(id) in ls
    case Cancelled => Cancel(id) in ls
    case _ => true
  }

  ghost predicate AllEarned(s: State, ls: seq<Step>) {
    forall id <- s.jobs ::
      && Earned(ls, id, s.jobs[id].verify, s.jobs[id].status)
      && (s.jobs[id].pc.Reporting? ==> Earned(ls, id, s.jobs[id].verify, s.jobs[id].pc.outcome))
  }

  lemma StepEarns(s: State, ls: seq<Step>, l: Step)
    requires Inv(s) && AllEarned(s, ls) && Enabled(s, l)
    ensures AllEarned(Next(s, l), ls + [l])
  {
    var t := Next(s, l);
    forall id <- t.jobs
      ensures Earned(ls + [l], id, t.jobs[id].verify, t.jobs[id].status)
      ensures t.jobs[id].pc.Reporting? ==> Earned(ls + [l], id, t.jobs[id].verify, t.jobs[id].pc.outcome)
    {
      if id in s.jobs {
        assert CheckInv(s, id);
        StepEarnsOne(s, ls, l, id);
      }
    }
  }

  lemma StepEarnsOne(s: State, ls: seq<Step>, l: Step, id: Id)
    requires Inv(s) && AllEarned(s, ls) && Enabled(s, l) && id in s.jobs && CheckInv(s, id)
    ensures
      var j := Next(s, l).jobs[id];
      && Earned(ls + [l], id, j.verify, j.status)
      && (j.pc.Reporting? ==> Earned(ls + [l], id, j.verify, j.pc.outcome))
  {
    assert forall k <- ls :: k in ls + [l];
    assert l in ls + [l];
  }

  /**
   Every outcome is earned in the run: success by a load check that passed, or by a
   download where no check was asked for; a load failure by a check that failed, a
   failure by a download that did, and a cancel by a request.
   */
  lemma {:induction false} OutcomesAreEarned(ls: seq<Step>, s: State)
    requires IsRun(Initial, ls, s)
    ensures AllEarned(s, ls)
    decreases |ls|
  {
    if ls != [] {
      var before, l := ls[..|ls| - 1], ls[|ls| - 1];
      assert ls == before + [l];
      var t := RunSplit(Initial, before, l, s);
      RunKeepsInv(Initial, before, t);
      OutcomesAreEarned(before, t);
      StepEarns(t, before, l);
    }
  }

  lemma OutcomeMeaning(ls: seq<Step>, s: State, id: Id)
    requires IsRun(Initial, ls, s) && id in s.jobs
    ensures s.jobs[id].status.Succeeded? ==> if s.jobs[id].verify then CheckDone(id, true) in ls else FetchDone(id) in ls
    ensures s.jobs[id].status.LoadFailed? ==> s.jobs[id].verify && CheckDone(id, false) in ls
    ensures s.jobs[id].status.Failed? ==> FetchFails(id) in ls
    ensures s.jobs[id].status.Cancelled? ==> Cancel(id) in ls
  {
    OutcomesAreEarned(ls, s);
  }

  /** A job that asked for the check reports success only after one. */
  lemma VerifiedSuccessHadACheck(s: State, id: Id)
    requires Reachable(s) && id in s.jobs && s.jobs[id].verify && s.jobs[id].status.Succeeded?
    ensures id in s.checks
    ensures !Enabled(s, BeginCheck(id))
  {
    ReachableInv(s);
    assert CheckInv(s, id);
  }

  // ---------------------------------------------------------------- the code

  class PullJob {
    const verifyLoad: bool
    var status: Status
    var error: string
    var finished: bool
    var bytesTotal: int
    var bytesCompleted: int

    constructor (verifyLoad: bool)
      ensures status.Downloading? && !finished && this.verifyLoad == verifyLoad
      ensures bytesTotal == bytesCompleted == 0
    {
      this.verifyLoad := verifyLoad;
      status, error, finished := Downloading, "", false;
      bytesTotal, bytesCompleted := 0, 0;
    }

    method SetProgress(total: int, completed: int)
      modifies `bytesTotal, `bytesCompleted
      ensures bytesTotal == total && bytesCompleted == completed
    {
      bytesTotal, bytesCompleted := total, completed;
    }

    /** The first outcome to arrive stays; a later one, with its message, is dropped. */
    method SetFinished(outcome: Status, message: string)
      modifies `status, `error, `finished
      ensures status == Finish(old(status), outcome)
      ensures !Active(old(status)) ==> error == old(error) && finished == old(finished)
      ensures Active(old(status)) ==> error == message && finished
      ensures forall s, id :: Enabled(s, Report(id)) && s.jobs[id].status == old(status) && s.jobs[id].pc.outcome == outcome ==>
                Next(s, Report(id)).jobs[id].status == status
    {
      if !Active(status) {
        return;
      }
      status, error, finished := outcome, message, true;
    }

    /** From downloading to verifying; false when the job is already over. */
    method SetVerifying() returns (ok: bool)
      modifies `status
      ensures ok <==> old(status).Downloading?
      ensures status == if ok then Verifying else old(status)
      ensures forall s, id :: Enabled(s, BeginCheck(id)) && s.jobs[id].status == old(status) ==>
                Next(s, BeginCheck(id)).jobs[id].status == status && (Next(s, BeginCheck(id)).jobs[id].pc.Probing? <==> ok)
    {
      if !status.Downloading? {
        return false;
      }
      status := Verifying;
      ok := true;
    }

    /** A cancel either becomes the outcome, or comes too late and changes nothing. */
    method RequestCancel() returns (ok: bool)
      modifies `status, `error, `finished
      ensures ok <==> Active(old(status))
      ensures status == if ok then Cancelled else old(status)
      ensures forall s, id :: Enabled(s, Cancel(id)) && s.jobs[id].status == old(status) ==>
                Next(s, Cancel(id)).jobs[id].status == status && (ok ==> id in Next(s, Cancel(id)).cancels)
      ensures !ok ==> error == old(error) && finished == old(finished)
    {
      if !Active(status) {
        return false;
      }
      status, error, finished := Cancelled, "cancelled by admin", true;
      ok := true;
    }

    /** What follows a download that worked; `loads` is the answer of the load check. */
    method CompletePull(loads: bool) returns (checked: bool)
      modifies `status, `error, `finished
      ensures checked <==> verifyLoad && old(status).Downloading?
      ensures status ==
              if !verifyLoad then Finish(old(status), Succeeded)
              else if old(status).Downloading? then (if loads then Succeeded else LoadFailed)
              else old(status)
    {
      if !verifyLoad {
        SetFinished(Succeeded, "");
        return false;
      }
      checked := SetVerifying();
      if !checked {
        return;
      }
      if loads {
        SetFinished(Succeeded, "");
      } else {
        SetFinished(LoadFailed, "the model did not load");
      }
    }
  }

  /** The keys a sweep removes: finished jobs older than the limit, never an active one. */
  method SweepOldPullJobs(table: map<Key, Id>, jobs: map<Id, Job>, tooOld: set<Id>) returns (left: map<Key, Id>)
    requires forall k <- table :: table[k] in jobs
    ensures forall k :: k in left <==> k in table && (Active(jobs[table[k]].status) || table[k] !in tooOld)
    ensures forall k <- left :: left[k] == table[k]
  {
    left := table;
    var todo := table.Keys;
    while todo != {}
      invariant todo <= table.Keys
      invariant forall k :: k in left <==> k in table && (k in todo || Active(jobs[table[k]].status) || table[k] !in tooOld)
      invariant forall k <- left :: left[k] == table[k]
      decreases todo
    {
      var k :| k in todo;
      todo := todo - {k};
      if !Active(jobs[table[k]].status) && table[k] in tooOld {
        left := left - {k};
      }
    }
  }
}
