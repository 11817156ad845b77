/**
 The slots and counters of the simulated engine.  Each atomic counter update, each
 channel operation and each compare-and-swap is one step, and requests interleave
 freely between them.
 */
module SlotAccounting {

  /** Where one request is; `w` and `p` are the values its peak loop works with. */
  datatype Pc =
    | Entered                   // counted as a request
    | Waiting(w: int)           // counted as waiting, about to load the peak
    | Loaded(w: int, p: int)    // about to compare or swap
    | Queued                    // in the select
    | GotSlot                   // slot taken, still counted as waiting
    | GaveUp                    // client gone, still counted as waiting
    | LeftQueue                 // client gone, not counted as aborted yet
    | Admitted                  // not counted as running yet
    | Prefill                   // counted as running
    | Cut                       // client gone during prefill, still counted as running
    | CutStopped                // slot still held
    | CutReleased               // not counted as aborted yet
    | Active                    // the run was handed to the caller
    | FinishAborting            // finish called, client gone, not counted as aborted yet
    | Finishing(aborted: bool)  // finish called, still counted as running
    | Stopped(aborted: bool)    // slot still held
    | Over(aborted: bool)

  datatype State = State(
    reqs: map<nat, Pc>,
    requests: int,
    waiting: int,
    running: int,
    aborted: int,
    peak: int,
    slotsUsed: int,
    highWater: int)             // history: the largest value the waiting counter ever had

  datatype Step =
    | Arrive(r: nat)
    | CountWaiting(r: nat)
    | LoadPeak(r: nat)
    | SwapPeak(r: nat)
    | TakeSlot(r: nat)
    | ClientGone(r: nat)
    | LeaveWaiting(r: nat)
    | CountAborted(r: nat)
    | StartRunning(r: nat)
    | PrefillDone(r: nat)
    | PrefillCut(r: nat)
    | StopRunning(r: nat)
    | ReleaseSlot(r: nat)
    | CallFinish(r: nat, gone: bool)

  predicate Enabled(s: State, slots: nat, l: Step) {
    if l.Arrive? then l.r !in s.reqs
    else
      l.r in s.reqs &&
      var pc := s.reqs[l.r];
      match l
      case CountWaiting(_) => pc.Entered?
      case LoadPeak(_) => pc.Waiting?
      case SwapPeak(_) => pc.Loaded?
      case TakeSlot(_) => pc.Queued? && s.slotsUsed < slots
      case ClientGone(_) => pc.Queued?
      case LeaveWaiting(_) => pc.GotSlot? || pc.GaveUp?
      case CountAborted(_) => pc.LeftQueue? || pc.CutReleased? || pc.FinishAborting?
      case StartRunning(_) => pc.Admitted?
      case PrefillDone(_) => pc.Prefill?
      case PrefillCut(_) => pc.Prefill?
      case StopRunning(_) => pc.Cut? || pc.Finishing?
      case ReleaseSlot(_) => pc.CutStopped? || pc.Stopped?
      case CallFinish(_, _) => pc.Active? || pc.Over?
  }

  /** The next place of the request that moves. */
  function NextPc(s: State, pc: Pc, l: Step): Pc {
    match l
    case Arrive(_) => Entered
    case CountWaiting(_) => Waiting(s.waiting + 1)
    case LoadPeak(_) => if pc.Waiting? then Loaded(pc.w, s.peak) else pc
    case SwapPeak(_) =>
      if pc.Loaded? then (if pc.w <= pc.p || s.peak == pc.p then Queued else Waiting(pc.w)) else pc
    case TakeSlot(_) => GotSlot
    case ClientGone(_) => GaveUp
    case LeaveWaiting(_) => if pc.GotSlot? then Admitted else LeftQueue
    case CountAborted(_) => if pc.FinishAborting? then Finishing(true) else Over(true)
    case StartRunning(_) => Prefill
    case PrefillDone(_) => Active
    case PrefillCut(_) => Cut
    case StopRunning(_) => if pc.Finishing? then Stopped(pc.aborted) else CutStopped
    case ReleaseSlot(_) => if pc.Stopped? then Over(pc.aborted) else CutReleased
    case CallFinish(_, gone) => if pc.Over? then pc else if gone then FinishAborting else Finishing(false)
  }

  function Next(s: State, slots: nat, l: Step): State
    requires Enabled(s, slots, l)
  {
    var pc := if l.Arrive? then Entered else s.reqs[l.r];
    var t := s.(reqs := s.reqs[l.r := NextPc(s, pc, l)]);
    match l
    case Arrive(_) => t.(requests := s.requests + 1)
    case CountWaiting(_) =>
      t.(waiting := s.waiting + 1, highWater := if s.waiting + 1 > s.highWater then s.waiting + 1 else s.highWater)
    case SwapPeak(_) => if pc.w > pc.p && s.peak == pc.p then t.(peak := pc.w) else t
    case TakeSlot(_) => t.(slotsUsed := s.slotsUsed + 1)
    case LeaveWaiting(_) => t.(waiting := s.waiting - 1)
    case CountAborted(_) => t.(aborted := s.aborted + 1)
    case StartRunning(_) => t.(running := s.running + 1)
    case StopRunning(_) => t.(running := s.running - 1)
    case ReleaseSlot(_) => t.(slotsUsed := s.slotsUsed - 1)
    case _ => t
  }

  ghost predicate IsRun(s: State, slots: nat, ls: seq<Step>, s': State)
    decreases ls
  {
    if ls == [] then s == s'
    else Enabled(s, slots, ls[0]) && IsRun(Next(s, slots, ls[0]), slots, ls[1..], s')
  }

  const Initial: State := State(map[], 0, 0, 0, 0, 0, 0, 0)

  // ---------------------------------------------------------------- what each counter counts

  predicate IsWaiting(pc: Pc) {
    pc.Waiting? || pc.Loaded? || pc.Queued? || pc.GotSlot? || pc.GaveUp?
  }

  predicate IsRunning(pc: Pc) {
    pc.Prefill? || pc.Cut? || pc.Active? || pc.FinishAborting? || pc.Finishing?
  }

  predicate HoldsSlot(pc: Pc) {
    pc.GotSlot? || pc.Admitted? || IsRunning(pc) || pc.CutStopped? || pc.Stopped?
  }

  predicate IsAborted(pc: Pc) {
    (pc.Finishing? || pc.Stopped? || pc.Over?) && pc.aborted
  }

  predicate IsCompleted(pc: Pc) {
    pc == Over(false)
  }

  /** Between two counters: already out of one, not yet in the next. */
  predicate InNone(pc: Pc) {
    pc.Entered? || pc.LeftQueue? || pc.Admitted? || pc.CutStopped? || pc.CutReleased? || pc == Stopped(false)
  }

  /** Counted as aborted while still counted as running. */
  predicate InBoth(pc: Pc) {
    pc == Finishing(true)
  }

  ghost function Members(m: map<nat, Pc>, p: Pc -> bool): set<nat> {
    set r | r in m && p(m[r])
  }

  ghost function Count(m: map<nat, Pc>, p: Pc -> bool): nat {
    |Members(m, p)|
  }

  lemma CountMove(m: map<nat, Pc>, r: nat, pc: Pc, p: Pc -> bool)
    ensures Count(m[r := pc], p) ==
            Count(m, p) - (if r in m && p(m[r]) then 1 else 0) + (if p(pc) then 1 else 0)
  {
    var rest := Members(m, p) - {r};
    assert Members(m[r := pc], p) == if p(pc) then rest + {r} else rest;
    assert Members(m, p) == if r in m && p(m[r]) then rest + {r} else rest;
  }

  // ---------------------------------------------------------------- the invariant

  ghost predicate CountersExact(s: State) {
    && s.requests == |s.reqs|
    && s.waiting == Count(s.reqs, IsWaiting)
    && s.running == Count(s.reqs, IsRunning)
    && s.aborted == Count(s.reqs, IsAborted)
    && s.slotsUsed == Count(s.reqs, HoldsSlot)
  }

  /** The peak lags behind the true maximum only while a request still carries it. */
  ghost predicate PeakInv(s: State) {
    && s.peak <= s.highWater && s.waiting <= s.highWater
    && (forall r <- s.reqs :: s.reqs[r].Waiting? || s.reqs[r].Loaded? ==> s.reqs[r].w <= s.highWater)
    && (forall r <- s.reqs :: s.reqs[r].Loaded? ==> s.reqs[r].p <= s.peak)
    && (s.peak < s.highWater ==>
          exists r :: r in s.reqs && (s.reqs[r].Waiting? || s.reqs[r].Loaded?) && s.reqs[r].w == s.highWater)
  }

  lemma StepKeepsWaiting(s: State, slots: nat, l: Step)
    requires s.waiting == Count(s.reqs, IsWaiting) && Enabled(s, slots, l)
    ensures var t := Next(s, slots, l); t.waiting == Count(t.reqs, IsWaiting)
  {
    CountMove(s.reqs, l.r, Next(s, slots, l).reqs[l.r], IsWaiting);
  }

  lemma StepKeepsRunning(s: State, slots: nat, l: Step)
    requires s.running == Count(s.reqs, IsRunning) && Enabled(s, slots, l)
    ensures var t := Next(s, slots, l); t.running == Count(t.reqs, IsRunning)
  {
    CountMove(s.reqs, l.r, Next(s, slots, l).reqs[l.r], IsRunning);
  }

  lemma StepKeepsAborted(s: State, slots: nat, l: Step)
    requires s.aborted == Count(s.reqs, IsAborted) && Enabled(s, slots, l)
    ensures var t := Next(s, slots, l); t.aborted == Count(t.reqs, IsAborted)
  {
    CountMove(s.reqs, l.r, Next(s, slots, l).reqs[l.r], IsAborted);
  }

  lemma StepKeepsSlots(s: State, slots: nat, l: Step)
    requires s.slotsUsed == Count(s.reqs, HoldsSlot) && Enabled(s, slots, l)
    ensures var t := Next(s, slots, l); t.slotsUsed == Count(t.reqs, HoldsSlot)
  {
    CountMove(s.reqs, l.r, Next(s, slots, l).reqs[l.r], HoldsSlot);
  }

  lemma StepKeepsCounters(s: State, slots: nat, l: Step)
    requires CountersExact(s) && Enabled(s, slots, l)
    ensures CountersExact(Next(s, slots, l))
  {
    StepKeepsWaiting(s, slots, l);
    StepKeepsRunning(s, slots, l);
    StepKeepsAborted(s, slots, l);
    StepKeepsSlots(s, slots, l);
    var t := Next(s, slots, l);
    assert t.reqs.Keys == if l.Arrive? then s.reqs.Keys + {l.r} else s.reqs.Keys;
  }

  lemma StepKeepsPeak(s: State, slots: nat, l: Step)
    requires PeakInv(s) && Enabled(s, slots, l)
    ensures PeakInv(Next(s, slots, l))
  {
    var t := Next(s, slots, l);
    if t.peak < t.highWater {
      if s.peak < s.highWater {
        var r :| r in s.reqs && (s.reqs[r].Waiting? || s.reqs[r].Loaded?) && s.reqs[r].w == s.highWater;
        assert r in t.reqs;
      }
      assert l.r in t.reqs;
    }
  }

  lemma {:induction false} RunKeeps(s: State, slots: nat, ls: seq<Step>, s': State)
    requires CountersExact(s) && PeakInv(s) && 0 <= s.slotsUsed <= slots && IsRun(s, slots, ls, s')
    ensures CountersExact(s') && PeakInv(s') && 0 <= s'.slotsUsed <= slots
    decreases ls
  {
    if ls != [] {
      StepKeepsCounters(s, slots, ls[0]);
      StepKeepsPeak(s, slots, ls[0]);
      RunKeeps(Next(s, slots, ls[0]), slots, ls[1..], s');
    }
  }

  // ---------------------------------------------------------------- the theorems

  /** Every request is in exactly one of the counters, except while it is between two of them. */
  lemma PartitionCount(m: map<nat, Pc>)
    ensures |m| + Count(m, InBoth) ==
            Count(m, IsWaiting) + Count(m, IsRunning) + Count(m, IsAborted) + Count(m, IsCompleted) + Count(m, InNone)
  {
    var w, r, a := Members(m, IsWaiting), Members(m, IsRunning), Members(m, IsAborted);
    var c, n, b := Members(m, IsCompleted), Members(m, InNone), Members(m, InBoth);
    forall x: nat
      ensures x in m.Keys <==> x in w || x in r || x in a || x in c || x in n
      ensures x in w ==> x !in r && x !in a && x !in c && x !in n
      ensures x in r ==> x !in c && x !in n
      ensures x in a ==> x !in c && x !in n
      ensures x in c ==> x !in n
      ensures x in b <==> x in r && x in a
    {
      if x in m {
        Classify(m[x]);
      }
    }
    CountFive(m.Keys, w, r, a, c, n, b);
  }

  lemma Classify(pc: Pc)
    ensures IsWaiting(pc) || IsRunning(pc) || IsAborted(pc) || IsCompleted(pc) || InNone(pc)
    ensures IsWaiting(pc) ==> !IsRunning(pc) && !IsAborted(pc) && !IsCompleted(pc) && !InNone(pc)
    ensures IsRunning(pc) ==> !IsCompleted(pc) && !InNone(pc)
    ensures IsAborted(pc) ==> !IsCompleted(pc) && !InNone(pc)
    ensures IsCompleted(pc) ==> !InNone(pc)
    ensures InBoth(pc) <==> IsRunning(pc) && IsAborted(pc)
  {
  }

  lemma CountFive(all: set<nat>, w: set<nat>, r: set<nat>, a: set<nat>, c: set<nat>, n: set<nat>, b: set<nat>)
    requires forall x: nat :: x in all <==> x in w || x in r || x in a || x in c || x in n
    requires forall x <- w :: x !in r && x !in a && x !in c && x !in n
    requires forall x <- r :: x !in c && x !in n
    requires forall x <- a :: x !in c && x !in n
    requires forall x <- c :: x !in n
    requires forall x: nat :: x in b <==> x in r && x in a
    ensures |all| + |b| == |w| + |r| + |a| + |c| + |n|
  {
    var ra := r + a;
    assert b == r * a;
    assert |ra| + |b| == |r| + |a|;
    var s1 := w + ra;
    assert w !! ra;
    var s2 := s1 + c;
    assert s1 !! c;
    assert s2 !! n;
    assert all == s2 + n;
  }

  lemma CountSubset(m: map<nat, Pc>, p: Pc -> bool, q: Pc -> bool)
    requires forall pc :: p(pc) ==> q(pc)
    ensures Count(m, p) <= Count(m, q)
  {
    SubsetCount(Members(m, p), Members(m, q));
  }

  lemma {:induction false} SubsetCount(a: set<nat>, b: set<nat>)
    requires a <= b
    ensures |a| <= |b|
  {
    if a != {} {
      var x :| x in a;
      SubsetCount(a - {x}, b - {x});
    }
  }

  /**
   Slot conservation, in every interleaving: the counters account for every request
   up to the ones between two counters; no more requests run than there are slots;
   a slot is held exactly by the requests that took it and did not give it back.
   */
  lemma SlotsAreConserved(slots: nat, ls: seq<Step>, s: State)
    requires IsRun(Initial, slots, ls, s)
    ensures s.requests + Count(s.reqs, InBoth) ==
            s.waiting + s.running + s.aborted + Count(s.reqs, IsCompleted) + Count(s.reqs, InNone)
    ensures (forall r <- s.reqs :: !InNone(s.reqs[r]) && !InBoth(s.reqs[r])) ==>
              s.requests == s.waiting + s.running + s.aborted + Count(s.reqs, IsCompleted)
    ensures 0 <= s.running <= s.slotsUsed <= slots
    ensures s.slotsUsed == Count(s.reqs, HoldsSlot)
  {
    InitialKeeps();
    RunKeeps(Initial, slots, ls, s);
    PartitionCount(s.reqs);
    CountSubset(s.reqs, IsRunning, HoldsSlot);
    if forall r <- s.reqs :: !InNone(s.reqs[r]) && !InBoth(s.reqs[r]) {
      assert Members(s.reqs, InNone) == {} && Members(s.reqs, InBoth) == {};
    }
  }

  lemma InitialKeeps()
    ensures CountersExact(Initial) && PeakInv(Initial)
  {
  }

  /**
   The peak counter never overstates the largest number of waiting requests, and is
   exactly that once no request is left inside its compare-and-swap loop.
   */
  lemma PeakIsTrueMaximum(slots: nat, ls: seq<Step>, s: State)
    requires IsRun(Initial, slots, ls, s)
    ensures s.peak <= s.highWater
    ensures (forall r <- s.reqs :: !s.reqs[r].Waiting? && !s.reqs[r].Loaded?) ==> s.peak == s.highWater
  {
    InitialKeeps();
    RunKeeps(Initial, slots, ls, s);
  }

  /** `highWater` is an upper bound of the waiting counter at every point of the run, and is reached. */
  lemma {:induction false} HighWaterIsMaximum(s: State, slots: nat, ls: seq<Step>, s': State)
    requires s.waiting <= s.highWater && IsRun(s, slots, ls, s')
    ensures s'.waiting <= s'.highWater && s.highWater <= s'.highWater
    ensures s'.highWater == s.highWater ||
            exists i, t :: 0 <= i <= |ls| && IsRun(s, slots, ls[..i], t) && t.waiting == s'.highWater
    decreases ls
  {
    if ls != [] {
      var t := Next(s, slots, ls[0]);
      HighWaterIsMaximum(t, slots, ls[1..], s');
      if s'.highWater != s.highWater {
        if s'.highWater == t.highWater {
          assert t.waiting == s'.highWater;
          assert ls[..1] == [ls[0]] && [ls[0]][1..] == [];
          assert IsRun(t, slots, [], t);
          assert IsRun(s, slots, ls[..1], t);
        } else {
          var i, u :| 0 <= i <= |ls[1..]| && IsRun(t, slots, ls[1..][..i], u) && u.waiting == s'.highWater;
          assert ls[..i + 1][1..] == ls[1..][..i];
          assert IsRun(s, slots, ls[..i + 1], u);
        }
      }
    }
  }

  // ---------------------------------------------------------------- finish

  /** A call of finish on a run that is already over. */
  predicate IsRepeat(s: State, l: Step) {
    l.CallFinish? && l.r in s.reqs && s.reqs[l.r].Over?
  }

  /** A run without the calls of finish that came too late. */
  ghost function WithoutRepeats(s: State, slots: nat, ls: seq<Step>): seq<Step>
    decreases ls
  {
    if ls == [] || !Enabled(s, slots, ls[0]) then []
    else
      var rest := WithoutRepeats(Next(s, slots, ls[0]), slots, ls[1..]);
      if IsRepeat(s, ls[0]) then rest else [ls[0]] + rest
  }

  function FinishCalls(ls: seq<Step>, r: nat): nat
    decreases ls
  {
    if ls == [] then 0 else One(ls[0].CallFinish? && ls[0].r == r) + FinishCalls(ls[1..], r)
  }

  /** The request may still be finished for the first time. */
  predicate Unfinished(s: State, r: nat) {
    r in s.reqs ==>
      && !s.reqs[r].FinishAborting? && !s.reqs[r].Finishing? && !s.reqs[r].Stopped? && !s.reqs[r].Over?
  }

  lemma StepFinishes(s: State, slots: nat, l: Step, r: nat)
    requires Enabled(s, slots, l)
    ensures
      var t := Next(s, slots, l);
      if IsRepeat(s, l) then t == s
      else One(l.CallFinish? && l.r == r) + One(Unfinished(t, r)) <= One(Unfinished(s, r))
  {
    if IsRepeat(s, l) {
      assert s.reqs[l.r := s.reqs[l.r]] == s.reqs;
    }
  }

  /**
   However often finish is called, every run does what the run does in which each
   request is finished at most once: the later calls can be left out one and all.
   */
  lemma {:induction false} FinishCountsOnce(s: State, slots: nat, ls: seq<Step>, s': State, r: nat)
    requires IsRun(s, slots, ls, s')
    ensures
      var once := WithoutRepeats(s, slots, ls);
      IsRun(s, slots, once, s') && FinishCalls(once, r) <= One(Unfinished(s, r))
    decreases ls
  {
    if ls != [] {
      var t := Next(s, slots, ls[0]);
      StepFinishes(s, slots, ls[0], r);
      FinishCountsOnce(t, slots, ls[1..], s', r);
      var rest := WithoutRepeats(t, slots, ls[1..]);
      assert ([ls[0]] + rest)[1..] == rest;
    }
  }

  /** How often a step occurs in a run. */
  function Occurs(ls: seq<Step>, l: Step): nat
    decreases ls
  {
    if ls == [] then 0 else (if ls[0] == l then 1 else 0) + Occurs(ls[1..], l)
  }

  /** A request that may still take a slot: it has not left the queue. */
  predicate MayTake(s: State, r: nat) {
    r !in s.reqs || s.reqs[r].Entered? || s.reqs[r].Waiting? || s.reqs[r].Loaded? || s.reqs[r].Queued?
  }

  function One(b: bool): nat {
    if b then 1 else 0
  }

  /** The slots request `r` holds: one or none. */
  function Held(s: State, r: nat): nat {
    One(r in s.reqs && HoldsSlot(s.reqs[r]))
  }

  lemma StepSlot(s: State, slots: nat, l: Step, r: nat)
    requires Enabled(s, slots, l)
    ensures
      var t := Next(s, slots, l);
      && One(l == TakeSlot(r)) + Held(s, r) == One(l == ReleaseSlot(r)) + Held(t, r)
      && One(l == TakeSlot(r)) + One(MayTake(t, r)) <= One(MayTake(s, r))
  {
  }

  /**
   Over any run of one request, the slots it takes and those it gives back differ by
   exactly the one it still holds: every slot taken is freed once, and never twice.
   */
  lemma {:induction false} SlotTakenIsFreedOnce(s: State, slots: nat, ls: seq<Step>, s': State, r: nat)
    requires IsRun(s, slots, ls, s')
    ensures Occurs(ls, TakeSlot(r)) + Held(s, r) == Occurs(ls, ReleaseSlot(r)) + Held(s', r)
    ensures Occurs(ls, TakeSlot(r)) <= One(MayTake(s, r))
    decreases ls
  {
    if ls != [] {
      StepSlot(s, slots, ls[0], r);
      SlotTakenIsFreedOnce(Next(s, slots, ls[0]), slots, ls[1..], s', r);
    }
  }

  // ---------------------------------------------------------------- which requests count as aborted

  /** The client of `r` turns out to be gone: in the queue, during prefill, or when the run is finished. */
  predicate LeavesBy(s: State, l: Step, r: nat) {
    l == ClientGone(r) || l == PrefillCut(r) || (l == CallFinish(r, true) && r in s.reqs && s.reqs[r].Active?)
  }

  ghost predicate ClientLeft(s: State, slots: nat, ls: seq<Step>, r: nat)
    decreases ls
  {
    ls != [] && Enabled(s, slots, ls[0]) && (LeavesBy(s, ls[0], r) || ClientLeft(Next(s, slots, ls[0]), slots, ls[1..], r))
  }

  /** The request ends, or has ended, as aborted. */
  predicate Aborting(pc: Pc) {
    || pc.GaveUp? || pc.LeftQueue? || pc.Cut? || pc.CutStopped? || pc.CutReleased? || pc.FinishAborting?
    || ((pc.Finishing? || pc.Stopped? || pc.Over?) && pc.aborted)
  }

  predicate IsAborting(s: State, r: nat) {
    r in s.reqs && Aborting(s.reqs[r])
  }

  lemma StepAborts(s: State, slots: nat, l: Step, r: nat)
    requires Enabled(s, slots, l)
    ensures IsAborting(Next(s, slots, l), r) <==> IsAborting(s, r) || LeavesBy(s, l, r)
  {
  }

  lemma {:induction false} RunAborts(s: State, slots: nat, ls: seq<Step>, s': State, r: nat)
    requires IsRun(s, slots, ls, s')
    ensures IsAborting(s', r) <==> IsAborting(s, r) || ClientLeft(s, slots, ls, r)
    decreases ls
  {
    if ls != [] {
      StepAborts(s, slots, ls[0], r);
      RunAborts(Next(s, slots, ls[0]), slots, ls[1..], s', r);
    }
  }

  /**
   A request that is over counts as aborted if its client was gone at one of the three
   points where that is looked at, and as completed if not.
   */
  lemma {:induction false} AbortedIffClientLeft(slots: nat, ls: seq<Step>, s: State, r: nat)
    requires IsRun(Initial, slots, ls, s) && r in s.reqs && s.reqs[r].Over?
    ensures s.reqs[r].aborted <==> ClientLeft(Initial, slots, ls, r)
  {
    RunAborts(Initial, slots, ls, s, r);
  }

  lemma AllOverCounts(s: State, left: set<nat>)
    requires CountersExact(s) && left <= s.reqs.Keys && forall r <- s.reqs :: s.reqs[r] == Over(r in left)
    ensures s.aborted == |left| && s.waiting == s.running == s.slotsUsed == 0
  {
    assert Members(s.reqs, IsAborted) == left;
    assert Members(s.reqs, IsWaiting) == {} && Members(s.reqs, IsRunning) == {} && Members(s.reqs, HoldsSlot) == {};
  }

  /** Once all requests are over, the aborted counter is the number of clients that left, and nothing else is counted. */
  lemma {:induction false} AbortedAreThoseWhoLeft(slots: nat, ls: seq<Step>, s: State, left: set<nat>)
    requires IsRun(Initial, slots, ls, s) && forall r <- s.reqs :: s.reqs[r].Over?
    requires forall r :: r in left <==> r in s.reqs && ClientLeft(Initial, slots, ls, r)
    ensures s.aborted == |left| && s.waiting == s.running == s.slotsUsed == 0
  {
    InitialKeeps();
    RunKeeps(Initial, slots, ls, s);
    forall r <- s.reqs ensures s.reqs[r] == Over(r in left) {
      AbortedIffClientLeft(slots, ls, s, r);
    }
    AllOverCounts(s, left);
  }
}
