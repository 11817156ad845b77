/**
 The cloud spend caps.  A request checks the recorded spend of the day and of the
 month, is served, and only then records its own cost, so several requests can be
 between check and record at once.
 */
module CloudBudget {
  import opened Options
  import opened RealSums

  type Hour = int
  type Id = nat

  // ---------------------------------------------------------------- periods

  /** The rows from `start` on. */
  ghost function Since(m: map<Hour, real>, start: Hour): map<Hour, real> {
    map h | h in m && h >= start :: m[h]
  }

  /** The spend of the period that began at `start`. */
  ghost function Spent(m: map<Hour, real>, start: Hour): real {
    Sum(Since(m, start))
  }

  /** A row with `cost` added, as the upsert does it. */
  function Upserted(m: map<Hour, real>, h: Hour, cost: real): map<Hour, real> {
    m[h := (if h in m then m[h] else 0.0) + cost]
  }

  lemma SpentAfterUpsert(m: map<Hour, real>, h: Hour, cost: real, start: Hour)
    ensures Spent(Upserted(m, h, cost), start) == Spent(m, start) + if h >= start then cost else 0.0
  {
    var v := (if h in m then m[h] else 0.0) + cost;
    if h >= start {
      assert Since(m[h := v], start) == Since(m, start)[h := v];
      SumSet(Since(m, start), h, v);
    } else {
      assert Since(m[h := v], start) == Since(m, start);
    }
  }

  lemma LaterPeriodSpentLess(m: map<Hour, real>, start: Hour, later: Hour)
    requires start <= later && forall h <- m :: m[h] >= 0.0
    ensures Spent(m, later) <= Spent(m, start)
  {
    SumOfPart(Since(m, later), Since(m, start));
  }

  // ---------------------------------------------------------------- the protocol

  /** A cap of 0 is disabled. */
  datatype Caps = Caps(daily: real, monthly: real)

  datatype State = State(
    buckets: map<Hour, real>,
    now: Hour,
    dayStart: Hour,
    monthStart: Hour,
    flying: map<Id, real>,               // requests between check and record, with the cost they will have
    log: seq<(Hour, real)>)              // history: every cloud request recorded

  datatype Step =
    | Check(id: Id, cost: real, readOk: bool)
    | Record(id: Id)
    | Local
    | Tick(now: Hour, dayStart: Hour, monthStart: Hour)

  /** Spend that cannot be read counts as none. */
  ghost predicate Exceeded(caps: Caps, s: State, readOk: bool) {
    var daily := if readOk then Spent(s.buckets, s.dayStart) else 0.0;
    var monthly := if readOk then Spent(s.buckets, s.monthStart) else 0.0;
    (caps.daily > 0.0 && daily >= caps.daily) || (caps.monthly > 0.0 && monthly >= caps.monthly)
  }

  ghost predicate Enabled(s: State, l: Step) {
    match l
    case Check(id, cost, _) => id !in s.flying && cost >= 0.0
    case Record(id) => id in s.flying
    case Local => true
    case Tick(now, dayStart, monthStart) =>
      s.now <= now && s.dayStart <= dayStart <= now && s.monthStart <= monthStart <= now
  }

  ghost function Next(caps: Caps, s: State, l: Step): State
    requires Enabled(s, l)
  {
    match l
    case Check(id, cost, readOk) => if Exceeded(caps, s, readOk) then s else s.(flying := s.flying[id := cost])
    case Record(id) =>
      s.(buckets := Upserted(s.buckets, s.now, s.flying[id]), flying := s.flying - {id}, log := s.log + [(s.now, s.flying[id])])
    case Local => s.(buckets := Upserted(s.buckets, s.now, 0.0))
    case Tick(now, dayStart, monthStart) => s.(now := now, dayStart := dayStart, monthStart := monthStart)
  }

  /** A run with at most `k` requests in flight, none costing more than `c`. */
  ghost predicate IsRun(caps: Caps, s: State, ls: seq<Step>, s': State, k: nat, c: real)
    decreases ls
  {
    && |s.flying| <= k
    && if ls == [] then s == s'
       else
         && Enabled(s, ls[0])
         && (ls[0].Check? ==> ls[0].cost <= c)
         && IsRun(caps, Next(caps, s, ls[0]), ls[1..], s', k, c)
  }

  predicate IsUnread(l: Step) {
    l.Check? && !l.readOk
  }

  /** How many checks of a run could not read the spend. */
  function Unread(ls: seq<Step>): nat
    decreases ls
  {
    if ls == [] then 0 else (if IsUnread(ls[0]) then 1 else 0) + Unread(ls[1..])
  }

  predicate Init(s: State) {
    s.buckets == map[] && s.flying == map[] && s.log == [] && s.dayStart <= s.now && s.monthStart <= s.now
  }

  // ---------------------------------------------------------------- the bound

  ghost predicate Inv(s: State, c: real) {
    && s.dayStart <= s.now && s.monthStart <= s.now
    && (forall h <- s.buckets :: s.buckets[h] >= 0.0)
    && (forall i <- s.flying :: 0.0 <= s.flying[i] <= c)
  }

  /** Recorded and in-flight spend of a period stay below the cap plus what may be in flight. */
  ghost predicate Bounded(cap: real, start: Hour, s: State, k: nat, c: real) {
    cap > 0.0 ==> Spent(s.buckets, start) + Sum(s.flying) < cap + Times(k, c)
  }

  lemma CheckKeepsBound(caps: Caps, s: State, l: Step, cap: real, start: Hour, k: nat, room: nat, c: real)
    requires c >= 0.0 && l.Check? && l.readOk && l.cost <= c && Enabled(s, l) && Inv(s, c) && k <= room
    requires (cap, start) == (caps.daily, s.dayStart) || (cap, start) == (caps.monthly, s.monthStart)
    requires Bounded(cap, start, s, room, c) && |Next(caps, s, l).flying| <= k
    ensures Bounded(cap, start, Next(caps, s, l), room, c)
  {
    var t := Next(caps, s, l);
    SumAtMost(t.flying, c);
    TimesMono(|t.flying|, room, c);
  }

  /** A check that reads nothing lets at most one more cost through. */
  lemma UnreadCheckAddsOne(caps: Caps, s: State, l: Step, cap: real, start: Hour, k: nat, c: real)
    requires c >= 0.0 && IsUnread(l) && l.cost <= c && Enabled(s, l) && Bounded(cap, start, s, k, c)
    ensures Bounded(cap, start, Next(caps, s, l), k + 1, c)
  {
    SumSet(s.flying, l.id, l.cost);
  }

  lemma RecordKeepsBound(caps: Caps, s: State, l: Step, cap: real, start: Hour, k: nat, c: real)
    requires l.Record? && Enabled(s, l) && start <= s.now && Bounded(cap, start, s, k, c)
    ensures Bounded(cap, start, Next(caps, s, l), k, c)
  {
    SpentAfterUpsert(s.buckets, s.now, s.flying[l.id], start);
    SumWithout(s.flying, l.id);
  }

  lemma TickKeepsBound(caps: Caps, s: State, l: Step, cap: real, start: Hour, later: Hour, k: nat, c: real)
    requires l.Tick? && Enabled(s, l) && start <= later && Inv(s, c) && Bounded(cap, start, s, k, c)
    ensures Bounded(cap, later, Next(caps, s, l), k, c)
  {
    LaterPeriodSpentLess(s.buckets, start, later);
  }

  lemma StepKeepsAmounts(caps: Caps, s: State, l: Step, c: real)
    requires Enabled(s, l) && Inv(s, c) && (l.Check? ==> l.cost <= c)
    ensures Inv(Next(caps, s, l), c)
  {
  }

  /** Both periods, with room for `room` costs beyond their caps. */
  ghost predicate BothBounded(caps: Caps, s: State, room: nat, c: real) {
    Bounded(caps.daily, s.dayStart, s, room, c) && Bounded(caps.monthly, s.monthStart, s, room, c)
  }

  lemma CheckKeepsBoth(caps: Caps, s: State, l: Step, k: nat, room: nat, c: real)
    requires c >= 0.0 && l.Check? && Enabled(s, l) && Inv(s, c) && l.cost <= c && k <= room
    requires BothBounded(caps, s, room, c) && |Next(caps, s, l).flying| <= k
    ensures BothBounded(caps, Next(caps, s, l), if IsUnread(l) then room + 1 else room, c)
  {
    if l.readOk {
      CheckKeepsBound(caps, s, l, caps.daily, s.dayStart, k, room, c);
      CheckKeepsBound(caps, s, l, caps.monthly, s.monthStart, k, room, c);
    } else {
      UnreadCheckAddsOne(caps, s, l, caps.daily, s.dayStart, room, c);
      UnreadCheckAddsOne(caps, s, l, caps.monthly, s.monthStart, room, c);
    }
  }

  lemma OtherStepKeepsBoth(caps: Caps, s: State, l: Step, room: nat, c: real)
    requires !l.Check? && Enabled(s, l) && Inv(s, c) && BothBounded(caps, s, room, c)
    ensures BothBounded(caps, Next(caps, s, l), room, c)
  {
    match l
    case Record(_) =>
      RecordKeepsBound(caps, s, l, caps.daily, s.dayStart, room, c);
      RecordKeepsBound(caps, s, l, caps.monthly, s.monthStart, room, c);
    case Local =>
      SpentAfterUpsert(s.buckets, s.now, 0.0, s.dayStart);
      SpentAfterUpsert(s.buckets, s.now, 0.0, s.monthStart);
    case Tick(_, dayStart, monthStart) =>
      TickKeepsBound(caps, s, l, caps.daily, s.dayStart, dayStart, room, c);
      TickKeepsBound(caps, s, l, caps.monthly, s.monthStart, monthStart, room, c);
  }

  /** `room` counts the requests that may be in flight and those let through unread so far. */
  lemma StepKeepsBoth(caps: Caps, s: State, l: Step, k: nat, room: nat, c: real)
    requires c >= 0.0 && Enabled(s, l) && Inv(s, c) && (l.Check? ==> l.cost <= c) && k <= room
    requires BothBounded(caps, s, room, c) && |Next(caps, s, l).flying| <= k
    ensures Inv(Next(caps, s, l), c) && BothBounded(caps, Next(caps, s, l), if IsUnread(l) then room + 1 else room, c)
  {
    StepKeepsAmounts(caps, s, l, c);
    if l.Check? {
      CheckKeepsBoth(caps, s, l, k, room, c);
    } else {
      OtherStepKeepsBoth(caps, s, l, room, c);
    }
  }

  lemma {:induction false} RunKeepsBoth(caps: Caps, s: State, ls: seq<Step>, s': State, k: nat, room: nat, c: real)
    requires c >= 0.0 && IsRun(caps, s, ls, s', k, c) && Inv(s, c) && k <= room && BothBounded(caps, s, room, c)
    ensures BothBounded(caps, s', room + Unread(ls), c)
    decreases ls
  {
    if ls != [] {
      var t := Next(caps, s, ls[0]);
      assert IsRun(caps, t, ls[1..], s', k, c);
      StepKeepsBoth(caps, s, ls[0], k, room, c);
      RunKeepsBoth(caps, t, ls[1..], s', k, if IsUnread(ls[0]) then room + 1 else room, c);
    }
  }

  lemma InitBounded(caps: Caps, s: State, k: nat, c: real)
    requires Init(s) && c >= 0.0
    ensures Inv(s, c) && BothBounded(caps, s, k, c)
  {
    assert Since(s.buckets, s.dayStart) == map[] && Since(s.buckets, s.monthStart) == map[];
    TimesMono(0, k, c);
  }

  /** Recorded and in-flight spend of the day and of the month exceed no cap by `room` costs of `c`. */
  ghost predicate OvershootsLess(caps: Caps, s: State, room: nat, c: real) {
    && (caps.daily > 0.0 ==> Spent(s.buckets, s.dayStart) + Sum(s.flying) < caps.daily + room as real * c)
    && (caps.monthly > 0.0 ==> Spent(s.buckets, s.monthStart) + Sum(s.flying) < caps.monthly + room as real * c)
  }

  lemma {:induction false} BoundedInCosts(caps: Caps, s: State, room: nat, c: real)
    requires BothBounded(caps, s, room, c)
    ensures OvershootsLess(caps, s, room, c)
  {
    TimesIsProduct(room, c);
  }

  /**
   Budget overshoot bound: however checks, records, local traffic and the change of day
   or month interleave, and whichever checks could not read the store, the recorded and
   in-flight spend of the day and of the month stay below their cap plus one cost for
   each request in flight at a time and each check that read nothing.
   */
  lemma {:induction false} OvershootIsBounded(caps: Caps, s: State, ls: seq<Step>, s': State, k: nat, c: real)
    requires Init(s) && c >= 0.0 && IsRun(caps, s, ls, s', k, c)
    ensures OvershootsLess(caps, s', k + Unread(ls), c)
  {
    InitBounded(caps, s, k, c);
    RunKeepsBoth(caps, s, ls, s', k, k, c);
    BoundedInCosts(caps, s', k + Unread(ls), c);
  }

  /**
   The caps turn away nothing else: a check that can read the spend lets its request
   through exactly when the spend of the day and that of the month are below the caps that are set.
   */
  lemma CheckPassesIff(caps: Caps, s: State, id: Id, cost: real)
    requires Enabled(s, Check(id, cost, true))
    ensures
      var t := Next(caps, s, Check(id, cost, true));
      && (id in t.flying <==>
            && (caps.daily > 0.0 ==> Spent(s.buckets, s.dayStart) < caps.daily)
            && (caps.monthly > 0.0 ==> Spent(s.buckets, s.monthStart) < caps.monthly))
      && (id in t.flying ==> t.flying[id] == cost)
      && t.buckets == s.buckets && t.log == s.log
  {
  }

  // ---------------------------------------------------------------- buckets against the log

  /** The cost of the recorded cloud requests from `start` on, request by request. */
  function LogSum(log: seq<(Hour, real)>, start: Hour): real {
    if log == [] then 0.0
    else LogSum(log[..|log| - 1], start) + if log[|log| - 1].0 >= start then log[|log| - 1].1 else 0.0
  }

  /** The bucket sum of any period is the sum over its cloud requests; local traffic never counts. */
  lemma {:induction false} BucketsMatchLog(caps: Caps, s: State, ls: seq<Step>, s': State, k: nat, c: real, start: Hour)
    requires IsRun(caps, s, ls, s', k, c) && Spent(s.buckets, start) == LogSum(s.log, start)
    ensures Spent(s'.buckets, start) == LogSum(s'.log, start)
    decreases ls
  {
    if ls != [] {
      var l, t := ls[0], Next(caps, s, ls[0]);
      if l.Record? {
        SpentAfterUpsert(s.buckets, s.now, s.flying[l.id], start);
        assert t.log[..|t.log| - 1] == s.log;
      } else if l.Local? {
        SpentAfterUpsert(s.buckets, s.now, 0.0, start);
      }
      BucketsMatchLog(caps, t, ls[1..], s', k, c, start);
    }
  }

  /** The state after `n` requests of cost `c` that could not read the spend, one after the other. */
  ghost function AfterUnread(caps: Caps, s: State, n: nat, c: real): State
    requires s.flying == map[] && c >= 0.0
    ensures AfterUnread(caps, s, n, c).flying == map[] && AfterUnread(caps, s, n, c).now == s.now
    decreases n
  {
    if n == 0 then s
    else
      var t := AfterUnread(caps, s, n - 1, c);
      var v := Next(caps, Next(caps, t, Check(0, c, false)), Record(0));
      assert v.flying == map[];
      v
  }

  /** Each check that reads nothing does cost that much: whatever the caps, `n` of them add `n` costs. */
  lemma {:induction false} UnreadChecksAllPass(caps: Caps, s: State, n: nat, c: real)
    requires s.flying == map[] && c >= 0.0 && s.dayStart <= s.now && s.monthStart <= s.now
    ensures
      var t := AfterUnread(caps, s, n, c);
      && Spent(t.buckets, s.dayStart) == Spent(s.buckets, s.dayStart) + Times(n, c)
      && Spent(t.buckets, s.monthStart) == Spent(s.buckets, s.monthStart) + Times(n, c)
    decreases n
  {
    if n > 0 {
      UnreadChecksAllPass(caps, s, n - 1, c);
      var t := AfterUnread(caps, s, n - 1, c);
      SpentAfterUpsert(t.buckets, t.now, c, s.dayStart);
      SpentAfterUpsert(t.buckets, t.now, c, s.monthStart);
    }
  }

  // ---------------------------------------------------------------- caps of one key

  /** The caps of one key and what the store answers for its spend; `None` is a failed read. */
  datatype KeyBudget = KeyBudget(caps: Caps, daily: Option<real>, monthly: Option<real>)

  predicate KeyExceeded(b: KeyBudget) {
    || (b.caps.daily > 0.0 && b.daily.Some? && b.daily.value >= b.caps.daily)
    || (b.caps.monthly > 0.0 && b.monthly.Some? && b.monthly.value >= b.caps.monthly)
  }

  // ---------------------------------------------------------------- the code

  class Ledger {
    var buckets: map<Hour, real>

    constructor ()
      ensures buckets == map[]
    {
      buckets := map[];
    }

    /** Adds one request's cost to its hour. */
    method UpsertHourlyBucket(hour: Hour, cost: real)
      modifies this
      ensures buckets == Upserted(old(buckets), hour, cost)
      ensures forall start :: Spent(buckets, start) == Spent(old(buckets), start) + if hour >= start then cost else 0.0
    {
      ghost var before := buckets;
      var sofar := 0.0;
      if hour in buckets {
        sofar := buckets[hour];
      }
      buckets := buckets[hour := sofar + cost];
      forall start ensures Spent(buckets, start) == Spent(before, start) + if hour >= start then cost else 0.0 {
        SpentAfterUpsert(before, hour, cost, start);
      }
    }

    /** Sums the rows since a time. */
    method CloudSpendSince(since: Hour, readOk: bool) returns (total: real)
      ensures total == if readOk then Spent(buckets, since) else 0.0
    {
      total := 0.0;
      if !readOk {
        return;
      }
      var rows := set h | h in buckets && h >= since;
      ghost var done: map<Hour, real> := map[];
      while rows != {}
        invariant rows + done.Keys == Since(buckets, since).Keys && rows !! done.Keys
        invariant forall h <- done :: h in buckets && done[h] == buckets[h]
        invariant total == Sum(done)
        decreases rows
      {
        var h :| h in rows;
        SumSet(done, h, buckets[h]);
        total := total + buckets[h];
        rows := rows - {h};
        done := done[h := buckets[h]];
      }
      assert done == Since(buckets, since);
    }

    method GlobalBudgetExceeded(caps: Caps, dayStart: Hour, monthStart: Hour, readOk: bool) returns (exceeded: bool)
      ensures forall now, flying, log ::
                exceeded == Exceeded(caps, State(buckets, now, dayStart, monthStart, flying, log), readOk)
      ensures readOk ==>
                (exceeded <==> || (caps.daily > 0.0 && Spent(buckets, dayStart) >= caps.daily)
                               || (caps.monthly > 0.0 && Spent(buckets, monthStart) >= caps.monthly))
      ensures !readOk ==> !exceeded
    {
      if caps.daily > 0.0 {
        var spent := CloudSpendSince(dayStart, readOk);
        if spent >= caps.daily {
          return true;
        }
      }
      if caps.monthly > 0.0 {
        var spent := CloudSpendSince(monthStart, readOk);
        if spent >= caps.monthly {
          return true;
        }
      }
      exceeded := false;
    }

    /** The global caps first, then those of the key, if the request has one that is known. */
    method CloudBudgetExceeded(caps: Caps, dayStart: Hour, monthStart: Hour, readOk: bool, key: Option<KeyBudget>)
        returns (exceeded: bool)
      ensures forall now, flying, log ::
                var s := State(buckets, now, dayStart, monthStart, flying, log);
                exceeded <==> Exceeded(caps, s, readOk) || (key.Some? && KeyExceeded(key.value))
    {
      exceeded := GlobalBudgetExceeded(caps, dayStart, monthStart, readOk);
      if !exceeded && key.Some? {
        exceeded := KeyBudgetExceeded(key.value);
      }
    }
  }

  method KeyBudgetExceeded(b: KeyBudget) returns (exceeded: bool)
    ensures exceeded <==> KeyExceeded(b)
    ensures exceeded <==>
              || (b.caps.daily > 0.0 && b.daily.Some? && b.daily.value >= b.caps.daily)
              || (b.caps.monthly > 0.0 && b.monthly.Some? && b.monthly.value >= b.caps.monthly)
  {
    if b.caps.daily <= 0.0 && b.caps.monthly <= 0.0 {
      return false;
    }
    if b.caps.daily > 0.0 {
      match b.daily
      case None =>
      case Some(spent) =>
        if spent >= b.caps.daily {
          return true;
        }
    }
    if b.caps.monthly > 0.0 {
      match b.monthly
      case None =>
      case Some(spent) =>
        if spent >= b.caps.monthly {
          return true;
        }
    }
    exceeded := false;
  }
}
