/**
 The per-address limiter in front of login and password reset: failures counted in a
 window, a lock-out once the limit is reached, and pruning of stale entries.
 */
module LoginLimiter {
  import opened Options

  type Ip = string

  datatype Config = Config(maxAttempts: nat, window: int, lockDuration: int, pruneEvery: int)

  datatype Entry = Entry(failures: nat, windowStart: int, lockedUntil: Option<int>)

  /** `flying` counts, per address, the attempts that were let through and have no result yet. */
  datatype State = State(attempts: map<Ip, Entry>, lastPrune: Option<int>, now: int, flying: map<Ip, nat>)

  function Flying(s: State, ip: Ip): nat {
    if ip in s.flying then s.flying[ip] else 0
  }

  predicate Locked(e: Entry, t: int) {
    e.lockedUntil.Some? && t < e.lockedUntil.value
  }

  predicate Elapsed(c: Config, e: Entry, t: int) {
    t - e.windowStart > c.window
  }

  /** A window that has run out starts again. */
  function Renewed(c: Config, e: Entry, t: int): Entry {
    if Elapsed(c, e, t) then e.(failures := 0, windowStart := t) else e
  }

  function Failed(c: Config, e: Entry, t: int): Entry {
    var r := Renewed(c, e, t);
    var f := r.failures + 1;
    r.(failures := f, lockedUntil := if f >= c.maxAttempts then Some(t + c.lockDuration) else r.lockedUntil)
  }

  predicate Stale(c: Config, e: Entry, t: int) {
    (e.lockedUntil.None? || t > e.lockedUntil.value) && Elapsed(c, e, t)
  }

  predicate PruneDue(c: Config, lastPrune: Option<int>, t: int) {
    lastPrune.None? || t - lastPrune.value >= c.pruneEvery
  }

  function Kept(c: Config, attempts: map<Ip, Entry>, t: int): map<Ip, Entry> {
    map ip | ip in attempts && !Stale(c, attempts[ip], t) :: attempts[ip]
  }

  /** Drops the stale entries, at most once per `pruneEvery`. */
  function Pruned(c: Config, s: State, t: int): State {
    if PruneDue(c, s.lastPrune, t) then s.(attempts := Kept(c, s.attempts, t), lastPrune := Some(t)) else s
  }

  datatype Step =
    | Allow(ip: Ip, t: int)
    | Failure(ip: Ip, t: int)
    | Success(ip: Ip, t: int)
    | NoResult(ip: Ip, t: int)

  predicate Granted(c: Config, s: State, ip: Ip, t: int) {
    ip !in s.attempts || !Locked(s.attempts[ip], t)
  }

  predicate Enabled(s: State, l: Step) {
    s.now <= l.t && (!l.Allow? ==> Flying(s, l.ip) > 0)
  }

  function Next(c: Config, s: State, l: Step): State
    requires Enabled(s, l)
  {
    match l
    case Allow(ip, t) =>
      if !Granted(c, s, ip, t) then s.(now := t)
      else
        var attempts := if ip in s.attempts then s.attempts[ip := Renewed(c, s.attempts[ip], t)] else s.attempts;
        s.(attempts := attempts, now := t, flying := s.flying[ip := Flying(s, ip) + 1])
    case Failure(ip, t) =>
      var p := Pruned(c, s, t);
      var e := if ip in p.attempts then p.attempts[ip] else Entry(0, t, None);
      p.(attempts := p.attempts[ip := Failed(c, e, t)], now := t, flying := s.flying[ip := Flying(s, ip) - 1])
    case Success(ip, t) =>
      s.(attempts := s.attempts - {ip}, now := t, flying := s.flying[ip := Flying(s, ip) - 1])
    case NoResult(ip, t) => s.(now := t, flying := s.flying[ip := Flying(s, ip) - 1])
  }

  /** A run in which `ip` never succeeds and never has more than `k` attempts in flight. */
  ghost predicate IsRun(c: Config, s: State, ls: seq<Step>, s': State, ip: Ip, k: nat)
    decreases ls
  {
    && Flying(s, ip) <= k
    && if ls == [] then s == s'
       else
         && Enabled(s, ls[0])
         && !(ls[0].Success? && ls[0].ip == ip)
         && IsRun(c, Next(c, s, ls[0]), ls[1..], s', ip, k)
  }

  /** The failures recorded for `ip` in a run. */
  function Failures(ls: seq<Step>, ip: Ip): nat
    decreases ls
  {
    if ls == [] then 0 else (if ls[0].Failure? && ls[0].ip == ip then 1 else 0) + Failures(ls[1..], ip)
  }

  // ---------------------------------------------------------------- the bound

  predicate Usable(c: Config) {
    c.maxAttempts >= 1 && 0 < c.window <= c.lockDuration
  }

  /** Locked out for as long as the interval lasts. */
  predicate Shut(s: State, ip: Ip, b: int) {
    ip in s.attempts && s.attempts[ip].lockedUntil.Some? && s.attempts[ip].lockedUntil.value > b
  }

  /** The window started so late that it does not run out in the interval. */
  predicate Late(c: Config, s: State, ip: Ip, b: int) {
    ip in s.attempts && b - s.attempts[ip].windowStart <= c.window
  }

  /**
   What `n` failures recorded so far leave possible: in the window the interval began
   with at most `maxAttempts - 1` without locking, in the next one at most `maxAttempts`
   more, and after the lock only what is already in flight.
   */
  ghost predicate Within(c: Config, s: State, ip: Ip, b: int, k: nat, n: nat) {
    if Shut(s, ip, b) then n + Flying(s, ip) <= 2 * c.maxAttempts + k - 2
    else if Late(c, s, ip, b) then
      var f := s.attempts[ip].failures;
      n == 0 || (f < c.maxAttempts && n <= c.maxAttempts - 1 + f)
    else
      n == 0 || (n <= c.maxAttempts - 1 && (ip in s.attempts ==> n <= s.attempts[ip].failures < c.maxAttempts))
  }

  lemma OtherStepKeepsWithin(c: Config, s: State, l: Step, ip: Ip, b: int, k: nat, n: nat)
    requires Usable(c) && Enabled(s, l) && l.ip != ip && l.t <= b && Within(c, s, ip, b, k, n)
    ensures Within(c, Next(c, s, l), ip, b, k, n)
  {
  }

  lemma AllowKeepsWithin(c: Config, s: State, t: int, ip: Ip, a: int, b: int, k: nat, n: nat)
    requires Usable(c) && Enabled(s, Allow(ip, t)) && a <= t <= b && b - a < c.window && Within(c, s, ip, b, k, n)
    requires Flying(s, ip) <= k
    ensures Within(c, Next(c, s, Allow(ip, t)), ip, b, k, n)
  {
  }

  lemma FailureKeepsWithin(c: Config, s: State, t: int, ip: Ip, a: int, b: int, k: nat, n: nat)
    requires Usable(c) && Enabled(s, Failure(ip, t)) && a <= t <= b && b - a < c.window && Within(c, s, ip, b, k, n)
    requires Flying(s, ip) <= k
    ensures Within(c, Next(c, s, Failure(ip, t)), ip, b, k, n + 1)
  {
  }

  lemma {:induction false} RunKeepsWithin(c: Config, s: State, ls: seq<Step>, s': State, ip: Ip, a: int, k: nat, n: nat)
    requires Usable(c) && IsRun(c, s, ls, s', ip, k)
    requires a <= s.now && s'.now - a < c.window && Within(c, s, ip, s'.now, k, n)
    ensures Within(c, s', ip, s'.now, k, n + Failures(ls, ip)) && s.now <= s'.now
    decreases ls
  {
    if ls != [] {
      var l, s1 := ls[0], Next(c, s, ls[0]);
      TimePasses(c, s1, ls[1..], s', ip, k);
      var n1 := n + if l.Failure? && l.ip == ip then 1 else 0;
      if l.ip != ip {
        OtherStepKeepsWithin(c, s, l, ip, s'.now, k, n);
      } else if l.Allow? {
        AllowKeepsWithin(c, s, l.t, ip, a, s'.now, k, n);
      } else if l.Failure? {
        FailureKeepsWithin(c, s, l.t, ip, a, s'.now, k, n);
      }
      RunKeepsWithin(c, s1, ls[1..], s', ip, a, k, n1);
    }
  }

  lemma {:induction false} TimePasses(c: Config, s: State, ls: seq<Step>, s': State, ip: Ip, k: nat)
    requires IsRun(c, s, ls, s', ip, k)
    ensures s.now <= s'.now
    decreases ls
  {
    if ls != [] {
      TimePasses(c, Next(c, s, ls[0]), ls[1..], s', ip, k);
    }
  }

  /**
   Limiter bound: from any state, in any interval shorter than the window in which an
   address has no success and at most `k` attempts in flight at a time, at most
   `2 * maxAttempts + k - 2` of its failures are recorded, whatever other addresses
   do and whenever pruning runs.  One attempt at a time gives `2 * maxAttempts - 1`.
   */
  lemma FailuresAreBounded(c: Config, s: State, ls: seq<Step>, s': State, ip: Ip, k: nat)
    requires Usable(c) && k >= 1 && IsRun(c, s, ls, s', ip, k) && s'.now - s.now < c.window
    ensures Failures(ls, ip) <= 2 * c.maxAttempts + k - 2
  {
    RunKeepsWithin(c, s, ls, s', ip, s.now, k, 0);
    EndFlying(c, s, ls, s', ip, k);
  }

  lemma {:induction false} EndFlying(c: Config, s: State, ls: seq<Step>, s': State, ip: Ip, k: nat)
    requires IsRun(c, s, ls, s', ip, k)
    ensures Flying(s', ip) <= k
    decreases ls
  {
    if ls != [] {
      EndFlying(c, Next(c, s, ls[0]), ls[1..], s', ip, k);
    }
  }

  // ---------------------------------------------------------------- after a success, and while locked

  /** At most `n` failures are held against the address and it is not locked. */
  predicate Clean(s: State, ip: Ip, n: nat) {
    ip in s.attempts ==> s.attempts[ip].lockedUntil.None? && s.attempts[ip].failures <= n
  }

  lemma StepKeepsClean(c: Config, s: State, l: Step, ip: Ip, n: nat)
    requires Enabled(s, l) && Clean(s, ip, n) && n + 1 < c.maxAttempts
    ensures Clean(Next(c, s, l), ip, n + 1) && (!(l.Failure? && l.ip == ip) ==> Clean(Next(c, s, l), ip, n))
  {
  }

  lemma QuietStepKeepsClean(c: Config, s: State, l: Step, ip: Ip, n: nat)
    requires Enabled(s, l) && Clean(s, ip, n) && !(l.Failure? && l.ip == ip)
    ensures Clean(Next(c, s, l), ip, n)
  {
  }

  lemma {:induction false} FewFailuresStayClean(c: Config, s: State, ls: seq<Step>, s': State, ip: Ip, k: nat, n: nat)
    requires IsRun(c, s, ls, s', ip, k) && Clean(s, ip, n) && n + Failures(ls, ip) < c.maxAttempts
    ensures Clean(s', ip, n + Failures(ls, ip))
    decreases ls
  {
    if ls != [] {
      if ls[0].Failure? && ls[0].ip == ip {
        StepKeepsClean(c, s, ls[0], ip, n);
        FewFailuresStayClean(c, Next(c, s, ls[0]), ls[1..], s', ip, k, n + 1);
      } else {
        QuietStepKeepsClean(c, s, ls[0], ip, n);
        FewFailuresStayClean(c, Next(c, s, ls[0]), ls[1..], s', ip, k, n);
      }
    }
  }

  /**
   A success wipes the slate: nothing is held against the address, and over any run with
   fewer than `maxAttempts` further failures of it, at whatever times, it is let through.
   */
  lemma SuccessForgives(c: Config, s: State, t: int, ip: Ip, ls: seq<Step>, s': State, k: nat, u: int)
    requires Enabled(s, Success(ip, t)) && IsRun(c, Next(c, s, Success(ip, t)), ls, s', ip, k)
    requires Failures(ls, ip) < c.maxAttempts
    ensures ip !in Next(c, s, Success(ip, t)).attempts
    ensures Granted(c, s', ip, u)
  {
    FewFailuresStayClean(c, Next(c, s, Success(ip, t)), ls, s', ip, k, 0);
  }

  /** The failure that reaches the limit locks the address for exactly the lock duration. */
  lemma LockLasts(c: Config, s: State, t: int, ip: Ip, u: int)
    requires Enabled(s, Failure(ip, t))
    requires ip in s.attempts && t - s.attempts[ip].windowStart <= c.window && s.attempts[ip].failures + 1 >= c.maxAttempts
    ensures Granted(c, Next(c, s, Failure(ip, t)), ip, u) <==> u >= t + c.lockDuration
  {
    assert !Stale(c, s.attempts[ip], t);
  }

  /** A lock, once set, is neither lifted nor forgotten by anything but a success or a further failure. */
  lemma {:induction false} LockHolds(c: Config, s: State, ls: seq<Step>, s': State, ip: Ip, k: nat, until: int)
    requires IsRun(c, s, ls, s', ip, k) && Failures(ls, ip) == 0
    requires ip in s.attempts && s.attempts[ip].lockedUntil == Some(until) && s'.now <= until
    ensures ip in s'.attempts && s'.attempts[ip].lockedUntil == Some(until)
    decreases ls
  {
    if ls != [] {
      TimePasses(c, Next(c, s, ls[0]), ls[1..], s', ip, k);
      LockHolds(c, Next(c, s, ls[0]), ls[1..], s', ip, k, until);
    }
  }

  // ---------------------------------------------------------------- the bound is reached

  /** A run from `s` to `s'` records `n` failures of "ip" with at most `k` attempts in flight. */
  ghost predicate Records(c: Config, s: State, s': State, k: nat, n: nat) {
    exists ls :: IsRun(c, s, ls, s', "ip", k) && Failures(ls, "ip") == n
  }

  lemma {:induction false} RunSnoc(c: Config, s: State, ls: seq<Step>, s': State, l: Step, k: nat)
    requires IsRun(c, s, ls, s', "ip", k) && Enabled(s', l) && !l.Success? && l.ip == "ip"
    requires Flying(Next(c, s', l), "ip") <= k
    ensures IsRun(c, s, ls + [l], Next(c, s', l), "ip", k)
    ensures Failures(ls + [l], "ip") == Failures(ls, "ip") + if l.Failure? then 1 else 0
    decreases ls
  {
    if ls == [] {
      assert ([] + [l])[1..] == [];
      assert IsRun(c, Next(c, s', l), [], Next(c, s', l), "ip", k);
    } else {
      RunSnoc(c, Next(c, s, ls[0]), ls[1..], s', l, k);
      assert (ls + [l])[1..] == ls[1..] + [l];
    }
  }

  lemma Append(c: Config, s: State, s': State, l: Step, k: nat, n: nat)
    requires Records(c, s, s', k, n) && Enabled(s', l) && !l.Success? && l.ip == "ip"
    requires Flying(Next(c, s', l), "ip") <= k
    ensures Records(c, s, Next(c, s', l), k, n + if l.Failure? then 1 else 0)
  {
    var ls :| IsRun(c, s, ls, s', "ip", k) && Failures(ls, "ip") == n;
    RunSnoc(c, s, ls, s', l, k);
  }

  /** The limiter knows one address, with this entry and this many attempts in flight. */
  predicate Only(s: State, e: Entry, now: int, flying: nat) {
    s.attempts == map["ip" := e] && s.now == now && s.flying == map["ip" := flying]
  }

  lemma LetThrough(c: Config, s0: State, s: State, e: Entry, f: nat, t: int, k: nat, n: nat) returns (s': State)
    requires Records(c, s0, s, k, n) && Only(s, e, s.now, f) && s.now <= t && !Locked(e, t) && f < k
    ensures Records(c, s0, s', k, n) && Only(s', Renewed(c, e, t), t, f + 1)
  {
    s' := Next(c, s, Allow("ip", t));
    assert s'.attempts == map["ip" := Renewed(c, e, t)];
    Append(c, s0, s, Allow("ip", t), k, n);
  }

  lemma Fails(c: Config, s0: State, s: State, e: Entry, f: nat, k: nat, n: nat) returns (s': State)
    requires Records(c, s0, s, k, n) && Only(s, e, s.now, f) && 0 < f <= k && !Elapsed(c, e, s.now)
    ensures Records(c, s0, s', k, n + 1) && Only(s', Failed(c, e, s.now), s.now, f - 1)
  {
    s' := Next(c, s, Failure("ip", s.now));
    assert Kept(c, s.attempts, s.now) == s.attempts;
    assert s'.attempts == map["ip" := Failed(c, e, s.now)];
    Append(c, s0, s, Failure("ip", s.now), k, n);
  }

  lemma GoesAway(c: Config, s0: State, s: State, e: Entry, k: nat, n: nat) returns (s': State)
    requires Records(c, s0, s, k, n) && Only(s, e, s.now, 1) && k >= 1
    ensures Records(c, s0, s', k, n) && Only(s', e, s.now, 0)
  {
    s' := Next(c, s, NoResult("ip", s.now));
    Append(c, s0, s, NoResult("ip", s.now), k, n);
  }

  /** `n` attempts let through and failing one after the other, none of them the one that locks. */
  lemma {:induction false} OneByOne(c: Config, s0: State, s: State, e: Entry, t: int, n: nat, k: nat, m: nat) returns (s': State, e': Entry)
    requires Usable(c) && k >= 1 && Records(c, s0, s, k, m) && Only(s, e, s.now, 0) && s.now <= t && !Locked(e, t)
    requires Renewed(c, e, t).failures + n < c.maxAttempts
    ensures Records(c, s0, s', k, m + n) && Only(s', e', s'.now, 0) && s'.now == (if n == 0 then s.now else t) && !Locked(e', t)
    ensures Renewed(c, e', t).failures == Renewed(c, e, t).failures + n && (!Elapsed(c, e, t) ==> e'.windowStart == e.windowStart)
    decreases n
  {
    if n == 0 {
      s', e' := s, e;
    } else {
      var s1 := LetThrough(c, s0, s, e, 0, t, k, m);
      var s2 := Fails(c, s0, s1, Renewed(c, e, t), 1, k, m);
      s', e' := OneByOne(c, s0, s2, Failed(c, Renewed(c, e, t), t), t, n - 1, k, m + 1);
    }
  }

  /** `n` more attempts are let through within an open window. */
  lemma {:induction false} ManyLetThrough(c: Config, s0: State, s: State, e: Entry, f: nat, n: nat, k: nat, m: nat) returns (s': State)
    requires f + n <= k && Records(c, s0, s, k, m) && Only(s, e, s.now, f) && !Locked(e, s.now) && !Elapsed(c, e, s.now)
    ensures Records(c, s0, s', k, m) && Only(s', e, s.now, f + n)
    decreases n
  {
    s' := s;
    if n > 0 {
      var s1 := LetThrough(c, s0, s, e, f, s.now, k, m);
      s' := ManyLetThrough(c, s0, s1, e, f + 1, n - 1, k, m);
    }
  }

  /** `n` attempts in flight all fail, whether or not the address is locked by then. */
  lemma {:induction false} AllFail(c: Config, s0: State, s: State, e: Entry, n: nat, k: nat, m: nat) returns (s': State)
    requires n <= k && Records(c, s0, s, k, m) && Only(s, e, s.now, n) && !Elapsed(c, e, s.now)
    ensures Records(c, s0, s', k, m + n) && s'.now == s.now
    decreases n
  {
    s' := s;
    if n > 0 {
      var s1 := Fails(c, s0, s, e, n, k, m);
      s' := AllFail(c, s0, s1, Failed(c, e, s.now), n - 1, k, m + 1);
    }
  }

  /** `k` attempts let through together, all of them failing. */
  lemma Crowd(c: Config, s0: State, s: State, e: Entry, t: int, k: nat, m: nat) returns (s': State)
    requires Usable(c) && k >= 1 && Records(c, s0, s, k, m) && Only(s, e, s.now, 0) && s.now <= t && !Locked(e, t)
    ensures Records(c, s0, s', k, m + k) && s'.now == t
  {
    var r := Renewed(c, e, t);
    var s1 := LetThrough(c, s0, s, e, 0, t, k, m);
    var s2 := ManyLetThrough(c, s0, s1, r, 1, k - 1, k, m);
    s' := AllFail(c, s0, s2, r, k, k, m);
  }

  lemma Stay(c: Config, s: State, k: nat)
    requires Flying(s, "ip") <= k
    ensures Records(c, s, s, k, 0)
  {
    assert IsRun(c, s, [], s, "ip", k);
  }

  /** A limiter that has seen nobody. */
  function Fresh(now: int): State {
    State(map[], None, now, map[])
  }

  /**
   One failure, and a long time later an attempt that starts a new window and one at the
   end of it, both abandoned: no failures in a window that is about to run out.
   */
  lemma OldWindow(c: Config, t: int, k: nat) returns (s: State, e: Entry)
    requires Usable(c) && k >= 1
    ensures Records(c, Fresh(t), s, k, 1) && Only(s, e, s.now, 0)
    ensures e.failures == 0 && s.now == e.windowStart + c.window && !Locked(e, e.windowStart)
  {
    var s0 := Fresh(t);
    Stay(c, s0, k);
    var s1 := Next(c, s0, Allow("ip", t));
    Append(c, s0, s0, Allow("ip", t), k, 0);
    var e1 := Failed(c, Entry(0, t, None), t);
    var s2 := Next(c, s1, Failure("ip", t));
    assert Only(s2, e1, t, 0);
    Append(c, s0, s1, Failure("ip", t), k, 0);
    var w := t + c.lockDuration + 1;
    e := Renewed(c, e1, w);
    var s3 := LetThrough(c, s0, s2, e1, 0, w, k, 1);
    var s4 := GoesAway(c, s0, s3, e, k, 1);
    var s5 := LetThrough(c, s0, s4, e, 0, w + c.window, k, 1);
    s := GoesAway(c, s0, s5, e, k, 1);
  }

  /**
   The bound is exact for every limit and every number in flight, in runs that begin with
   a limiter that has seen nobody: `maxAttempts - 1` failures at the end of one window,
   as many at the start of the next, and then `k` attempts let through together make
   `2 * maxAttempts + k - 2` within one time unit.
   */
  lemma BoundIsReached(c: Config, t: int, k: nat) returns (s: State, s': State)
    requires Usable(c) && c.window > 1 && k >= 1
    ensures Records(c, Fresh(t), s, k, 1)
    ensures Records(c, s, s', k, 2 * c.maxAttempts + k - 2) && s'.now - s.now < c.window
  {
    var e, e1, e2, s1, s2;
    s, e := OldWindow(c, t, k);
    Stay(c, s, k);
    var m := c.maxAttempts;
    s1, e1 := OneByOne(c, s, s, e, s.now, m - 1, k, 0);
    s2, e2 := OneByOne(c, s, s1, e1, s.now + 1, m - 1, k, m - 1);
    s' := Crowd(c, s, s2, e2, s.now + 1, k, 2 * m - 2);
  }

  // ---------------------------------------------------------------- the code

  class Limiter {
    const config: Config
    var attempts: map<Ip, Entry>
    var lastPrune: Option<int>

    constructor (config: Config)
      ensures this.config == config && attempts == map[] && lastPrune.None?
    {
      this.config := config;
      attempts, lastPrune := map[], None;
    }

    ghost function View(now: int, flying: map<Ip, nat>): State
      reads this
    {
      State(attempts, lastPrune, now, flying)
    }

    /** Whether an attempt may proceed, or how long the address is still locked out. */
    method AllowAttempt(ip: Ip, now: int, ghost before: int, ghost flying: map<Ip, nat>) returns (ok: bool, retryAfter: int)
      requires before <= now
      modifies `attempts
      ensures
        var l := Allow(ip, now);
        var s := old(View(before, flying));
        View(now, Next(config, s, l).flying) == Next(config, s, l) && ok == Granted(config, s, ip, now)
      ensures ok <==> ip !in old(attempts) || old(attempts)[ip].lockedUntil.None? || now >= old(attempts)[ip].lockedUntil.value
      ensures if ok then retryAfter == 0
              else retryAfter > 0 && ip in old(attempts) && old(attempts)[ip].lockedUntil == Some(now + retryAfter)
    {
      if ip !in attempts {
        return true, 0;
      }
      var st := attempts[ip];
      if st.lockedUntil.Some? && now < st.lockedUntil.value {
        return false, st.lockedUntil.value - now;
      }
      if now - st.windowStart > config.window {
        attempts := attempts[ip := st.(failures := 0, windowStart := now)];
      }
      assert attempts == old(attempts)[ip := Renewed(config, st, now)];
      ok, retryAfter := true, 0;
    }

    /** The failure counts in a window that is still open, or opens the next one; the last one allowed locks. */
    method RecordFailure(ip: Ip, now: int, ghost before: int, ghost flying: map<Ip, nat>)
      requires before <= now && ip in flying && flying[ip] > 0
      modifies `attempts, `lastPrune
      ensures
        var s := old(View(before, flying));
        View(now, flying[ip := flying[ip] - 1]) == Next(config, s, Failure(ip, now))
    {
      PruneLocked(now);
      var st := Entry(0, now, None);
      if ip in attempts {
        st := attempts[ip];
      }
      if now - st.windowStart > config.window {
        st := st.(failures := 0, windowStart := now);
      }
      st := st.(failures := st.failures + 1);
      if st.failures >= config.maxAttempts {
        st := st.(lockedUntil := Some(now + config.lockDuration));
      }
      attempts := attempts[ip := st];
    }

    method RecordSuccess(ip: Ip, now: int, ghost before: int, ghost flying: map<Ip, nat>)
      requires before <= now && ip in flying && flying[ip] > 0
      modifies `attempts
      ensures
        var s := old(View(before, flying));
        View(now, flying[ip := flying[ip] - 1]) == Next(config, s, Success(ip, now))
      ensures attempts == old(attempts) - {ip}
    {
      attempts := attempts - {ip};
    }

    /** Forgets what can no longer matter, and not more often than once per `pruneEvery`. */
    method PruneLocked(now: int)
      modifies `attempts, `lastPrune
      ensures
        var due := old(lastPrune).None? || now - old(lastPrune).value >= config.pruneEvery;
        && lastPrune == (if due then Some(now) else old(lastPrune))
        && (forall ip :: ip in attempts ==> ip in old(attempts))
        && (forall ip <- old(attempts) ::
              var e := old(attempts)[ip];
              ip in attempts <==>
                !due || (e.lockedUntil.Some? && now <= e.lockedUntil.value) || now - e.windowStart <= config.window)
        && (forall ip <- attempts :: attempts[ip] == old(attempts)[ip])
      ensures attempts == if PruneDue(config, old(lastPrune), now) then Kept(config, old(attempts), now) else old(attempts)
    {
      if lastPrune.Some? && now - lastPrune.value < config.pruneEvery {
        return;
      }
      lastPrune := Some(now);
      attempts := DropStale(config, attempts, now);
    }
  }

  method DropStale(c: Config, attempts: map<Ip, Entry>, now: int) returns (left: map<Ip, Entry>)
    ensures left == Kept(c, attempts, now)
  {
    left := attempts;
    var todo := attempts.Keys;
    while todo != {}
      invariant todo <= attempts.Keys
      invariant forall ip :: ip in left <==> ip in attempts && (ip in todo || !Stale(c, attempts[ip], now))
      invariant forall ip <- left :: ip in attempts && left[ip] == attempts[ip]
      decreases todo
    {
      var ip :| ip in todo;
      todo := todo - {ip};
      if Stale(c, attempts[ip], now) {
        left := left - {ip};
      }
    }
  }
}
