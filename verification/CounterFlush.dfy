/**
 The lifetime counters of cloud traffic and their flush to the store.  A request adds
 itself to the request count and then its tokens to the token count; a flush loads the
 token count first, writes the counters row, then the token count.
 */
module CounterFlush {
  import opened Options
  import opened Sums

  type Id = nat

  /** Where a flush is; it carries the values it loaded and, as history, which requests they cover. */
  datatype Flush =
    | Off
    | HasTokens(tok: int, tokSet: set<Id>)
    | HasBoth(tok: int, tokSet: set<Id>, cnt: int, cntSet: set<Id>)
    | RowDone(tok: int, tokSet: set<Id>)
    | Marking(tok: int)

  /** The memory of a running process; the sets say which requests a number covers. */
  datatype Memory = Memory(
    count: int, counted: set<Id>,
    tokens: int, tokened: set<Id>,
    pending: set<Id>,                         // requests of this process between their two additions
    flushed: int,
    flush: Flush)

  datatype State = State(
    memory: Option<Memory>,
    rowCount: int, rowCounted: set<Id>,       // the counters row
    rowTokens: int, rowTokened: set<Id>,      // the token setting
    used: map<Id, nat>)                       // history: every request and its tokens

  datatype Step =
    | CountRequest(id: Id, tokens: nat)
    | AddTokens(id: Id)
    | LoadTokens
    | LoadCount
    | WriteRow(ok: bool)
    | WriteTokens(ok: bool)
    | MarkFlushed
    | Kill
    | Restart(countersOk: bool, tokensOk: bool)

  /** The tokens of some of the requests. */
  function Part(used: map<Id, nat>, ids: set<Id>): map<Id, int>
    requires ids <= used.Keys
  {
    map i | i in ids :: used[i]
  }

  lemma SumAdd(used: map<Id, nat>, ids: set<Id>, x: Id)
    requires ids <= used.Keys && x in used && x !in ids
    ensures Sum(Part(used, ids + {x})) == Sum(Part(used, ids)) + used[x]
  {
    assert Part(used, ids + {x}) == Part(used, ids)[x := used[x]];
    SumUpdate(Part(used, ids), x, used[x]);
  }

  predicate EnabledUp(s: State, m: Memory, l: Step) {
    match l
    case CountRequest(id, _) => id !in s.used
    case AddTokens(id) => id in m.pending && id in s.used
    case LoadTokens => m.flush.Off?
    case LoadCount => m.flush.HasTokens?
    case WriteRow(_) => m.flush.HasBoth?
    case WriteTokens(_) => m.flush.RowDone?
    case MarkFlushed => m.flush.Marking?
    case Kill => true
    case Restart(_, _) => false
  }

  predicate Enabled(s: State, l: Step) {
    if s.memory.Some? then EnabledUp(s, s.memory.value, l) else l.Restart?
  }

  function Restarted(s: State, countersOk: bool, tokensOk: bool): Memory {
    Memory(
      if countersOk then s.rowCount else 0, if countersOk then s.rowCounted else {},
      if tokensOk then s.rowTokens else 0, if tokensOk then s.rowTokened else {},
      {},
      if tokensOk then s.rowTokens else 0, Off)
  }

  function NextUp(s: State, m: Memory, l: Step): State
    requires EnabledUp(s, m, l)
  {
    match l
    case CountRequest(id, tokens) =>
      s.(memory := Some(m.(count := m.count + 1, counted := m.counted + {id}, pending := m.pending + {id})),
         used := s.used[id := tokens])
    case AddTokens(id) =>
      s.(memory := Some(m.(tokens := m.tokens + s.used[id], tokened := m.tokened + {id}, pending := m.pending - {id})))
    case LoadTokens => s.(memory := Some(m.(flush := HasTokens(m.tokens, m.tokened))))
    case LoadCount => s.(memory := Some(m.(flush := HasBoth(m.flush.tok, m.flush.tokSet, m.count, m.counted))))
    case WriteRow(ok) =>
      var t := s.(memory := Some(m.(flush := RowDone(m.flush.tok, m.flush.tokSet))));
      if ok then t.(rowCount := m.flush.cnt, rowCounted := m.flush.cntSet) else t
    case WriteTokens(ok) =>
      if m.flush.tok == m.flushed || !ok then s.(memory := Some(m.(flush := Off)))
      else s.(memory := Some(m.(flush := Marking(m.flush.tok))), rowTokens := m.flush.tok, rowTokened := m.flush.tokSet)
    case MarkFlushed => s.(memory := Some(m.(flushed := m.flush.tok, flush := Off)))
    case Kill => s.(memory := None)
  }

  function Next(s: State, l: Step): State
    requires Enabled(s, l)
  {
    if s.memory.Some? then NextUp(s, s.memory.value, l)
    else s.(memory := Some(Restarted(s, l.countersOk, l.tokensOk)))
  }

  /** The counters row can be read at start and written by every flush. */
  predicate RowWorks(l: Step) {
    (l.WriteRow? ==> l.ok) && (l.Restart? ==> l.countersOk)
  }

  ghost predicate IsRun(s: State, ls: seq<Step>, s': State)
    decreases ls
  {
    if ls == [] then s == s' else Enabled(s, ls[0]) && RowWorks(ls[0]) && IsRun(Next(s, ls[0]), ls[1..], s')
  }

  const Initial: State := State(None, 0, {}, 0, {}, map[])

  // ---------------------------------------------------------------- the invariant

  /** A number covers a set of requests: how many, or how many tokens. */
  ghost predicate CountOf(s: State, n: int, ids: set<Id>) {
    ids <= s.used.Keys && n == |ids|
  }

  ghost predicate TokensOf(s: State, n: int, ids: set<Id>) {
    ids <= s.used.Keys && n == Sum(Part(s.used, ids))
  }

  /** The numbers are those of the requests they stand for. */
  ghost predicate Exact(s: State) {
    && CountOf(s, s.rowCount, s.rowCounted) && TokensOf(s, s.rowTokens, s.rowTokened)
    && (s.memory.Some? ==>
          var m := s.memory.value;
          && CountOf(s, m.count, m.counted) && TokensOf(s, m.tokens, m.tokened)
          && m.pending !! m.tokened
          && (!m.flush.Off? && !m.flush.Marking? ==> TokensOf(s, m.flush.tok, m.flush.tokSet))
          && (m.flush.HasBoth? ==> CountOf(s, m.flush.cnt, m.flush.cntSet)))
  }

  /** Counted before its tokens, in memory, in a flush under way, and in the store. */
  ghost predicate Ordered(s: State) {
    && s.rowTokened <= s.rowCounted
    && (s.memory.Some? ==>
          var m := s.memory.value;
          && m.tokened <= m.counted && m.pending <= m.counted && s.rowCounted <= m.counted
          && (m.flush.HasTokens? ==> m.flush.tokSet <= m.counted)
          && (m.flush.HasBoth? ==> m.flush.tokSet <= m.flush.cntSet <= m.counted && s.rowCounted <= m.flush.cntSet)
          && (m.flush.RowDone? ==> m.flush.tokSet <= s.rowCounted))
  }

  lemma StepKeepsOrder(s: State, l: Step)
    requires Ordered(s) && Enabled(s, l) && RowWorks(l)
    ensures Ordered(Next(s, l))
  {
  }

  lemma ArrivalKeepsTokens(s: State, t: State, n: int, ids: set<Id>)
    requires TokensOf(s, n, ids) && s.used.Keys <= t.used.Keys && forall i <- s.used :: t.used[i] == s.used[i]
    ensures TokensOf(t, n, ids)
  {
    assert Part(t.used, ids) == Part(s.used, ids);
  }

  lemma ArrivalKeepsExact(s: State, m: Memory, l: Step)
    requires Exact(s) && s.memory == Some(m) && l.CountRequest? && EnabledUp(s, m, l)
    ensures Exact(NextUp(s, m, l))
  {
    var t := NextUp(s, m, l);
    ArrivalKeepsTokens(s, t, s.rowTokens, s.rowTokened);
    ArrivalKeepsTokens(s, t, m.tokens, m.tokened);
    if !m.flush.Off? && !m.flush.Marking? {
      ArrivalKeepsTokens(s, t, m.flush.tok, m.flush.tokSet);
    }
    assert l.id !in m.counted && l.id !in m.tokened;
  }

  lemma TokensKeepExact(s: State, m: Memory, l: Step)
    requires Exact(s) && s.memory == Some(m) && l.AddTokens? && EnabledUp(s, m, l)
    ensures Exact(NextUp(s, m, l))
  {
    SumAdd(s.used, m.tokened, l.id);
  }

  lemma FlushKeepsExact(s: State, m: Memory, l: Step)
    requires Exact(s) && s.memory == Some(m) && !l.CountRequest? && !l.AddTokens? && EnabledUp(s, m, l)
    ensures Exact(NextUp(s, m, l))
  {
    if l.WriteRow? {
      WriteRowKeepsExact(s, m, l);
    } else if l.WriteTokens? {
      WriteTokensKeepsExact(s, m, l);
    }
  }

  lemma WriteRowKeepsExact(s: State, m: Memory, l: Step)
    requires Exact(s) && s.memory == Some(m) && l.WriteRow? && EnabledUp(s, m, l)
    ensures Exact(NextUp(s, m, l))
  {
  }

  lemma WriteTokensKeepsExact(s: State, m: Memory, l: Step)
    requires Exact(s) && s.memory == Some(m) && l.WriteTokens? && EnabledUp(s, m, l)
    ensures Exact(NextUp(s, m, l))
  {
  }

  lemma StepKeepsExact(s: State, l: Step)
    requires Exact(s) && Enabled(s, l)
    ensures Exact(Next(s, l))
  {
    if l.CountRequest? {
      ArrivalKeepsExact(s, s.memory.value, l);
    } else if l.AddTokens? {
      TokensKeepExact(s, s.memory.value, l);
    } else if l.Restart? {
      assert Part(s.used, {}) == map[];
    } else {
      FlushKeepsExact(s, s.memory.value, l);
    }
  }

  lemma {:induction false} RunKeeps(s: State, ls: seq<Step>, s': State)
    requires Ordered(s) && Exact(s) && IsRun(s, ls, s')
    ensures Ordered(s') && Exact(s')
    decreases ls
  {
    if ls != [] {
      StepKeepsOrder(s, ls[0]);
      StepKeepsExact(s, ls[0]);
      RunKeeps(Next(s, ls[0]), ls[1..], s');
    }
  }

  /**
   Counter flush order: however requests and flushes interleave and wherever the
   process is killed, as long as the counters row works, every request whose tokens are
   in the stored token count is also in the stored request count; and both stored
   numbers are exactly those of the requests they cover.
   */
  lemma StoredTokensAreCounted(ls: seq<Step>, s: State)
    requires IsRun(Initial, ls, s)
    ensures s.rowTokened <= s.rowCounted <= s.used.Keys
    ensures s.rowCount == |s.rowCounted| && s.rowTokens == Sum(Part(s.used, s.rowTokened))
  {
    RunKeeps(Initial, ls, s);
  }

  /** What is stored of the tokens is part of what the process has, and of what a flush under way carries. */
  ghost predicate Continues(s: State) {
    s.memory.Some? ==>
      var m := s.memory.value;
      && s.rowTokened <= m.tokened
      && (m.flush.HasTokens? || m.flush.HasBoth? || m.flush.RowDone? ==> s.rowTokened <= m.flush.tokSet <= m.tokened)
  }

  lemma StepKeepsStored(s: State, l: Step)
    requires Continues(s) && Enabled(s, l) && (l.Restart? ==> l.tokensOk)
    ensures Continues(Next(s, l)) && s.rowTokened <= Next(s, l).rowTokened
  {
  }

  lemma StepKeepsUsed(s: State, l: Step)
    requires Enabled(s, l)
    ensures s.used.Keys <= Next(s, l).used.Keys && forall i <- s.used :: Next(s, l).used[i] == s.used[i]
  {
  }

  lemma {:induction false} RunKeepsStored(s: State, ls: seq<Step>, s': State)
    requires Continues(s) && IsRun(s, ls, s') && forall l <- ls :: l.Restart? ==> l.tokensOk
    ensures Continues(s') && s.rowTokened <= s'.rowTokened
    decreases ls
  {
    if ls != [] {
      StepKeepsStored(s, ls[0]);
      RunKeepsStored(Next(s, ls[0]), ls[1..], s');
    }
  }

  lemma {:induction false} RunKeepsUsed(s: State, ls: seq<Step>, s': State)
    requires IsRun(s, ls, s')
    ensures s.used.Keys <= s'.used.Keys && forall i <- s.used :: s'.used[i] == s.used[i]
    decreases ls
  {
    if ls != [] {
      StepKeepsUsed(s, ls[0]);
      RunKeepsUsed(Next(s, ls[0]), ls[1..], s');
    }
  }

  lemma MorePartsMoreTokens(used: map<Id, nat>, more: map<Id, nat>, a: set<Id>, b: set<Id>)
    requires a <= b <= more.Keys && a <= used.Keys && forall i <- a :: more[i] == used[i]
    ensures Sum(Part(used, a)) <= Sum(Part(more, b))
  {
    SumMono(Part(used, a), Part(more, b));
  }

  /**
   A start that can read the token count goes on from it: over any run, with kills and
   restarts and whatever token writes fail, the stored count never falls, and no request
   it covered is lost from it.
   */
  lemma StoredTokensNeverFall(before: seq<Step>, s: State, ls: seq<Step>, s': State)
    requires IsRun(Initial, before, s) && IsRun(s, ls, s') && forall l <- before + ls :: l.Restart? ==> l.tokensOk
    ensures s.rowTokened <= s'.rowTokened && s.rowTokens <= s'.rowTokens
  {
    assert forall l <- before :: l in before + ls;
    assert forall l <- ls :: l in before + ls;
    RunKeeps(Initial, before, s);
    RunKeepsStored(Initial, before, s);
    RunKeeps(s, ls, s');
    RunKeepsStored(s, ls, s');
    RunKeepsUsed(s, ls, s');
    MorePartsMoreTokens(s.used, s'.used, s.rowTokened, s'.rowTokened);
  }

  // ---------------------------------------------------------------- without a working row

  /** The state after one flush that nothing interrupts. */
  function AfterFlush(s: State, rowOk: bool, tokensOk: bool): State
    requires s.memory.Some? && s.memory.value.flush.Off?
  {
    var s4 := Next(Next(Next(Next(s, LoadTokens), LoadCount), WriteRow(rowOk)), WriteTokens(tokensOk));
    if s4.memory.value.flush.Marking? then Next(s4, MarkFlushed) else s4
  }

  /**
   The flush goes on to the token count even when the counters row could not be
   written.  It then keeps the order exactly when the row already covered the tokens it
   writes, or nothing is written.
   */
  lemma FlushKeepsOrderIff(s: State, rowOk: bool, tokensOk: bool)
    requires Ordered(s) && s.memory.Some? && s.memory.value.flush.Off?
    ensures
      var m, t := s.memory.value, AfterFlush(s, rowOk, tokensOk);
      t.rowTokened <= t.rowCounted <==>
        rowOk || !tokensOk || m.tokens == m.flushed || m.tokened <= s.rowCounted
  {
  }

  lemma FlushEffect(s: State, rowOk: bool, tokensOk: bool)
    requires s.memory.Some? && s.memory.value.flush.Off?
    ensures
      var m, t := s.memory.value, AfterFlush(s, rowOk, tokensOk);
      && t.rowCounted == (if rowOk then m.counted else s.rowCounted)
      && t.rowTokened == (if tokensOk && m.tokens != m.flushed then m.tokened else s.rowTokened)
      && t.rowCount == (if rowOk then m.count else s.rowCount)
      && t.rowTokens == (if tokensOk && m.tokens != m.flushed then m.tokens else s.rowTokens)
      && t.memory == Some(m.(flushed := if tokensOk && m.tokens != m.flushed then m.tokens else m.flushed))
  {
  }

  /** A concrete failure: one request, and a flush whose counters row is not written. */
  lemma LostRowBreaksOrder() returns (s: State)
    ensures Ordered(s) && s.memory.Some? && s.memory.value.flush.Off?
    ensures var t := AfterFlush(s, false, true); 7 in t.rowTokened && 7 !in t.rowCounted
  {
    s := State(Some(Memory(1, {7}, 5, {7}, {}, 0, Off)), 0, {}, 0, {}, map[7 := 5]);
    FlushEffect(s, false, true);
  }

  /**
   Nor may the row be unreadable at start, whether or not the tokens could be read: the
   next flush that writes it puts too few requests there.  The order survives the start
   and the flush exactly when the row was read, or is not written, or no tokens were stored.
   */
  lemma UnreadRowBreaksOrderIff(s: State, countersRead: bool, tokensRead: bool, rowOk: bool, tokensOk: bool)
    requires Ordered(s) && Exact(s) && s.memory.None?
    ensures
      var t := AfterFlush(Next(s, Restart(countersRead, tokensRead)), rowOk, tokensOk);
      t.rowTokened <= t.rowCounted <==> countersRead || !rowOk || s.rowTokened == {}
  {
    FlushEffect(Next(s, Restart(countersRead, tokensRead)), rowOk, tokensOk);
  }

  // ---------------------------------------------------------------- the code

  class Counters {
    var cloudCount: int
    var cloudTokens: int
    var flushed: int
    var rowCount: int
    var rowTokens: int

    /** The fields are the numbers of a model state whose process runs. */
    ghost predicate Shows(s: State)
      reads this
    {
      s.memory.Some? && s.rowCount == rowCount && s.rowTokens == rowTokens &&
      var m := s.memory.value;
      m.count == cloudCount && m.tokens == cloudTokens && m.flushed == flushed
    }

    /** A cloud request is counted first and its tokens added after that. */
    method TrackCloud(tokens: nat, ghost s: State, ghost id: Id)
      requires Shows(s) && id !in s.used
      modifies `cloudCount, `cloudTokens
      ensures
        var counted := Next(s, CountRequest(id, tokens));
        Enabled(counted, AddTokens(id)) && Shows(Next(counted, AddTokens(id)))
    {
      cloudCount := cloudCount + 1;
      cloudTokens := cloudTokens + tokens;
    }

    /** One undisturbed flush, against the model's flush. */
    method FlushCounters(rowOk: bool, tokensOk: bool, ghost s: State)
      requires Shows(s) && s.memory.value.flush.Off?
      modifies `flushed, `rowCount, `rowTokens
      ensures Shows(AfterFlush(s, rowOk, tokensOk))
      ensures flushed != old(flushed) ==> flushed == rowTokens == cloudTokens
    {
      FlushEffect(s, rowOk, tokensOk);
      var tok := cloudTokens;
      var cloud := cloudCount;
      if rowOk {
        rowCount := cloud;
      }
      if tok == flushed {
        return;
      }
      if !tokensOk {
        return;
      }
      rowTokens := tok;
      flushed := tok;
    }
  }
}
