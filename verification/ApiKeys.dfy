/**
 API keys: the durable store against the live auth state.  Key operations hold one
 lock, so each is one step; a store call either works or fails and changes nothing.
 Probe keys (benchmark and pull verification) are written without that lock, so
 their steps also fall between the two halves of a reload.
 */
module ApiKeys {
  import opened Options

  type Name = string
  type Token = string

  datatype Policy = Policy(
    rateLimit: int, dailyLimit: int, monthlyLimit: int,
    dailyUsdCap: real, monthlyUsdCap: real,
    models: seq<string>, expiresAt: string, localOnly: bool, allowLocalDegradation: bool)

  /** The fields of a key a PATCH may set; an absent one keeps its value. */
  datatype Patch = Patch(
    rateLimit: Option<int>, dailyLimit: Option<int>, monthlyLimit: Option<int>,
    dailyUsdCap: Option<real>, monthlyUsdCap: Option<real>,
    models: Option<seq<string>>, expiresAt: Option<string>,
    localOnly: Option<bool>, allowLocalDegradation: Option<bool>)

  datatype Record = Record(token: Token, policy: Policy, revoked: bool)

  datatype LiveKey = LiveKey(token: Token, policy: Policy)

  /** A key as the store lists it to the middleware. */
  datatype Key = Key(name: Name, live: LiveKey)

  datatype State = State(
    store: map<Name, Record>,
    byName: map<Name, LiveKey>,
    tokens: map<Token, Name>,         // token -> the key it authenticates as
    snapshot: Option<seq<Key>>)       // a reload between reading the store and applying it

  const BENCHMARK_PREFIX := "benchmark-"
  const PULL_VERIFY_PREFIX := "pull-verify-"

  predicate Reserved(name: Name) {
    BENCHMARK_PREFIX <= name || PULL_VERIFY_PREFIX <= name
  }

  predicate IsEphemeralProbeKey(name: Name, r: Record) {
    && Reserved(name)
    && !r.revoked && r.policy.localOnly && r.policy.expiresAt != "" && |r.policy.models| == 1
    && r.policy.rateLimit == 0 && r.policy.dailyLimit == 0 && r.policy.monthlyLimit == 0
    && r.policy.dailyUsdCap == 0.0 && r.policy.monthlyUsdCap == 0.0 && !r.policy.allowLocalDegradation
  }

  predicate Acceptable(p: Policy) {
    p.rateLimit >= 0 && p.dailyLimit >= 0 && p.monthlyLimit >= 0 && p.dailyUsdCap >= 0.0 && p.monthlyUsdCap >= 0.0
  }

  predicate AcceptablePatch(q: Patch) {
    && Or(q.rateLimit, 0) >= 0 && Or(q.dailyLimit, 0) >= 0 && Or(q.monthlyLimit, 0) >= 0
    && Or(q.dailyUsdCap, 0.0) >= 0.0 && Or(q.monthlyUsdCap, 0.0) >= 0.0
  }

  function Or<T>(o: Option<T>, v: T): T {
    if o.Some? then o.value else v
  }

  function Patched(p: Policy, q: Patch): Policy {
    Policy(Or(q.rateLimit, p.rateLimit), Or(q.dailyLimit, p.dailyLimit), Or(q.monthlyLimit, p.monthlyLimit),
           Or(q.dailyUsdCap, p.dailyUsdCap), Or(q.monthlyUsdCap, p.monthlyUsdCap),
           Or(q.models, p.models), Or(q.expiresAt, p.expiresAt),
           Or(q.localOnly, p.localOnly), Or(q.allowLocalDegradation, p.allowLocalDegradation))
  }

  // ---------------------------------------------------------------- the live side

  function AddLive(s: State, name: Name, k: LiveKey): State {
    var kept := if name in s.byName && s.byName[name].token != k.token
                then s.tokens - {s.byName[name].token} else s.tokens;
    s.(byName := s.byName[name := k], tokens := kept[k.token := name])
  }

  function RevokeLive(s: State, name: Name): State {
    if name !in s.byName then s
    else s.(byName := s.byName - {name}, tokens := s.tokens - {s.byName[name].token})
  }

  /** The live maps a list of keys gives; a later entry wins. */
  function ByNameOf(ks: seq<Key>): map<Name, LiveKey> {
    if ks == [] then map[] else ByNameOf(ks[..|ks| - 1])[ks[|ks| - 1].name := ks[|ks| - 1].live]
  }

  function TokensOf(ks: seq<Key>): map<Token, Name> {
    if ks == [] then map[] else TokensOf(ks[..|ks| - 1])[ks[|ks| - 1].live.token := ks[|ks| - 1].name]
  }

  predicate NoRepeats(order: seq<Name>) {
    forall i, j :: 0 <= i < j < |order| ==> order[i] != order[j]
  }

  predicate DistinctNames(ks: seq<Key>) {
    forall i, j :: 0 <= i < j < |ks| ==> ks[i].name != ks[j].name
  }

  /** The rows of the store in some order, each once. */
  predicate Lists(order: seq<Name>, store: map<Name, Record>) {
    && NoRepeats(order)
    && (forall n <- order :: n in store)
    && (forall n <- store :: n in order)
  }

  /** The keys a reload loads: every row that is not revoked. */
  function Loaded(store: map<Name, Record>, order: seq<Name>, dropProbes: bool): seq<Key>
    requires forall n <- order :: n in store
  {
    if order == [] then []
    else
      var n := order[|order| - 1];
      var rest := Loaded(store, order[..|order| - 1], dropProbes);
      if store[n].revoked || (dropProbes && IsEphemeralProbeKey(n, store[n])) then rest
      else rest + [Key(n, LiveKey(store[n].token, store[n].policy))]
  }

  /** The rows left after a start removed the leftover probe keys it could. */
  function WithoutProbes(store: map<Name, Record>, undeletable: set<Name>): map<Name, Record> {
    map n | n in store && (!IsEphemeralProbeKey(n, store[n]) || n in undeletable) :: store[n]
  }

  // ---------------------------------------------------------------- the steps

  datatype Step =
    | Add(name: Name, token: Token, policy: Policy, readOk: bool, writeOk: bool)
    | Approve(name: Name, token: Token, policy: Policy, readOk: bool, writeOk: bool,
              userOk: bool, revokeOk: bool, deleteOk: bool)
    | Rotate(name: Name, token: Token, readOk: bool, writeOk: bool)
    | Revoke(name: Name, writeOk: bool)
    | PatchKey(name: Name, patch: Patch, readOk: bool, writeOk: bool)
    | ReloadRead(order: seq<Name>, readOk: bool)
    | ReloadApply
    | ProbeStore(name: Name, token: Token, policy: Policy, writeOk: bool)
    | ProbeLive(name: Name, token: Token, policy: Policy)
    | ProbeDrop(name: Name)
    | ProbeDelete(name: Name, deleteOk: bool)
    | Restart(order: seq<Name>, readOk: bool, undeletable: set<Name>)

  predicate IsProbeStep(l: Step) {
    l.ProbeStore? || l.ProbeLive? || l.ProbeDrop? || l.ProbeDelete?
  }

  /** Steps that replace the live keys by stored ones, or prepare to. */
  predicate IsLoad(l: Step) {
    l.ReloadRead? || l.ReloadApply? || l.Restart?
  }

  predicate Enabled(s: State, l: Step) {
    && (IsProbeStep(l) ==> Reserved(l.name))
    && (l.ReloadApply? <==> s.snapshot.Some? && !IsProbeStep(l) && !l.Restart?)
    && (l.ReloadRead? || l.Restart? ==> Lists(l.order, s.store))
  }

  /** persistKey: the store first, then the live state. */
  function Persist(s: State, name: Name, token: Token, policy: Policy, writeOk: bool): State {
    if !writeOk || token == "" then s
    else AddLive(s.(store := s.store[name := Record(token, policy, false)]), name, LiveKey(token, policy))
  }

  function StoreRevoke(s: State, name: Name, ok: bool): State {
    if ok && name in s.store then s.(store := s.store[name := s.store[name].(revoked := true)]) else s
  }

  function Create(s: State, name: Name, token: Token, policy: Policy, readOk: bool, writeOk: bool): State {
    if name == "" || Reserved(name) || !Acceptable(policy) || !readOk || name in s.store then s
    else Persist(s, name, token, policy, writeOk)
  }

  function Next(s: State, l: Step): State
    requires Enabled(s, l)
  {
    match l
    case Add(name, token, policy, readOk, writeOk) => Create(s, name, token, policy, readOk, writeOk)
    case Approve(name, token, policy, readOk, writeOk, userOk, revokeOk, deleteOk) =>
      if Reserved(name) || !readOk || name in s.store || !writeOk || token == "" then s
      else
        var s1 := Persist(s, name, token, policy, true);
        if userOk then s1
        else
          var s2 := StoreRevoke(RevokeLive(s1, name), name, revokeOk);
          if deleteOk then s2.(store := s2.store - {name}) else s2
    case Rotate(name, token, readOk, writeOk) =>
      if !readOk || name !in s.store || s.store[name].revoked then s
      else Persist(s, name, token, s.store[name].policy, writeOk)
    case Revoke(name, writeOk) => StoreRevoke(RevokeLive(s, name), name, writeOk)
    case PatchKey(name, patch, readOk, writeOk) =>
      if !AcceptablePatch(patch) || name !in s.byName || !readOk || (name in s.store && !writeOk) then s
      else
        var store := if name in s.store
                     then s.store[name := s.store[name].(policy := Patched(s.store[name].policy, patch))] else s.store;
        var k := s.byName[name];
        s.(store := store, byName := s.byName[name := k.(policy := Patched(k.policy, patch))])
    case ReloadRead(order, readOk) => if readOk then s.(snapshot := Some(Loaded(s.store, order, false))) else s
    case ReloadApply =>
      s.(byName := ByNameOf(s.snapshot.value), tokens := TokensOf(s.snapshot.value), snapshot := None)
    case ProbeStore(name, token, policy, writeOk) =>
      if writeOk && token != "" then s.(store := s.store[name := Record(token, policy, false)]) else s
    case ProbeLive(name, token, policy) => AddLive(s, name, LiveKey(token, policy))
    case ProbeDrop(name) => RevokeLive(s, name)
    case ProbeDelete(name, deleteOk) => if deleteOk then s.(store := s.store - {name}) else s
    case Restart(order, readOk, undeletable) => Restarted(s.store, order, readOk, undeletable)
  }

  /** A start sees nothing but the store. */
  function Restarted(store: map<Name, Record>, order: seq<Name>, readOk: bool, undeletable: set<Name>): State
    requires Lists(order, store)
  {
    if !readOk then State(store, map[], map[], None)
    else
      var ks := Loaded(store, order, true);
      State(WithoutProbes(store, undeletable), ByNameOf(ks), TokensOf(ks), None)
  }

  ghost predicate IsRun(s: State, ls: seq<Step>, s': State)
    decreases ls
  {
    if ls == [] then s == s' else Enabled(s, ls[0]) && IsRun(Next(s, ls[0]), ls[1..], s')
  }

  /** Before the first start: whatever an earlier run left in the store, and nothing live. */
  predicate Init(s: State) {
    s.byName == map[] && s.tokens == map[] && s.snapshot.None?
  }

  ghost predicate Reachable(s: State) {
    exists s0, ls :: Init(s0) && IsRun(s0, ls, s)
  }

  // ---------------------------------------------------------------- loading

  /** What the keys of a listing are: one per row that is not left out. */
  lemma {:induction false} LoadedMeaning(store: map<Name, Record>, order: seq<Name>, dropProbes: bool)
    requires forall n <- order :: n in store
    requires NoRepeats(order)
    ensures
      var live := ByNameOf(Loaded(store, order, dropProbes));
      && (forall n :: n in live <==>
            n in order && !store[n].revoked && !(dropProbes && IsEphemeralProbeKey(n, store[n])))
      && (forall n <- live :: n in store && live[n] == LiveKey(store[n].token, store[n].policy))
    ensures forall k <- Loaded(store, order, dropProbes) ::
              k.name in order && !store[k.name].revoked && k.live == LiveKey(store[k.name].token, store[k.name].policy)
  {
    if order != [] {
      var n, rest := order[|order| - 1], order[..|order| - 1];
      assert order == rest + [n];
      LoadedMeaning(store, rest, dropProbes);
      var ks := Loaded(store, rest, dropProbes);
      var k := Key(n, LiveKey(store[n].token, store[n].policy));
      assert (ks + [k])[..|ks|] == ks;
    }
  }

  lemma {:induction false} ByNameOfMeaning(ks: seq<Key>)
    ensures forall n <- ByNameOf(ks) :: exists k :: k in ks && k.name == n && k.live == ByNameOf(ks)[n]
  {
    if ks != [] {
      var rest := ks[..|ks| - 1];
      ByNameOfMeaning(rest);
      assert ks[|ks| - 1] in ks;
      forall n <- ByNameOf(ks)
        ensures exists k :: k in ks && k.name == n && k.live == ByNameOf(ks)[n]
      {
        if n != ks[|ks| - 1].name {
          assert n in ByNameOf(rest);
          var k :| k in rest && k.name == n && k.live == ByNameOf(rest)[n];
          assert k in ks;
        }
      }
    }
  }

  ghost predicate Backed(tokens: map<Token, Name>, live: map<Name, LiveKey>) {
    forall t <- tokens :: tokens[t] in live && live[tokens[t]].token == t
  }

  /** A token of a listing authenticates as a key that carries it. */
  lemma {:induction false} TokensOfBack(ks: seq<Key>)
    requires DistinctNames(ks)
    ensures Backed(TokensOf(ks), ByNameOf(ks))
  {
    if ks != [] {
      var rest, last := ks[..|ks| - 1], ks[|ks| - 1];
      TokensOfBack(rest);
      ByNameOfMeaning(rest);
      assert last.name !in ByNameOf(rest);
    }
  }

  lemma {:induction false} LoadedDistinct(store: map<Name, Record>, order: seq<Name>, dropProbes: bool)
    requires forall n <- order :: n in store
    requires NoRepeats(order)
    ensures DistinctNames(Loaded(store, order, dropProbes))
  {
    if order != [] {
      var rest := order[..|order| - 1];
      LoadedDistinct(store, rest, dropProbes);
      LoadedMeaning(store, rest, dropProbes);
      forall k <- Loaded(store, rest, dropProbes) ensures k.name != order[|order| - 1] {
        assert k.name in rest;
      }
    }
  }

  // ---------------------------------------------------------------- the invariant

  /** A live key has a stored record that is not revoked, with its token and limits. */
  predicate Durable(store: map<Name, Record>, n: Name, k: LiveKey) {
    n in store && store[n] == Record(k.token, k.policy, false)
  }

  ghost predicate LiveDurable(s: State) {
    && (forall n <- s.byName :: !Reserved(n) ==> Durable(s.store, n, s.byName[n]))
    && (s.snapshot.Some? ==>
          forall k <- s.snapshot.value :: !Reserved(k.name) ==> Durable(s.store, k.name, k.live))
  }

  /** Every token authenticates as a live key that carries it. */
  ghost predicate TokensBack(s: State) {
    && Backed(s.tokens, s.byName)
    && (s.snapshot.Some? ==> DistinctNames(s.snapshot.value))
  }

  ghost predicate Inv(s: State) {
    LiveDurable(s) && TokensBack(s)
  }

  lemma AddLiveKeepsTokens(s: State, name: Name, k: LiveKey)
    requires TokensBack(s)
    ensures TokensBack(AddLive(s, name, k))
  {
  }

  lemma RevokeLiveKeepsTokens(s: State, name: Name)
    requires TokensBack(s)
    ensures TokensBack(RevokeLive(s, name))
  {
  }

  lemma PersistKeepsInv(s: State, name: Name, token: Token, policy: Policy, writeOk: bool)
    requires Inv(s) && s.snapshot.None?
    ensures Inv(Persist(s, name, token, policy, writeOk))
  {
  }

  lemma RevokeKeepsInv(s: State, name: Name, ok: bool)
    requires Inv(s) && s.snapshot.None?
    ensures Inv(StoreRevoke(RevokeLive(s, name), name, ok))
    ensures name !in RevokeLive(s, name).byName
  {
  }

  lemma ApproveKeepsInv(s: State, l: Step)
    requires Inv(s) && l.Approve? && Enabled(s, l)
    ensures Inv(Next(s, l))
  {
    if !(Reserved(l.name) || !l.readOk || l.name in s.store || !l.writeOk || l.token == "") {
      PersistKeepsInv(s, l.name, l.token, l.policy, true);
      var s1 := Persist(s, l.name, l.token, l.policy, true);
      if !l.userOk {
        RevokeKeepsInv(s1, l.name, l.revokeOk);
      }
    }
  }

  lemma PatchKeepsInv(s: State, l: Step)
    requires Inv(s) && l.PatchKey? && Enabled(s, l)
    ensures Inv(Next(s, l))
  {
  }

  lemma ProbeKeepsInv(s: State, l: Step)
    requires Inv(s) && IsProbeStep(l) && Enabled(s, l)
    ensures Inv(Next(s, l))
  {
    match l
    case ProbeLive(name, token, policy) => AddLiveKeepsTokens(s, name, LiveKey(token, policy));
    case ProbeDrop(name) => RevokeLiveKeepsTokens(s, name);
    case _ =>
  }

  lemma ReadKeepsInv(s: State, order: seq<Name>, readOk: bool)
    requires Inv(s) && Enabled(s, ReloadRead(order, readOk))
    ensures Inv(Next(s, ReloadRead(order, readOk)))
  {
    LoadedMeaning(s.store, order, false);
    LoadedDistinct(s.store, order, false);
  }

  lemma ApplyKeepsInv(s: State)
    requires Inv(s) && Enabled(s, ReloadApply)
    ensures Inv(Next(s, ReloadApply))
  {
    ByNameOfMeaning(s.snapshot.value);
    TokensOfBack(s.snapshot.value);
  }

  lemma RestartKeepsInv(s: State, order: seq<Name>, readOk: bool, undeletable: set<Name>)
    requires Inv(s) && Enabled(s, Restart(order, readOk, undeletable))
    ensures Inv(Next(s, Restart(order, readOk, undeletable)))
  {
    LoadedMeaning(s.store, order, true);
    LoadedDistinct(s.store, order, true);
    TokensOfBack(Loaded(s.store, order, true));
  }

  /** Every step, with every choice of failing store calls, keeps the invariant. */
  lemma StepKeepsInv(s: State, l: Step)
    requires Inv(s) && Enabled(s, l)
    ensures Inv(Next(s, l))
  {
    match l
    case Add(name, token, policy, _, writeOk) => PersistKeepsInv(s, name, token, policy, writeOk);
    case Approve(_, _, _, _, _, _, _, _) => ApproveKeepsInv(s, l);
    case Rotate(name, token, _, writeOk) =>
      if name in s.store {
        PersistKeepsInv(s, name, token, s.store[name].policy, writeOk);
      }
    case Revoke(name, writeOk) => RevokeKeepsInv(s, name, writeOk);
    case PatchKey(_, _, _, _) => PatchKeepsInv(s, l);
    case ProbeStore(_, _, _, _) => ProbeKeepsInv(s, l);
    case ProbeLive(_, _, _) => ProbeKeepsInv(s, l);
    case ProbeDrop(_) => ProbeKeepsInv(s, l);
    case ProbeDelete(_, _) => ProbeKeepsInv(s, l);
    case ReloadRead(order, readOk) => ReadKeepsInv(s, order, readOk);
    case ReloadApply => ApplyKeepsInv(s);
    case Restart(order, readOk, undeletable) => RestartKeepsInv(s, order, readOk, undeletable);
  }

  lemma {:induction false} RunKeepsInv(s: State, ls: seq<Step>, s': State)
    requires Inv(s) && IsRun(s, ls, s')
    ensures Inv(s')
    decreases ls
  {
    if ls != [] {
      StepKeepsInv(s, ls[0]);
      RunKeepsInv(Next(s, ls[0]), ls[1..], s');
    }
  }

  lemma ReachableInv(s: State)
    requires Reachable(s)
    ensures Inv(s)
  {
    var s0, ls :| Init(s0) && IsRun(s0, ls, s);
    RunKeepsInv(s0, ls, s);
  }

  // ---------------------------------------------------------------- live keys are durable

  /**
   In every reachable state, whatever store calls failed, a live operator key has a
   stored record that is not revoked, with the same token and limits; and a token
   that authenticates does so as a live key that carries it.
   */
  lemma LiveKeysAreDurable(s: State, n: Name)
    requires Reachable(s) && n in s.byName && !Reserved(n)
    ensures Durable(s.store, n, s.byName[n])
    ensures forall t :: t in s.tokens && s.tokens[t] == n ==> t == s.byName[n].token
  {
    ReachableInv(s);
  }

  /** So a restart that can read the store never loses a working operator key, nor changes it. */
  lemma RestartLosesNoKey(s: State, order: seq<Name>, undeletable: set<Name>, n: Name)
    requires Reachable(s) && n in s.byName && !Reserved(n) && Lists(order, s.store)
    ensures
      var s' := Next(s, Restart(order, true, undeletable));
      n in s'.byName && s'.byName[n] == s.byName[n]
  {
    ReachableInv(s);
    LoadedMeaning(s.store, order, true);
  }

  // ---------------------------------------------------------------- revocation is final

  ghost predicate Gone(s: State, n: Name) {
    && n in s.store && s.store[n].revoked
    && n !in s.byName
    && (s.snapshot.Some? ==> forall k <- s.snapshot.value :: k.name != n)
  }

  lemma OtherStepKeepsGone(s: State, l: Step, n: Name)
    requires Gone(s, n) && !Reserved(n) && Enabled(s, l) && !IsLoad(l)
    ensures Gone(Next(s, l), n)
  {
  }

  lemma StepKeepsGone(s: State, l: Step, n: Name)
    requires Gone(s, n) && !Reserved(n) && Enabled(s, l)
    ensures Gone(Next(s, l), n)
  {
    match l
    case ReloadRead(order, readOk) => LoadedMeaning(s.store, order, false);
    case ReloadApply => ByNameOfMeaning(s.snapshot.value);
    case Restart(order, readOk, undeletable) => LoadedMeaning(s.store, order, true);
    case _ => OtherStepKeepsGone(s, l, n);
  }

  lemma {:induction false} RunKeepsGone(s: State, ls: seq<Step>, s': State, n: Name)
    requires Gone(s, n) && !Reserved(n) && IsRun(s, ls, s')
    ensures Gone(s', n)
    decreases ls
  {
    if ls != [] {
      StepKeepsGone(s, ls[0], n);
      RunKeepsGone(Next(s, ls[0]), ls[1..], s', n);
    }
  }

  ghost predicate NeverLiveAgain(s: State, n: Name) {
    forall ls, s' :: IsRun(s, ls, s') ==> n !in s'.byName
  }

  const AnyPolicy: Policy := Policy(0, 0, 0, 0.0, 0.0, [], "", false, false)

  /**
   Revocation is final: after a revoke that reported success, no later run, with any
   failures, makes the name live again, exactly when there was a record to revoke.
   */
  lemma RevocationIsFinal(s: State, n: Name)
    requires Reachable(s) && s.snapshot.None? && n != "" && !Reserved(n)
    ensures NeverLiveAgain(Next(s, Revoke(n, true)), n) <==> n in s.store
  {
    var s1 := Next(s, Revoke(n, true));
    if n in s.store {
      forall ls, s' | IsRun(s1, ls, s')
        ensures n !in s'.byName
      {
        RunKeepsGone(s1, ls, s', n);
      }
    } else {
      var l := Add(n, "t", AnyPolicy, true, true);
      assert IsRun(s1, [l], Next(s1, l));
      assert n in Next(s1, l).byName;
    }
  }

  /** And a revoke whose durable write failed is undone by the next reload. */
  lemma UnsavedRevokeReturns(s: State, n: Name, order: seq<Name>)
    requires Reachable(s) && s.snapshot.None? && n in s.byName && !Reserved(n) && Lists(order, s.store)
    ensures
      var s1 := Next(s, Revoke(n, false));
      var s2 := Next(s1, ReloadRead(order, true));
      n !in s1.byName && n in Next(s2, ReloadApply).byName
  {
    ReachableInv(s);
    ReloadLists(s.store, order, n);
  }

  lemma ReloadLists(store: map<Name, Record>, order: seq<Name>, n: Name)
    requires Lists(order, store) && n in store && !store[n].revoked
    ensures n in ByNameOf(Loaded(store, order, false))
  {
    LoadedMeaning(store, order, false);
  }

  // ---------------------------------------------------------------- tokens

  /** Every live key is reached by its own token. */
  ghost predicate TokensReach(s: State) {
    forall n <- s.byName :: s.byName[n].token in s.tokens && s.tokens[s.byName[n].token] == n
  }

  /**
   A key added with a token of its own leaves every live key reachable by its own
   token; one added with a token another live key holds takes that token away.
   */
  lemma AddKeepsTokensIff(s: State, name: Name, token: Token, policy: Policy)
    requires Inv(s) && s.snapshot.None? && TokensReach(s)
    requires name != "" && !Reserved(name) && Acceptable(policy) && token != "" && name !in s.store
    ensures
      var s' := Next(s, Add(name, token, policy, true, true));
      TokensReach(s') <==> forall m <- s.byName :: s.byName[m].token != token
  {
    var s' := Next(s, Add(name, token, policy, true, true));
    assert s'.byName[name].token == token;
    if m :| m in s.byName && s.byName[m].token == token {
      assert m in s'.byName && s'.tokens[token] == name;
    }
  }

  /** `n` holds token `t`: in a row that is not revoked, live, or in a reload under way. */
  ghost predicate Holds(s: State, n: Name, t: Token) {
    || (n in s.store && !s.store[n].revoked && s.store[n].token == t)
    || (n in s.byName && s.byName[n].token == t)
    || (s.snapshot.Some? && exists k :: k in s.snapshot.value && k.name == n && k.live.token == t)
  }

  ghost predicate OneHolder(s: State) {
    forall m, n, t :: Holds(s, m, t) && Holds(s, n, t) ==> m == n
  }

  predicate BringsToken(l: Step) {
    l.Add? || l.Approve? || l.Rotate? || l.ProbeStore? || l.ProbeLive?
  }

  /** A step that brings in a token brings one that no other key holds. */
  ghost predicate Fresh(s: State, l: Step) {
    BringsToken(l) ==> forall m :: Holds(s, m, l.token) ==> m == l.name
  }

  ghost predicate FreshRun(s: State, ls: seq<Step>)
    decreases ls
  {
    ls != [] ==> Fresh(s, ls[0]) && (Enabled(s, ls[0]) ==> FreshRun(Next(s, ls[0]), ls[1..]))
  }

  lemma {:induction false} TokensOfReach(ks: seq<Key>)
    requires DistinctNames(ks)
    requires forall i, j :: 0 <= i < j < |ks| ==> ks[i].live.token != ks[j].live.token
    ensures forall n <- ByNameOf(ks) ::
              ByNameOf(ks)[n].token in TokensOf(ks) && TokensOf(ks)[ByNameOf(ks)[n].token] == n
  {
    if ks != [] {
      var rest, last := ks[..|ks| - 1], ks[|ks| - 1];
      TokensOfReach(rest);
      ByNameOfMeaning(rest);
    }
  }

  lemma ReadBringsNoToken(s: State, order: seq<Name>, readOk: bool, n: Name, t: Token)
    requires Enabled(s, ReloadRead(order, readOk)) && Holds(Next(s, ReloadRead(order, readOk)), n, t)
    ensures Holds(s, n, t)
  {
    LoadedMeaning(s.store, order, false);
  }

  lemma ApplyBringsNoToken(s: State, n: Name, t: Token)
    requires Enabled(s, ReloadApply) && Holds(Next(s, ReloadApply), n, t)
    ensures Holds(s, n, t)
  {
    ByNameOfMeaning(s.snapshot.value);
  }

  lemma RestartBringsNoToken(s: State, order: seq<Name>, readOk: bool, undeletable: set<Name>, n: Name, t: Token)
    requires Enabled(s, Restart(order, readOk, undeletable)) && Holds(Next(s, Restart(order, readOk, undeletable)), n, t)
    ensures Holds(s, n, t)
  {
    LoadedMeaning(s.store, order, true);
  }

  lemma OtherStepBringsItsToken(s: State, l: Step, n: Name, t: Token)
    requires Enabled(s, l) && !IsLoad(l) && Holds(Next(s, l), n, t)
    ensures Holds(s, n, t) || (BringsToken(l) && n == l.name && t == l.token)
  {
  }

  /** A step never makes a key hold a token it did not hold, except the one it brings in. */
  lemma HoldersOnlyGrowByToken(s: State, l: Step, n: Name, t: Token)
    requires Enabled(s, l) && Holds(Next(s, l), n, t)
    ensures Holds(s, n, t) || (BringsToken(l) && n == l.name && t == l.token)
  {
    match l
    case ReloadRead(order, readOk) => ReadBringsNoToken(s, order, readOk, n, t);
    case ReloadApply => ApplyBringsNoToken(s, n, t);
    case Restart(order, readOk, undeletable) => RestartBringsNoToken(s, order, readOk, undeletable, n, t);
    case _ => OtherStepBringsItsToken(s, l, n, t);
  }

  lemma StepKeepsOneHolder(s: State, l: Step)
    requires OneHolder(s) && Enabled(s, l) && Fresh(s, l)
    ensures OneHolder(Next(s, l))
  {
    forall m, n, t | Holds(Next(s, l), m, t) && Holds(Next(s, l), n, t)
      ensures m == n
    {
      HoldersOnlyGrowByToken(s, l, m, t);
      HoldersOnlyGrowByToken(s, l, n, t);
    }
  }

  lemma SnapshotReaches(s: State, ks: seq<Key>)
    requires OneHolder(s) && DistinctNames(ks)
    requires forall k <- ks :: Holds(s, k.name, k.live.token)
    ensures forall n <- ByNameOf(ks) ::
              ByNameOf(ks)[n].token in TokensOf(ks) && TokensOf(ks)[ByNameOf(ks)[n].token] == n
  {
    forall i, j | 0 <= i < j < |ks|
      ensures ks[i].live.token != ks[j].live.token
    {
      assert ks[i] in ks && ks[j] in ks;
      assert ks[i].name != ks[j].name;
    }
    TokensOfReach(ks);
  }

  lemma AddLiveKeepsReach(s: State, name: Name, k: LiveKey)
    requires TokensReach(s) && forall m <- s.byName :: s.byName[m].token == k.token ==> m == name
    ensures TokensReach(AddLive(s, name, k))
  {
  }

  lemma RevokeLiveKeepsReach(s: State, name: Name)
    requires TokensReach(s)
    ensures TokensReach(RevokeLive(s, name))
  {
  }

  lemma FreshAmongLive(s: State, l: Step, m: Name)
    requires Fresh(s, l) && BringsToken(l) && m in s.byName && s.byName[m].token == l.token
    ensures m == l.name
  {
    assert Holds(s, m, l.token);
  }

  /** Steps that store a key before making it live. */
  predicate IsCreation(l: Step) {
    l.Add? || l.Approve? || l.Rotate?
  }

  lemma CreationKeepsReach(s: State, l: Step)
    requires TokensReach(s) && Enabled(s, l) && Fresh(s, l) && IsCreation(l)
    ensures TokensReach(Next(s, l))
  {
    forall m <- s.byName ensures s.byName[m].token == l.token ==> m == l.name {
      if s.byName[m].token == l.token {
        FreshAmongLive(s, l, m);
      }
    }
    var policy := if l.Rotate? then (if l.name in s.store then s.store[l.name].policy else AnyPolicy) else l.policy;
    var k := LiveKey(l.token, policy);
    var s1 := s.(store := s.store[l.name := Record(l.token, policy, false)]);
    AddLiveKeepsReach(s1, l.name, k);
    RevokeLiveKeepsReach(AddLive(s1, l.name, k), l.name);
  }

  lemma LiveStepKeepsReach(s: State, l: Step)
    requires TokensReach(s) && Enabled(s, l) && Fresh(s, l)
    requires !l.ReloadApply? && !l.Restart?
    ensures TokensReach(Next(s, l))
  {
    if IsCreation(l) {
      CreationKeepsReach(s, l);
    } else if l.ProbeLive? {
      forall m <- s.byName ensures s.byName[m].token == l.token ==> m == l.name {
        if s.byName[m].token == l.token {
          FreshAmongLive(s, l, m);
        }
      }
      AddLiveKeepsReach(s, l.name, LiveKey(l.token, l.policy));
    } else if l.Revoke? || l.ProbeDrop? {
      RevokeLiveKeepsReach(s, l.name);
    }
  }

  lemma StepKeepsReach(s: State, l: Step)
    requires Inv(s) && OneHolder(s) && TokensReach(s) && Enabled(s, l) && Fresh(s, l)
    ensures TokensReach(Next(s, l))
  {
    if l.ReloadApply? {
      SnapshotReaches(s, s.snapshot.value);
    } else if l.Restart? {
      LoadedMeaning(s.store, l.order, true);
      LoadedDistinct(s.store, l.order, true);
      SnapshotReaches(s, Loaded(s.store, l.order, true));
    } else {
      LiveStepKeepsReach(s, l);
    }
  }

  /**
   As long as no step brings in a token another key holds, every live key stays
   reachable by its own token through all reloads, restarts and failures.
   */
  lemma {:induction false} FreshTokensReach(s: State, ls: seq<Step>, s': State)
    requires Inv(s) && OneHolder(s) && TokensReach(s) && IsRun(s, ls, s') && FreshRun(s, ls)
    ensures TokensReach(s')
    decreases ls
  {
    if ls != [] {
      StepKeepsInv(s, ls[0]);
      StepKeepsOneHolder(s, ls[0]);
      StepKeepsReach(s, ls[0]);
      FreshTokensReach(Next(s, ls[0]), ls[1..], s');
    }
  }

  // ---------------------------------------------------------------- probe keys

  /**
   For probe keys durability fails, whenever a probe ends between the two halves of a
   reload: it is live again afterwards, with no record in the store.
   */
  lemma ProbeKeyOutlivesItsRecord(s: State, n: Name, order: seq<Name>)
    requires Inv(s) && s.snapshot.None? && Lists(order, s.store)
    requires Reserved(n) && n in s.store && !s.store[n].revoked
    ensures
      var s1 := Next(s, ReloadRead(order, true));
      var s2 := Next(s1, ProbeDrop(n));
      var s3 := Next(s2, ProbeDelete(n, true));
      var s4 := Next(s3, ReloadApply);
      n in s4.byName && n !in s4.store
  {
    ReloadLists(s.store, order, n);
  }

  /** Every live key, probe keys included, and every key a reload is about to make live, is durable. */
  ghost predicate AllDurable(s: State) {
    && (forall n <- s.byName :: Durable(s.store, n, s.byName[n]))
    && (s.snapshot.Some? ==> forall k <- s.snapshot.value :: Durable(s.store, k.name, k.live))
  }

  /** `n` is neither live nor about to become so. */
  predicate Unused(s: State, n: Name) {
    n !in s.byName && (s.snapshot.Some? ==> forall k <- s.snapshot.value :: k.name != n)
  }

  /** Whatever is live, or about to be, under the name is this key. */
  predicate AsLive(s: State, n: Name, key: LiveKey) {
    && (n in s.byName ==> s.byName[n] == key)
    && (s.snapshot.Some? ==> forall k <- s.snapshot.value :: k.name == n ==> k.live == key)
  }

  /**
   A probe step that is safe: it stores nothing that differs from what is live, goes live
   only with its record stored, and is deleted only once neither the live keys nor a
   reload under way hold it.
   */
  predicate Careful(s: State, l: Step) {
    match l
    case ProbeStore(name, token, policy, writeOk) => writeOk && token != "" ==> AsLive(s, name, LiveKey(token, policy))
    case ProbeLive(name, token, policy) => Durable(s.store, name, LiveKey(token, policy))
    case ProbeDelete(name, deleteOk) => deleteOk ==> Unused(s, name)
    case _ => true
  }

  /** That is exactly what durability asks of it. */
  lemma ProbeKeepsDurableIff(s: State, l: Step)
    requires AllDurable(s) && IsProbeStep(l) && Enabled(s, l)
    ensures AllDurable(Next(s, l)) <==> Careful(s, l)
  {
    match l
    case ProbeStore(name, token, policy, writeOk) => StoreKeepsDurableIff(s, name, Record(token, policy, false));
    case ProbeLive(name, token, policy) =>
      assert name in Next(s, l).byName;
    case ProbeDrop(name) =>
    case ProbeDelete(name, deleteOk) => DeleteKeepsDurableIff(s, name);
  }

  lemma StoreKeepsDurableIff(s: State, n: Name, r: Record)
    requires AllDurable(s) && !r.revoked
    ensures AllDurable(s.(store := s.store[n := r])) <==> AsLive(s, n, LiveKey(r.token, r.policy))
  {
    var t := s.(store := s.store[n := r]);
    assert forall m, k :: m != n ==> (Durable(t.store, m, k) <==> Durable(s.store, m, k));
    assert forall k :: Durable(t.store, n, k) <==> k == LiveKey(r.token, r.policy);
  }

  lemma DeleteKeepsDurableIff(s: State, n: Name)
    requires AllDurable(s)
    ensures AllDurable(s.(store := s.store - {n})) <==> Unused(s, n)
  {
    var t := s.(store := s.store - {n});
    assert forall m, k :: m != n ==> (Durable(t.store, m, k) <==> Durable(s.store, m, k));
    assert forall k :: !Durable(t.store, n, k);
  }

  lemma LoadKeepsDurable(s: State, l: Step)
    requires AllDurable(s) && IsLoad(l) && Enabled(s, l)
    ensures AllDurable(Next(s, l))
  {
    match l
    case ReloadRead(order, readOk) => LoadedMeaning(s.store, order, false);
    case ReloadApply => ByNameOfMeaning(s.snapshot.value);
    case Restart(order, readOk, undeletable) => RestartIsDurable(s, order, readOk, undeletable);
  }

  lemma RestartIsDurable(s: State, order: seq<Name>, readOk: bool, undeletable: set<Name>)
    requires Lists(order, s.store)
    ensures AllDurable(Next(s, Restart(order, readOk, undeletable)))
  {
    LoadedMeaning(s.store, order, true);
  }

  lemma HandlerKeepsDurable(s: State, l: Step)
    requires AllDurable(s) && !IsLoad(l) && !IsProbeStep(l) && Enabled(s, l)
    ensures AllDurable(Next(s, l))
  {
  }

  ghost predicate CarefulRun(s: State, ls: seq<Step>)
    decreases ls
  {
    ls != [] ==> Careful(s, ls[0]) && (Enabled(s, ls[0]) ==> CarefulRun(Next(s, ls[0]), ls[1..]))
  }

  /** With careful probes every live key is durable, probe keys too, whatever else happens and fails. */
  lemma {:induction false} CarefulProbesStayDurable(s: State, ls: seq<Step>, s': State)
    requires AllDurable(s) && IsRun(s, ls, s') && CarefulRun(s, ls)
    ensures AllDurable(s')
    decreases ls
  {
    if ls != [] {
      if IsProbeStep(ls[0]) {
        ProbeKeepsDurableIff(s, ls[0]);
      } else if IsLoad(ls[0]) {
        LoadKeepsDurable(s, ls[0]);
      } else {
        HandlerKeepsDurable(s, ls[0]);
      }
      CarefulProbesStayDurable(Next(s, ls[0]), ls[1..], s');
    }
  }

  /** A probe that lives and ends without a reload in between is careful all the way. */
  lemma UndisturbedProbeIsCareful(s: State, n: Name, token: Token, policy: Policy, deleteOk: bool)
    requires s.snapshot.None? && Reserved(n) && n !in s.byName && token != ""
    ensures
      var stored := Next(s, ProbeStore(n, token, policy, true));
      var live := Next(stored, ProbeLive(n, token, policy));
      var dropped := Next(live, ProbeDrop(n));
      && Careful(s, ProbeStore(n, token, policy, true)) && Careful(stored, ProbeLive(n, token, policy))
      && Careful(live, ProbeDrop(n)) && Careful(dropped, ProbeDelete(n, deleteOk))
  {
  }

  // ---------------------------------------------------------------- a kill inside a handler

  predicate IsHandler(l: Step) {
    l.Add? || l.Approve? || l.Rotate? || l.Revoke? || l.PatchKey?
  }

  /** Approval saves the key and, when the user cannot be updated, takes it back in two more writes. */
  function ApprovalStores(s: State, name: Name, token: Token, policy: Policy, userOk: bool, revokeOk: bool, deleteOk: bool)
      : seq<map<Name, Record>>
  {
    var saved := s.store[name := Record(token, policy, false)];
    var revoked := if revokeOk then s.store[name := Record(token, policy, true)] else saved;
    [s.store, saved] + if userOk then [] else [revoked, if deleteOk then revoked - {name} else revoked]
  }

  /** The stores a handler leaves one after the other, between its live changes. */
  function StoresDuring(s: State, l: Step): seq<map<Name, Record>>
    requires IsHandler(l) && Enabled(s, l)
  {
    match l
    case Approve(name, token, policy, readOk, writeOk, userOk, revokeOk, deleteOk) =>
      if Reserved(name) || !readOk || name in s.store || !writeOk || token == "" then [s.store]
      else ApprovalStores(s, name, token, policy, userOk, revokeOk, deleteOk)
    case _ => [s.store, Next(s, l).store]
  }

  /** The handler with its calls failing in such a way that it ends with the `i`th of those stores. */
  function CutShort(l: Step, i: nat): Step
    requires IsHandler(l)
  {
    match l
    case Approve(name, token, policy, readOk, writeOk, userOk, revokeOk, deleteOk) =>
      Approve(name, token, policy, readOk, writeOk && i > 0, userOk || i == 1, revokeOk, deleteOk && i != 2)
    case Add(name, token, policy, readOk, writeOk) => Add(name, token, policy, readOk, writeOk && i > 0)
    case Rotate(name, token, readOk, writeOk) => Rotate(name, token, readOk, writeOk && i > 0)
    case Revoke(name, writeOk) => Revoke(name, writeOk && i > 0)
    case PatchKey(name, patch, readOk, writeOk) => PatchKey(name, patch, readOk, writeOk && i > 0)
  }

  lemma CutShortStore(s: State, l: Step, i: nat)
    requires IsHandler(l) && !l.Approve? && Enabled(s, l) && i < |StoresDuring(s, l)|
    ensures Next(s, CutShort(l, i)).store == StoresDuring(s, l)[i]
  {
  }

  predicate ApprovalProceeds(s: State, l: Step)
    requires l.Approve?
  {
    !Reserved(l.name) && l.readOk && l.name !in s.store && l.writeOk && l.token != ""
  }

  /** An approval that runs to its end leaves the last of its stores. */
  lemma ApprovalEnds(s: State, l: Step)
    requires l.Approve? && Enabled(s, l) && ApprovalProceeds(s, l)
    ensures
      var stores := ApprovalStores(s, l.name, l.token, l.policy, l.userOk, l.revokeOk, l.deleteOk);
      Next(s, l).store == stores[|stores| - 1]
  {
    var saved := Persist(s, l.name, l.token, l.policy, true);
    assert RevokeLive(saved, l.name).store == saved.store;
  }

  lemma CutShortApproval(s: State, l: Step, i: nat)
    requires l.Approve? && Enabled(s, l) && i < |StoresDuring(s, l)|
    ensures Next(s, CutShort(l, i)).store == StoresDuring(s, l)[i]
  {
    if ApprovalProceeds(s, l) && i > 0 {
      ApprovalEnds(s, CutShort(l, i));
    }
  }

  /**
   A process killed between a store write and the live change, or between two store
   writes, starts again as if a handler had run to its end with some of its calls
   failing: what holds of all runs holds after such a kill.
   */
  lemma KillInsideHandlerIsARun(s: State, l: Step, i: nat, order: seq<Name>, readOk: bool, undeletable: set<Name>)
    requires IsHandler(l) && Enabled(s, l) && i < |StoresDuring(s, l)| && Lists(order, StoresDuring(s, l)[i])
    ensures exists ended ::
              && IsHandler(ended) && Enabled(s, ended) && Enabled(Next(s, ended), Restart(order, readOk, undeletable))
              && Next(Next(s, ended), Restart(order, readOk, undeletable)) == Restarted(StoresDuring(s, l)[i], order, readOk, undeletable)
  {
    var ended := CutShort(l, i);
    assert IsHandler(ended) && Enabled(s, ended);
    if l.Approve? {
      CutShortApproval(s, l, i);
    } else {
      CutShortStore(s, l, i);
    }
  }
}
