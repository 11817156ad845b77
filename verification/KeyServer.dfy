/** The key handlers and the start-up load, as they change the store and the live maps. */
module KeyServer {
  import opened Options
  import opened ApiKeys

  datatype Status = Ok | Created | BadRequest | NotFound | Conflict | ServerError | RevokedLiveOnly

  /** What one row does at start: a probe key is dropped, a revoked key skipped, any other made live. */
  function LoadRow(s: State, name: Name, r: Record, undeletable: set<Name>): State {
    if IsEphemeralProbeKey(name, r) then
      if name in undeletable then s else s.(store := s.store - {name})
    else if r.revoked then s
    else s.(byName := s.byName[name := LiveKey(r.token, r.policy)], tokens := s.tokens[r.token := name])
  }

  function LoadRows(rows: map<Name, Record>, order: seq<Name>, undeletable: set<Name>): State
    requires forall n <- order :: n in rows
  {
    if order == [] then State(rows, map[], map[], None)
    else
      var n := order[|order| - 1];
      LoadRow(LoadRows(rows, order[..|order| - 1], undeletable), n, rows[n], undeletable)
  }

  /** What a further key does to the live maps. */
  lemma LiveSnoc(ks: seq<Key>, k: Key)
    ensures ByNameOf(ks + [k]) == ByNameOf(ks)[k.name := k.live]
    ensures TokensOf(ks + [k]) == TokensOf(ks)[k.live.token := k.name]
  {
    assert (ks + [k])[..|ks|] == ks;
  }

  /** Row by row, the start-up load is a filtered listing applied to empty maps. */
  lemma {:induction false} LoadRowsLive(rows: map<Name, Record>, order: seq<Name>, undeletable: set<Name>)
    requires forall n <- order :: n in rows
    ensures
      var s := LoadRows(rows, order, undeletable);
      && s.byName == ByNameOf(Loaded(rows, order, true)) && s.tokens == TokensOf(Loaded(rows, order, true))
      && s.snapshot.None?
  {
    if order != [] {
      var rest, n := order[..|order| - 1], order[|order| - 1];
      LoadRowsLive(rows, rest, undeletable);
      var ks, k := Loaded(rows, rest, true), Key(n, LiveKey(rows[n].token, rows[n].policy));
      if rows[n].revoked || IsEphemeralProbeKey(n, rows[n]) {
        assert Loaded(rows, order, true) == ks;
      } else {
        assert Loaded(rows, order, true) == ks + [k];
        LiveSnoc(ks, k);
      }
    }
  }

  lemma {:induction false} LoadRowsNames(rows: map<Name, Record>, order: seq<Name>, undeletable: set<Name>)
    requires forall n <- order :: n in rows
    ensures forall m <- LoadRows(rows, order, undeletable).byName :: m in order
  {
    if order != [] {
      LoadRowsNames(rows, order[..|order| - 1], undeletable);
    }
  }

  lemma {:induction false} LoadRowsStore(rows: map<Name, Record>, order: seq<Name>, undeletable: set<Name>)
    requires forall n <- order :: n in rows
    ensures
      var s := LoadRows(rows, order, undeletable);
      && (forall m :: m in s.store <==>
            m in rows && !(m in order && IsEphemeralProbeKey(m, rows[m]) && m !in undeletable))
      && (forall m <- s.store :: s.store[m] == rows[m])
  {
    if order != [] {
      var rest := order[..|order| - 1];
      LoadRowsStore(rows, rest, undeletable);
      assert order == rest + [order[|order| - 1]];
    }
  }

  lemma LoadRowsIsRestart(s: State, order: seq<Name>, undeletable: set<Name>)
    requires Lists(order, s.store)
    ensures LoadRows(s.store, order, undeletable) == Next(s, Restart(order, true, undeletable))
  {
    LoadRowsLive(s.store, order, undeletable);
    LoadRowsStore(s.store, order, undeletable);
    assert LoadRows(s.store, order, undeletable).store == WithoutProbes(s.store, undeletable);
  }

  lemma {:induction false} TokensOfAll(ks: seq<Key>)
    requires DistinctNames(ks)
    ensures forall n <- ByNameOf(ks) :: ByNameOf(ks)[n].token in TokensOf(ks)
  {
    if ks != [] {
      TokensOfAll(ks[..|ks| - 1]);
    }
  }

  /** The shape every probe key is made with, spelled out. */
  predicate LooksLikeProbe(name: Name, r: Record) {
    && ("benchmark-" <= name || "pull-verify-" <= name)
    && !r.revoked && r.policy.localOnly && !r.policy.allowLocalDegradation
    && r.policy.expiresAt != "" && |r.policy.models| == 1
    && r.policy.rateLimit == r.policy.dailyLimit == r.policy.monthlyLimit == 0
    && r.policy.dailyUsdCap == r.policy.monthlyUsdCap == 0.0
  }

  /** What a start makes of the store: probes dropped where possible, revoked keys not live, all others as stored. */
  lemma RestartEffect(s: State, order: seq<Name>, undeletable: set<Name>)
    requires Lists(order, s.store)
    ensures
      var t := Next(s, Restart(order, true, undeletable));
      && (forall m :: m in t.byName <==> m in s.store && !s.store[m].revoked && !LooksLikeProbe(m, s.store[m]))
      && (forall m <- t.byName :: t.byName[m] == LiveKey(s.store[m].token, s.store[m].policy))
      && (forall m :: m in t.store <==> m in s.store && (!LooksLikeProbe(m, s.store[m]) || m in undeletable))
  {
    LoadedMeaning(s.store, order, true);
    assert forall m, r :: LooksLikeProbe(m, r) <==> IsEphemeralProbeKey(m, r);
  }

  predicate Negative(patch: Patch) {
    || (patch.rateLimit.Some? && patch.rateLimit.value < 0)
    || (patch.dailyLimit.Some? && patch.dailyLimit.value < 0)
    || (patch.monthlyLimit.Some? && patch.monthlyLimit.value < 0)
    || (patch.dailyUsdCap.Some? && patch.dailyUsdCap.value < 0.0)
    || (patch.monthlyUsdCap.Some? && patch.monthlyUsdCap.value < 0.0)
  }

  /** Field by field: what the patch names has the patch's value, anything else its old one. */
  predicate TakesPatch(before: Policy, patch: Patch, after: Policy) {
    && after.rateLimit == (if patch.rateLimit.Some? then patch.rateLimit.value else before.rateLimit)
    && after.dailyLimit == (if patch.dailyLimit.Some? then patch.dailyLimit.value else before.dailyLimit)
    && after.monthlyLimit == (if patch.monthlyLimit.Some? then patch.monthlyLimit.value else before.monthlyLimit)
    && after.dailyUsdCap == (if patch.dailyUsdCap.Some? then patch.dailyUsdCap.value else before.dailyUsdCap)
    && after.monthlyUsdCap == (if patch.monthlyUsdCap.Some? then patch.monthlyUsdCap.value else before.monthlyUsdCap)
    && after.models == (if patch.models.Some? then patch.models.value else before.models)
    && after.expiresAt == (if patch.expiresAt.Some? then patch.expiresAt.value else before.expiresAt)
    && after.localOnly == (if patch.localOnly.Some? then patch.localOnly.value else before.localOnly)
    && after.allowLocalDegradation == (if patch.allowLocalDegradation.Some? then patch.allowLocalDegradation.value else before.allowLocalDegradation)
  }

  /** Sets the limits a patch names. */
  method PatchLimits(before: Policy, patch: Patch) returns (after: Policy)
    ensures after.rateLimit == if patch.rateLimit.Some? then patch.rateLimit.value else before.rateLimit
    ensures after.dailyLimit == if patch.dailyLimit.Some? then patch.dailyLimit.value else before.dailyLimit
    ensures after.monthlyLimit == if patch.monthlyLimit.Some? then patch.monthlyLimit.value else before.monthlyLimit
    ensures after.dailyUsdCap == if patch.dailyUsdCap.Some? then patch.dailyUsdCap.value else before.dailyUsdCap
    ensures after.monthlyUsdCap == if patch.monthlyUsdCap.Some? then patch.monthlyUsdCap.value else before.monthlyUsdCap
    ensures after.models == before.models && after.expiresAt == before.expiresAt && after.localOnly == before.localOnly && after.allowLocalDegradation == before.allowLocalDegradation
  {
    var rateLimit := before.rateLimit;
    if patch.rateLimit.Some? {
      rateLimit := patch.rateLimit.value;
    }
    var dailyLimit := before.dailyLimit;
    if patch.dailyLimit.Some? {
      dailyLimit := patch.dailyLimit.value;
    }
    var monthlyLimit := before.monthlyLimit;
    if patch.monthlyLimit.Some? {
      monthlyLimit := patch.monthlyLimit.value;
    }
    var dailyUsdCap := before.dailyUsdCap;
    if patch.dailyUsdCap.Some? {
      dailyUsdCap := patch.dailyUsdCap.value;
    }
    var monthlyUsdCap := before.monthlyUsdCap;
    if patch.monthlyUsdCap.Some? {
      monthlyUsdCap := patch.monthlyUsdCap.value;
    }
    after := before.(rateLimit := rateLimit, dailyLimit := dailyLimit, monthlyLimit := monthlyLimit, dailyUsdCap := dailyUsdCap, monthlyUsdCap := monthlyUsdCap);
  }

  /** Sets what a key may reach, where the patch names it. */
  method PatchAccess(before: Policy, patch: Patch) returns (after: Policy)
    ensures after.models == if patch.models.Some? then patch.models.value else before.models
    ensures after.expiresAt == if patch.expiresAt.Some? then patch.expiresAt.value else before.expiresAt
    ensures after.localOnly == if patch.localOnly.Some? then patch.localOnly.value else before.localOnly
    ensures after.allowLocalDegradation == if patch.allowLocalDegradation.Some? then patch.allowLocalDegradation.value else before.allowLocalDegradation
    ensures after.rateLimit == before.rateLimit && after.dailyLimit == before.dailyLimit && after.monthlyLimit == before.monthlyLimit && after.dailyUsdCap == before.dailyUsdCap && after.monthlyUsdCap == before.monthlyUsdCap
  {
    var models := before.models;
    if patch.models.Some? {
      models := patch.models.value;
    }
    var expiresAt := before.expiresAt;
    if patch.expiresAt.Some? {
      expiresAt := patch.expiresAt.value;
    }
    var localOnly := before.localOnly;
    if patch.localOnly.Some? {
      localOnly := patch.localOnly.value;
    }
    var allowLocalDegradation := before.allowLocalDegradation;
    if patch.allowLocalDegradation.Some? {
      allowLocalDegradation := patch.allowLocalDegradation.value;
    }
    after := before.(models := models, expiresAt := expiresAt, localOnly := localOnly, allowLocalDegradation := allowLocalDegradation);
  }

  method PatchPolicy(before: Policy, patch: Patch) returns (after: Policy)
    ensures after == Patched(before, patch) && TakesPatch(before, patch, after)
    ensures after.rateLimit == if patch.rateLimit.Some? then patch.rateLimit.value else before.rateLimit
    ensures after.dailyLimit == if patch.dailyLimit.Some? then patch.dailyLimit.value else before.dailyLimit
    ensures after.monthlyLimit == if patch.monthlyLimit.Some? then patch.monthlyLimit.value else before.monthlyLimit
    ensures after.dailyUsdCap == if patch.dailyUsdCap.Some? then patch.dailyUsdCap.value else before.dailyUsdCap
    ensures after.monthlyUsdCap == if patch.monthlyUsdCap.Some? then patch.monthlyUsdCap.value else before.monthlyUsdCap
    ensures after.models == if patch.models.Some? then patch.models.value else before.models
    ensures after.expiresAt == if patch.expiresAt.Some? then patch.expiresAt.value else before.expiresAt
    ensures after.localOnly == if patch.localOnly.Some? then patch.localOnly.value else before.localOnly
    ensures after.allowLocalDegradation == if patch.allowLocalDegradation.Some? then patch.allowLocalDegradation.value else before.allowLocalDegradation
  {
    var limited := PatchLimits(before, patch);
    after := PatchAccess(limited, patch);
  }

  class Server {
    var store: map<Name, Record>
    var byName: map<Name, LiveKey>
    var tokens: map<Token, Name>

    ghost function View(): State
      reads this
    {
      State(store, byName, tokens, None)
    }

    /** Registers a key; a different old token of the same name stops working at once. */
    method AddKey(name: Name, k: LiveKey)
      modifies `byName, `tokens
      ensures View() == AddLive(old(View()), name, k)
      ensures byName == old(byName)[name := k]
      ensures
        var replaced := name in old(byName) && old(byName)[name].token != k.token;
        tokens == (if replaced then old(tokens) - {old(byName)[name].token} else old(tokens))[k.token := name]
    {
      if name in byName && byName[name].token != k.token {
        tokens := tokens - {byName[name].token};
      }
      tokens := tokens[k.token := name];
      byName := byName[name := k];
    }

    method RevokeKey(name: Name)
      modifies `byName, `tokens
      ensures View() == RevokeLive(old(View()), name)
      ensures byName == old(byName) - {name}
      ensures tokens == if name in old(byName) then old(tokens) - {old(byName)[name].token} else old(tokens)
    {
      if name !in byName {
        assert byName - {name} == byName;
        return;
      }
      tokens := tokens - {byName[name].token};
      byName := byName - {name};
    }

    /** Scans the rows for a name. */
    method FindKeyRecord(name: Name, order: seq<Name>) returns (found: Option<Record>)
      requires Lists(order, store)
      ensures found == if name in store then Some(store[name]) else None
    {
      for i := 0 to |order|
        invariant name !in order[..i]
      {
        if order[i] == name {
          return Some(store[name]);
        }
      }
      found := None;
    }

    /** The store first, and only then the live state. */
    method PersistKey(name: Name, token: Token, policy: Policy, writeOk: bool) returns (ok: bool)
      modifies `store, `byName, `tokens
      ensures View() == Persist(old(View()), name, token, policy, writeOk)
      ensures ok <==> writeOk && token != ""
      ensures store == if ok then old(store)[name := Record(token, policy, false)] else old(store)
      ensures byName == if ok then old(byName)[name := LiveKey(token, policy)] else old(byName)
      ensures ok ==> token in tokens && tokens[token] == name
    {
      ok := writeOk && token != "";
      if !ok {
        return;
      }
      store := store[name := Record(token, policy, false)];
      AddKey(name, LiveKey(token, policy));
    }

    method RevokeKeyLiveFirst(name: Name, writeOk: bool)
      modifies `store, `byName, `tokens
      ensures View() == Next(old(View()), Revoke(name, writeOk))
      ensures byName == old(byName) - {name}
      ensures store == if writeOk && name in old(store)
                       then old(store)[name := Record(old(store)[name].token, old(store)[name].policy, true)] else old(store)
    {
      RevokeKey(name);
      if writeOk && name in store {
        store := store[name := store[name].(revoked := true)];
      }
    }

    method HandleAddKey(name: Name, token: Token, policy: Policy, order: seq<Name>, readOk: bool, writeOk: bool)
        returns (status: Status)
      requires Lists(order, store)
      modifies `store, `byName, `tokens
      ensures View() == Next(old(View()), Add(name, token, policy, readOk, writeOk))
      ensures status.BadRequest? <==>
                || name == "" || "benchmark-" <= name || "pull-verify-" <= name
                || policy.rateLimit < 0 || policy.dailyLimit < 0 || policy.monthlyLimit < 0
                || policy.dailyUsdCap < 0.0 || policy.monthlyUsdCap < 0.0
      ensures status.Conflict? <==> !status.BadRequest? && readOk && name in old(store)
      ensures status.Created? <==> !status.BadRequest? && readOk && name !in old(store) && writeOk && token != ""
      ensures status.Created? ==>
                && store == old(store)[name := Record(token, policy, false)]
                && byName == old(byName)[name := LiveKey(token, policy)]
                && token in tokens && tokens[token] == name
      ensures !status.Created? ==> View() == old(View())
    {
      if name == "" || Reserved(name) || !Acceptable(policy) {
        return BadRequest;
      }
      if !readOk {
        return ServerError;
      }
      var existing := FindKeyRecord(name, order);
      if existing.Some? {
        return Conflict;
      }
      var ok := PersistKey(name, token, policy, writeOk);
      status := if ok then Created else ServerError;
    }

    method HandleRotateKey(name: Name, token: Token, order: seq<Name>, readOk: bool, writeOk: bool)
        returns (status: Status)
      requires Lists(order, store)
      modifies `store, `byName, `tokens
      ensures View() == Next(old(View()), Rotate(name, token, readOk, writeOk))
      ensures status.Ok? <==> readOk && name in old(store) && !old(store)[name].revoked && writeOk && token != ""
      ensures status.NotFound? <==> readOk && (name !in old(store) || old(store)[name].revoked)
      ensures status.Ok? ==>
                && store == old(store)[name := Record(token, old(store)[name].policy, false)]
                && byName == old(byName)[name := LiveKey(token, old(store)[name].policy)]
                && token in tokens && tokens[token] == name
      ensures !status.Ok? ==> View() == old(View())
    {
      if !readOk {
        return ServerError;
      }
      var existing := FindKeyRecord(name, order);
      if existing.None? || existing.value.revoked {
        return NotFound;
      }
      var ok := PersistKey(name, token, existing.value.policy, writeOk);
      status := if ok then Ok else ServerError;
    }

    method HandleRevokeKey(name: Name, writeOk: bool) returns (status: Status)
      modifies `store, `byName, `tokens
      ensures View() == Next(old(View()), Revoke(name, writeOk))
      ensures byName == old(byName) - {name}
      ensures store == if writeOk && name in old(store)
                       then old(store)[name := Record(old(store)[name].token, old(store)[name].policy, true)] else old(store)
      ensures status == if writeOk then Ok else RevokedLiveOnly
      ensures status.Ok? && name in old(store) ==> Gone(View(), name)
    {
      RevokeKeyLiveFirst(name, writeOk);
      status := if writeOk then Ok else RevokedLiveOnly;
    }

    method HandlePatchKey(name: Name, patch: Patch, order: seq<Name>, readOk: bool, writeOk: bool)
        returns (status: Status)
      requires Lists(order, store)
      modifies `store, `byName
      ensures View() == Next(old(View()), PatchKey(name, patch, readOk, writeOk))
      ensures status.Ok? <==> !Negative(patch) && name in old(byName) && readOk && (name in old(store) ==> writeOk)
      ensures status.BadRequest? <==> Negative(patch)
      ensures status.Ok? ==>
                && byName.Keys == old(byName).Keys && byName[name].token == old(byName)[name].token
                && TakesPatch(old(byName)[name].policy, patch, byName[name].policy)
      ensures status.Ok? && name in old(store) ==>
                && name in store && store[name].token == old(store)[name].token && store[name].revoked == old(store)[name].revoked
                && TakesPatch(old(store)[name].policy, patch, store[name].policy)
      ensures forall n <- old(byName) :: n != name ==> byName[n] == old(byName)[n]
      ensures store.Keys == old(store).Keys && forall n <- store :: n != name ==> store[n] == old(store)[n]
      ensures !status.Ok? ==> View() == old(View())
    {
      if !AcceptablePatch(patch) {
        return BadRequest;
      }
      if name !in byName {
        return NotFound;
      }
      if !readOk {
        return ServerError;
      }
      var record := FindKeyRecord(name, order);
      if record.Some? {
        if !writeOk {
          return ServerError;
        }
        var policy := PatchPolicy(record.value.policy, patch);
        store := store[name := record.value.(policy := policy)];
      }
      var policy := PatchPolicy(byName[name].policy, patch);
      byName := byName[name := byName[name].(policy := policy)];
      status := Ok;
    }

    /** Creates the key of an approved user; a failed approval takes it back. */
    method HandleApprove(name: Name, token: Token, policy: Policy, order: seq<Name>,
                         readOk: bool, writeOk: bool, userOk: bool, revokeOk: bool, deleteOk: bool)
        returns (status: Status)
      requires Lists(order, store)
      modifies `store, `byName, `tokens
      ensures View() == Next(old(View()), Approve(name, token, policy, readOk, writeOk, userOk, revokeOk, deleteOk))
      ensures status.Ok? <==>
                && !("benchmark-" <= name) && !("pull-verify-" <= name)
                && readOk && name !in old(store) && writeOk && token != "" && userOk
      ensures status.Ok? ==>
                && store == old(store)[name := Record(token, policy, false)]
                && byName == old(byName)[name := LiveKey(token, policy)]
      ensures !status.Ok? ==> byName == old(byName) || byName == old(byName) - {name}
      ensures !status.Ok? && name !in old(byName) ==> name !in byName
      ensures !status.Ok? && (deleteOk || name in old(store)) ==> store == old(store)
      ensures !status.Ok? && revokeOk && name in store && name !in old(store) ==> store[name].revoked
    {
      if Reserved(name) {
        return BadRequest;
      }
      if !readOk {
        return ServerError;
      }
      var existing := FindKeyRecord(name, order);
      if existing.Some? {
        return Conflict;
      }
      var ok := PersistKey(name, token, policy, writeOk);
      if !ok {
        return ServerError;
      }
      if !userOk {
        TakeBack(name, revokeOk, deleteOk);
        return ServerError;
      }
      status := Ok;
    }

    /** Revokes and removes a key that was just created. */
    method TakeBack(name: Name, revokeOk: bool, deleteOk: bool)
      requires name in store
      modifies `store, `byName, `tokens
      ensures
        var s := StoreRevoke(RevokeLive(old(View()), name), name, revokeOk);
        View() == if deleteOk then s.(store := s.store - {name}) else s
      ensures byName == old(byName) - {name}
      ensures deleteOk ==> store == old(store) - {name}
      ensures !deleteOk ==> store == old(store)[name := Record(old(store)[name].token, old(store)[name].policy, revokeOk || old(store)[name].revoked)]
    {
      RevokeKeyLiveFirst(name, revokeOk);
      if deleteOk {
        store := store - {name};
      }
    }

    /** Replaces the live key set. */
    method SwapKeys(ks: seq<Key>)
      modifies `byName, `tokens
      ensures byName == ByNameOf(ks) && tokens == TokensOf(ks)
    {
      var newTokens: map<Token, Name> := map[];
      var newByName: map<Name, LiveKey> := map[];
      for i := 0 to |ks|
        invariant newByName == ByNameOf(ks[..i]) && newTokens == TokensOf(ks[..i])
      {
        assert ks[..i + 1][..i] == ks[..i];
        newTokens := newTokens[ks[i].live.token := ks[i].name];
        newByName := newByName[ks[i].name := ks[i].live];
      }
      assert ks[..|ks|] == ks;
      byName, tokens := newByName, newTokens;
    }

    /** Re-applies the store to the live state; nothing changes when the read fails. */
    method ReloadFromStore(order: seq<Name>, readOk: bool)
      requires Lists(order, store)
      modifies `byName, `tokens
      ensures View() == if readOk then Next(Next(old(View()), ReloadRead(order, true)), ReloadApply) else old(View())
      ensures readOk ==> forall n :: n in byName <==> n in store && !store[n].revoked
      ensures readOk ==> forall n <- byName :: byName[n] == LiveKey(store[n].token, store[n].policy) && byName[n].token in tokens
      ensures readOk ==> forall t <- tokens :: tokens[t] in byName && byName[tokens[t]].token == t
    {
      if !readOk {
        return;
      }
      var ks := KeysToLoad(order);
      LoadedMeaning(store, order, false);
      LoadedDistinct(store, order, false);
      TokensOfBack(ks);
      TokensOfAll(ks);
      SwapKeys(ks);
    }

    /** The rows that are not revoked. */
    method KeysToLoad(order: seq<Name>) returns (ks: seq<Key>)
      requires Lists(order, store)
      ensures ks == Loaded(store, order, false)
    {
      ks := [];
      for i := 0 to |order|
        invariant ks == Loaded(store, order[..i], false)
      {
        assert order[..i + 1][..i] == order[..i];
        var r := store[order[i]];
        if !r.revoked {
          ks := ks + [Key(order[i], LiveKey(r.token, r.policy))];
        }
      }
      assert order[..|order|] == order;
    }

    /** One row of the start-up load. */
    method LoadOne(name: Name, undeletable: set<Name>) returns (added: bool)
      requires name in store && name !in byName
      modifies `store, `byName, `tokens
      ensures View() == LoadRow(old(View()), name, old(store)[name], undeletable)
      ensures added <==> name in byName
      ensures |byName| == |old(byName)| + if added then 1 else 0
    {
      var r := store[name];
      added := false;
      if IsEphemeralProbeKey(name, r) {
        if name !in undeletable {
          store := store - {name};
        }
      } else if r.revoked {
        RevokeKey(name);
      } else {
        AddKey(name, LiveKey(r.token, r.policy));
        added := true;
      }
    }

    /** Registers every stored key at start, dropping probe keys a crash left behind. */
    method LoadStoredKeys(order: seq<Name>, undeletable: set<Name>) returns (n: nat)
      requires Lists(order, store) && byName == map[] && tokens == map[]
      modifies `store, `byName, `tokens
      ensures View() == Next(old(View()), Restart(order, true, undeletable)) && n == |byName|
      ensures forall m :: m in byName <==> m in old(store) && !old(store)[m].revoked && !LooksLikeProbe(m, old(store)[m])
      ensures forall m <- byName :: byName[m] == LiveKey(old(store)[m].token, old(store)[m].policy)
      ensures forall m :: m in store <==> m in old(store) && (!LooksLikeProbe(m, old(store)[m]) || m in undeletable)
    {
      RestartEffect(View(), order, undeletable);
      n := LoadRowByRow(order, undeletable);
    }

    method LoadRowByRow(order: seq<Name>, undeletable: set<Name>) returns (n: nat)
      requires Lists(order, store) && byName == map[] && tokens == map[]
      modifies `store, `byName, `tokens
      ensures View() == Next(old(View()), Restart(order, true, undeletable))
      ensures n == |byName|
    {
      n := 0;
      ghost var rows := store;
      for i := 0 to |order|
        invariant View() == LoadRows(rows, order[..i], undeletable)
        invariant n == |byName|
      {
        assert order[..i + 1][..i] == order[..i];
        LoadRowsNames(rows, order[..i], undeletable);
        LoadRowsStore(rows, order[..i], undeletable);
        var added := LoadOne(order[i], undeletable);
        if added {
          n := n + 1;
        }
      }
      assert order[..|order|] == order;
      LoadRowsIsRestart(old(View()), order, undeletable);
    }
  }
}
