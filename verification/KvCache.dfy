/**
 The prefix cache of the simulated inference engine: an LRU of chained block ids
 that evicts only at the end of each request.
 */
module KvCache {
  import opened Recency
  import opened BlockHash

  type BlockId = string

  // ---------------------------------------------------------------- the cache over a run of requests

  /** The cache after one request: every block touched in order, then cut to capacity. */
  function Stored(l: seq<BlockId>, ids: seq<BlockId>, cap: nat): seq<BlockId> {
    if cap == 0 then l else Take(TouchAll(l, ids), cap)
  }

  function CacheAfter(reqs: seq<seq<BlockId>>, cap: nat): seq<BlockId> {
    if reqs == [] then [] else Stored(CacheAfter(reqs[..|reqs| - 1], cap), reqs[|reqs| - 1], cap)
  }

  /** Every block touched, in order, over all requests. */
  function History(reqs: seq<seq<BlockId>>): seq<BlockId> {
    if reqs == [] then [] else History(reqs[..|reqs| - 1]) + reqs[|reqs| - 1]
  }

  /** How many leading blocks are in `l`. */
  function Hits(l: seq<BlockId>, ids: seq<BlockId>): nat {
    if ids == [] || ids[0] !in l then 0 else 1 + Hits(l, ids[1..])
  }

  /** The cached-block count reported for a request after earlier ones. */
  function Reported(reqs: seq<seq<BlockId>>, ids: seq<BlockId>, cap: nat): nat {
    if cap == 0 then 0 else Hits(CacheAfter(reqs, cap), ids)
  }

  /**
   LRU refinement: although eviction waits for the end of each request, the cache
   is at all times the `cap` most recently touched distinct blocks of the history,
   most recent first.
   */
  lemma {:induction false} CacheIsMostRecent(reqs: seq<seq<BlockId>>, cap: nat)
    ensures CacheAfter(reqs, cap) == Take(Recent(History(reqs)), cap)
  {
    if reqs != [] {
      var before, ids := reqs[..|reqs| - 1], reqs[|reqs| - 1];
      CacheIsMostRecent(before, cap);
      if cap > 0 {
        RecentDistinct(History(before));
        TakeTouchAll(Recent(History(before)), ids, cap);
        TouchAllConcat([], History(before), ids);
      }
    }
  }

  /** A block is cached exactly when fewer than `cap` other blocks were touched since its last touch. */
  lemma CachedIffReuseDistance(reqs: seq<seq<BlockId>>, cap: nat, id: BlockId)
    ensures id in CacheAfter(reqs, cap) <==>
            id in History(reqs) && |TouchedSince(History(reqs), id)| < cap
  {
    CacheIsMostRecent(reqs, cap);
    InTakeIff(History(reqs), id, cap);
  }

  lemma {:induction false} HitsMeaning(l: seq<BlockId>, ids: seq<BlockId>)
    ensures Hits(l, ids) <= |ids|
    ensures forall i :: 0 <= i < Hits(l, ids) ==> ids[i] in l
    ensures Hits(l, ids) < |ids| ==> ids[Hits(l, ids)] !in l
  {
    if ids != [] && ids[0] in l {
      HitsMeaning(l, ids[1..]);
    }
  }

  lemma {:induction false} HitsMono(l: seq<BlockId>, m: seq<BlockId>, ids: seq<BlockId>)
    requires forall x :: x in l ==> x in m
    ensures Hits(l, ids) <= Hits(m, ids)
  {
    if ids != [] && ids[0] in l {
      HitsMono(l, m, ids[1..]);
    }
  }

  /**
   Stack property: on the same requests a smaller cache is a prefix of a larger
   one after every request, so no request's cached count falls as capacity grows.
   */
  lemma StackProperty(reqs: seq<seq<BlockId>>, ids: seq<BlockId>, small: nat, large: nat)
    requires small <= large
    ensures CacheAfter(reqs, small) == Take(CacheAfter(reqs, large), small)
    ensures forall x :: x in CacheAfter(reqs, small) ==> x in CacheAfter(reqs, large)
    ensures Reported(reqs, ids, small) <= Reported(reqs, ids, large)
  {
    CacheIsMostRecent(reqs, small);
    CacheIsMostRecent(reqs, large);
    HitsMono(CacheAfter(reqs, small), CacheAfter(reqs, large), ids);
  }

  // ---------------------------------------------------------------- what a hit says about earlier prompts

  function Requests(h: string -> string, prompts: seq<seq<Word>>, n: nat): seq<seq<BlockId>>
    requires n > 0
  {
    seq(|prompts|, i requires 0 <= i < |prompts| => BlockIds(h, prompts[i], n))
  }

  /** Prompts `u` and `v` both have `k` full blocks and they are the same. */
  predicate ShareBlocks(u: seq<Word>, v: seq<Word>, n: nat, k: nat) {
    k * n <= |u| && k * n <= |v| && u[..k * n] == v[..k * n]
  }

  lemma {:induction false} InHistory(reqs: seq<seq<BlockId>>, x: BlockId) returns (m: nat)
    requires x in History(reqs)
    ensures m < |reqs| && x in reqs[m]
  {
    var before, ids := reqs[..|reqs| - 1], reqs[|reqs| - 1];
    if x in ids {
      m := |reqs| - 1;
    } else {
      m := InHistory(before, x);
    }
  }

  lemma {:induction false} HistoryHas(reqs: seq<seq<BlockId>>, m: nat, x: BlockId)
    requires m < |reqs| && x in reqs[m]
    ensures x in History(reqs)
  {
    if m < |reqs| - 1 {
      HistoryHas(reqs[..|reqs| - 1], m, x);
    }
  }

  /** Block `j` of some earlier prompt has this id. */
  ghost predicate Brings(h: string -> string, prompts: seq<seq<Word>>, n: nat, m: nat, j: nat, id: BlockId) {
    m < |prompts| && HasBlock(prompts[m], n, j) && ChainId(h, prompts[m], n, j) == id
  }

  lemma SeenWasBrought(h: string -> string, prompts: seq<seq<Word>>, n: nat, id: BlockId) returns (m: nat, j: nat)
    requires n > 0 && id in History(Requests(h, prompts, n))
    ensures Brings(h, prompts, n, m, j, id)
  {
    var reqs := Requests(h, prompts, n);
    m := InHistory(reqs, id);
    var i :| 0 <= i < |reqs[m]| && reqs[m][i] == id;
    FullBlocksFit(|prompts[m]|, n, i + 1);
    j := i + 1;
  }

  lemma BroughtIsSeen(h: string -> string, prompts: seq<seq<Word>>, n: nat, m: nat, j: nat, id: BlockId)
    requires n > 0 && Brings(h, prompts, n, m, j, id)
    ensures id in History(Requests(h, prompts, n))
  {
    var reqs := Requests(h, prompts, n);
    FittingBlocksAreFull(|prompts[m]|, n, j);
    assert reqs[m] == BlockIds(h, prompts[m], n);
    assert reqs[m][j - 1] == id;
    HistoryHas(reqs, m, id);
  }

  // ---------------------------------------------------------------- hits and shared words

  lemma {:induction false} BlocksMakePrefix(u: seq<Word>, v: seq<Word>, n: nat, j: nat)
    requires j * n <= |u| && j * n <= |v|
    requires forall i :: 1 <= i <= j ==> SameBlock(u, v, n, i, 0)
    ensures u[..j * n] == v[..j * n]
    decreases j
  {
    if j > 0 {
      MulMono(j - 1, j, n);
      BlocksMakePrefix(u, v, n, j - 1);
      assert SameBlock(u, v, n, j, 0);
      assert u[..j * n] == u[..(j - 1) * n] + BlockAt(u, n, j);
      assert v[..j * n] == v[..(j - 1) * n] + BlockAt(v, n, j);
    }
  }

  lemma MatchMeansPrefix(h: string -> string, prompts: seq<seq<Word>>, u: seq<Word>, v: seq<Word>, n: nat, j: nat, d: nat)
    requires IsHash(h) && n > 0 && u in prompts && v in prompts && NoImpostor(h, prompts, n)
    requires HasBlock(u, n, j) && HasBlock(v, n, j + d) && Matches(h, u, v, n, j, d)
    ensures d == 0 && u[..j * n] == v[..j * n]
  {
    EarlierBlock(u, n, j);
    EarlierBlock(v, n, j + d);
    assert d == 0;
    assert SameBlock(u, v, n, 1, 0);
    BlocksMakePrefix(u, v, n, j);
  }

  /** Without impostors, equal ids mean equal prompts up to that block, at the same depth. */
  lemma SameIdSamePrefix(h: string -> string, prompts: seq<seq<Word>>, u: seq<Word>, v: seq<Word>, n: nat, j: nat, k: nat)
    requires IsHash(h) && n > 0 && u in prompts && v in prompts && HasBlock(u, n, j) && HasBlock(v, n, k)
    requires CollisionFree(h, prompts, n) && NoImpostor(h, prompts, n)
    requires ChainId(h, u, n, j) == ChainId(h, v, n, k)
    ensures j == k && u[..j * n] == v[..k * n]
  {
    if j <= k {
      SameIdSameDepth(h, prompts, u, v, n, j, k - j);
    } else {
      SameIdSameDepth(h, prompts, v, u, n, k, j - k);
    }
  }

  lemma SameIdSameDepth(h: string -> string, prompts: seq<seq<Word>>, u: seq<Word>, v: seq<Word>, n: nat, j: nat, d: nat)
    requires IsHash(h) && n > 0 && u in prompts && v in prompts && HasBlock(u, n, j) && HasBlock(v, n, j + d)
    requires CollisionFree(h, prompts, n) && NoImpostor(h, prompts, n)
    requires ChainId(h, u, n, j) == ChainId(h, v, n, j + d)
    ensures d == 0 && u[..j * n] == v[..j * n]
  {
    SameIdIff(h, prompts, u, v, n, j, d);
    MatchMeansPrefix(h, prompts, u, v, n, j, d);
  }

  lemma {:induction false} SamePrefixSameId(h: string -> string, u: seq<Word>, v: seq<Word>, n: nat, k: nat)
    requires k * n <= |u| && k * n <= |v| && u[..k * n] == v[..k * n]
    ensures ChainId(h, u, n, k) == ChainId(h, v, n, k)
    decreases k
  {
    if k > 0 {
      MulMono(k - 1, k, n);
      assert u[..(k - 1) * n] == u[..k * n][..(k - 1) * n];
      assert v[..(k - 1) * n] == v[..k * n][..(k - 1) * n];
      assert BlockAt(u, n, k) == u[..k * n][(k - 1) * n..];
      assert BlockAt(v, n, k) == v[..k * n][(k - 1) * n..];
      SamePrefixSameId(h, u, v, n, k - 1);
    }
  }

  /** What is reported never exceeds the prompt, and the last block reported was seen before. */
  lemma HitWasSeen(h: string -> string, prompts: seq<seq<Word>>, prompt: seq<Word>, n: nat, cap: nat, k: nat)
      returns (m: nat, j: nat)
    requires n > 0 && k == Reported(Requests(h, prompts, n), BlockIds(h, prompt, n), cap)
    ensures k * n <= |prompt|
    ensures k > 0 ==> Brings(h, prompts, n, m, j, ChainId(h, prompt, n, k))
  {
    var reqs, ids := Requests(h, prompts, n), BlockIds(h, prompt, n);
    HitsMeaning(CacheAfter(reqs, cap), ids);
    FullBlocksFit(|prompt|, n, k);
    m, j := 0, 0;
    if k > 0 {
      CachedIffReuseDistance(reqs, cap, ids[k - 1]);
      m, j := SeenWasBrought(h, prompts, n, ids[k - 1]);
    }
  }

  /**
   Prefix-hit soundness: without impostors among the prompts, a request reported with
   `k` cached blocks has an earlier prompt with the same first `k` full blocks.
   */
  lemma HitMeansSharedPrefix(h: string -> string, prompts: seq<seq<Word>>, prompt: seq<Word>, n: nat, cap: nat, k: nat)
      returns (m: nat)
    requires IsHash(h) && n > 0 && k == Reported(Requests(h, prompts, n), BlockIds(h, prompt, n), cap)
    requires CollisionFree(h, prompts + [prompt], n) && NoImpostor(h, prompts + [prompt], n)
    ensures k > 0 ==> m < |prompts| && ShareBlocks(prompts[m], prompt, n, k)
  {
    var j;
    m, j := HitWasSeen(h, prompts, prompt, n, cap, k);
    if k > 0 {
      var all := prompts + [prompt];
      assert all[m] == prompts[m] && all[|prompts|] == prompt;
      SameIdSamePrefix(h, all, prompts[m], prompt, n, j, k);
    }
  }

  /** The two chains agree, the shorter one possibly starting at an impostor. */
  ghost predicate SameChain(h: string -> string, u: seq<Word>, v: seq<Word>, n: nat, j: nat, k: nat)
    requires IsHash(h) && n > 0
  {
    HasBlock(u, n, j) && HasBlock(v, n, k) &&
    if j <= k then Matches(h, u, v, n, j, k - j) else Matches(h, v, u, n, k, j - k)
  }

  lemma SameChainIff(h: string -> string, prompts: seq<seq<Word>>, u: seq<Word>, v: seq<Word>, n: nat, j: nat, k: nat)
    requires IsHash(h) && n > 0 && u in prompts && v in prompts && CollisionFree(h, prompts, n)
    requires HasBlock(u, n, j) && HasBlock(v, n, k)
    ensures ChainId(h, u, n, j) == ChainId(h, v, n, k) <==> SameChain(h, u, v, n, j, k)
  {
    if j <= k {
      SameIdIff(h, prompts, u, v, n, j, k - j);
    } else {
      SameIdIff(h, prompts, v, u, n, k, j - k);
    }
  }

  ghost predicate Explained(h: string -> string, prompts: seq<seq<Word>>, prompt: seq<Word>, n: nat, i: nat)
    requires IsHash(h) && n > 0
  {
    exists m: nat, j: nat :: m < |prompts| && SameChain(h, prompts[m], prompt, n, j, i)
  }

  lemma SeenIffExplained(h: string -> string, prompts: seq<seq<Word>>, prompt: seq<Word>, n: nat, i: nat)
    requires IsHash(h) && n > 0 && HasBlock(prompt, n, i) && CollisionFree(h, prompts + [prompt], n)
    ensures ChainId(h, prompt, n, i) in History(Requests(h, prompts, n)) <==> Explained(h, prompts, prompt, n, i)
  {
    var all, id := prompts + [prompt], ChainId(h, prompt, n, i);
    assert all[|prompts|] == prompt;
    if id in History(Requests(h, prompts, n)) {
      var m, j := SeenWasBrought(h, prompts, n, id);
      assert all[m] == prompts[m];
      SameChainIff(h, all, prompts[m], prompt, n, j, i);
    }
    if Explained(h, prompts, prompt, n, i) {
      var m: nat, j: nat :| m < |prompts| && SameChain(h, prompts[m], prompt, n, j, i);
      assert all[m] == prompts[m];
      SameChainIff(h, all, prompts[m], prompt, n, j, i);
      BroughtIsSeen(h, prompts, n, m, j, id);
    }
  }

  /**
   Exactly which blocks hit, with room for every block seen: the first `k` blocks are
   all reported if and only if each of them agrees with a chain of some earlier prompt,
   real or by way of an impostor.
   */
  lemma HitsIff(h: string -> string, prompts: seq<seq<Word>>, prompt: seq<Word>, n: nat, cap: nat, k: nat)
    requires IsHash(h) && n > 0 && k * n <= |prompt| && CollisionFree(h, prompts + [prompt], n)
    requires |Ids(History(Requests(h, prompts, n)))| <= cap
    ensures k <= Reported(Requests(h, prompts, n), BlockIds(h, prompt, n), cap) <==>
              forall i :: 1 <= i <= k ==> Explained(h, prompts, prompt, n, i)
  {
    var reqs, ids := Requests(h, prompts, n), BlockIds(h, prompt, n);
    FittingBlocksAreFull(|prompt|, n, k);
    HitsIffSeen(reqs, ids, cap, k);
    forall i | 0 <= i < k
      ensures ids[i] in History(reqs) <==> Explained(h, prompts, prompt, n, i + 1)
    {
      MulMono(i + 1, k, n);
      SeenIffExplained(h, prompts, prompt, n, i + 1);
    }
    assert forall i :: 1 <= i <= k ==> (Explained(h, prompts, prompt, n, i) <==> ids[i - 1] in History(reqs));
  }

  lemma {:induction false} TouchedSinceInHistory(h: seq<BlockId>, x: BlockId)
    ensures TouchedSince(h, x) <= Ids(h) - {x}
  {
    if h != [] {
      TouchedSinceInHistory(h[..|h| - 1], x);
    }
  }

  /** With room for every block ever seen, a block that was seen is cached. */
  lemma SeenIsCached(reqs: seq<seq<BlockId>>, x: BlockId, cap: nat)
    requires |Ids(History(reqs))| <= cap && x in History(reqs)
    ensures cap > 0 && x in CacheAfter(reqs, cap)
  {
    var h := History(reqs);
    TouchedSinceInHistory(h, x);
    Subset(TouchedSince(h, x), Ids(h), x);
    CachedIffReuseDistance(reqs, cap, x);
  }

  lemma HitsIffSeen(reqs: seq<seq<BlockId>>, ids: seq<BlockId>, cap: nat, k: nat)
    requires |Ids(History(reqs))| <= cap && k <= |ids|
    ensures k <= Reported(reqs, ids, cap) <==> forall i :: 0 <= i < k ==> ids[i] in History(reqs)
  {
    HitsMeaning(CacheAfter(reqs, cap), ids);
    forall i | 0 <= i < k
      ensures ids[i] in History(reqs) <==> cap > 0 && ids[i] in CacheAfter(reqs, cap)
    {
      CachedIffReuseDistance(reqs, cap, ids[i]);
      if ids[i] in History(reqs) {
        SeenIsCached(reqs, ids[i], cap);
      }
    }
  }

  /**
   And the cache misses nothing while it is large enough for every distinct block
   seen: the count is then at least what any earlier prompt shares.
   */
  lemma SharedPrefixMeansHit(h: string -> string, prompts: seq<seq<Word>>, prompt: seq<Word>, n: nat, cap: nat, m: nat, j: nat)
    requires n > 0 && m < |prompts| && ShareBlocks(prompts[m], prompt, n, j)
    requires |Ids(History(Requests(h, prompts, n)))| <= cap
    ensures j <= Reported(Requests(h, prompts, n), BlockIds(h, prompt, n), cap)
  {
    var reqs, ids := Requests(h, prompts, n), BlockIds(h, prompt, n);
    FittingBlocksAreFull(|prompt|, n, j);
    forall i | 0 <= i < j ensures ids[i] in History(reqs) {
      SharedBlock(h, prompts[m], prompt, n, j, i);
      assert reqs[m][i] == ids[i];
      HistoryHas(reqs, m, ids[i]);
    }
    HitsIffSeen(reqs, ids, cap, j);
  }

  /** Prompts that share `j` blocks have the same ids up to there. */
  lemma SharedBlock(h: string -> string, u: seq<Word>, v: seq<Word>, n: nat, j: nat, k: nat)
    requires n > 0 && ShareBlocks(u, v, n, j) && k < j
    ensures k < |BlockIds(h, u, n)| && k < |BlockIds(h, v, n)| && BlockIds(h, u, n)[k] == BlockIds(h, v, n)[k]
  {
    FittingBlocksAreFull(|u|, n, j);
    FittingBlocksAreFull(|v|, n, j);
    MulMono(k + 1, j, n);
    assert u[..(k + 1) * n] == u[..j * n][..(k + 1) * n];
    assert v[..(k + 1) * n] == v[..j * n][..(k + 1) * n];
    SamePrefixSameId(h, u, v, n, k + 1);
  }

  lemma {:induction false} Subset(a: set<BlockId>, b: set<BlockId>, x: BlockId)
    requires a <= b - {x} && x in b
    ensures |a| < |b|
  {
    if a != {} {
      var y :| y in a;
      Subset(a - {y}, b - {y}, x);
    }
  }

  // ---------------------------------------------------------------- impostors

  /**
   An impostor is a hit whatever the hash is: right after a prompt `v` with `d + 1`
   blocks, a prompt of one block that begins with the id of the first `d` of them and
   goes on with the words of the last is reported as cached.
   */
  lemma ImpostorIsHit(h: string -> string, prompts: seq<seq<Word>>, v: seq<Word>, u: seq<Word>, n: nat, d: nat, cap: nat)
    requires IsHash(h) && n > 0 && cap > 0 && |u| == n && |v| == (d + 1) * n && Impostor(h, u, v, n, d)
    ensures Reported(Requests(h, prompts + [v], n), BlockIds(h, u, n), cap) == 1
  {
    var all := prompts + [v];
    var reqs, ids := Requests(h, all, n), BlockIds(h, u, n);
    SameTextAsFirst(h, u, v, n, d + 1);
    assert |u| / n == 1;
    FittingBlocksAreFull(|v|, n, d + 1);
    assert |v| / n == d + 1 by {
      FullBlocksFit(|v|, n, |v| / n);
      OnlyOneQuotient(n, |v| / n, d + 1);
    }
    var last := reqs[|reqs| - 1];
    assert last == BlockIds(h, v, n);
    assert last[d] == ids[0];
    assert History(reqs)[|History(reqs)| - 1] == ids[0];
    CachedIffReuseDistance(reqs, cap, ids[0]);
    HitsMeaning(CacheAfter(reqs, cap), ids);
  }

  lemma OnlyOneQuotient(n: nat, q: nat, r: nat)
    requires n > 0 && q >= r && q * n <= r * n
    ensures q == r
  {
    if q > r {
      MulMono(r + 1, q, n);
    }
  }

  /**
   So a hit need not mean shared words: one word per block, the prompt "a b", and then
   the one-word prompt made of the id of "a" and the letter b.
   */
  lemma HitWithoutSharedPrefix(h: string -> string, cap: nat) returns (v: seq<Word>, u: seq<Word>)
    requires IsHash(h) && cap > 0
    ensures Reported(Requests(h, [v], 1), BlockIds(h, u, 1), cap) == 1
    ensures !ShareBlocks(v, u, 1, 1)
  {
    v := ["a", "b"];
    u := [h("a") + "b"];
    assert ChainId(h, v, 1, 1) == h("a") by {
      assert BlockAt(v, 1, 1) == ["a"];
      assert Join(["a"]) == "a";
      assert "" + "a" == "a";
    }
    assert BlockAt(v, 1, 2) == ["b"] && BlockAt(u, 1, 1) == u;
    assert Impostor(h, u, v, 1, 1);
    ImpostorIsHit(h, [], v, u, 1, 1, cap);
    assert [] + [v] == [v];
    assert |u[0]| == 17 && v[..1][0] == v[0] && u[..1][0] == u[0];
  }

  // ---------------------------------------------------------------- the code

  /** A list element; the index holds the element itself, as the list does. */
  class Element {
    const value: BlockId

    constructor (value: BlockId)
      ensures this.value == value
    {
      this.value := value;
    }
  }

  function Values(l: seq<Element>): seq<BlockId> {
    seq(|l|, i requires 0 <= i < |l| => l[i].value)
  }

  /** The list and the index hold the same elements, one per block. */
  ghost predicate Agree(l: seq<Element>, index: map<BlockId, Element>) {
    Distinct(Values(l)) && Indexes(index, l)
  }

  ghost predicate Indexes(index: map<BlockId, Element>, l: seq<Element>) {
    && (forall id :: id in index <==> id in Values(l))
    && (forall e <- l :: e.value in index && index[e.value] == e)
    && (forall id <- index :: index[id].value == id)
  }

  lemma {:induction false} WithoutElement(l: seq<Element>, e: Element)
    requires Distinct(Values(l)) && e in l
    ensures Values(Without(l, e)) == Without(Values(l), e.value)
  {
    if l[0] == e {
      assert Values(l)[1..] == Values(l[1..]);
      assert e.value !in Values(l[1..]) by {
        forall i | 0 <= i < |l[1..]| ensures Values(l[1..])[i] != e.value {
          assert Values(l)[i + 1] != Values(l)[0];
        }
      }
      WithoutMembers(Values(l[1..]), e.value);
      assert e !in l[1..] by {
        forall i | 0 <= i < |l[1..]| ensures l[1..][i] != e {
          assert Values(l[1..])[i] != e.value;
        }
      }
      WithoutMembers(l[1..], e);
    } else {
      assert Values(l)[1..] == Values(l[1..]);
      assert Distinct(Values(l[1..])) by {
        forall i, j | 0 <= i < j < |l[1..]| ensures Values(l[1..])[i] != Values(l[1..])[j] {
          assert Values(l)[i + 1] != Values(l)[j + 1];
        }
      }
      WithoutElement(l[1..], e);
      var i :| 0 < i < |l| && l[i] == e;
      assert Values(l)[0] != Values(l)[i];
    }
  }

  lemma MoveToFrontAgrees(l: seq<Element>, index: map<BlockId, Element>, e: Element)
    requires Agree(l, index) && e in l
    ensures Agree([e] + Without(l, e), index)
    ensures Values([e] + Without(l, e)) == Touch(Values(l), e.value)
  {
    WithoutElement(l, e);
    assert Values([e] + Without(l, e)) == [e.value] + Values(Without(l, e));
    TouchDistinct(Values(l), e.value);
    WithoutMembers(l, e);
    assert e.value in Values(l) by {
      var i :| 0 <= i < |l| && l[i] == e;
      assert Values(l)[i] == e.value;
    }
    SameElementsIndexed(l, [e] + Without(l, e), index);
  }

  lemma SameElementsIndexed(l: seq<Element>, m: seq<Element>, index: map<BlockId, Element>)
    requires Indexes(index, l) && (forall x <- m :: x in l) && forall id :: id in Values(m) <==> id in Values(l)
    ensures Indexes(index, m)
  {
  }

  lemma PushFrontAgrees(l: seq<Element>, index: map<BlockId, Element>, e: Element)
    requires Agree(l, index) && e.value !in index
    ensures Agree([e] + l, index[e.value := e])
    ensures Values([e] + l) == Touch(Values(l), e.value)
  {
    assert Values([e] + l) == [e.value] + Values(l);
    WithoutMembers(Values(l), e.value);
    TouchDistinct(Values(l), e.value);
    PushFrontIndexes(l, index, e);
  }

  lemma PushFrontIndexes(l: seq<Element>, index: map<BlockId, Element>, e: Element)
    requires Indexes(index, l) && e.value !in index
    ensures Indexes(index[e.value := e], [e] + l)
  {
    assert Values([e] + l) == [e.value] + Values(l);
    forall x <- [e] + l ensures x.value in index[e.value := e] && index[e.value := e][x.value] == x {
      assert x == e || x in l;
    }
  }

  lemma RemoveBackAgrees(l: seq<Element>, index: map<BlockId, Element>)
    requires Agree(l, index) && l != []
    ensures Agree(l[..|l| - 1], index - {l[|l| - 1].value})
  {
    var short, last := l[..|l| - 1], l[|l| - 1];
    assert Values(l) == Values(short) + [last.value];
    forall i, j | 0 <= i < j < |short| ensures Values(short)[i] != Values(short)[j] {
      assert Values(l)[i] != Values(l)[j];
    }
    forall i | 0 <= i < |short| ensures Values(short)[i] != last.value {
      assert Values(l)[i] != Values(l)[|l| - 1];
    }
    forall e <- short ensures e.value != last.value {
      var i :| 0 <= i < |short| && short[i] == e;
      assert Values(short)[i] != last.value;
    }
  }

  /** Drops elements from the back of the list, and their index entries, until `cap` are left. */
  method EvictBack(l: seq<Element>, index: map<BlockId, Element>, cap: nat)
      returns (l': seq<Element>, index': map<BlockId, Element>)
    requires Agree(l, index)
    ensures Agree(l', index')
    ensures Values(l') == Take(Values(l), cap)
  {
    l', index' := l, index;
    while |l'| > cap
      invariant Agree(l', index')
      invariant |l'| <= |l| && l' == l[..|l'|]
      invariant |l'| < |l| ==> |l'| >= cap
    {
      RemoveBackAgrees(l', index');
      l', index' := l'[..|l'| - 1], index' - {l'[|l'| - 1].value};
    }
    assert l' == Take(l, cap);
    assert Values(Take(l, cap)) == Take(Values(l), cap);
  }

  /** Cached blocks as tokens; the clamp to the prompt length changes nothing. */
  method TokensOf(hits: nat, n: nat, len: nat) returns (cached: nat)
    requires n > 0 && hits <= len / n
    ensures cached == hits * n && cached <= len
  {
    FullBlocksFit(len, n, hits);
    cached := hits * n;
    if cached > len {
      cached := len;
    }
  }

  class KvSim {
    const hash: string -> string
    const blockWords: nat
    const capBlocks: nat
    var lru: seq<Element>
    var index: map<BlockId, Element>
    var promptTokens: nat
    var cachedTokens: nat
    ghost var requests: seq<seq<BlockId>>     // the blocks of every request so far

    constructor (hash: string -> string, blockWords: nat, capBlocks: nat)
      requires blockWords > 0
      ensures Valid() && requests == []
      ensures this.hash == hash && this.blockWords == blockWords && this.capBlocks == capBlocks && promptTokens == cachedTokens == 0
    {
      this.hash := hash;
      this.blockWords := blockWords;
      this.capBlocks := capBlocks;
      lru, index := [], map[];
      promptTokens, cachedTokens, requests := 0, 0, [];
    }

    /** List and index agree and hold what the whole history of requests leaves in the cache. */
    ghost predicate Valid()
      reads this
    {
      blockWords > 0 && Agree(lru, index) && Values(lru) == CacheAfter(requests, capBlocks)
    }

    /** The list is the front of the recency order of everything ever touched. */
    lemma HoldsMostRecent()
      requires Valid()
      ensures Values(lru) == Take(Recent(History(requests)), capBlocks) && |lru| <= capBlocks
      ensures forall id :: id in index <==> id in History(requests) && |TouchedSince(History(requests), id)| < capBlocks
    {
      CacheIsMostRecent(requests, capBlocks);
      forall id ensures id in index <==> id in History(requests) && |TouchedSince(History(requests), id)| < capBlocks {
        CachedIffReuseDistance(requests, capBlocks, id);
      }
    }

    /** Chains the ids block by block; words that do not fill a block have none. */
    method BlockIDs(words: seq<Word>) returns (ids: seq<BlockId>)
      requires blockWords > 0
      ensures ids == BlockIds(hash, words, blockWords)
    {
      var n := |words| / blockWords;
      ids := [];
      var prev := "";
      var i := 0;
      while i < n
        invariant 0 <= i <= n && |ids| == i
        invariant i * blockWords <= |words| && prev == ChainId(hash, words, blockWords, i)
        invariant forall j :: 0 <= j < i ==> ids[j] == BlockIds(hash, words, blockWords)[j]
      {
        FullBlocksFit(|words|, blockWords, i + 1);
        MulMono(i, i + 1, blockWords);
        prev := hash(prev + Join(words[i * blockWords..(i + 1) * blockWords]));
        ids := ids + [prev];
        i := i + 1;
      }
    }

    /** Counts the hits first, so a request never hits the blocks it brings itself. */
    method LookupAndStore(ids: seq<BlockId>) returns (cached: nat)
      requires Valid()
      modifies `lru, `index, `requests
      ensures Valid() && requests == old(requests) + [ids]
      ensures cached == Reported(old(requests), ids, capBlocks)
    {
      cached := CountLeading(ids);
      assert (requests + [ids])[..|requests|] == requests;
      if capBlocks == 0 {
        requests := requests + [ids];
        return 0;
      }
      StoreAll(ids);
      Evict();
      requests := requests + [ids];
    }

    method CountLeading(ids: seq<BlockId>) returns (cached: nat)
      requires Agree(lru, index)
      ensures cached == Hits(Values(lru), ids)
    {
      cached := 0;
      while cached < |ids|
        invariant cached <= |ids|
        invariant Hits(Values(lru), ids) == cached + Hits(Values(lru), ids[cached..])
      {
        if ids[cached] !in index {
          return;
        }
        assert ids[cached..][1..] == ids[cached + 1..];
        cached := cached + 1;
      }
    }

    method StoreAll(ids: seq<BlockId>)
      requires Agree(lru, index)
      modifies `lru, `index
      ensures Agree(lru, index)
      ensures Values(lru) == TouchAll(old(Values(lru)), ids)
    {
      var i := 0;
      while i < |ids|
        invariant 0 <= i <= |ids|
        invariant Agree(lru, index)
        invariant TouchAll(Values(lru), ids[i..]) == TouchAll(old(Values(lru)), ids)
      {
        assert ids[i..][1..] == ids[i + 1..];
        TouchOne(ids[i]);
        i := i + 1;
      }
    }

    /** MoveToFront for a known block, PushFront for a new one. */
    method TouchOne(id: BlockId)
      requires Agree(lru, index)
      modifies `lru, `index
      ensures Agree(lru, index)
      ensures Values(lru) == Touch(old(Values(lru)), id)
    {
      if id in index {
        var el := index[id];
        MoveToFrontAgrees(lru, index, el);
        lru := [el] + Without(lru, el);
      } else {
        var el := new Element(id);
        PushFrontAgrees(lru, index, el);
        lru := [el] + lru;
        index := index[id := el];
      }
    }

    method Evict()
      requires Agree(lru, index)
      modifies `lru, `index
      ensures Agree(lru, index)
      ensures Values(lru) == Take(old(Values(lru)), capBlocks)
    {
      lru, index := EvictBack(lru, index, capBlocks);
    }

    /**
     The cache part of admitting a request.  `prompts` are the earlier prompts.  Cached
     tokens never exceed the prompt and, without impostors, stand for words some earlier
     prompt began with.
     */
    method CountTokens(words: seq<Word>, ghost prompts: seq<seq<Word>>) returns (cached: nat)
      requires Valid() && requests == Requests(hash, prompts, blockWords)
      modifies `lru, `index, `promptTokens, `cachedTokens, `requests
      ensures Valid() && requests == Requests(hash, prompts + [words], blockWords)
      ensures cached == Reported(old(requests), BlockIds(hash, words, blockWords), capBlocks) * blockWords
      ensures cached <= |words|
      ensures cached > 0 && Sound(prompts + [words]) ==>
                exists m :: 0 <= m < |prompts| && cached <= |prompts[m]| && prompts[m][..cached] == words[..cached]
      ensures promptTokens == old(promptTokens) + |words| && cachedTokens == old(cachedTokens) + cached
    {
      var ids := BlockIDs(words);
      ghost var k := Reported(requests, ids, capBlocks);
      HitsMeaning(CacheAfter(requests, capBlocks), ids);
      var hits := LookupAndStore(ids);
      assert requests == Requests(hash, prompts + [words], blockWords);
      cached := TokensOf(hits, blockWords, |words|);
      if Sound(prompts + [words]) {
        ghost var m := HitMeansSharedPrefix(hash, prompts, words, blockWords, capBlocks, k);
        assert cached > 0 ==> prompts[m][..cached] == words[..cached];
      }
      promptTokens := promptTokens + |words|;
      cachedTokens := cachedTokens + cached;
    }

    /** The hash is one, keeps these prompts apart, and none of them is an impostor. */
    ghost predicate Sound(prompts: seq<seq<Word>>)
      requires blockWords > 0
    {
      IsHash(hash) && CollisionFree(hash, prompts, blockWords) && NoImpostor(hash, prompts, blockWords)
    }
  }
}
