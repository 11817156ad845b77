/**
 Block ids of the simulated engine.  The id of a block is a hash of the id of the block
 before it, written directly in front of the block's own words.
 */
module BlockHash {

  /** What splitting a prompt at white space yields. */
  predicate IsWord(w: string) {
    w != "" && ' ' !in w
  }

  type Word = w: string | IsWord(w) witness "a"

  function Join(ws: seq<Word>): string {
    if ws == [] then "" else if |ws| == 1 then ws[0] else ws[0] + (" " + Join(ws[1..]))
  }

  /** The hash and its cut to 16 hexadecimal digits. */
  ghost predicate IsHash(h: string -> string) {
    forall t :: |h(t)| == 16 && ' ' !in h(t)
  }

  // ---------------------------------------------------------------- full blocks

  lemma MulMono(a: nat, b: nat, n: nat)
    requires a <= b
    ensures a * n <= b * n
  {
  }

  lemma FullBlocksFit(len: nat, n: nat, k: nat)
    requires n > 0 && k <= len / n
    ensures k * n <= len
  {
  }

  lemma FittingBlocksAreFull(len: nat, n: nat, k: nat)
    requires n > 0 && k * n <= len
    ensures k <= len / n
  {
    if k > len / n {
      MulMono(len / n + 1, k, n);
      assert false;
    }
  }

  /** The prompt has a `k`th full block; blocks are counted from 1. */
  predicate HasBlock(words: seq<Word>, n: nat, k: nat) {
    k >= 1 && k * n <= |words|
  }

  function BlockAt(words: seq<Word>, n: nat, k: nat): (b: seq<Word>)
    requires HasBlock(words, n, k)
    ensures |b| == n
  {
    assert k * n == (k - 1) * n + n;
    words[(k - 1) * n..k * n]
  }

  /** The id that stands for the first `k` blocks of a prompt. */
  function ChainId(h: string -> string, words: seq<Word>, n: nat, k: nat): string
    requires k * n <= |words|
    decreases k, 0
  {
    if k == 0 then "" else h(HashedText(h, words, n, k))
  }

  /** What is hashed for block `k`: nothing marks where the previous id ends. */
  function HashedText(h: string -> string, words: seq<Word>, n: nat, k: nat): string
    requires HasBlock(words, n, k)
    decreases k - 1, 1
  {
    MulMono(k - 1, k, n);
    ChainId(h, words, n, k - 1) + Join(BlockAt(words, n, k))
  }

  /** The ids of all full blocks of a prompt. */
  function BlockIds(h: string -> string, words: seq<Word>, n: nat): (ids: seq<string>)
    requires n > 0
    ensures |ids| == |words| / n
  {
    seq(|words| / n, i requires 0 <= i < |words| / n => FullBlocksFit(|words|, n, i + 1); ChainId(h, words, n, i + 1))
  }

  // ---------------------------------------------------------------- joined words

  /** The first word of a text ends at the first space, or with the text. */
  lemma FirstWordEnds(a: string, x: string, b: string, y: string)
    requires a + x == b + y && ' ' !in a && ' ' !in b
    requires (x == "" || x[0] == ' ') && (y == "" || y[0] == ' ')
    ensures a == b && x == y
  {
    var s := a + x;
    assert |a| < |s| ==> s[|a|] == ' ';
    assert |b| < |s| ==> s[|b|] == ' ';
    assert forall i :: 0 <= i < |a| ==> s[i] == a[i];
    assert forall i :: 0 <= i < |b| ==> s[i] == b[i];
    assert |a| == |b|;
    assert a == s[..|a|] && b == s[..|b|] && x == s[|a|..] && y == s[|b|..];
  }

  /** A joined text is its first word and what follows. */
  function Tail(ws: seq<Word>): string
    requires ws != []
  {
    if |ws| == 1 then "" else " " + Join(ws[1..])
  }

  lemma JoinSplit(ws: seq<Word>)
    requires ws != []
    ensures Join(ws) == ws[0] + Tail(ws) && ' ' !in ws[0] && (Tail(ws) == "" || Tail(ws)[0] == ' ')
  {
  }

  lemma SameTail(a: seq<Word>, b: seq<Word>)
    requires |a| == |b| > 1 && Tail(a) == Tail(b)
    ensures Join(a[1..]) == Join(b[1..])
  {
    assert Join(a[1..]) == Tail(a)[1..] && Join(b[1..]) == Tail(b)[1..];
  }

  lemma SameFirstWord(a: seq<Word>, b: seq<Word>)
    requires |a| == |b| > 0 && Join(a) == Join(b)
    ensures a[0] == b[0] && Tail(a) == Tail(b)
  {
    JoinSplit(a);
    JoinSplit(b);
    FirstWordEnds(a[0], Tail(a), b[0], Tail(b));
  }

  lemma SameHeadAndRest(a: seq<Word>, b: seq<Word>)
    requires |a| == |b| > 0 && a[0] == b[0] && a[1..] == b[1..]
    ensures a == b
  {
    assert a == [a[0]] + a[1..] && b == [b[0]] + b[1..];
  }

  lemma {:induction false} JoinInjective(a: seq<Word>, b: seq<Word>)
    requires |a| == |b| && Join(a) == Join(b)
    ensures a == b
  {
    if a != [] {
      SameFirstWord(a, b);
      if |a| > 1 {
        SameTail(a, b);
        JoinInjective(a[1..], b[1..]);
      }
      SameHeadAndRest(a, b);
    }
  }

  /** The block whose first word has `p` in front of it. */
  function Prefixed(p: string, ws: seq<Word>): (r: seq<Word>)
    requires ' ' !in p && ws != []
    ensures |r| == |ws| && r[0] == p + ws[0] && r[1..] == ws[1..]
  {
    [p + ws[0]] + ws[1..]
  }

  lemma JoinPrefixed(p: string, ws: seq<Word>)
    requires ' ' !in p && ws != []
    ensures p + Join(ws) == Join(Prefixed(p, ws))
  {
    var r := Prefixed(p, ws);
    JoinSplit(ws);
    JoinSplit(r);
    assert p + (ws[0] + Tail(ws)) == (p + ws[0]) + Tail(ws);
  }

  lemma ChainIdShape(h: string -> string, words: seq<Word>, n: nat, k: nat)
    requires IsHash(h) && k * n <= |words|
    ensures |ChainId(h, words, n, k)| == (if k == 0 then 0 else 16) && ' ' !in ChainId(h, words, n, k)
  {
  }

  // ---------------------------------------------------------------- when two hashed texts are equal

  /**
   The first block of `u` reads like the id of the first `d` blocks of `v` followed by
   the words of the block after them.
   */
  ghost predicate Impostor(h: string -> string, u: seq<Word>, v: seq<Word>, n: nat, d: nat)
    requires IsHash(h) && n > 0
  {
    d >= 1 && HasBlock(u, n, 1) && HasBlock(v, n, d + 1) &&
    (MulMono(d, d + 1, n); ChainIdShape(h, v, n, d);
     BlockAt(u, n, 1) == Prefixed(ChainId(h, v, n, d), BlockAt(v, n, d + 1)))
  }

  /** With the same number of words, prefixed blocks agree when prefixes and blocks do, or one prefix is empty. */
  lemma PrefixedEqual(p: string, a: seq<Word>, q: string, b: seq<Word>)
    requires ' ' !in p && ' ' !in q && |a| == |b| > 0 && |p| == |q|
    ensures Prefixed(p, a) == Prefixed(q, b) <==> p == q && a == b
  {
    if Prefixed(p, a) == Prefixed(q, b) {
      assert p + a[0] == q + b[0];
      assert p == (p + a[0])[..|p|] && q == (q + b[0])[..|q|];
      assert a[0] == (p + a[0])[|p|..] && b[0] == (q + b[0])[|q|..];
      assert a == [a[0]] + a[1..] && b == [b[0]] + b[1..];
    }
  }

  /** A prefix and joined words are one text for one prefixed block only. */
  lemma JoinedIff(p: string, a: seq<Word>, q: string, b: seq<Word>)
    requires ' ' !in p && ' ' !in q && |a| == |b| > 0
    ensures p + Join(a) == q + Join(b) <==> Prefixed(p, a) == Prefixed(q, b)
  {
    JoinPrefixed(p, a);
    JoinPrefixed(q, b);
    if Join(Prefixed(p, a)) == Join(Prefixed(q, b)) {
      JoinInjective(Prefixed(p, a), Prefixed(q, b));
    }
  }

  /** Two first blocks, or two later ones. */
  lemma SameTextAlike(h: string -> string, u: seq<Word>, v: seq<Word>, n: nat, j: nat, k: nat)
    requires IsHash(h) && n > 0 && HasBlock(u, n, j) && HasBlock(v, n, k) && (j == 1 <==> k == 1)
    ensures (j - 1) * n <= |u| && (k - 1) * n <= |v|
    ensures HashedText(h, u, n, j) == HashedText(h, v, n, k) <==>
              ChainId(h, u, n, j - 1) == ChainId(h, v, n, k - 1) && BlockAt(u, n, j) == BlockAt(v, n, k)
  {
    MulMono(j - 1, j, n);
    MulMono(k - 1, k, n);
    var p, a := ChainId(h, u, n, j - 1), BlockAt(u, n, j);
    var q, b := ChainId(h, v, n, k - 1), BlockAt(v, n, k);
    ChainIdShape(h, u, n, j - 1);
    ChainIdShape(h, v, n, k - 1);
    JoinedIff(p, a, q, b);
    PrefixedEqual(p, a, q, b);
  }

  /** A first block against a later one. */
  lemma SameTextAsFirst(h: string -> string, u: seq<Word>, v: seq<Word>, n: nat, k: nat)
    requires IsHash(h) && n > 0 && HasBlock(u, n, 1) && HasBlock(v, n, k) && k > 1
    ensures HashedText(h, u, n, 1) == HashedText(h, v, n, k) <==> Impostor(h, u, v, n, k - 1)
    ensures (k - 1) * n <= |v| && ChainId(h, v, n, k - 1) != ""
  {
    MulMono(k - 1, k, n);
    ChainIdShape(h, v, n, k - 1);
    assert ChainId(h, u, n, 0) == "";
    JoinedIff("", BlockAt(u, n, 1), ChainId(h, v, n, k - 1), BlockAt(v, n, k));
    EmptyPrefix(BlockAt(u, n, 1));
  }

  /**
   Two hashed texts are the same exactly when previous ids and words are, or when one
   belongs to a first block that begins with the previous id of the other and goes on
   with its words.
   */
  lemma SameTextIff(h: string -> string, u: seq<Word>, v: seq<Word>, n: nat, j: nat, k: nat)
    requires IsHash(h) && n > 0 && HasBlock(u, n, j) && HasBlock(v, n, k)
    ensures (j - 1) * n <= |u| && (k - 1) * n <= |v|
    ensures HashedText(h, u, n, j) == HashedText(h, v, n, k) <==>
              || (ChainId(h, u, n, j - 1) == ChainId(h, v, n, k - 1) && BlockAt(u, n, j) == BlockAt(v, n, k))
              || (j == 1 && Impostor(h, u, v, n, k - 1))
              || (k == 1 && Impostor(h, v, u, n, j - 1))
  {
    MulMono(j - 1, j, n);
    MulMono(k - 1, k, n);
    if j == 1 && k > 1 {
      SameTextAsFirst(h, u, v, n, k);
    } else if k == 1 && j > 1 {
      SameTextAsFirst(h, v, u, n, j);
    } else {
      SameTextAlike(h, u, v, n, j, k);
    }
  }

  lemma EmptyPrefix(ws: seq<Word>)
    requires ws != []
    ensures Prefixed("", ws) == ws
  {
    assert "" + ws[0] == ws[0];
    assert ws == [ws[0]] + ws[1..];
  }

  // ---------------------------------------------------------------- when two ids are equal

  /** The hash keeps the texts of these prompts apart. */
  ghost predicate CollisionFree(h: string -> string, prompts: seq<seq<Word>>, n: nat) {
    forall u, v, j, k :: u in prompts && v in prompts ==> KeptApart(h, u, v, n, j, k)
  }

  ghost predicate KeptApart(h: string -> string, u: seq<Word>, v: seq<Word>, n: nat, j: nat, k: nat) {
    HasBlock(u, n, j) && HasBlock(v, n, k) && ChainId(h, u, n, j) == ChainId(h, v, n, k) ==>
      HashedText(h, u, n, j) == HashedText(h, v, n, k)
  }

  /** No first block of these prompts reads like an id of the run and the words after it. */
  ghost predicate NoImpostor(h: string -> string, prompts: seq<seq<Word>>, n: nat)
    requires IsHash(h) && n > 0
  {
    forall u, v, d :: u in prompts && v in prompts ==> !Impostor(h, u, v, n, d)
  }

  /** The first `j` blocks of `u` are the blocks of `v` from `d + 1` on, the first one up to a previous id. */
  ghost predicate Matches(h: string -> string, u: seq<Word>, v: seq<Word>, n: nat, j: nat, d: nat)
    requires IsHash(h) && n > 0 && HasBlock(u, n, j) && HasBlock(v, n, j + d)
  {
    && (if d == 0 then BlockAt1(u, n) == BlockAt1(v, n) else Impostor(h, u, v, n, d))
    && forall i :: 2 <= i <= j ==> SameBlock(u, v, n, i, d)
  }

  predicate SameBlock(u: seq<Word>, v: seq<Word>, n: nat, i: nat, d: nat) {
    HasBlock(u, n, i) && HasBlock(v, n, i + d) && BlockAt(u, n, i) == BlockAt(v, n, i + d)
  }

  function BlockAt1(words: seq<Word>, n: nat): seq<Word> {
    if HasBlock(words, n, 1) then BlockAt(words, n, 1) else []
  }

  lemma EarlierBlock(words: seq<Word>, n: nat, k: nat)
    requires HasBlock(words, n, k)
    ensures forall i :: 1 <= i <= k ==> HasBlock(words, n, i)
  {
    forall i | 1 <= i <= k ensures HasBlock(words, n, i) {
      MulMono(i, k, n);
    }
  }

  /**
   When two ids are equal: exactly when the chains agree block by block, down to the
   first block of the shorter one, which is the first block of the other or an impostor.
   */
  lemma {:induction false} SameIdIff(h: string -> string, prompts: seq<seq<Word>>, u: seq<Word>, v: seq<Word>, n: nat, j: nat, d: nat)
    requires IsHash(h) && n > 0 && u in prompts && v in prompts && CollisionFree(h, prompts, n)
    requires HasBlock(u, n, j) && HasBlock(v, n, j + d)
    ensures ChainId(h, u, n, j) == ChainId(h, v, n, j + d) <==> Matches(h, u, v, n, j, d)
    decreases j
  {
    if j == 1 {
      SameFirstIdIff(h, prompts, u, v, n, d);
    } else {
      MulMono(j - 1, j, n);
      MulMono(j - 1 + d, j + d, n);
      SameIdIff(h, prompts, u, v, n, j - 1, d);
      SameIdStep(h, prompts, u, v, n, j, d);
      MatchesStep(h, u, v, n, j, d);
    }
  }

  lemma SameFirstIdIff(h: string -> string, prompts: seq<seq<Word>>, u: seq<Word>, v: seq<Word>, n: nat, d: nat)
    requires IsHash(h) && n > 0 && u in prompts && v in prompts && CollisionFree(h, prompts, n)
    requires HasBlock(u, n, 1) && HasBlock(v, n, 1 + d)
    ensures ChainId(h, u, n, 1) == ChainId(h, v, n, 1 + d) <==> Matches(h, u, v, n, 1, d)
  {
    SameIdSameText(h, prompts, u, v, n, 1, 1 + d);
    if d > 0 {
      SameTextAsFirst(h, u, v, n, 1 + d);
    } else {
      SameTextAlike(h, u, v, n, 1, 1);
    }
  }

  lemma SameIdStep(h: string -> string, prompts: seq<seq<Word>>, u: seq<Word>, v: seq<Word>, n: nat, j: nat, d: nat)
    requires IsHash(h) && n > 0 && u in prompts && v in prompts && CollisionFree(h, prompts, n)
    requires j > 1 && HasBlock(u, n, j) && HasBlock(v, n, j + d) && HasBlock(u, n, j - 1) && HasBlock(v, n, j - 1 + d)
    ensures ChainId(h, u, n, j) == ChainId(h, v, n, j + d) <==>
              ChainId(h, u, n, j - 1) == ChainId(h, v, n, j - 1 + d) && BlockAt(u, n, j) == BlockAt(v, n, j + d)
  {
    SameIdSameText(h, prompts, u, v, n, j, j + d);
    SameTextAlike(h, u, v, n, j, j + d);
    assert j + d - 1 == j - 1 + d;
  }

  lemma SameIdSameText(h: string -> string, prompts: seq<seq<Word>>, u: seq<Word>, v: seq<Word>, n: nat, j: nat, k: nat)
    requires u in prompts && v in prompts && CollisionFree(h, prompts, n) && HasBlock(u, n, j) && HasBlock(v, n, k)
    ensures ChainId(h, u, n, j) == ChainId(h, v, n, k) <==> HashedText(h, u, n, j) == HashedText(h, v, n, k)
  {
    assert KeptApart(h, u, v, n, j, k);
  }

  lemma MatchesStep(h: string -> string, u: seq<Word>, v: seq<Word>, n: nat, j: nat, d: nat)
    requires IsHash(h) && n > 0 && j > 1 && HasBlock(u, n, j) && HasBlock(v, n, j + d)
    requires HasBlock(u, n, j - 1) && HasBlock(v, n, j - 1 + d)
    ensures Matches(h, u, v, n, j, d) <==> Matches(h, u, v, n, j - 1, d) && BlockAt(u, n, j) == BlockAt(v, n, j + d)
  {
    assert SameBlock(u, v, n, j, d) <==> BlockAt(u, n, j) == BlockAt(v, n, j + d);
  }
}
