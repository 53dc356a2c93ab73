/** The chained block hash.  The concrete hash functions are parameters. */
module Hashing {
  import opened Arithmetic
  import opened LanguageModel
  import opened Wrappers

  /** words: hash of a sequence of 64-bit words, which is how block contents and seeds are hashed.
      bytes: hash of a namespace whose bytes are no whole words.
      packed: the words that a namespace's bytes make up, if they are whole words; then the namespace
      and those words are the same hash input. */
  datatype Hasher = Hasher(words: seq<int> -> nat, bytes: string -> nat, packed: string -> Option<seq<int>>)
  {
    /** Hash of one block's tokens, seeded by the hash of the prefix before it (-1: no seed). */
    function Block(t: seq<Token>, seed: int): nat { words(Input(t, seed)) }

    /** Seed of a non-empty namespace. */
    function Namespace(namespace: string): nat {
      var p := packed(namespace);
      if p.Some? then words(p.value) else bytes(namespace)
    }
  }

  /** What is hashed for a block: the seed, if there is one, and the tokens. */
  function Input(t: seq<Token>, seed: int): seq<int> {
    (if seed == -1 then [] else [seed]) + t
  }

  function InitialHash(h: Hasher, namespace: string): int {
    if namespace == "" then -1 else h.Namespace(namespace)
  }

  predicate WholeBlocks(t: seq<Token>, bs: nat)
    requires bs > 0
  {
    |t| % bs == 0
  }

  /** Hash of a token prefix made of whole blocks, in a namespace. */
  function Chain(h: Hasher, bs: nat, namespace: string, t: seq<Token>): (r: int)
    requires bs > 0
    ensures |t| >= bs ==> r >= 0
    decreases |t|
  {
    if |t| < bs then InitialHash(h, namespace)
    else h.Block(t[|t| - bs..], Chain(h, bs, namespace, t[..|t| - bs]))
  }

  /** The input hashed for the last block of a prefix. */
  function LastInput(h: Hasher, bs: nat, namespace: string, t: seq<Token>): seq<int>
    requires 0 < bs <= |t|
  {
    Input(t[|t| - bs..], Chain(h, bs, namespace, t[..|t| - bs]))
  }

  /** No two different inputs have one hash; names are the namespaces in use. */
  ghost predicate HashesDistinct(h: Hasher, names: string -> bool) {
    && (forall v, w :: h.words(v) == h.words(w) ==> v == w)
    && (forall a, w | h.packed(a).None? :: h.bytes(a) != h.words(w))
    && (forall a, b | names(a) && names(b) :: h.Namespace(a) == h.Namespace(b) ==> a == b)
  }

  /** The bytes of this namespace are the very bytes hashed for some block. */
  ghost predicate LooksLikeBlock(h: Hasher, bs: nat, names: string -> bool, a: string)
    requires bs > 0
  {
    exists b, u | names(b) && WholeBlocks(u, bs) && |u| >= bs :: h.packed(a) == Some(LastInput(h, bs, b, u))
  }

  /** Different inputs have different hashes, and no namespace in use is the input of a block. */
  ghost predicate NoCollisions(h: Hasher, bs: nat, names: string -> bool)
    requires bs > 0
  {
    HashesDistinct(h, names) && forall a | names(a) && a != "" :: !LooksLikeBlock(h, bs, names, a)
  }

  /** A block's hash is the seed of a namespace in use only if the namespace looks like that block. */
  lemma SeedIsNoBlock(h: Hasher, bs: nat, names: string -> bool, a: string, b: string, u: seq<Token>)
    requires bs > 0 && HashesDistinct(h, names) && names(b) && WholeBlocks(u, bs) && |u| >= bs
    requires InitialHash(h, a) == Chain(h, bs, b, u)
    ensures a != "" && LooksLikeBlock(h, bs, names, a)
  {
    assert Chain(h, bs, b, u) == h.words(LastInput(h, bs, b, u));
  }

  lemma SameInput(t: seq<Token>, u: seq<Token>, p: int, q: int)
    requires |t| == |u| && Input(t, p) == Input(u, q)
    ensures t == u && p == q
  {
    var x, y := Input(t, p), Input(u, q);
    if p == -1 {
      assert x == t && y == u;
    } else {
      assert x[0] == p && y[0] == q && x[1..] == t && y[1..] == u;
    }
  }

  /** Without collisions the chain hash identifies the namespace and the whole prefix, not just the
      last block. */
  lemma {:induction false} ChainInjective(h: Hasher, bs: nat, names: string -> bool, a: string, t: seq<Token>,
                                          b: string, u: seq<Token>)
    requires bs > 0 && NoCollisions(h, bs, names) && names(a) && names(b)
    requires WholeBlocks(t, bs) && WholeBlocks(u, bs)
    requires Chain(h, bs, a, t) == Chain(h, bs, b, u)
    ensures a == b && t == u
    decreases |t|
  {
    hide LooksLikeBlock;
    if |t| >= bs && |u| >= bs {
      var t0, u0 := t[..|t| - bs], u[..|u| - bs];
      assert h.words(LastInput(h, bs, a, t)) == h.words(LastInput(h, bs, b, u));
      SameInput(t[|t| - bs..], u[|u| - bs..], Chain(h, bs, a, t0), Chain(h, bs, b, u0));
      WholeBlocksDrop(t, bs);
      WholeBlocksDrop(u, bs);
      ChainInjective(h, bs, names, a, t0, b, u0);
      assert t == t0 + t[|t| - bs..] && u == u0 + u[|u| - bs..];
    } else if |t| < bs && |u| < bs {
      assert |t| == 0 && |u| == 0;
    } else if |t| < bs {
      SeedIsNoBlock(h, bs, names, a, b, u);
    } else {
      SeedIsNoBlock(h, bs, names, b, a, t);
    }
  }

  /** Equal chain hashes mean the same namespace and the same prefix. */
  ghost predicate ChainsIdentify(h: Hasher, bs: nat, names: string -> bool)
    requires bs > 0
  {
    forall a, t, b, u | names(a) && names(b) && WholeBlocks(t, bs) && WholeBlocks(u, bs)
                        && Chain(h, bs, a, t) == Chain(h, bs, b, u) :: a == b && t == u
  }

  lemma LooksLikeBlockMixesUp(h: Hasher, bs: nat, names: string -> bool, a: string)
    requires bs > 0 && names(a) && a != "" && LooksLikeBlock(h, bs, names, a)
    ensures !ChainsIdentify(h, bs, names)
  {
    hide ChainsIdentify, WholeBlocks;
    var b, u :| names(b) && WholeBlocks(u, bs) && |u| >= bs && h.packed(a) == Some(LastInput(h, bs, b, u));
    assert Chain(h, bs, a, []) == Chain(h, bs, b, u);
    NothingIsWhole(bs);
    MixedUp(h, bs, names, a, [], b, u);
  }

  lemma NothingIsWhole(bs: nat)
    requires bs > 0
    ensures WholeBlocks([], bs)
  {
  }

  lemma MixedUp(h: Hasher, bs: nat, names: string -> bool, a: string, t: seq<Token>, b: string, u: seq<Token>)
    requires bs > 0 && names(a) && names(b) && WholeBlocks(t, bs) && WholeBlocks(u, bs)
    requires Chain(h, bs, a, t) == Chain(h, bs, b, u) && t != u
    ensures !ChainsIdentify(h, bs, names)
  {
    hide Chain, WholeBlocks;
  }

  /** Where different inputs have different hashes, chain hashes identify namespace and prefix if and
      only if no namespace in use has the bytes hashed for a block. */
  lemma ChainsIdentifyExactly(h: Hasher, bs: nat, names: string -> bool)
    requires bs > 0 && HashesDistinct(h, names)
    ensures ChainsIdentify(h, bs, names) <==> forall a | names(a) && a != "" :: !LooksLikeBlock(h, bs, names, a)
  {
    hide LooksLikeBlock, Chain, WholeBlocks, HashesDistinct;
    if forall a | names(a) && a != "" :: !LooksLikeBlock(h, bs, names, a) {
      forall a, t, b, u | names(a) && names(b) && WholeBlocks(t, bs) && WholeBlocks(u, bs)
                          && Chain(h, bs, a, t) == Chain(h, bs, b, u) ensures a == b && t == u {
        ChainInjective(h, bs, names, a, t, b, u);
      }
    } else {
      var a :| names(a) && a != "" && LooksLikeBlock(h, bs, names, a);
      LooksLikeBlockMixesUp(h, bs, names, a);
    }
  }

  /** Only a namespace of as many words as a block has, or one more, can look like one. */
  lemma OtherLengthsAreSafe(h: Hasher, bs: nat, names: string -> bool, a: string)
    requires bs > 0 && (h.packed(a).None? || (|h.packed(a).value| != bs && |h.packed(a).value| != bs + 1))
    ensures !LooksLikeBlock(h, bs, names, a)
  {
  }

  /** A namespace whose bytes are one block of tokens shares every chain hash with the default
      namespace: its requests find, under any prefix t, what was cached for that block followed by t. */
  lemma {:induction false} NamespaceOfOneBlock(h: Hasher, bs: nat, a: string, w: seq<Token>, t: seq<Token>)
    requires bs > 0 && a != "" && |w| == bs && h.packed(a) == Some(w) && WholeBlocks(t, bs)
    ensures Chain(h, bs, a, t) == Chain(h, bs, "", w + t)
    decreases |t|
  {
    hide WholeBlocks;
    if |t| < bs {
      WholeShort(t, bs);
      assert w + t == w && w[|w| - bs..] == w && w[..|w| - bs] == [] && Input(w, -1) == w;
    } else {
      var t0, x := t[..|t| - bs], w + t;
      WholeBlocksDrop(t, bs);
      NamespaceOfOneBlock(h, bs, a, w, t0);
      assert x[..|x| - bs] == w + t0 && x[|x| - bs..] == t[|t| - bs..];
    }
  }

  lemma WholeShort(t: seq<Token>, bs: nat)
    requires bs > 0 && WholeBlocks(t, bs) && |t| < bs
    ensures t == []
  {
  }

  lemma WholeBlocksDrop(t: seq<Token>, bs: nat)
    requires bs > 0 && WholeBlocks(t, bs) && |t| >= bs
    ensures WholeBlocks(t[..|t| - bs], bs)
  {
    var k := |t| / bs;
    assert |t| == bs * k;
    assert |t| - bs == bs * (k - 1);
    DivModUnique(bs, k - 1, 0);
  }

  /* ---------- There are such hash functions ---------- */

  function Fold(x: int): nat { if x >= 0 then 2 * x else -2 * x - 1 }

  function Pair(a: nat, b: nat): nat { (a + b) * (a + b) + b }

  lemma PairInjective(a: nat, b: nat, x: nat, y: nat)
    requires Pair(a, b) == Pair(x, y)
    ensures a == x && b == y
  {
    var s, t := a + b, x + y;
    if s < t { SquaresApart(s, t); }
    if t < s { SquaresApart(t, s); }
  }

  lemma SquaresApart(s: nat, t: nat)
    requires s < t
    ensures s * s + s < t * t
  {
    assert (s + 1) * (s + 1) == s * s + 2 * s + 1;
    MulMonotone(s + 1, t, s + 1);
    MulMonotone(s + 1, t, t);
  }

  function Code(w: seq<int>): nat {
    if w == [] then 0 else 1 + Pair(Fold(w[0]), Code(w[1..]))
  }

  lemma {:induction false} CodeInjective(v: seq<int>, w: seq<int>)
    requires Code(v) == Code(w)
    ensures v == w
  {
    if v != [] && w != [] {
      PairInjective(Fold(v[0]), Code(v[1..]), Fold(w[0]), Code(w[1..]));
      CodeInjective(v[1..], w[1..]);
      assert v == [v[0]] + v[1..] && w == [w[0]] + w[1..];
    }
  }

  function Chars(a: string): seq<int> { seq(|a|, i requires 0 <= i < |a| => a[i] as int) }

  lemma CharsInjective(a: string, b: string)
    requires Chars(a) == Chars(b)
    ensures a == b
  {
    assert |Chars(a)| == |a| && |Chars(b)| == |b|;
    forall i | 0 <= i < |a| ensures a[i] == b[i] { assert Chars(a)[i] == Chars(b)[i]; }
  }

  /** What the statements about contents rest on can be met: for any way of packing strings into words
      that tells them apart, some hash functions keep all inputs distinct, and then no namespace collides
      unless it has as many words as a block, or one more. */
  lemma HashesCanBeDistinct(packed: string -> Option<seq<int>>, bs: nat, names: string -> bool) returns (h: Hasher)
    requires bs > 0 && forall a, b | packed(a).Some? && packed(b).Some? && packed(a) == packed(b) :: a == b
    requires forall a | names(a) && packed(a).Some? :: |packed(a).value| != bs && |packed(a).value| != bs + 1
    ensures h.packed == packed && NoCollisions(h, bs, names)
  {
    h := Hasher((w: seq<int>) => 2 * Code(w), (a: string) => 2 * Code(Chars(a)) + 1, packed);
    forall v, w | h.words(v) == h.words(w) ensures v == w { CodeInjective(v, w); }
    forall a, b | names(a) && names(b) && h.Namespace(a) == h.Namespace(b) ensures a == b {
      if packed(a).Some? && packed(b).Some? {
        CodeInjective(packed(a).value, packed(b).value);
      } else if packed(a).None? && packed(b).None? {
        CodeInjective(Chars(a), Chars(b));
        CharsInjective(a, b);
      }
    }
    forall a | names(a) && a != "" ensures !LooksLikeBlock(h, bs, names, a) { OtherLengthsAreSafe(h, bs, names, a); }
  }
}
