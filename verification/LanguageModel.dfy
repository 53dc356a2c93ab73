/** The model as the engine sees it: a deterministic transformer whose key/value entry at a
    position depends on the entries before it and on the token there, and whose next token
    depends on the entries up to the last position.  Sampling randomness is not modelled.
    Also: generating one request on its own, the meaning that batching must not change. */
module LanguageModel {
  type Token = int

  /** What one KV-cache slot holds for one token, all layers and heads together. */
  datatype KV = KV(key: seq<real>, value: seq<real>)

  /** compute: entries of the earlier positions, token -> entry of this position.
      sample: entries up to and including the last position, the last token, temperature -> next token. */
  datatype Model = Model(compute: (seq<KV>, Token) -> KV, sample: (seq<KV>, Token, real) -> Token)

  /** The entries a private, contiguous KV cache holds for a token prefix. */
  function KVs(m: Model, t: seq<Token>): (r: seq<KV>)
    ensures |r| == |t|
  {
    if t == [] then []
    else
      var before := KVs(m, t[..|t| - 1]);
      before + [m.compute(before, t[|t| - 1])]
  }

  /** Extending a prefix never changes the entries already computed. */
  lemma {:induction false} KVsPrefix(m: Model, t: seq<Token>, n: nat)
    requires n <= |t|
    ensures KVs(m, t)[..n] == KVs(m, t[..n])
    decreases |t|
  {
    if n == |t| {
      assert t[..n] == t;
    } else {
      var shorter := t[..|t| - 1];
      KVsPrefix(m, shorter, n);
      assert shorter[..n] == t[..n];
      assert KVs(m, t)[..|shorter|] == KVs(m, shorter);
      assert KVs(m, t)[..n] == KVs(m, t)[..|shorter|][..n];
    }
  }

  lemma KVsAt(m: Model, t: seq<Token>, p: nat)
    requires p < |t|
    ensures KVs(m, t)[p] == m.compute(KVs(m, t[..p]), t[p])
    ensures KVs(m, t)[p] == KVs(m, t[..p + 1])[p]
  {
    KVsPrefix(m, t, p + 1);
    assert t[..p + 1][..p] == t[..p];
    assert KVs(m, t)[p] == KVs(m, t)[..p + 1][p];
  }

  function NextToken(m: Model, t: seq<Token>, temperature: real): Token
    requires t != []
  {
    m.sample(KVs(m, t), t[|t| - 1], temperature)
  }

  /** The part of a request that decides what it generates. */
  datatype Generation = Generation(maxTokens: nat, ignoreEos: bool, temperature: real)

  predicate Stops(g: Generation, eos: Token, token: Token) {
    !g.ignoreEos && token == eos
  }

  /** One-at-a-time generation from t, of which the first promptLen tokens are the prompt:
      stop at the first end-of-sequence token or after maxTokens tokens. */
  function Generate(m: Model, eos: Token, g: Generation, promptLen: nat, t: seq<Token>): (r: seq<Token>)
    requires t != [] && promptLen <= |t|
    ensures t <= r
    ensures |t| - promptLen <= g.maxTokens ==> |r| <= promptLen + g.maxTokens
    decreases promptLen + g.maxTokens - |t|
  {
    if |t| - promptLen >= g.maxTokens then t
    else
      var token := NextToken(m, t, g.temperature);
      if Stops(g, eos, token) then t + [token] else Generate(m, eos, g, promptLen, t + [token])
  }

  /** What Generate means, without its recursion: every token after t is the model's choice for
      exactly the tokens before it, and none but the last is a stopping token. */
  lemma {:induction false} GenerateTokens(
    m: Model, eos: Token, g: Generation, promptLen: nat, t: seq<Token>, i: nat)
    requires t != [] && promptLen <= |t|
    requires |t| <= i < |Generate(m, eos, g, promptLen, t)|
    ensures var r := Generate(m, eos, g, promptLen, t);
            r[i] == NextToken(m, r[..i], g.temperature) && (i < |r| - 1 ==> !Stops(g, eos, r[i]))
    decreases i - |t|
  {
    var token := NextToken(m, t, g.temperature);
    var u := t + [token];
    var r := Generate(m, eos, g, promptLen, t);
    assert u <= r;
    if i == |t| {
      assert r[..i] == t;
    } else {
      GenerateTokens(m, eos, g, promptLen, u, i);
    }
  }

  /** Generation ends at the token limit or at a stopping token. */
  lemma {:induction false} GenerateEnds(m: Model, eos: Token, g: Generation, promptLen: nat, t: seq<Token>)
    requires t != [] && promptLen <= |t| <= promptLen + g.maxTokens
    ensures var r := Generate(m, eos, g, promptLen, t);
            |r| == promptLen + g.maxTokens || (|r| > |t| && Stops(g, eos, r[|r| - 1]))
    decreases promptLen + g.maxTokens - |t|
  {
    if |t| - promptLen < g.maxTokens {
      var token := NextToken(m, t, g.temperature);
      if !Stops(g, eos, token) {
        GenerateEnds(m, eos, g, promptLen, t + [token]);
      }
    }
  }

  /** What is generated for a prompt, without reference to how: every token of c is the model's choice for
      the prompt and the tokens before it.  A request that ignores the end-of-sequence token gets its
      full number of tokens; any other gets them up to the first such token. */
  predicate Completes(m: Model, eos: Token, maxTokens: nat, ignoreEos: bool, temperature: real,
                      prompt: seq<Token>, c: seq<Token>)
    requires prompt != []
  {
    && |c| <= maxTokens
    && (forall i | 0 <= i < |c| ::
          var before := prompt + c[..i];
          c[i] == m.sample(KVs(m, before), before[|before| - 1], temperature))
    && (ignoreEos ==> |c| == maxTokens)
    && (!ignoreEos ==> (forall i | 0 <= i < |c| - 1 :: c[i] != eos)
                       && (|c| == maxTokens || (c != [] && c[|c| - 1] == eos)))
  }

  lemma GenerateCompletes(m: Model, eos: Token, g: Generation, prompt: seq<Token>, c: seq<Token>)
    requires prompt != [] && prompt + c == Generate(m, eos, g, |prompt|, prompt)
    ensures Completes(m, eos, g.maxTokens, g.ignoreEos, g.temperature, prompt, c)
  {
    hide Generate, KVs;
    var r := prompt + c;
    GenerateEnds(m, eos, g, |prompt|, prompt);
    forall i | 0 <= i < |c|
      ensures c[i] == NextToken(m, prompt + c[..i], g.temperature) && (i < |c| - 1 ==> !Stops(g, eos, c[i]))
    {
      GenerateTokens(m, eos, g, |prompt|, prompt, |prompt| + i);
      assert r[..|prompt| + i] == prompt + c[..i];
    }
  }

  /** There is one such completion only, and Generate finds it. */
  lemma {:induction false} CompletesUniquely(m: Model, eos: Token, g: Generation, prompt: seq<Token>,
                                             c: seq<Token>, n: nat)
    requires prompt != [] && n <= |c|
    requires Completes(m, eos, g.maxTokens, g.ignoreEos, g.temperature, prompt, c)
    requires n < |c| || n == 0 || g.ignoreEos || c[n - 1] != eos
    ensures Generate(m, eos, g, |prompt|, prompt + c[..n]) == prompt + c
    decreases |c| - n
  {
    hide KVs;
    var t := prompt + c[..n];
    if n == |c| {
      assert t == prompt + c;
    } else {
      assert c[n] == NextToken(m, t, g.temperature);
      assert t + [c[n]] == prompt + c[..n + 1];
      if Stops(g, eos, c[n]) {
        assert prompt + c[..n + 1] == prompt + c;
      } else {
        CompletesUniquely(m, eos, g, prompt, c, n + 1);
      }
    }
  }

  /** Generate is what Completes describes, for every request. */
  lemma GenerateExactly(m: Model, eos: Token, g: Generation, prompt: seq<Token>, c: seq<Token>)
    requires prompt != []
    ensures prompt + c == Generate(m, eos, g, |prompt|, prompt)
       <==> Completes(m, eos, g.maxTokens, g.ignoreEos, g.temperature, prompt, c)
  {
    if prompt + c == Generate(m, eos, g, |prompt|, prompt) {
      GenerateCompletes(m, eos, g, prompt, c);
    }
    if Completes(m, eos, g.maxTokens, g.ignoreEos, g.temperature, prompt, c) {
      assert prompt + c[..0] == prompt;
      CompletesUniquely(m, eos, g, prompt, c, 0);
    }
  }
}
