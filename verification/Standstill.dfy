/** A state in which the scheduler is stuck although each request alone would fit the pool. */
module Standstill {
  import opened Arithmetic
  import opened Blocks
  import opened BlockManagers
  import opened Engines
  import opened Hashing
  import opened LanguageModel
  import opened Queues
  import opened Schedulers
  import opened Sequences
  import opened Stalls
  import opened WorldOps
  import opened Worlds
  import opened Wrappers

  /** A running request for one token more than its three prompt tokens, two of which are computed. */
  function HalfDone(id: string, prompt: seq<Token>, table: seq<nat>): Seq {
    NewSeq(Request(id, prompt, Generation(1, false, 0.0), [], None, None, "", true))
      .(status := RUNNING, numComputed := 2, table := table)
  }

  function Halves(a: string, b: string): seq<Seq> {
    [HalfDone(a, [1, 2, 3], [0, 1]), HalfDone(b, [4, 5, 6], [2, 3])]
  }

  /** Four blocks of one token, all in use. */
  function FullPool(): Store {
    Store(seq(4, i => Block(1, -1, None, "", 0, None)), map[], [], {}, {0, 1, 2, 3}, 0)
  }

  function Uncached(h: Hasher, m: Model, eos: Token, names: string -> bool): Env {
    Env(CacheConfig(1, false, 0, 0, 0), h, m, eos, names)
  }

  lemma HalfCore(e: Env, id: string, prompt: seq<Token>, table: seq<nat>)
    requires e == Uncached(e.hasher, e.model, e.eos, e.names) && e.Knows("") && |prompt| == 3
    requires |table| == 2 && forall i | 0 <= i < 2 :: table[i] < 4
    ensures SeqCore(e, FullPool(), HalfDone(id, prompt, table))
  {
    var v := HalfDone(id, prompt, table);
    assert HashedPrompt(FullPool(), v, 1, 1) == 0;
  }

  lemma FullPoolValid()
    ensures Valid(FullPool(), 1)
  {
    forall i | 0 <= i < 4 ensures Placed(FullPool(), i) && BlockShape(FullPool().blocks[i], 1) { }
  }

  lemma RefsOfHalves(a: string, b: string)
    ensures AllRefs(Halves(a, b)) == multiset{0, 1, 2, 3}
  {
    var vs := Halves(a, b);
    assert vs[1..] == [vs[1]] && vs[1..][1..] == [];
    assert AllRefs([vs[1]]) == multiset(vs[1].table) + AllRefs([]);
    assert vs[0].table == [0, 1] && vs[1].table == [2, 3];
    assert multiset([0, 1]) == multiset{0, 1} && multiset([2, 3]) == multiset{2, 3};
  }

  lemma HalvesCore(e: Env, a: string, b: string)
    requires e == Uncached(e.hasher, e.model, e.eos, e.names) && e.Knows("")
    ensures Core(e, FullPool(), Halves(a, b))
  {
    hide SeqCore, Valid, AllRefs;
    FullPoolValid();
    HalfCore(e, a, [1, 2, 3], [0, 1]);
    HalfCore(e, b, [4, 5, 6], [2, 3]);
    RefsOfHalves(a, b);
  }

  lemma HalfTrue(e: Env, mem: seq<KV>, id: string, prompt: seq<Token>, table: seq<nat>)
    requires e == Uncached(e.hasher, e.model, e.eos, e.names) && |prompt| == 3
    requires |table| == 2 && forall i | 0 <= i < 2 :: table[i] < |mem| && mem[table[i]] == KVs(e.model, prompt)[i]
    ensures SeqTrue(e, mem, HalfDone(id, prompt, table))
  {
    hide KVs, Generate;
    var v := HalfDone(id, prompt, table);
    forall p | 0 <= p < 2 ensures CellOf(e, mem, v, p) == KVs(e.model, v.tokens)[p] { }
  }

  lemma HalvesTrue(e: Env, mem: seq<KV>, a: string, b: string)
    requires e == Uncached(e.hasher, e.model, e.eos, e.names) && |mem| == 4
    requires var x, y := KVs(e.model, [1, 2, 3]), KVs(e.model, [4, 5, 6]); mem == [x[0], x[1], y[0], y[1]]
    ensures Truth(e, FullPool(), mem, Halves(a, b))
  {
    hide SeqTrue, KVs;
    HalfTrue(e, mem, a, [1, 2, 3], [0, 1]);
    HalfTrue(e, mem, b, [4, 5, 6], [2, 3]);
  }

  /** Two requests of which each alone is within the limits, and which together fill the pool when both
      are prefilled by two thirds. */
  lemma HalvesStuck(h: Hasher, m: Model, eos: Token, names: string -> bool, a: string, b: string)
    returns (e: Env, s: Store, mem: seq<KV>, vs: seq<Seq>)
    requires names("")
    ensures e.hasher == h && e.model == m && e.eos == eos && e.names == names && e.BlockSize() == 1
    ensures Inv(e, s, mem, vs) && |mem| == |s.blocks| * e.BlockSize()
    ensures |vs| == 2 && vs[0].req.requestId == a && vs[1].req.requestId == b
    ensures forall j | 0 <= j < 2 ::
              && vs[j].status == RUNNING && Phase(vs[j]) && Prefilling(vs[j])
              && ValidateRequestLimits(|vs[j].req.prompt|, vs[j].req.gen.maxTokens, 4, 1, |s.blocks|) == None
    ensures |s.used| == |s.blocks|
    ensures forall j | 0 <= j < 2 ::
              vs[j].numComputed < vs[j].prefillTarget && Missing(vs[j].table, vs[j].numComputed + 1, e.BlockSize()) > 0
  {
    hide Core, Truth, CollisionFree, KVs;
    e, s, vs := Uncached(h, m, eos, names), FullPool(), Halves(a, b);
    var x, y := KVs(m, [1, 2, 3]), KVs(m, [4, 5, 6]);
    mem := [x[0], x[1], y[0], y[1]];
    HalvesCore(e, a, b);
    HalvesTrue(e, mem, a, b);
  }

  /** Nobody waits, every running sequence is half prefilled and has filled its blocks, and there is no
      other block: the scheduler is stuck, and its next call finds nothing to schedule. */
  lemma FullIsStuck(s: Scheduler)
    requires s.env.BlockSize() > 0 && s.waiting == []
    requires |s.blockManager.usedBlockIds| == |s.blockManager.blocks|
    requires forall j | 0 <= j < |s.running| ::
               var v := s.running[j].View();
               v.numComputed < v.prefillTarget && Missing(v.table, v.numComputed + 1, s.env.BlockSize()) > 0
    ensures s.Stuck() && s.Clear()
  {
    var xs, bs, budget := s.Unready(s.running), s.env.BlockSize(), s.FirstBudget();
    s.AllUnready(s.running);
    if budget > 0 {
      forall j | 0 <= j < |xs| ensures !ChunkFits(Views(xs)[j], budget, bs, 0) {
        var v := xs[j].View();
        NumBlocksMonotone(v.numComputed + 1, ChunkEnd(v, budget), bs);
      }
    }
  }
}
