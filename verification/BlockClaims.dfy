/** Attaching cached blocks, allocating new ones, and giving a computed block its hash. */
module BlockClaims {
  import opened LanguageModel
  import opened Wrappers
  import opened Blocks
  import opened BlockSteps

  /* ---------- Attaching a cached block ---------- */

  function Attach(s: Store, id: nat, expiresAt: Option<real>): Store
    requires id < |s.blocks|
  {
    var b := s.blocks[id];
    s.(blocks := s.blocks[id := b.(refCount := b.refCount + 1, lastAccessed := s.clock + 1,
                                   expiresAt := expiresAt)],
       cached := s.cached - {id},
       used := s.used + {id},
       clock := s.clock + 1)
  }

  lemma AttachKeeps(s: Store, id: nat, expiresAt: Option<real>, c: CacheConfig)
    requires Valid(s, c.blockSize) && id < |s.blocks| && s.blocks[id].hash != -1
    ensures var t := Attach(s, id, expiresAt);
            && Valid(t, c.blockSize) && Grows(s, t) && Counted(s, t, multiset{}, multiset{id})
            && (WithinQuotas(s, c) ==> WithinQuotas(t, c))
  {
    var t := Attach(s, id, expiresAt);
    assert Placed(s, id);
    assert Partitioned(t) by {
      forall j | 0 <= j < |t.blocks| ensures Placed(t, j) { assert Placed(s, j); }
    }
    if WithinQuotas(s, c) { FewerCachedKeepsQuotas(s, t, c); }
  }

  lemma AttachContent(s: Store, id: nat, expiresAt: Option<real>)
    requires id < |s.blocks|
    ensures var t := Attach(s, id, expiresAt);
            && |t.blocks| == |s.blocks| && t.index == s.index
            && forall j | 0 <= j < |s.blocks| :: SameContent(s.blocks[j], t.blocks[j])
  {
  }

  function AttachAll(s: Store, ids: seq<nat>, expiresAt: Option<real>): (t: Store)
    requires forall i | 0 <= i < |ids| :: ids[i] < |s.blocks|
    ensures |t.blocks| == |s.blocks|
    decreases |ids|
  {
    if ids == [] then s
    else Attach(AttachAll(s, ids[..|ids| - 1], expiresAt), ids[|ids| - 1], expiresAt)
  }

  lemma {:induction false} AttachAllKeeps(s: Store, ids: seq<nat>, expiresAt: Option<real>, c: CacheConfig)
    requires Valid(s, c.blockSize)
    requires forall i | 0 <= i < |ids| :: ids[i] < |s.blocks| && s.blocks[ids[i]].hash != -1
    ensures var t := AttachAll(s, ids, expiresAt);
            && Valid(t, c.blockSize) && Grows(s, t) && Counted(s, t, multiset{}, multiset(ids))
            && t.index == s.index
            && (forall id | 0 <= id < |s.blocks| :: SameContent(s.blocks[id], t.blocks[id]))
            && (WithinQuotas(s, c) ==> WithinQuotas(t, c))
    decreases |ids|
  {
    hide Valid, WithinQuotas, Attach, Grows, Counted, SameContent;
    if ids == [] {
      NothingAttached(s);
    } else {
      var rest, last := ids[..|ids| - 1], ids[|ids| - 1];
      assert ids == rest + [last];
      AttachAllKeeps(s, rest, expiresAt, c);
      var m := AttachAll(s, rest, expiresAt);
      SameHash(s.blocks[last], m.blocks[last]);
      AttachKeeps(m, last, expiresAt, c);
      AttachContent(m, last, expiresAt);
      var t := Attach(m, last, expiresAt);
      assert AttachAll(s, ids, expiresAt) == t;
      GrowsTrans(s, m, t);
      CountedMore(s, m, t, multiset(rest), last);
      assert multiset(ids) == multiset(rest) + multiset{last};
      forall id | 0 <= id < |s.blocks| ensures SameContent(s.blocks[id], t.blocks[id]) {
        SameContentTrans(s.blocks[id], m.blocks[id], t.blocks[id]);
      }
    }
  }

  lemma NothingAttached(s: Store)
    ensures Grows(s, s) && Counted(s, s, multiset{}, multiset([]))
    ensures forall id | 0 <= id < |s.blocks| :: SameContent(s.blocks[id], s.blocks[id])
  {
  }

  lemma SameHash(a: Block, b: Block)
    requires SameContent(a, b)
    ensures a.hash == b.hash
  {
  }

  lemma SameContentTrans(a: Block, b: Block, d: Block)
    requires SameContent(a, b) && SameContent(b, d)
    ensures SameContent(a, d)
  {
  }

  lemma CountedMore(s: Store, m: Store, t: Store, ids: multiset<nat>, last: nat)
    requires Counted(s, m, multiset{}, ids) && Counted(m, t, multiset{}, multiset{last})
    ensures Counted(s, t, multiset{}, ids + multiset{last})
  {
  }

  /* ---------- Allocating a block ---------- */

  /** Taking the first free block as a live, unhashed block. */
  function AllocateHead(s: Store): Store
    requires s.free != [] && s.free[0] < |s.blocks|
  {
    var id := s.free[0];
    s.(blocks := s.blocks[id := s.blocks[id].(refCount := 1, hash := -1, tokenIds := None,
                                              lastAccessed := s.clock + 1)],
       free := s.free[1..],
       used := s.used + {id},
       cached := s.cached - {id},
       clock := s.clock + 1)
  }

  lemma AllocateHeadPartitions(s: Store)
    requires Partitioned(s) && s.free != [] && s.free[0] < |s.blocks|
    ensures Partitioned(AllocateHead(s)) && s.free[0] in s.free && Placed(s, s.free[0])
    ensures AllocateHead(s).cached == s.cached
  {
    var t := AllocateHead(s);
    var id := s.free[0];
    assert id in s.free && Placed(s, id);
    assert s.free == [id] + t.free;
    forall j | j in t.free ensures j in s.free && j != id {
      var k :| 0 <= k < |t.free| && t.free[k] == j;
      assert s.free[k + 1] == j;
    }
    forall j | 0 <= j < |t.blocks| ensures Placed(t, j) { assert Placed(s, j); }
  }

  lemma AllocateHeadKeeps(s: Store, c: CacheConfig)
    requires Valid(s, c.blockSize) && s.free != [] && s.free[0] < |s.blocks|
    ensures var t := AllocateHead(s); var id := s.free[0];
            && Valid(t, c.blockSize) && Grows(s, t) && Counted(s, t, multiset{}, multiset{id})
            && s.blocks[id].refCount == 0 && t.blocks[id].refCount == 1 && t.blocks[id].hash == -1
            && t.cached == s.cached && id !in s.used
            && (WithinQuotas(s, c) ==> WithinQuotas(t, c))
  {
    hide Partitioned, WithinQuotas, Placed, BlockShape, IndexSound, Shaped, Ticked, Grows, Counted;
    var t := AllocateHead(s);
    AllocateHeadPartitions(s);
    AllocateHeadTakes(s);
    AllocateHeadShapes(s, c.blockSize);
    if WithinQuotas(s, c) { FewerCachedKeepsQuotas(s, t, c); }
  }

  lemma AllocateHeadTakes(s: Store)
    requires Partitioned(s) && s.free != [] && s.free[0] < |s.blocks|
    ensures s.blocks[s.free[0]].refCount == 0 && s.blocks[s.free[0]].hash == -1
    ensures s.free[0] !in s.used && s.free[0] !in s.cached
    ensures Grows(s, AllocateHead(s)) && Counted(s, AllocateHead(s), multiset{}, multiset{s.free[0]})
  {
    assert s.free[0] in s.free && Placed(s, s.free[0]);
  }

  lemma AllocateHeadShapes(s: Store, bs: nat)
    requires IndexSound(s) && Shaped(s, bs) && Ticked(s) && s.free != [] && s.free[0] < |s.blocks|
    requires s.blocks[s.free[0]].hash == -1 && s.free[0] !in s.cached
    ensures IndexSound(AllocateHead(s)) && Shaped(AllocateHead(s), bs) && Ticked(AllocateHead(s))
  {
    var t := AllocateHead(s);
    forall id | 0 <= id < |t.blocks| ensures BlockShape(t.blocks[id], bs) { assert BlockShape(s.blocks[id], bs); }
  }

  /** When nothing is free, the least recently used cached block is evicted first. */
  ghost function EvictIfFull(s: Store): Store
    requires Ticked(s) && Partitioned(s) && (s.free != [] || s.cached != {})
  {
    if s.free != [] then s else Purge(s, Lru(s, s.cached))
  }

  lemma EvictIfFullKeeps(s: Store, c: CacheConfig)
    requires Valid(s, c.blockSize) && (s.free != [] || s.cached != {})
    ensures var t := EvictIfFull(s);
            && Valid(t, c.blockSize) && t.free != []
            && PurgedTo(s, t, s.cached - t.cached)
            && (WithinQuotas(s, c) ==> WithinQuotas(t, c))
  {
    PurgedNothing(s);
    var t := EvictIfFull(s);
    if s.free == [] {
      var v := Lru(s, s.cached);
      PurgedOneMore(s, s, {}, v, c.blockSize);
      assert {} + {v} == s.cached - t.cached;
    } else {
      assert s.cached - t.cached == {};
    }
    PurgedKeepsValid(s, t, s.cached - t.cached, c.blockSize);
    if WithinQuotas(s, c) { PurgedKeepsQuotas(s, t, s.cached - t.cached, c); }
  }

  /** t is s after allocating the blocks in taken, one after another: each was idle and is now
      live with one owner and no hash; other blocks are untouched, except expired ones that were
      cleared; no index entry is new; an unexpired cached block was given up only when nothing was free, and then an
      older one than every cached block that stays. */
  ghost predicate AllocatedTo(s: Store, t: Store, taken: seq<nat>, expired: set<nat>) {
    && Grows(s, t)
    && Counted(s, t, multiset{}, multiset(taken))
    && t.used == s.used + Elements(taken) && t.cached <= s.cached
    && (forall h | h in t.index :: h in s.index && t.index[h] == s.index[h])
    && (taken != [] ==> t.cached !! expired)
    && NoDup(taken)
    && (forall i | 0 <= i < |taken| ::
          && taken[i] < |s.blocks| && taken[i] !in s.used
          && t.blocks[taken[i]].refCount == 1 && t.blocks[taken[i]].hash == -1)
    && (forall id | 0 <= id < |s.blocks| && id !in taken ::
          t.blocks[id] == s.blocks[id] || (id in expired && t.blocks[id] == Cleared(s.blocks[id])))
    && (forall i | 0 <= i < |taken| && taken[i] in s.cached && taken[i] !in expired ::
          && t.free == []
          && forall j | j in t.cached && j < |s.blocks| ::
               s.blocks[taken[i]].lastAccessed < s.blocks[j].lastAccessed)
  }

  lemma AllocatedNothing(s: Store, expired: set<nat>)
    ensures AllocatedTo(s, s, [], expired)
  {
    assert Elements<nat>([]) == {};
  }

  lemma AllocateStepKeeps(t: Store, mid: Store, gone: set<nat>, c: CacheConfig) returns (id: nat)
    requires Valid(t, c.blockSize) && PurgedTo(t, mid, gone)
    requires mid.free != [] || mid.cached != {}
    ensures Valid(mid, c.blockSize)
    ensures var e := EvictIfFull(mid);
            && e.free != [] && id == e.free[0] && id < |e.blocks| && Valid(AllocateHead(e), c.blockSize)
            && Grows(t, AllocateHead(e)) && Counted(t, AllocateHead(e), multiset{}, multiset([id]))
            && AllocateHead(e).blocks[id].refCount == 1 && AllocateHead(e).blocks[id].hash == -1
            && (WithinQuotas(t, c) ==> WithinQuotas(AllocateHead(e), c))
  {
    PurgedKeepsValid(t, mid, gone, c.blockSize);
    if WithinQuotas(t, c) { PurgedKeepsQuotas(t, mid, gone, c); }
    hide WithinQuotas, PurgedTo;
    EvictIfFullKeeps(mid, c);
    var e := EvictIfFull(mid);
    id := e.free[0];
    assert id in e.free;
    assert id < |e.blocks|;
    hide *;
    AllocateHeadKeeps(e, c);
    AllocateStepGrows(t, mid, e, AllocateHead(e), id, gone, c);
  }

  /** One allocation: clear what expired, evict if nothing is free, take the head. */
  lemma AllocateStep(t: Store, mid: Store, gone: set<nat>, c: CacheConfig) returns (id: nat)
    requires Valid(t, c.blockSize) && PurgedTo(t, mid, gone)
    requires mid.free != [] || mid.cached != {}
    ensures Valid(mid, c.blockSize)
    ensures var e := EvictIfFull(mid);
            && e.free != [] && id == e.free[0] && id < |e.blocks| && Valid(AllocateHead(e), c.blockSize)
            && AllocatedTo(t, AllocateHead(e), [id], gone)
            && (WithinQuotas(t, c) ==> WithinQuotas(AllocateHead(e), c))
  {
    hide Valid, WithinQuotas, PurgedTo, AllocateHead, EvictIfFull, Grows, Counted;
    id := AllocateStepKeeps(t, mid, gone, c);
    AllocateStepTakes(t, mid, gone, c);
    assert Elements([id]) == {id};
  }

  lemma AllocateStepGrows(t: Store, mid: Store, e: Store, u: Store, id: nat, gone: set<nat>, c: CacheConfig)
    requires Valid(t, c.blockSize) && PurgedTo(t, mid, gone)
    requires Valid(mid, c.blockSize) && PurgedTo(mid, e, mid.cached - e.cached)
    requires Grows(e, u) && Counted(e, u, multiset{}, multiset{id})
    ensures Grows(t, u) && Counted(t, u, multiset{}, multiset([id]))
  {
    PurgedSteps(t, mid, gone);
    PurgedSteps(mid, e, mid.cached - e.cached);
    hide PurgedTo, Valid;
    GrowsTrans(t, mid, e);
    GrowsTrans(t, e, u);
  }

  lemma AllocateStepTakes(t: Store, mid: Store, gone: set<nat>, c: CacheConfig)
    requires Valid(t, c.blockSize) && Valid(mid, c.blockSize) && PurgedTo(t, mid, gone)
    requires mid.free != [] || mid.cached != {}
    ensures var e := EvictIfFull(mid);
            && e.free != [] && e.free[0] < |t.blocks|
            && var id, u := e.free[0], AllocateHead(e);
            && id !in t.used && u.used == t.used + {id} && u.cached <= t.cached && u.cached !! gone
            && (forall h | h in u.index :: h in t.index && u.index[h] == t.index[h])
            && (forall j | 0 <= j < |t.blocks| && j != id ::
                  u.blocks[j] == t.blocks[j] || (j in gone && u.blocks[j] == Cleared(t.blocks[j])))
            && (id in t.cached && id !in gone ==>
                  && u.free == []
                  && forall j | j in u.cached && j < |t.blocks| ::
                       t.blocks[id].lastAccessed < t.blocks[j].lastAccessed)
  {
    var e := EvictIfFull(mid);
    if mid.free == [] {
      var v := Lru(mid, mid.cached);
      assert e == Purge(mid, v) && e.free[0] == v;
      assert Placed(t, v);
      assert t.blocks[v] == mid.blocks[v];
    } else {
      assert mid.free[0] in mid.free;
      assert Placed(mid, mid.free[0]) && Placed(t, mid.free[0]);
    }
  }

  /** What expired later had already expired, and is still what it was. */
  lemma StillExpired(s: Store, t: Store, taken: seq<nat>, now: real, c: CacheConfig)
    requires Valid(s, c.blockSize) && Valid(t, c.blockSize)
    requires AllocatedTo(s, t, taken, Expired(s, now))
    ensures Expired(t, now) <= Expired(s, now)
    ensures forall id | id in Expired(t, now) :: id < |s.blocks| && id !in taken && t.blocks[id] == s.blocks[id]
    ensures taken != [] ==> Expired(t, now) == {}
  {
    forall id | id in Expired(t, now)
      ensures id in Expired(s, now) && id !in taken && t.blocks[id] == s.blocks[id]
    {
      assert Placed(t, id) && t.blocks[id].refCount == 0 && t.blocks[id].hash != -1;
    }
  }

  lemma AllocatedThen(s: Store, t: Store, u: Store, taken: seq<nat>, id: nat, now: real, c: CacheConfig)
    requires Valid(s, c.blockSize) && Valid(t, c.blockSize)
    requires AllocatedTo(s, t, taken, Expired(s, now)) && AllocatedTo(t, u, [id], Expired(t, now))
    ensures AllocatedTo(s, u, taken + [id], Expired(s, now))
  {
    hide Valid, Selected, Expired, Grows;
    AllocatedThenCounts(s, t, u, taken, id, now);
    AllocatedThenTaken(s, t, u, taken, id, now, c);
    AllocatedThenBlocks(s, t, u, taken, id, now, c);
    AllocatedThenOldest(s, t, u, taken, id, now, c);
    assert |u.blocks| == |s.blocks|;
  }

  lemma AllocatedThenCounts(s: Store, t: Store, u: Store, taken: seq<nat>, id: nat, now: real)
    requires AllocatedTo(s, t, taken, Expired(s, now)) && AllocatedTo(t, u, [id], Expired(t, now))
    ensures var all := taken + [id];
            && Grows(s, u) && Counted(s, u, multiset{}, multiset(all))
            && u.used == s.used + Elements(all) && u.cached <= s.cached
            && forall h | h in u.index :: h in s.index && u.index[h] == s.index[h]
  {
    hide Selected, Expired;
    GrowsTrans(s, t, u);
    assert multiset(taken + [id]) == multiset(taken) + multiset([id]);
    assert Elements(taken + [id]) == Elements(taken) + {id};
    assert Elements([id]) == {id};
  }

  /** The block taken last was not taken before. */
  lemma AllocatedThenTaken(s: Store, t: Store, u: Store, taken: seq<nat>, id: nat, now: real, c: CacheConfig)
    requires Valid(s, c.blockSize) && Valid(t, c.blockSize)
    requires AllocatedTo(s, t, taken, Expired(s, now)) && AllocatedTo(t, u, [id], Expired(t, now))
    ensures var all := taken + [id];
            && NoDup(all)
            && forall i | 0 <= i < |all| ::
                 && all[i] < |s.blocks| && all[i] !in s.used
                 && u.blocks[all[i]].refCount == 1 && u.blocks[all[i]].hash == -1
  {
    hide Valid, Selected, Expired;
    AllocatedThenBlocks(s, t, u, taken, id, now, c);
    assert [id][0] == id;
    forall i | 0 <= i < |taken| ensures taken[i] in t.used { assert taken[i] in Elements(taken); }
  }

  /** Evictions in the combined run are oldest first, too. */
  lemma AllocatedThenOldest(s: Store, t: Store, u: Store, taken: seq<nat>, id: nat, now: real, c: CacheConfig)
    requires Valid(s, c.blockSize) && Valid(t, c.blockSize)
    requires AllocatedTo(s, t, taken, Expired(s, now)) && AllocatedTo(t, u, [id], Expired(t, now))
    ensures u.cached !! Expired(s, now)
    ensures forall k | k in taken + [id] && k in s.cached && k !in Expired(s, now) && k < |s.blocks| ::
              && u.free == []
              && forall j | j in u.cached && j < |s.blocks| :: s.blocks[k].lastAccessed < s.blocks[j].lastAccessed
  {
    StillExpired(s, t, taken, now, c);
    assert [id][0] == id;
    assert Placed(t, id);
    forall j | j in t.cached && j < |s.blocks| ensures t.blocks[j] == s.blocks[j] {
      assert Placed(t, j);
    }
    forall k | k in taken + [id] && k in s.cached && k !in Expired(s, now) && k < |s.blocks|
      ensures u.free == []
      ensures forall j | j in u.cached && j < |s.blocks| :: s.blocks[k].lastAccessed < s.blocks[j].lastAccessed
    {
      if k in taken {
        assert t.free == [];
        assert id in t.cached && id !in Expired(t, now);
      } else {
        assert k == id && Placed(s, id);
        assert id in t.cached && id !in Expired(t, now);
      }
    }
  }

  lemma AllocatedThenBlocks(s: Store, t: Store, u: Store, taken: seq<nat>, id: nat, now: real, c: CacheConfig)
    requires Valid(s, c.blockSize) && Valid(t, c.blockSize)
    requires AllocatedTo(s, t, taken, Expired(s, now)) && AllocatedTo(t, u, [id], Expired(t, now))
    ensures forall j | 0 <= j < |s.blocks| && j !in taken + [id] ::
              u.blocks[j] == s.blocks[j] || (j in Expired(s, now) && u.blocks[j] == Cleared(s.blocks[j]))
    ensures forall j | j in taken :: j < |s.blocks| && u.blocks[j] == t.blocks[j]
  {
    StillExpired(s, t, taken, now, c);
  }

  /* ---------- Hashing a computed block ---------- */

  function UpdateHash(s: Store, id: nat, hash: int, toks: seq<Token>, namespace: string,
                      expiresAt: Option<real>): Store
    requires id < |s.blocks|
  {
    s.(blocks := s.blocks[id := s.blocks[id].(hash := hash, tokenIds := Some(toks), namespace := namespace,
                                              lastAccessed := s.clock + 1, expiresAt := expiresAt)],
       index := s.index[hash := id],
       clock := s.clock + 1)
  }

  lemma UpdateHashKeeps(s: Store, id: nat, hash: int, toks: seq<Token>, namespace: string,
                        expiresAt: Option<real>, c: CacheConfig)
    requires Valid(s, c.blockSize) && id < |s.blocks|
    requires s.blocks[id].refCount > 0 && s.blocks[id].hash == -1
    requires hash >= 0 && |toks| == c.blockSize
    ensures var t := UpdateHash(s, id, hash, toks, namespace, expiresAt);
            && Valid(t, c.blockSize) && (WithinQuotas(s, c) ==> WithinQuotas(t, c))
  {
    var t := UpdateHash(s, id, hash, toks, namespace, expiresAt);
    assert Placed(s, id);
    assert Partitioned(t) by {
      forall j | 0 <= j < |t.blocks| ensures Placed(t, j) { assert Placed(s, j); }
    }
    if WithinQuotas(s, c) { FewerCachedKeepsQuotas(s, t, c); }
  }
}
