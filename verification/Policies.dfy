/** Scheduling policies: prefill or decode next, and who is admitted first. */
module Policies {
  import opened Wrappers

  datatype Fairness = Alternate | Fcfs | PrefillFirst | DecodeFirst | CacheAwareLpm

  /** Whether a prefill is tried before a decode.  unready: a running sequence is not prefilled yet;
      decode, prefill: there is work of that kind. */
  function Prefers(f: Fairness, unready: bool, decode: bool, prefill: bool, lastWasPrefill: bool): bool {
    match f
    case Fcfs => unready || (!decode && prefill)
    case PrefillFirst => prefill
    case DecodeFirst => !decode && prefill
    case _ => prefill && (!decode || !lastWasPrefill)
  }

  /** What a policy promises about a decode step.  unready, prefill: before the step a running sequence was
      not prefilled yet, there was something to prefill; lastWasPrefill: the step before was a prefill;
      stuck: no prefill is possible. */
  predicate DecodeRight(f: Fairness, unready: bool, prefill: bool, lastWasPrefill: bool, stuck: bool) {
    match f
    case Alternate => !prefill || lastWasPrefill || stuck
    case CacheAwareLpm => !prefill || lastWasPrefill || stuck
    case Fcfs => !unready || stuck
    case PrefillFirst => !prefill || stuck
    case DecodeFirst => true
  }

  /** And about a prefill step.  dry: nothing can be decoded. */
  predicate PrefillRight(f: Fairness, unready: bool, lastWasPrefill: bool, dry: bool) {
    match f
    case Alternate => !lastWasPrefill || dry
    case CacheAwareLpm => !lastWasPrefill || dry
    case Fcfs => unready || dry
    case PrefillFirst => true
    case DecodeFirst => dry
  }

  /** Every policy tries first a kind of work that exists, so none of them wastes a step. */
  lemma PrefersWork(f: Fairness, unready: bool, waiting: bool, decode: bool, last: bool)
    requires unready || waiting || decode
    ensures if Prefers(f, unready, decode, waiting || unready, last) then waiting || unready else decode
  {
  }

  /** What decides a waiting sequence's place: starved, cached prompt tokens, age, place before. */
  datatype Rank = Rank(starved: bool, cached: nat, age: nat, index: nat)

  /** Descending in the first three, ascending in the place before. */
  predicate Ahead(a: Rank, b: Rank) {
    if a.starved != b.starved then a.starved
    else if a.cached != b.cached then a.cached > b.cached
    else if a.age != b.age then a.age > b.age
    else a.index < b.index
  }

  /** The order in so many words: the starved first; then those with more cached tokens; then the older
      ones; and equals as they were. */
  ghost predicate Before(a: Rank, b: Rank) {
    || (a.starved && !b.starved)
    || (a.starved == b.starved && a.cached > b.cached)
    || (a.starved == b.starved && a.cached == b.cached && a.age > b.age)
    || (a.starved == b.starved && a.cached == b.cached && a.age == b.age && a.index < b.index)
  }

  function Insert(rs: seq<Rank>, r: Rank): seq<Rank> {
    if rs == [] || Ahead(r, rs[0]) then [r] + rs else [rs[0]] + Insert(rs[1..], r)
  }

  function Sort(rs: seq<Rank>): seq<Rank> {
    if rs == [] then [] else Insert(Sort(rs[1..]), rs[0])
  }

  ghost predicate Sorted(rs: seq<Rank>) {
    forall i, j | 0 <= i < j < |rs| :: Before(rs[i], rs[j])
  }

  lemma {:induction false} InsertKeeps(rs: seq<Rank>, r: Rank)
    requires Sorted(rs) && forall i | 0 <= i < |rs| :: rs[i].index != r.index
    ensures Sorted(Insert(rs, r)) && |Insert(rs, r)| == |rs| + 1
    ensures forall x :: x in Insert(rs, r) <==> x in rs || x == r
  {
    if rs != [] && !Ahead(r, rs[0]) {
      var rest := rs[1..];
      assert rs == [rs[0]] + rest;
      InsertKeeps(rest, r);
      var out := Insert(rest, r);
      forall j | 0 <= j < |out| ensures Before(rs[0], out[j]) {
        assert out[j] in out;
        if out[j] in rest { var i :| 0 <= i < |rest| && rest[i] == out[j]; assert rs[i + 1] == rest[i]; }
      }
    }
  }

  /** Sorting keeps exactly the ranks there are, each before all that come after it in that order. */
  lemma {:induction false} SortKeeps(rs: seq<Rank>)
    requires forall i, j | 0 <= i < j < |rs| :: rs[i].index != rs[j].index
    ensures Sorted(Sort(rs)) && |Sort(rs)| == |rs| && forall x :: x in Sort(rs) <==> x in rs
  {
    if rs != [] {
      var rest := rs[1..];
      assert rs == [rs[0]] + rest;
      SortKeeps(rest);
      var out := Sort(rest);
      forall i | 0 <= i < |out| ensures out[i].index != rs[0].index {
        assert out[i] in out;
        var j :| 0 <= j < |rest| && rest[j] == out[i];
        assert rs[j + 1] == rest[j];
      }
      InsertKeeps(out, rs[0]);
    }
  }

  /** ranks lists the places 0..n each once, the foremost first. */
  ghost predicate Ranking(ranks: seq<Rank>, n: nat) {
    && |ranks| == n && Sorted(ranks)
    && (forall i | 0 <= i < n :: ranks[i].index < n)
    && (forall i, j | 0 <= i < j < n :: ranks[i].index != ranks[j].index)
  }

  lemma SortRanks(rs: seq<Rank>)
    requires forall i | 0 <= i < |rs| :: rs[i].index == i
    ensures Ranking(Sort(rs), |rs|)
    ensures forall i | 0 <= i < |rs| :: Sort(rs)[i] == rs[Sort(rs)[i].index]
    ensures forall i | 0 <= i < |rs| :: rs[i] in Sort(rs)
  {
    SortKeeps(rs);
    var out := Sort(rs);
    forall i | 0 <= i < |out| ensures out[i].index < |rs| && out[i] == rs[out[i].index] {
      assert out[i] in out;
      var j :| 0 <= j < |rs| && rs[j] == out[i];
    }
    forall i, j | 0 <= i < j < |out| ensures out[i].index != out[j].index {
      assert Before(out[i], out[j]);
    }
    forall i | 0 <= i < |rs| ensures rs[i] in out { assert rs[i] in rs; }
  }
}
