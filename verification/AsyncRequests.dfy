/** Requests of the asynchronous front end, and the books it keeps of them. */
module AsyncRequests {
  import opened Engines
  import opened LanguageModel
  import opened Queues
  import opened Sequences
  import opened Wrappers

  datatype FailureKind = Timeout | EngineError | RequestValidation

  /** What a client's queue receives. */
  datatype Item = Token(output: Output) | Failure(kind: FailureKind) | EndOfStream

  class AsyncRequest {
    const ask: Ask
    const priority: int
    const namespace: string
    const promptTokens: nat := |ask.prompt|
    const estimatedTokens: nat := |ask.prompt| + Max(0, ask.maxTokens)
    const createdAt: real
    const requestTimeout: Option<real>
    const queueTimeout: Option<real>
    /** Its place in the order of submission. */
    ghost const arrival: nat
    var queue: seq<Item>
    var finished: bool
    var cancelled: bool

    constructor (ask: Ask, priority: int, namespace: string, createdAt: real, requestTimeout: Option<real>,
                 queueTimeout: Option<real>, ghost arrival: nat)
      ensures this.ask == ask && this.priority == priority && this.namespace == namespace
      ensures this.createdAt == createdAt && this.requestTimeout == requestTimeout && this.queueTimeout == queueTimeout
      ensures this.arrival == arrival && queue == [] && !finished && !cancelled
    {
      this.ask, this.priority, this.namespace := ask, priority, namespace;
      this.createdAt, this.requestTimeout, this.queueTimeout := createdAt, requestTimeout, queueTimeout;
      this.arrival := arrival;
      queue, finished, cancelled := [], false, false;
    }
  }

  /** Limits; None: no limit. */
  datatype AsyncConfig = AsyncConfig(
    maxPendingRequests: int,
    defaultRequestTimeout: Option<real>,
    defaultQueueTimeout: Option<real>,
    maxActiveRequests: Option<int>,
    outputQueueSize: int,
    maxPendingPromptTokens: Option<int>,
    maxActiveTokens: Option<int>,
    maxActiveTokensPerNamespace: Option<int>,
    maxPendingRequestsPerNamespace: Option<int>,
    maxActiveRequestsPerNamespace: Option<int>)

  /* ---------- Sums over requests ---------- */

  function PromptTokens(rs: seq<AsyncRequest>): nat {
    if rs == [] then 0 else PromptTokens(rs[..|rs| - 1]) + rs[|rs| - 1].promptTokens
  }

  function EstimatedTokens(rs: seq<AsyncRequest>): nat {
    if rs == [] then 0 else EstimatedTokens(rs[..|rs| - 1]) + rs[|rs| - 1].estimatedTokens
  }

  function EstimatedTokensOf(rs: seq<AsyncRequest>, namespace: string): nat {
    if rs == [] then 0
    else EstimatedTokensOf(rs[..|rs| - 1], namespace)
         + if rs[|rs| - 1].namespace == namespace then rs[|rs| - 1].estimatedTokens else 0
  }

  function RequestsOf(rs: seq<AsyncRequest>, namespace: string): nat {
    if rs == [] then 0
    else RequestsOf(rs[..|rs| - 1], namespace) + if rs[|rs| - 1].namespace == namespace then 1 else 0
  }

  /** The places in rs of the requests of one namespace. */
  ghost function PlacesOf(rs: seq<AsyncRequest>, namespace: string): set<int> {
    set i | 0 <= i < |rs| && rs[i].namespace == namespace
  }

  /** The requests of one namespace, in their order. */
  ghost function Of(rs: seq<AsyncRequest>, namespace: string): seq<AsyncRequest> {
    if rs == [] then []
    else Of(rs[..|rs| - 1], namespace) + if rs[|rs| - 1].namespace == namespace then [rs[|rs| - 1]] else []
  }

  /** It has exactly the requests of the namespace, each as often as rs has it. */
  lemma {:induction false} OfMeaning(rs: seq<AsyncRequest>, namespace: string, r: AsyncRequest)
    ensures multiset(Of(rs, namespace))[r] == if r.namespace == namespace then multiset(rs)[r] else 0
  {
    if rs != [] {
      var n := |rs| - 1;
      OfMeaning(rs[..n], namespace, r);
      assert rs == rs[..n] + [rs[n]];
    }
  }

  /** So it has as many as rs has places for them. */
  lemma {:induction false} OfCount(rs: seq<AsyncRequest>, namespace: string)
    ensures |Of(rs, namespace)| == |PlacesOf(rs, namespace)|
  {
    if rs != [] {
      var n := |rs| - 1;
      OfCount(rs[..n], namespace);
      var before := PlacesOf(rs[..n], namespace);
      if rs[n].namespace == namespace {
        assert PlacesOf(rs, namespace) == before + {n};
      } else {
        assert PlacesOf(rs, namespace) == before;
      }
    }
  }

  /** The sums over all requests add up request by request. */
  lemma {:induction false} TokensAddUp(a: seq<AsyncRequest>, b: seq<AsyncRequest>, r: AsyncRequest)
    ensures PromptTokens([]) == 0 && PromptTokens([r]) == |r.ask.prompt|
    ensures EstimatedTokens([]) == 0 && EstimatedTokens([r]) == |r.ask.prompt| + Max(0, r.ask.maxTokens)
    ensures PromptTokens(a + b) == PromptTokens(a) + PromptTokens(b)
    ensures EstimatedTokens(a + b) == EstimatedTokens(a) + EstimatedTokens(b)
    decreases |b|
  {
    assert [r][..0] == [];
    if b == [] {
      assert a + b == a;
    } else {
      var n := |b| - 1;
      TokensAddUp(a, b[..n], r);
      assert (a + b)[..|a + b| - 1] == a + b[..n];
    }
  }

  /** The sums for a namespace are those over its requests. */
  lemma {:induction false} NamespaceSums(rs: seq<AsyncRequest>, namespace: string)
    ensures RequestsOf(rs, namespace) == |Of(rs, namespace)|
    ensures EstimatedTokensOf(rs, namespace) == EstimatedTokens(Of(rs, namespace))
  {
    if rs != [] {
      var n := |rs| - 1;
      NamespaceSums(rs[..n], namespace);
      TokensAddUp(Of(rs[..n], namespace), [rs[n]], rs[n]);
      assert Of(rs[..n], namespace) + [] == Of(rs[..n], namespace);
    }
  }

  lemma {:induction false} SumsAt(rs: seq<AsyncRequest>, k: nat, namespace: string)
    requires k < |rs|
    ensures var rest := rs[..k] + rs[k + 1..];
            && EstimatedTokens(rest) + rs[k].estimatedTokens == EstimatedTokens(rs)
            && PromptTokens(rest) + rs[k].promptTokens == PromptTokens(rs)
            && EstimatedTokensOf(rest, namespace) <= EstimatedTokensOf(rs, namespace)
            && RequestsOf(rest, namespace) <= RequestsOf(rs, namespace)
  {
    var n := |rs| - 1;
    var rest := rs[..k] + rs[k + 1..];
    if k < n {
      SumsAt(rs[..n], k, namespace);
      assert rest[..|rest| - 1] == rs[..n][..k] + rs[..n][k + 1..];
    } else {
      assert rest == rs[..n];
    }
  }

  /* ---------- Admission ---------- */

  predicate CanAdmit(cfg: AsyncConfig, active: seq<AsyncRequest>, r: AsyncRequest, cancelled: bool) {
    || cancelled
    || (&& (cfg.maxActiveRequests.Some? ==> |active| < cfg.maxActiveRequests.value)
        && (cfg.maxActiveRequestsPerNamespace.Some? ==>
              RequestsOf(active, r.namespace) < cfg.maxActiveRequestsPerNamespace.value)
        && (cfg.maxActiveTokens.Some? ==>
              EstimatedTokens(active) + r.estimatedTokens <= cfg.maxActiveTokens.value)
        && (cfg.maxActiveTokensPerNamespace.Some? ==>
              EstimatedTokensOf(active, r.namespace) + r.estimatedTokens <= cfg.maxActiveTokensPerNamespace.value))
  }

  /** Active requests and their estimated tokens are within all limits. */
  ghost predicate WithinCaps(cfg: AsyncConfig, active: seq<AsyncRequest>) {
    && (cfg.maxActiveRequests.Some? ==> |active| <= Max(0, cfg.maxActiveRequests.value))
    && (cfg.maxActiveTokens.Some? ==> EstimatedTokens(active) <= Max(0, cfg.maxActiveTokens.value))
    && forall ns ::
         && (cfg.maxActiveRequestsPerNamespace.Some? ==>
               |Of(active, ns)| <= Max(0, cfg.maxActiveRequestsPerNamespace.value))
         && (cfg.maxActiveTokensPerNamespace.Some? ==>
               EstimatedTokens(Of(active, ns)) <= Max(0, cfg.maxActiveTokensPerNamespace.value))
  }

  /** So are the pending ones, within theirs. */
  ghost predicate PendingWithinCaps(cfg: AsyncConfig, byId: seq<AsyncRequest>) {
    && |byId| <= Max(0, cfg.maxPendingRequests)
    && (cfg.maxPendingPromptTokens.Some? ==> PromptTokens(byId) <= Max(0, cfg.maxPendingPromptTokens.value))
    && (cfg.maxPendingRequestsPerNamespace.Some? ==>
          forall ns :: |Of(byId, ns)| <= Max(0, cfg.maxPendingRequestsPerNamespace.value))
  }

  /** The checks a submission has to pass. */
  predicate MayWait(cfg: AsyncConfig, byId: seq<AsyncRequest>, namespace: string, promptTokens: nat) {
    && |byId| < cfg.maxPendingRequests
    && (cfg.maxPendingRequestsPerNamespace.Some? ==>
          RequestsOf(byId, namespace) < cfg.maxPendingRequestsPerNamespace.value)
    && (cfg.maxPendingPromptTokens.Some? ==> PromptTokens(byId) + promptTokens <= cfg.maxPendingPromptTokens.value)
  }

  /** A newcomer changes the requests of its own namespace only. */
  lemma OfAppended(rs: seq<AsyncRequest>, r: AsyncRequest, namespace: string)
    ensures Of(rs + [r], namespace) == Of(rs, namespace) + if r.namespace == namespace then [r] else []
  {
    assert (rs + [r])[..|rs + [r]| - 1] == rs;
  }

  /** Within the caps, a request that asks for something may wait iff the pending ones are within their
      caps with it. */
  lemma WaitingWithinCaps(cfg: AsyncConfig, byId: seq<AsyncRequest>, r: AsyncRequest)
    requires PendingWithinCaps(cfg, byId)
    ensures MayWait(cfg, byId, r.namespace, r.promptTokens) ==> PendingWithinCaps(cfg, byId + [r])
    ensures r.ask.prompt != [] && PendingWithinCaps(cfg, byId + [r]) ==> MayWait(cfg, byId, r.namespace, r.promptTokens)
  {
    hide Of, RequestsOf, PromptTokens;
    var all := byId + [r];
    TokensAddUp(byId, [r], r);
    NamespaceSums(byId, r.namespace);
    forall ns ensures Of(all, ns) == Of(byId, ns) + if r.namespace == ns then [r] else [] { OfAppended(byId, r, ns); }
    assert |Of(all, r.namespace)| == |Of(byId, r.namespace)| + 1;
  }

  lemma FewerPendingWithinCaps(cfg: AsyncConfig, byId: seq<AsyncRequest>, k: nat)
    requires PendingWithinCaps(cfg, byId) && k < |byId|
    ensures PendingWithinCaps(cfg, byId[..k] + byId[k + 1..])
  {
    hide Of;
    var rest := byId[..k] + byId[k + 1..];
    SumsAt(byId, k, "");
    forall ns ensures |Of(rest, ns)| <= |Of(byId, ns)| { FewerOf(byId, k, ns); }
  }

  lemma FewerOf(rs: seq<AsyncRequest>, k: nat, namespace: string)
    requires k < |rs|
    ensures var rest := rs[..k] + rs[k + 1..];
            && |Of(rest, namespace)| <= |Of(rs, namespace)|
            && EstimatedTokens(Of(rest, namespace)) <= EstimatedTokens(Of(rs, namespace))
  {
    SumsAt(rs, k, namespace);
    NamespaceSums(rs, namespace);
    NamespaceSums(rs[..k] + rs[k + 1..], namespace);
  }

  /** Within the caps, a request that asks for something and is not cancelled may become active iff the
      active ones are within the caps with it: only the totals and its own namespace decide. */
  lemma AdmittedWithinCaps(cfg: AsyncConfig, active: seq<AsyncRequest>, r: AsyncRequest)
    requires WithinCaps(cfg, active)
    ensures CanAdmit(cfg, active, r, false) ==> WithinCaps(cfg, active + [r])
    ensures r.ask.prompt != [] && WithinCaps(cfg, active + [r]) ==> CanAdmit(cfg, active, r, false)
  {
    hide Of, RequestsOf, EstimatedTokens, EstimatedTokensOf;
    var all := active + [r];
    TokensAddUp(active, [r], r);
    TokensAddUp(Of(active, r.namespace), [r], r);
    NamespaceSums(active, r.namespace);
    forall ns ensures Of(all, ns) == Of(active, ns) + if r.namespace == ns then [r] else [] { OfAppended(active, r, ns); }
    assert Of(all, r.namespace) == Of(active, r.namespace) + [r];
    forall ns | ns != r.namespace ensures Of(all, ns) == Of(active, ns) {
      assert Of(active, ns) + [] == Of(active, ns);
    }
  }

  lemma FewerWithinCaps(cfg: AsyncConfig, active: seq<AsyncRequest>, k: nat)
    requires WithinCaps(cfg, active) && k < |active|
    ensures WithinCaps(cfg, active[..k] + active[k + 1..])
  {
    hide Of;
    var rest := active[..k] + active[k + 1..];
    SumsAt(active, k, "");
    forall ns
      ensures |Of(rest, ns)| <= |Of(active, ns)| && EstimatedTokens(Of(rest, ns)) <= EstimatedTokens(Of(active, ns))
    {
      FewerOf(active, k, ns);
    }
  }

  /* ---------- The pending queue ---------- */

  /** Higher priority first, and first-in-first-out among equals. */
  ghost predicate Ordered(pending: seq<AsyncRequest>) {
    forall i, j | 0 <= i < j < |pending| :: Precedes(pending[i], pending[j])
  }

  ghost predicate Precedes(a: AsyncRequest, b: AsyncRequest) {
    a.priority > b.priority || (a.priority == b.priority && a.arrival < b.arrival)
  }

  /** The place of the first request with a lower priority. */
  function FirstLower(pending: seq<AsyncRequest>, priority: int, i: nat): (k: nat)
    requires i <= |pending|
    ensures i <= k <= |pending|
    ensures forall j | i <= j < k :: pending[j].priority >= priority
    ensures k < |pending| ==> pending[k].priority < priority
    decreases |pending| - i
  {
    if i == |pending| || priority > pending[i].priority then i else FirstLower(pending, priority, i + 1)
  }

  /** The queue with r inserted before all of lower priority. */
  function Inserted(pending: seq<AsyncRequest>, r: AsyncRequest): seq<AsyncRequest> {
    var k := FirstLower(pending, r.priority, 0);
    pending[..k] + [r] + pending[k..]
  }

  /** A newcomer's place keeps the order. */
  lemma InsertedOrdered(pending: seq<AsyncRequest>, r: AsyncRequest)
    requires Ordered(pending) && forall i | 0 <= i < |pending| :: pending[i].arrival < r.arrival
    ensures Ordered(Inserted(pending, r)) && |Inserted(pending, r)| == |pending| + 1
    ensures forall x :: x in Inserted(pending, r) <==> x in pending || x == r
  {
    var k := FirstLower(pending, r.priority, 0);
    var all := Inserted(pending, r);
    forall j | k <= j < |pending| ensures pending[j].priority < r.priority {
      if j > k { assert Precedes(pending[k], pending[j]); }
    }
    forall i, j | 0 <= i < j < |all| ensures Precedes(all[i], all[j]) {
      var x, y := if i < k then i else i - 1, if j < k then j else j - 1;
      if i != k && j != k { assert Precedes(pending[x], pending[y]); }
    }
    assert pending == pending[..k] + pending[k..];
  }

  lemma RemovedOrdered(pending: seq<AsyncRequest>, k: nat)
    requires Ordered(pending) && k < |pending|
    ensures Ordered(pending[..k] + pending[k + 1..])
  {
    var rest := pending[..k] + pending[k + 1..];
    forall i, j | 0 <= i < j < |rest| ensures Precedes(rest[i], rest[j]) {
      assert Precedes(pending[if i < k then i else i + 1], pending[if j < k then j else j + 1]);
    }
  }

  /* ---------- The books ---------- */

  ghost predicate DistinctRequests(rs: seq<AsyncRequest>) {
    forall i, j | 0 <= i < j < |rs| :: rs[i].ask.requestId != rs[j].ask.requestId
  }

  function Lookup(rs: seq<AsyncRequest>, requestId: string): (r: Option<AsyncRequest>)
    ensures r.Some? ==> r.value in rs && r.value.ask.requestId == requestId
    ensures r.None? ==> forall i | 0 <= i < |rs| :: rs[i].ask.requestId != requestId
  {
    if rs == [] then None
    else if rs[0].ask.requestId == requestId then Some(rs[0])
    else Lookup(rs[1..], requestId)
  }

  /** pending, ordered, and the dictionary byId hold the same requests; those and the active ones
      have different ids; the active ones are within the caps. */
  ghost predicate Booked(cfg: AsyncConfig, pending: seq<AsyncRequest>, byId: seq<AsyncRequest>,
                         active: seq<AsyncRequest>, arrivals: nat) {
    && NoDup(pending) && |byId| == |pending| && (forall i | 0 <= i < |pending| :: pending[i] in byId)
    && (forall i | 0 <= i < |byId| :: byId[i] in pending)
    && DistinctRequests(byId) && DistinctRequests(active)
    && (forall i, j | 0 <= i < |byId| && 0 <= j < |active| :: byId[i].ask.requestId != active[j].ask.requestId)
    && Ordered(pending) && (forall i | 0 <= i < |pending| :: pending[i].arrival < arrivals)
    && WithinCaps(cfg, active) && PendingWithinCaps(cfg, byId)
  }

  lemma DistinctNoDup(rs: seq<AsyncRequest>)
    requires DistinctRequests(rs)
    ensures NoDup(rs)
  {
  }

  lemma BookSubmitted(cfg: AsyncConfig, pending: seq<AsyncRequest>, byId: seq<AsyncRequest>,
                      active: seq<AsyncRequest>, arrivals: nat, r: AsyncRequest)
    requires Booked(cfg, pending, byId, active, arrivals) && r.arrival == arrivals
    requires Lookup(byId, r.ask.requestId).None? && Lookup(active, r.ask.requestId).None?
    requires MayWait(cfg, byId, r.namespace, r.promptTokens)
    ensures Booked(cfg, Inserted(pending, r), byId + [r], active, arrivals + 1)
    ensures r !in pending && r !in active
  {
    hide WithinCaps, PendingWithinCaps, MayWait, Inserted, Ordered, NoDup;
    WaitingWithinCaps(cfg, byId, r);
    InsertedOrdered(pending, r);
    OrderedNoDup(Inserted(pending, r));
    SameAppended(pending, byId, Inserted(pending, r), r);
    if r in pending { var j := IndexIn(pending, r); var k := IndexIn(byId, r); }
  }

  lemma OrderedNoDup(rs: seq<AsyncRequest>)
    requires Ordered(rs)
    ensures NoDup(rs)
  {
    forall i, j | 0 <= i < j < |rs| ensures rs[i] != rs[j] { assert Precedes(rs[i], rs[j]); }
  }

  /** The same newcomer joins queue and dictionary. */
  lemma SameAppended(pending: seq<AsyncRequest>, byId: seq<AsyncRequest>, all: seq<AsyncRequest>, r: AsyncRequest)
    requires forall i | 0 <= i < |pending| :: pending[i] in byId
    requires forall i | 0 <= i < |byId| :: byId[i] in pending
    requires forall x :: x in all <==> x in pending || x == r
    ensures forall i | 0 <= i < |all| :: all[i] in byId + [r] && (all[i] in pending || all[i] == r)
    ensures forall i | 0 <= i < |byId + [r]| :: (byId + [r])[i] in all
  {
    var ids := byId + [r];
    forall i | 0 <= i < |all| ensures all[i] in ids {
      assert all[i] in all;
      if all[i] != r { var j := IndexIn(pending, all[i]); }
    }
    forall i | 0 <= i < |ids| ensures ids[i] in all {
      if i < |byId| { assert byId[i] in pending; }
    }
  }

  /** A request leaves the pending queue. */
  lemma BookUnpended(cfg: AsyncConfig, pending: seq<AsyncRequest>, byId: seq<AsyncRequest>,
                     active: seq<AsyncRequest>, arrivals: nat, r: AsyncRequest)
    requires Booked(cfg, pending, byId, active, arrivals) && r in pending
    ensures Booked(cfg, Remove(pending, r), Remove(byId, r), active, arrivals)
    ensures |Remove(pending, r)| == |pending| - 1 && r !in Remove(pending, r) && r !in active
    ensures forall i | 0 <= i < |active| :: active[i].ask.requestId != r.ask.requestId
    ensures forall i | 0 <= i < |Remove(pending, r)| :: Remove(pending, r)[i] in pending
  {
    hide WithinCaps, PendingWithinCaps;
    DistinctNoDup(byId);
    RemoveKeeps(pending, r);
    RemoveKeeps(byId, r);
    var k := IndexIn(pending, r);
    var l := IndexIn(byId, r);
    RemoveAt(pending, k);
    RemoveAt(byId, l);
    FewerPendingWithinCaps(cfg, byId, l);
    RemovedOrdered(pending, k);
    var rest, ids := Remove(pending, r), Remove(byId, r);
    forall i | 0 <= i < |rest| ensures rest[i] in ids && rest[i].arrival < arrivals {
      var j := IndexIn(pending, rest[i]);
      var x := IndexIn(byId, rest[i]);
    }
    forall i | 0 <= i < |ids| ensures ids[i] in rest {
      var j := IndexIn(byId, ids[i]);
      var x := IndexIn(pending, ids[i]);
    }
    forall i, j | 0 <= i < |ids| && 0 <= j < |active| ensures ids[i].ask.requestId != active[j].ask.requestId {
      var x := IndexIn(byId, ids[i]);
    }
    if r in active { var j := IndexIn(active, r); }
  }

  /** A request that no longer waits becomes active. */
  lemma BookActivated(cfg: AsyncConfig, pending: seq<AsyncRequest>, byId: seq<AsyncRequest>,
                      active: seq<AsyncRequest>, arrivals: nat, r: AsyncRequest)
    requires Booked(cfg, pending, byId, active, arrivals) && CanAdmit(cfg, active, r, false)
    requires forall i | 0 <= i < |byId| :: byId[i].ask.requestId != r.ask.requestId
    requires forall i | 0 <= i < |active| :: active[i].ask.requestId != r.ask.requestId
    ensures Booked(cfg, pending, byId, active + [r], arrivals)
  {
    AdmittedWithinCaps(cfg, active, r);
    hide WithinCaps, PendingWithinCaps, CanAdmit;
  }

  /** A request is active no longer. */
  lemma BookDeactivated(cfg: AsyncConfig, pending: seq<AsyncRequest>, byId: seq<AsyncRequest>,
                        active: seq<AsyncRequest>, arrivals: nat, r: AsyncRequest)
    requires Booked(cfg, pending, byId, active, arrivals) && r in active
    ensures Booked(cfg, pending, byId, Remove(active, r), arrivals)
    ensures |Remove(active, r)| == |active| - 1 && r !in Remove(active, r) && r !in pending
    ensures forall i | 0 <= i < |Remove(active, r)| ::
              Remove(active, r)[i] in active && Remove(active, r)[i].ask.requestId != r.ask.requestId
    ensures forall i | 0 <= i < |active| && active[i] != r :: active[i] in Remove(active, r)
  {
    hide WithinCaps, PendingWithinCaps;
    DistinctNoDup(active);
    RemoveKeeps(active, r);
    var k := IndexIn(active, r);
    RemoveAt(active, k);
    FewerWithinCaps(cfg, active, k);
    if r in pending { var j := IndexIn(pending, r); var x := IndexIn(byId, r); }
  }

  lemma BookEmptied(cfg: AsyncConfig, arrivals: nat)
    ensures Booked(cfg, [], [], [], arrivals)
  {
  }

  /** Queues are in order, so a last entry of no lower priority means none is lower. */
  lemma LastNotLower(pending: seq<AsyncRequest>, priority: int, i: nat)
    requires Ordered(pending) && i <= |pending|
    requires pending != [] ==> priority <= pending[|pending| - 1].priority
    ensures FirstLower(pending, priority, i) == |pending|
  {
    forall j | 0 <= j < |pending| ensures pending[j].priority >= priority {
      if j < |pending| - 1 { assert Precedes(pending[j], pending[|pending| - 1]); }
    }
  }

  lemma PoppedIs(rs: seq<AsyncRequest>, r: AsyncRequest)
    requires DistinctRequests(rs) && r in rs
    ensures Lookup(rs, r.ask.requestId) == Some(r)
  {
    var k := IndexIn(rs, r);
    var found := Lookup(rs, r.ask.requestId);
    if found.Some? { var j := IndexIn(rs, found.value); }
  }

  /** Others are found as before when one request is removed. */
  lemma StillFound(rs: seq<AsyncRequest>, r: AsyncRequest, requestId: string)
    requires DistinctRequests(rs) && r in rs && requestId != r.ask.requestId
    ensures Lookup(Remove(rs, r), requestId) == Lookup(rs, requestId)
  {
    DistinctNoDup(rs);
    RemoveKeeps(rs, r);
    var rest, found := Remove(rs, r), Lookup(rs, requestId);
    if found.Some? {
      var j := IndexIn(rs, found.value);
      assert found.value in rest;
      RemovedDistinct(rs, r);
      PoppedIs(rest, found.value);
    } else if Lookup(rest, requestId).Some? {
      var j := IndexIn(rest, Lookup(rest, requestId).value);
    }
  }

  lemma RemovedDistinct(rs: seq<AsyncRequest>, r: AsyncRequest)
    requires DistinctRequests(rs) && r in rs
    ensures DistinctRequests(Remove(rs, r))
  {
    DistinctNoDup(rs);
    var k := IndexIn(rs, r);
    RemoveAt(rs, k);
  }

  lemma FoundAppended(rs: seq<AsyncRequest>, r: AsyncRequest, requestId: string)
    requires DistinctRequests(rs + [r])
    ensures Lookup(rs, requestId).Some? ==> Lookup(rs + [r], requestId) == Lookup(rs, requestId)
    ensures requestId == r.ask.requestId ==> Lookup(rs + [r], requestId) == Some(r)
  {
    var all := rs + [r];
    if Lookup(rs, requestId).Some? {
      var j := IndexIn(rs, Lookup(rs, requestId).value);
      assert all[j] == rs[j];
      PoppedIs(all, rs[j]);
    }
    if requestId == r.ask.requestId {
      assert all[|rs|] == r;
      PoppedIs(all, r);
    }
  }
}
