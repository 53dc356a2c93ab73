/** The asynchronous front end as atomic steps: submit, expire, drain, deliver, abort, fail. */
module AsyncEngines {
  import opened Arithmetic
  import opened AsyncRequests
  import opened Capacity
  import opened Engines
  import opened LanguageModel
  import opened Outcomes
  import opened Queues
  import opened Schedulers
  import opened Sequences
  import opened Wrappers

  datatype Reason = EngineFatal | Draining | QueueFull | DuplicateId | NamespacePending | PromptBudget
                  | ActiveBudget | NamespaceActiveBudget

  /** What the checks of a submission come to. */
  datatype Verdict = Take | Refuse(reason: Reason) | Malformed

  /** The answer to a submission. */
  datatype Submission = Accepted(request: AsyncRequest) | Rejected(reason: Reason) | Invalid

  /** Every unfinished sequence of the engine belongs to an active request. */
  ghost predicate LiveIn(live: seq<Sequence>, active: seq<AsyncRequest>) {
    forall i | 0 <= i < |live| ::
      var r := Lookup(active, live[i].req.requestId);
      r.Some? && r.value.ask.maxTokens >= 0 && live[i].req == RequestOf(r.value.ask)
  }

  /** The dictionary without this id. */
  function Popped(rs: seq<AsyncRequest>, requestId: string): seq<AsyncRequest> {
    var r := Lookup(rs, requestId);
    if r.Some? then Remove(rs, r.value) else rs
  }

  class AsyncLLMEngine {
    const cfg: AsyncConfig
    const engine: LLMEngine
    var pending: seq<AsyncRequest>
    var pendingById: seq<AsyncRequest>
    var active: seq<AsyncRequest>
    var draining: bool
    var fatalError: Option<StepResult>
    var submitted: nat
    var finished: nat
    var cancelled: nat
    var failed: nat
    var timedOut: nat
    var rejected: nat
    var dequeued: nat
    ghost var arrivals: nat
    /** How often the engine has been stepped. */
    ghost var steps: nat
    /** How often a request whose queue was full was counted as cancelled besides its timeout or failure. */
    ghost var overcounted: nat

    /** Every submitted request is in exactly one place, up to loose ones that are on their way and
        those counted twice. */
    ghost predicate Balanced(loose: int)
      reads this
    {
      submitted + overcounted == |pending| + |active| + finished + failed + timedOut + cancelled + loose
    }

    /** The request asks for something and is not cancelled, and every output in its queue is true. */
    ghost predicate Sound(r: AsyncRequest)
      reads r
    {
      && !r.cancelled && engine.env.Knows(r.ask.namespace) && r.ask.prompt != []
      && forall i | 0 <= i < |r.queue| && r.queue[i].Token? :: engine.OutputTrue(r.ask, r.queue[i].output)
    }

    /** So are all, and nothing has been put into the queue of a pending request. */
    ghost predicate AllSound()
      reads this, pending, active
    {
      && (forall i | 0 <= i < |pending| :: Sound(pending[i]) && pending[i].queue == [])
      && forall i | 0 <= i < |active| :: Sound(active[i])
    }

    lemma PendingSound(r: AsyncRequest)
      requires AllSound() && (r in pending || r in active)
      ensures Sound(r) && !r.cancelled && engine.env.Knows(r.ask.namespace) && r.ask.prompt != []
      ensures r in pending ==> r.queue == [] && HasRoom(r)
    {
    }

    lemma ActiveApart()
      requires Ok()
      ensures forall r | r in active :: r !in pending
      ensures DistinctRequests(active) && NoDup(active)
    {
      DistinctNoDup(active);
      forall r | r in active ensures r !in pending {
        if r in pending { PendingToo(cfg, pending, pendingById, active, arrivals, r); }
      }
    }

    /** The engine works for active requests only. */
    ghost predicate EngineSide()
      reads this, engine.scheduler, engine.scheduler.blockManager, engine.scheduler.live, engine.runner.kvCache
    {
      && engine.Ok() && DistinctIds(engine.scheduler.live)
      && (fatalError.None? ==> LiveIn(engine.scheduler.live, active))
    }

    ghost predicate OkBut(loose: int)
      reads this, pending, active
      reads engine.scheduler, engine.scheduler.blockManager, engine.scheduler.live, engine.runner.kvCache
    {
      && Booked(cfg, pending, pendingById, active, arrivals)
      && Balanced(loose) && AllSound() && EngineSide()
    }

    ghost predicate Ok()
      reads this, pending, active
      reads engine.scheduler, engine.scheduler.blockManager, engine.scheduler.live, engine.runner.kvCache
    {
      OkBut(0)
    }

    constructor (cfg: AsyncConfig, engine: LLMEngine)
      requires engine.Ok() && engine.scheduler.live == []
      ensures Ok() && this.cfg == cfg && this.engine == engine && submitted == 0 && overcounted == 0
      ensures rejected == 0 && dequeued == 0 && steps == 0 && !draining && fatalError.None?
    {
      this.cfg, this.engine := cfg, engine;
      pending, pendingById, active := [], [], [];
      draining, fatalError := false, None;
      submitted, finished, cancelled, failed, timedOut, rejected, dequeued := 0, 0, 0, 0, 0, 0, 0;
      arrivals, overcounted, steps := 0, 0, 0;
      new;
      BookEmptied(cfg, 0);
    }

    /* ---------- A request's queue ---------- */

    predicate RoomIn(queue: seq<Item>) {
      cfg.outputQueueSize <= 0 || |queue| < cfg.outputQueueSize
    }

    predicate HasRoom(r: AsyncRequest)
      reads r
    {
      RoomIn(r.queue)
    }

    /** A last message and the stop item both fit.  With room for the message only, the stop item
        clears the queue, and the client never sees the message. */
    predicate RoomForTwo(r: AsyncRequest)
      reads r
    {
      cfg.outputQueueSize <= 0 || |r.queue| + 2 <= cfg.outputQueueSize
    }

    /** Every active request has room for two. */
    ghost predicate Roomy()
      reads this`active, active
    {
      forall i | 0 <= i < |active| :: RoomForTwo(active[i])
    }

    /** Whoever is active was so before, with the same queue. */
    twostate lemma RoomKept()
      requires forall r | r in active :: r in old(active) && r.queue == old(r.queue)
      ensures old(Roomy()) ==> Roomy()
    {
    }

    /** Then nobody's queue is full. */
    lemma RoomyHasRoom()
      requires Roomy()
      ensures forall q | q in QueuesOf(active) :: RoomIn(q)
    {
    }

    /** How many of these queues have no room for another message. */
    ghost function Full(qs: seq<seq<Item>>): (n: nat)
      ensures (forall q | q in qs :: RoomIn(q)) ==> n == 0
    {
      if qs == [] then 0 else Full(qs[..|qs| - 1]) + if RoomIn(qs[|qs| - 1]) then 0 else 1
    }

    lemma FullNext(qs: seq<seq<Item>>, i: nat)
      requires i < |qs|
      ensures Full(qs[..i + 1]) == Full(qs[..i]) + if RoomIn(qs[i]) then 0 else 1
    {
      assert qs[..i + 1][..i] == qs[..i];
    }

    /** Puts an item into the request's queue; a stop item replaces what a full queue holds. */
    method Put(r: AsyncRequest, item: Item)
      requires HasRoom(r) || item.EndOfStream?
      modifies r`queue
      ensures r.queue == if old(HasRoom(r)) then old(r.queue) + [item] else [item]
    {
      if !HasRoom(r) { r.queue := []; }
      r.queue := r.queue + [item];
    }

    method Close(r: AsyncRequest, isCancelled: bool)
      modifies r`finished, r`cancelled
      ensures r.finished && r.cancelled == (old(r.cancelled) || isCancelled)
    {
      r.finished := true;
      if isCancelled { r.cancelled := true; }
    }

    /** Delivers an item.  A consumer that does not keep up is cancelled: its request leaves the
        engine and the books, and its queue holds nothing but the stop item. */
    method PutOrDrop(r: AsyncRequest, item: Item) returns (delivered: bool)
      requires engine.Ok() && DistinctIds(engine.scheduler.live)
      modifies this`active, this`pendingById, this`cancelled, r
      modifies engine.scheduler, engine.scheduler.blockManager, engine.scheduler.live
      ensures engine.Ok() && DistinctIds(engine.scheduler.live)
      ensures delivered <==> old(HasRoom(r)) || item.EndOfStream?
      ensures delivered ==>
                && active == old(active) && pendingById == old(pendingById) && cancelled == old(cancelled)
                && r.cancelled == old(r.cancelled) && r.finished == old(r.finished)
                && engine.scheduler.live == old(engine.scheduler.live)
                && r.queue == if old(HasRoom(r)) then old(r.queue) + [item] else [item]
      ensures !delivered ==>
                && active == Popped(old(active), r.ask.requestId)
                && pendingById == Popped(old(pendingById), r.ask.requestId)
                && cancelled == old(cancelled) + 1 && r.cancelled && r.finished && r.queue == [EndOfStream]
      ensures !delivered ==> LeftBy(old(engine.scheduler.live), engine.scheduler.live, r.ask.requestId)
      ensures EngineFewer(old(engine.scheduler.live), engine.scheduler.live)
      ensures |engine.scheduler.blockManager.blocks| == old(|engine.scheduler.blockManager.blocks|)
      ensures engine.scheduler.preemptions == old(engine.scheduler.preemptions)
    {
      hide LLMEngine.Ok, DistinctIds, LiveIn, LeftBy, Popped, EngineFewer;
      if HasRoom(r) || item.EndOfStream? {
        Put(r, item);
        SameLive(engine.scheduler.live);
        return true;
      }
      Drop(r);
      delivered := false;
    }

    /** Cancels the request of a slow consumer. */
    method Drop(r: AsyncRequest)
      requires engine.Ok() && DistinctIds(engine.scheduler.live)
      modifies this`active, this`pendingById, this`cancelled, r
      modifies engine.scheduler, engine.scheduler.blockManager, engine.scheduler.live
      ensures engine.Ok() && DistinctIds(engine.scheduler.live)
      ensures active == Popped(old(active), r.ask.requestId) && pendingById == Popped(old(pendingById), r.ask.requestId)
      ensures cancelled == old(cancelled) + 1 && r.cancelled && r.finished && r.queue == [EndOfStream]
      ensures LeftBy(old(engine.scheduler.live), engine.scheduler.live, r.ask.requestId)
      ensures EngineFewer(old(engine.scheduler.live), engine.scheduler.live)
      ensures |engine.scheduler.blockManager.blocks| == old(|engine.scheduler.blockManager.blocks|)
      ensures engine.scheduler.preemptions == old(engine.scheduler.preemptions)
    {
      hide LLMEngine.Ok, DistinctIds, LeftBy, Popped, EngineFewer;
      Close(r, true);
      ghost var was := engine.scheduler.live;
      var found;
      ghost var k;
      found, k := engine.AbortRequest(r.ask.requestId);
      Left(was, engine.scheduler.live, r.ask.requestId, found, k);
      active := Popped(active, r.ask.requestId);
      pendingById := Popped(pendingById, r.ask.requestId);
      cancelled := cancelled + 1;
      r.queue := [EndOfStream];
    }

    /** Tells the client how its request failed and ends its stream. */
    method Conclude(r: AsyncRequest, kind: FailureKind)
      requires engine.Ok() && DistinctIds(engine.scheduler.live)
      modifies this`active, this`pendingById, this`cancelled, this`failed, this`timedOut, this`overcounted, r
      modifies engine.scheduler, engine.scheduler.blockManager, engine.scheduler.live
      ensures engine.Ok() && DistinctIds(engine.scheduler.live) && r.finished
      ensures timedOut == old(timedOut) + (if kind == Timeout then 1 else 0)
      ensures failed == old(failed) + (if kind == Timeout then 0 else 1)
      ensures overcounted == old(overcounted) + (if old(HasRoom(r)) then 0 else 1)
      ensures cancelled - old(cancelled) == overcounted - old(overcounted)
      ensures old(HasRoom(r)) ==>
                && active == old(active) && pendingById == old(pendingById)
                && engine.scheduler.live == old(engine.scheduler.live) && r.cancelled == old(r.cancelled)
      ensures if old(RoomForTwo(r)) then r.queue == old(r.queue) + [Failure(kind), EndOfStream]
              else forall i | 0 <= i < |r.queue| :: r.queue[i].EndOfStream?
      ensures !old(HasRoom(r)) ==>
                && active == Popped(old(active), r.ask.requestId)
                && pendingById == Popped(old(pendingById), r.ask.requestId)
                && LeftBy(old(engine.scheduler.live), engine.scheduler.live, r.ask.requestId)
      ensures EngineFewer(old(engine.scheduler.live), engine.scheduler.live)
      ensures |engine.scheduler.blockManager.blocks| == old(|engine.scheduler.blockManager.blocks|)
      ensures engine.scheduler.preemptions == old(engine.scheduler.preemptions)
    {
      hide LLMEngine.Ok, DistinctIds, Popped;
      Close(r, false);
      if kind == Timeout { timedOut := timedOut + 1; } else { failed := failed + 1; }
      var delivered := PutOrDrop(r, Failure(kind));
      if !delivered { overcounted := overcounted + 1; }
      var _ := PutOrDrop(r, EndOfStream);
    }

    /** The same for a request that has just left the books. */
    method ConcludeLoose(r: AsyncRequest, kind: FailureKind)
      requires OkBut(1) && r !in pending && r !in active
      requires Lookup(pendingById, r.ask.requestId).None? && Lookup(active, r.ask.requestId).None?
      modifies this`active, this`pendingById, this`cancelled, this`failed, this`timedOut, this`overcounted, r
      modifies engine.scheduler, engine.scheduler.blockManager, engine.scheduler.live
      ensures Ok() && r.finished && pending == old(pending) && pendingById == old(pendingById) && active == old(active)
      ensures overcounted == old(overcounted) + (if old(HasRoom(r)) then 0 else 1)
      ensures timedOut == old(timedOut) + (if kind == Timeout then 1 else 0)
      ensures failed == old(failed) + (if kind == Timeout then 0 else 1)
      ensures cancelled - old(cancelled) == overcounted - old(overcounted)
      ensures EngineFewer(old(engine.scheduler.live), engine.scheduler.live)
      ensures |engine.scheduler.blockManager.blocks| == old(|engine.scheduler.blockManager.blocks|)
      ensures engine.scheduler.preemptions == old(engine.scheduler.preemptions)
    {
      hide LLMEngine.Ok, DistinctIds, Booked, LiveIn, Sound;
      ghost var was := engine.scheduler.live;
      Conclude(r, kind);
      if fatalError.None? { FewerLiveIn(was, engine.scheduler.live, active); }
    }

    /* ---------- Timeouts ---------- */

    /** The request's time in the queue, or altogether, was over by now. */
    ghost predicate WaitedTooLong(r: AsyncRequest, now: real) {
      r.queueTimeout.Some? && r.createdAt + r.queueTimeout.value <= now
    }

    ghost predicate TookTooLong(r: AsyncRequest, now: real) {
      r.requestTimeout.Some? && r.createdAt + r.requestTimeout.value <= now
    }

    predicate QueueExpired(r: AsyncRequest, now: real) {
      r.queueTimeout.Some? && now - r.createdAt >= r.queueTimeout.value
    }

    predicate RequestExpired(r: AsyncRequest, now: real) {
      r.requestTimeout.Some? && now - r.createdAt >= r.requestTimeout.value
    }

    /** Takes a request out of the pending queue. */
    method Unpend(r: AsyncRequest)
      requires Ok() && r in pending
      modifies this`pending, this`pendingById
      ensures OkBut(1) && pending == Remove(old(pending), r) && |pending| == |old(pending)| - 1
      ensures r !in pending && r !in active && Sound(r) && !r.cancelled && engine.env.Knows(r.ask.namespace)
      ensures r.queue == [] && HasRoom(r)
      ensures Lookup(pendingById, r.ask.requestId).None? && Lookup(active, r.ask.requestId).None?
      ensures GoneFrom(old(pending), pending, r)
    {
      hide LLMEngine.Ok, DistinctIds, Booked, LiveIn, Sound;
      PendingSound(r);
      BookUnpended(cfg, pending, pendingById, active, arrivals, r);
      UnpendedIds(cfg, pending, pendingById, active, arrivals, r);
      pending := Remove(pending, r);
      pendingById := Remove(pendingById, r);
    }

    lemma PendingDistinct()
      requires Ok()
      ensures NoDup(pending) && NoDup(active)
    {
      DistinctNoDup(active);
    }

    /** Times out one pending request if it has waited too long.  Its queue is empty. */
    method ExpireWaiting(r: AsyncRequest, now: real)
      requires Ok() && r in pending
      modifies this`pending, this`pendingById, this`active, this`cancelled, this`failed, this`timedOut,
               this`overcounted, r
      modifies engine.scheduler, engine.scheduler.blockManager, engine.scheduler.live
      ensures Ok() && active == old(active) && failed == old(failed)
      ensures cancelled == old(cancelled) && overcounted == old(overcounted)
      ensures !WaitedTooLong(r, now) ==> pending == old(pending) && timedOut == old(timedOut)
      ensures WaitedTooLong(r, now) ==>
                && |pending| == |old(pending)| - 1 && GoneFrom(old(pending), pending, r)
                && timedOut == old(timedOut) + 1
      ensures forall x | x in active :: x.queue == old(x.queue)
      ensures EngineFewer(old(engine.scheduler.live), engine.scheduler.live)
      ensures |engine.scheduler.blockManager.blocks| == old(|engine.scheduler.blockManager.blocks|)
      ensures engine.scheduler.preemptions == old(engine.scheduler.preemptions)
    {
      hide LLMEngine.Ok, DistinctIds, Booked, LiveIn, Sound, Balanced, Remove, Lookup;
      ActiveApart();
      PendingSound(r);
      if !r.cancelled && QueueExpired(r, now) {
        Unpend(r);
        ConcludeLoose(r, Timeout);
      } else {
        SameLive(engine.scheduler.live);
      }
    }

    /** Times out what has waited too long, in queue order. */
    method ExpirePending(now: real)
      requires Ok()
      modifies this`pending, this`pendingById, this`active, this`cancelled, this`failed, this`timedOut,
               this`overcounted, pending
      modifies engine.scheduler, engine.scheduler.blockManager, engine.scheduler.live
      ensures Ok() && active == old(active) && |pending| <= |old(pending)|
      ensures timedOut == old(timedOut) + |old(pending)| - |pending| && failed == old(failed)
      ensures cancelled == old(cancelled) && overcounted == old(overcounted) && finished == old(finished)
      ensures forall i | 0 <= i < |active| :: active[i].queue == old(active[i].queue)
      ensures old(Roomy()) ==> Roomy()
      ensures forall i | 0 <= i < |pending| :: pending[i] in old(pending) && !WaitedTooLong(pending[i], now)
      ensures forall i | 0 <= i < |old(pending)| && !WaitedTooLong(old(pending)[i], now) :: old(pending)[i] in pending
      ensures EngineFewer(old(engine.scheduler.live), engine.scheduler.live)
      ensures |engine.scheduler.blockManager.blocks| == old(|engine.scheduler.blockManager.blocks|)
      ensures engine.scheduler.preemptions == old(engine.scheduler.preemptions)
    {
      hide Ok, WaitedTooLong, NoDup, Waiting, GoneFrom, EngineFewer, Roomy;
      var snapshot := pending;
      ghost var live := engine.scheduler.live;
      PendingDistinct();
      SameLive(live);
      AllWaiting(snapshot, now);
      var i := 0;
      while i < |snapshot|
        invariant i <= |snapshot| && Ok() && active == old(active) && |pending| <= |snapshot|
        invariant timedOut == old(timedOut) + |snapshot| - |pending| && failed == old(failed)
        invariant cancelled == old(cancelled) && overcounted == old(overcounted)
        invariant Waiting(snapshot, pending, i, now)
        invariant forall j | 0 <= j < |active| :: active[j].queue == old(active[j].queue)
        invariant EngineFewer(live, engine.scheduler.live)
        invariant |engine.scheduler.blockManager.blocks| == old(|engine.scheduler.blockManager.blocks|)
        invariant engine.scheduler.preemptions == old(engine.scheduler.preemptions)
      {
        ghost var before, were := engine.scheduler.live, pending;
        StillWaiting(snapshot, pending, i, now);
        FewerIsIn(live, before);
        ExpireWaiting(snapshot[i], now);
        WaitedOut(snapshot, were, pending, i, now);
        FewerAgain(live, before, engine.scheduler.live);
        i := i + 1;
      }
      WaitingNow(snapshot, pending, now);
      RoomKept();
    }

    /** Of the first i requests of a snapshot those that have waited too long are no longer pending; all
        others are. */
    ghost predicate Waiting(snapshot: seq<AsyncRequest>, rest: seq<AsyncRequest>, i: nat, now: real) {
      && (forall j | 0 <= j < |rest| :: rest[j] in snapshot)
      && (forall j | 0 <= j < i && j < |snapshot| && WaitedTooLong(snapshot[j], now) :: snapshot[j] !in rest)
      && (forall j | 0 <= j < |snapshot| && (i <= j || !WaitedTooLong(snapshot[j], now)) :: snapshot[j] in rest)
    }

    lemma AllWaiting(snapshot: seq<AsyncRequest>, now: real)
      ensures Waiting(snapshot, snapshot, 0, now)
    {
    }

    lemma StillWaiting(snapshot: seq<AsyncRequest>, rest: seq<AsyncRequest>, i: nat, now: real)
      requires Waiting(snapshot, rest, i, now) && i < |snapshot|
      ensures snapshot[i] in rest
    {
    }

    lemma WaitedOut(snapshot: seq<AsyncRequest>, were: seq<AsyncRequest>, rest: seq<AsyncRequest>, i: nat, now: real)
      requires Waiting(snapshot, were, i, now) && i < |snapshot| && NoDup(snapshot)
      requires if WaitedTooLong(snapshot[i], now) then GoneFrom(were, rest, snapshot[i]) else rest == were
      ensures Waiting(snapshot, rest, i + 1, now)
    {
      hide WaitedTooLong;
    }

    lemma WaitingNow(snapshot: seq<AsyncRequest>, rest: seq<AsyncRequest>, now: real)
      requires Waiting(snapshot, rest, |snapshot|, now)
      ensures forall j | 0 <= j < |rest| :: rest[j] in snapshot && !WaitedTooLong(rest[j], now)
      ensures forall j | 0 <= j < |snapshot| && !WaitedTooLong(snapshot[j], now) :: snapshot[j] in rest
    {
      hide WaitedTooLong;
    }

    /** Takes a request, whose sequence is not in the engine any more, out of the active ones. */
    method Deactivate(r: AsyncRequest)
      requires Ok() && r in active
      requires fatalError.None? ==> NotLive(engine.scheduler.live, r.ask.requestId)
      modifies this`active
      ensures OkBut(1) && active == Remove(old(active), r) && r !in pending && r !in active
      ensures |active| == |old(active)| - 1 && Sound(r) && GoneFrom(old(active), active, r)
      ensures Lookup(pendingById, r.ask.requestId).None? && Lookup(active, r.ask.requestId).None?
    {
      hide LLMEngine.Ok, DistinctIds, Booked, LiveIn, Sound;
      PendingSound(r);
      BookDeactivated(cfg, pending, pendingById, active, arrivals, r);
      DeactivatedIds(cfg, pending, pendingById, active, arrivals, r);
      if fatalError.None? { LiveWithout(cfg, pending, pendingById, active, arrivals, engine.scheduler.live, r); }
      active := Remove(active, r);
    }

    /** Takes a request's sequence out of the engine. */
    method AbortInEngine(requestId: string)
      requires Ok()
      modifies engine.scheduler, engine.scheduler.blockManager, engine.scheduler.live
      ensures Ok() && LeftBy(old(engine.scheduler.live), engine.scheduler.live, requestId)
      ensures NotLive(engine.scheduler.live, requestId)
      ensures EngineFewer(old(engine.scheduler.live), engine.scheduler.live)
      ensures |engine.scheduler.blockManager.blocks| == old(|engine.scheduler.blockManager.blocks|)
      ensures engine.scheduler.preemptions == old(engine.scheduler.preemptions)
    {
      hide LLMEngine.Ok, DistinctIds, Booked, LiveIn, Sound;
      ghost var was := engine.scheduler.live;
      var found;
      ghost var k;
      found, k := engine.AbortRequest(requestId);
      Left(was, engine.scheduler.live, requestId, found, k);
      if fatalError.None? { FewerLiveIn(was, engine.scheduler.live, active); }
    }

    /** How many of rs have taken too long while their queues, qs, had no room for another message. */
    ghost function FullExpired(rs: seq<AsyncRequest>, qs: seq<seq<Item>>, now: real): (n: nat)
      requires |qs| == |rs|
      ensures (forall q | q in qs :: RoomIn(q)) ==> n == 0
    {
      if rs == [] then 0
      else
        var k := |rs| - 1;
        FullExpired(rs[..k], qs[..k], now) + if TookTooLong(rs[k], now) && !RoomIn(qs[k]) then 1 else 0
    }

    lemma FullExpiredNext(rs: seq<AsyncRequest>, qs: seq<seq<Item>>, now: real, i: nat)
      requires |qs| == |rs| && i < |rs|
      ensures FullExpired(rs[..i + 1], qs[..i + 1], now)
           == FullExpired(rs[..i], qs[..i], now) + if TookTooLong(rs[i], now) && !RoomIn(qs[i]) then 1 else 0
    {
      assert rs[..i + 1][..i] == rs[..i] && qs[..i + 1][..i] == qs[..i];
    }

    /** Times out one active request if it has taken too long. */
    method ExpireOne(r: AsyncRequest, now: real)
      requires Ok() && r in active
      modifies this`pendingById, this`active, this`cancelled, this`failed, this`timedOut, this`overcounted, r
      modifies engine.scheduler, engine.scheduler.blockManager, engine.scheduler.live
      ensures Ok() && pending == old(pending) && failed == old(failed)
      ensures !TookTooLong(r, now) ==>
                && active == old(active) && r.queue == old(r.queue)
                && timedOut == old(timedOut) && overcounted == old(overcounted) && cancelled == old(cancelled)
      ensures TookTooLong(r, now) ==>
                && |active| == |old(active)| - 1 && GoneFrom(old(active), active, r)
                && timedOut == old(timedOut) + 1
                && overcounted == old(overcounted) + (if RoomIn(old(r.queue)) then 0 else 1)
                && cancelled == old(cancelled) + (if RoomIn(old(r.queue)) then 0 else 1)
      ensures EngineFewer(old(engine.scheduler.live), engine.scheduler.live)
      ensures |engine.scheduler.blockManager.blocks| == old(|engine.scheduler.blockManager.blocks|)
      ensures engine.scheduler.preemptions == old(engine.scheduler.preemptions)
    {
      hide LLMEngine.Ok, DistinctIds, Booked, LiveIn, Sound, Balanced, Remove, Lookup, LeftBy, NotLive;
      PendingSound(r);
      if !r.cancelled && RequestExpired(r, now) {
        AbortInEngine(r.ask.requestId);
        Deactivate(r);
        ConcludeLoose(r, Timeout);
      } else {
        SameLive(engine.scheduler.live);
      }
    }

    /** Times out active requests that have taken too long.  Those with a full queue, and only those, are
        counted as cancelled besides. */
    method ExpireActive(now: real)
      requires Ok()
      modifies this`pendingById, this`active, this`cancelled, this`failed, this`timedOut, this`overcounted, active
      modifies engine.scheduler, engine.scheduler.blockManager, engine.scheduler.live
      ensures Ok() && pending == old(pending)
      ensures timedOut == old(timedOut) + |old(active)| - |active| && failed == old(failed)
      ensures overcounted == old(overcounted) + FullExpired(old(active), old(QueuesOf(active)), now)
      ensures cancelled == old(cancelled) + FullExpired(old(active), old(QueuesOf(active)), now)
      ensures forall i | 0 <= i < |active| :: active[i] in old(active) && !TookTooLong(active[i], now)
      ensures forall i | 0 <= i < |old(active)| && !TookTooLong(old(active)[i], now) ::
                old(active)[i] in active && old(active)[i].queue == old(active[i].queue)
      ensures old(Roomy()) ==> Roomy() && overcounted == old(overcounted) && cancelled == old(cancelled)
      ensures EngineFewer(old(engine.scheduler.live), engine.scheduler.live)
      ensures |engine.scheduler.blockManager.blocks| == old(|engine.scheduler.blockManager.blocks|)
      ensures engine.scheduler.preemptions == old(engine.scheduler.preemptions)
    {
      hide Ok, Sound, TookTooLong, RoomIn, FullExpired, QueuesOf, NoDup, Expiring, GoneFrom, EngineFewer, Roomy;
      var snapshot := active;
      ghost var live, qs, blocks := engine.scheduler.live, QueuesOf(active), |engine.scheduler.blockManager.blocks|;
      ghost var were, over, off, out := engine.scheduler.preemptions, overcounted, cancelled, timedOut;
      PendingDistinct();
      SameLive(live);
      NoneExpiredYet(snapshot, qs, now);
      var i := 0;
      while i < |snapshot|
        invariant i <= |snapshot| && Ok() && pending == old(pending) && failed == old(failed)
        invariant timedOut == out + |snapshot| - |active|
        invariant overcounted == over + FullExpired(snapshot[..i], qs[..i], now)
        invariant cancelled == off + FullExpired(snapshot[..i], qs[..i], now)
        invariant Expiring(snapshot, active, qs, QueuesOf(snapshot), i, now)
        invariant EngineFewer(live, engine.scheduler.live)
        invariant |engine.scheduler.blockManager.blocks| == blocks && engine.scheduler.preemptions == were
      {
        ghost var before := engine.scheduler.live;
        FewerIsIn(live, before);
        FullExpiredNext(snapshot, qs, now, i);
        ExpireNext(snapshot, qs, i, now);
        FewerAgain(live, before, engine.scheduler.live);
        i := i + 1;
      }
      assert snapshot[..i] == snapshot && qs[..i] == qs;
      AllExpired(snapshot, active, qs, QueuesOf(snapshot), now);
      SurvivorsKept(now);
    }

    /** The i-th request of a snapshot of the active ones. */
    method ExpireNext(snapshot: seq<AsyncRequest>, ghost qs: seq<seq<Item>>, i: nat, now: real)
      requires Ok() && NoDup(snapshot) && Expiring(snapshot, active, qs, QueuesOf(snapshot), i, now) && i < |snapshot|
      modifies this`pendingById, this`active, this`cancelled, this`failed, this`timedOut, this`overcounted, snapshot
      modifies engine.scheduler, engine.scheduler.blockManager, engine.scheduler.live
      ensures Ok() && pending == old(pending) && failed == old(failed)
      ensures |qs| == |snapshot| && Expiring(snapshot, active, qs, QueuesOf(snapshot), i + 1, now)
      ensures timedOut == old(timedOut) + |old(active)| - |active|
      ensures var more := if TookTooLong(snapshot[i], now) && !RoomIn(qs[i]) then 1 else 0;
              overcounted == old(overcounted) + more && cancelled == old(cancelled) + more
      ensures EngineFewer(old(engine.scheduler.live), engine.scheduler.live)
      ensures |engine.scheduler.blockManager.blocks| == old(|engine.scheduler.blockManager.blocks|)
      ensures engine.scheduler.preemptions == old(engine.scheduler.preemptions)
    {
      hide Ok, Sound, TookTooLong, RoomIn, QueuesOf, NoDup, Expiring, GoneFrom, EngineFewer;
      ghost var actives, us := active, QueuesOf(snapshot);
      StillExpiring(snapshot, active, qs, us, i, now);
      ExpireOne(snapshot[i], now);
      assert forall j | 0 <= j < |snapshot| && j != i :: snapshot[j].queue == us[j] by { Differ(snapshot, i); }
      ExpiredOne(snapshot, actives, active, qs, us, QueuesOf(snapshot), i, now);
    }

    /** An active request that has taken too long while its queue is full: the one request is counted as
        timed out and as cancelled, and the counters add up to one more than was submitted. */
    method CountedTwice(r: AsyncRequest, now: real)
      requires Ok() && active == [r] && TookTooLong(r, now) && !HasRoom(r)
      requires submitted == |pending| + |active| + finished + failed + timedOut + cancelled
      modifies this`pendingById, this`active, this`cancelled, this`failed, this`timedOut, this`overcounted, r
      modifies engine.scheduler, engine.scheduler.blockManager, engine.scheduler.live
      ensures Ok() && active == [] && timedOut == old(timedOut) + 1 && cancelled == old(cancelled) + 1
      ensures submitted + 1 == |pending| + |active| + finished + failed + timedOut + cancelled
    {
      hide Ok, TookTooLong;
      ExpireActive(now);
      assert forall i | 0 <= i < |active| :: active[i] != r;
      assert forall x | x in active :: x in [r];
      NoneLeft(r, active);
    }

    lemma NoneLeft(r: AsyncRequest, rest: seq<AsyncRequest>)
      requires forall x | x in rest :: x == r
      requires r !in rest
      ensures rest == []
    {
      if rest != [] { var x := SomeOf(rest); }
    }

    lemma SomeOf(rs: seq<AsyncRequest>) returns (x: AsyncRequest)
      requires rs != []
      ensures x in rs
    {
      x := rs[0];
    }

    twostate lemma SurvivorsKept(now: real)
      requires forall i | 0 <= i < |active| :: active[i] in old(active) && !TookTooLong(active[i], now)
      requires forall i | 0 <= i < |old(active)| && !TookTooLong(old(active)[i], now) ::
                 old(active)[i] in active && old(active)[i].queue == old(active[i].queue)
      ensures old(Roomy()) ==> Roomy() && FullExpired(old(active), old(QueuesOf(active)), now) == 0
    {
      hide TookTooLong, Roomy, RoomIn, FullExpired;
      forall r | r in active ensures r in old(active) && r.queue == old(r.queue) {
        var i := IndexIn(old(active), r);
      }
      RoomKept();
      if old(Roomy()) { WereRoomy(); }
    }

    twostate lemma WereRoomy()
      requires old(Roomy())
      ensures forall q | q in old(QueuesOf(active)) :: RoomIn(q)
    {
    }

    /** Of the first i requests of a snapshot those that have taken too long are no longer active; the
        others are, with the queues they had. */
    ghost predicate Expiring(snapshot: seq<AsyncRequest>, actives: seq<AsyncRequest>, qs: seq<seq<Item>>,
                             us: seq<seq<Item>>, i: nat, now: real) {
      && |qs| == |us| == |snapshot|
      && (forall j | 0 <= j < |actives| :: actives[j] in snapshot)
      && (forall j | 0 <= j < i && j < |snapshot| && TookTooLong(snapshot[j], now) :: snapshot[j] !in actives)
      && (forall j | 0 <= j < |snapshot| && (i <= j || !TookTooLong(snapshot[j], now)) ::
            snapshot[j] in actives && us[j] == qs[j])
    }

    lemma NoneExpiredYet(snapshot: seq<AsyncRequest>, qs: seq<seq<Item>>, now: real)
      requires |qs| == |snapshot|
      ensures Expiring(snapshot, snapshot, qs, qs, 0, now)
    {
    }

    lemma StillExpiring(snapshot: seq<AsyncRequest>, actives: seq<AsyncRequest>, qs: seq<seq<Item>>,
                        us: seq<seq<Item>>, i: nat, now: real)
      requires Expiring(snapshot, actives, qs, us, i, now) && i < |snapshot|
      ensures snapshot[i] in actives && |qs| == |us| && us[i] == qs[i]
    {
    }

    lemma ExpiredOne(snapshot: seq<AsyncRequest>, actives: seq<AsyncRequest>, rest: seq<AsyncRequest>,
                     qs: seq<seq<Item>>, us: seq<seq<Item>>, ws: seq<seq<Item>>, i: nat, now: real)
      requires Expiring(snapshot, actives, qs, us, i, now) && i < |snapshot| == |ws| && NoDup(snapshot)
      requires forall j | 0 <= j < |snapshot| && j != i :: ws[j] == us[j]
      requires !TookTooLong(snapshot[i], now) ==> rest == actives && ws[i] == us[i]
      requires TookTooLong(snapshot[i], now) ==> GoneFrom(actives, rest, snapshot[i])
      ensures Expiring(snapshot, rest, qs, ws, i + 1, now)
    {
      hide TookTooLong;
    }

    lemma AllExpired(snapshot: seq<AsyncRequest>, actives: seq<AsyncRequest>, qs: seq<seq<Item>>,
                     us: seq<seq<Item>>, now: real)
      requires Expiring(snapshot, actives, qs, us, |snapshot|, now)
      ensures |us| == |qs| == |snapshot|
      ensures forall j | 0 <= j < |actives| :: actives[j] in snapshot && !TookTooLong(actives[j], now)
      ensures forall j | 0 <= j < |snapshot| && !TookTooLong(snapshot[j], now) ::
                snapshot[j] in actives && us[j] == qs[j]
    {
      hide TookTooLong;
    }

    lemma Differ(snapshot: seq<AsyncRequest>, i: nat)
      requires NoDup(snapshot) && i < |snapshot|
      ensures forall j | 0 <= j < |snapshot| && j != i :: snapshot[j] != snapshot[i]
    {
    }

    /* ---------- Submission ---------- */

    /** Queues a request by priority, behind its equals. */
    method EnqueuePending(r: AsyncRequest)
      requires Ordered(pending)
      modifies this`pending
      ensures pending == Inserted(old(pending), r)
    {
      if pending == [] || r.priority <= pending[|pending| - 1].priority {
        LastNotLower(pending, r.priority, 0);
        pending := pending + [r];
        return;
      }
      var i := 0;
      while i < |pending| && r.priority <= pending[i].priority
        invariant i <= |pending| && FirstLower(pending, r.priority, 0) == FirstLower(pending, r.priority, i)
      {
        i := i + 1;
      }
      pending := pending[..i] + [r] + pending[i..];
    }

    /** The reason for which a valid request is turned away, in the order of the checks. */
    function Turned(ask: Ask, namespace: string): Option<Reason>
      reads this
    {
      if |pendingById| >= cfg.maxPendingRequests then Some(QueueFull)
      else if Lookup(pendingById, ask.requestId).Some? || Lookup(active, ask.requestId).Some? then Some(DuplicateId)
      else if cfg.maxPendingRequestsPerNamespace.Some?
              && RequestsOf(pendingById, namespace) >= cfg.maxPendingRequestsPerNamespace.value
      then Some(NamespacePending)
      else None
    }

    function OverBudget(ask: Ask): Option<Reason>
      reads this
    {
      var estimated := |ask.prompt| + Max(0, ask.maxTokens);
      if cfg.maxPendingPromptTokens.Some?
         && PromptTokens(pendingById) + |ask.prompt| > cfg.maxPendingPromptTokens.value
      then Some(PromptBudget)
      else if cfg.maxActiveTokens.Some? && estimated > cfg.maxActiveTokens.value then Some(ActiveBudget)
      else if cfg.maxActiveTokensPerNamespace.Some? && estimated > cfg.maxActiveTokensPerNamespace.value
      then Some(NamespaceActiveBudget)
      else None
    }

    predicate BadTimeout(timeout: Option<real>) { timeout.Some? && timeout.value < 0.0 }

    /** What a submission must look like to be accepted. */
    predicate ValidAsk(ask: Ask, requestTimeout: Option<real>, queueTimeout: Option<real>) {
      && ask.maxTokens >= 0 && ask.temperature >= 0.0 && ask.prompt != []
      && (requestTimeout.Some? ==> requestTimeout.value >= 0.0) && (queueTimeout.Some? ==> queueTimeout.value >= 0.0)
    }

    /** On its own, the request is within the active token budgets. */
    predicate WithinActiveBudgets(ask: Ask) {
      var estimated := |ask.prompt| + Max(0, ask.maxTokens);
      && (cfg.maxActiveTokens.Some? ==> estimated <= cfg.maxActiveTokens.value)
      && (cfg.maxActiveTokensPerNamespace.Some? ==> estimated <= cfg.maxActiveTokensPerNamespace.value)
    }

    /** The request's namespace: its own, or else that of its cache options. */
    function NamespaceOf(ask: Ask, requestNamespace: string): string {
      if requestNamespace != "" then requestNamespace else ask.namespace
    }

    function OrDefault(timeout: Option<real>, default: Option<real>): Option<real> {
      if timeout.None? then default else timeout
    }

    /** Whether this reason to turn a request away applies; byId are the pending requests. */
    predicate Applies(reason: Reason, ask: Ask, namespace: string, byId: seq<AsyncRequest>)
      reads this`fatalError, this`draining, this`active
    {
      match reason
      case EngineFatal => fatalError.Some?
      case Draining => draining
      case QueueFull => |byId| >= cfg.maxPendingRequests
      case DuplicateId => Lookup(byId, ask.requestId).Some? || Lookup(active, ask.requestId).Some?
      case NamespacePending => cfg.maxPendingRequestsPerNamespace.Some?
                               && RequestsOf(byId, namespace) >= cfg.maxPendingRequestsPerNamespace.value
      case PromptBudget => cfg.maxPendingPromptTokens.Some?
                           && PromptTokens(byId) + |ask.prompt| > cfg.maxPendingPromptTokens.value
      case ActiveBudget | NamespaceActiveBudget => !WithinActiveBudgets(ask)
    }

    /** A new request: accepted into the pending queue, turned away, or found invalid.  before and
        byId are the pending requests once the expired ones have been timed out. */
    method Submit(ask: Ask, priority: int, requestNamespace: string, requestTimeout: Option<real>,
                  queueTimeout: Option<real>, now: real)
      returns (answer: Submission, ghost before: seq<AsyncRequest>, ghost byId: seq<AsyncRequest>)
      requires Ok() && engine.env.Knows(ask.namespace)
      modifies this, pending
      modifies engine.scheduler, engine.scheduler.blockManager, engine.scheduler.live
      ensures Ok() && active == old(active) && fatalError == old(fatalError) && draining == old(draining)
      ensures |byId| == |before| && forall x :: x in byId <==> x in before
      ensures forall i | 0 <= i < |before| :: before[i] in old(pending) && !WaitedTooLong(before[i], now)
      ensures var namespace := if requestNamespace == "" then ask.namespace else requestNamespace;
              var rt := if requestTimeout.Some? then requestTimeout else cfg.defaultRequestTimeout;
              var qt := if queueTimeout.Some? then queueTimeout else cfg.defaultQueueTimeout;
              && (answer.Accepted? <==>
                    && fatalError.None? && !draining && ValidAsk(ask, rt, qt)
                    && Lookup(byId, ask.requestId).None? && Lookup(active, ask.requestId).None?
                    && MayWait(cfg, byId, namespace, |ask.prompt|) && WithinActiveBudgets(ask))
              && (answer.Rejected? ==> Applies(answer.reason, ask, namespace, byId))
              && (answer.Invalid? ==> !ValidAsk(ask, rt, qt))
              && (answer.Accepted? ==>
                    && answer.request.ask == ask && answer.request.priority == priority && fresh(answer.request)
                    && answer.request.namespace == namespace && answer.request.createdAt == now
                    && answer.request.requestTimeout == rt && answer.request.queueTimeout == qt
                    && pending == Inserted(before, answer.request))
      ensures !answer.Accepted? ==> pending == before && pendingById == byId
      ensures submitted == old(submitted) + if answer.Accepted? then 1 else 0
      ensures rejected == old(rejected) + if answer.Rejected? then 1 else 0
      ensures timedOut == old(timedOut) + |old(pending)| - |before| && failed == old(failed)
      ensures cancelled == old(cancelled) && overcounted == old(overcounted) && finished == old(finished)
      ensures engine.scheduler.preemptions == old(engine.scheduler.preemptions)
    {
      hide Ok, Inserted, WaitedTooLong, EngineFewer, MayWait, Lookup, ValidAsk, Applies, WithinActiveBudgets,
        RequestsOf, PromptTokens, Roomy;
      ExpirePending(now);
      SameMembers();
      before, byId := pending, pendingById;
      var rt := OrDefault(requestTimeout, cfg.defaultRequestTimeout);
      var qt := OrDefault(queueTimeout, cfg.defaultQueueTimeout);
      var namespace := NamespaceOf(ask, requestNamespace);
      var verdict := Judge(ask, namespace, rt, qt);
      if verdict.Refuse? { answer := Reject(verdict.reason); return; }
      if verdict.Malformed? { return Invalid, before, byId; }
      answer := TakeOn(ask, priority, namespace, now, rt, qt);
    }

    /** Makes a request of what has passed the checks. */
    method TakeOn(ask: Ask, priority: int, namespace: string, now: real, requestTimeout: Option<real>,
                  queueTimeout: Option<real>) returns (answer: Submission)
      requires Ok() && engine.env.Knows(ask.namespace) && MayWait(cfg, pendingById, namespace, |ask.prompt|)
      requires ask.prompt != []
      requires Lookup(pendingById, ask.requestId).None? && Lookup(active, ask.requestId).None?
      modifies this`submitted, this`pendingById, this`pending, this`arrivals
      ensures Ok() && answer.Accepted? && fresh(answer.request) && submitted == old(submitted) + 1
      ensures answer.request.ask == ask && answer.request.priority == priority
      ensures answer.request.namespace == namespace && answer.request.createdAt == now
      ensures answer.request.requestTimeout == requestTimeout && answer.request.queueTimeout == queueTimeout
      ensures pending == Inserted(old(pending), answer.request)
    {
      hide Ok, Inserted, MayWait, Lookup;
      var r := new AsyncRequest(ask, priority, namespace, now, requestTimeout, queueTimeout, arrivals);
      Accept(r);
      answer := Accepted(r);
    }

    /** The checks of a submission, in their order. */
    method Judge(ask: Ask, namespace: string, requestTimeout: Option<real>, queueTimeout: Option<real>)
      returns (verdict: Verdict)
      ensures verdict.Take? <==>
                && fatalError.None? && !draining && ValidAsk(ask, requestTimeout, queueTimeout)
                && Lookup(pendingById, ask.requestId).None? && Lookup(active, ask.requestId).None?
                && MayWait(cfg, pendingById, namespace, |ask.prompt|) && WithinActiveBudgets(ask)
      ensures verdict.Take? ==> ask.prompt != []
      ensures verdict.Refuse? ==> Applies(verdict.reason, ask, namespace, pendingById)
      ensures verdict.Malformed? ==> !ValidAsk(ask, requestTimeout, queueTimeout)
    {
      if fatalError.Some? { return Refuse(EngineFatal); }
      if draining { return Refuse(Draining); }
      if ask.maxTokens < 0 || ask.temperature < 0.0 || BadTimeout(requestTimeout) || BadTimeout(queueTimeout) {
        return Malformed;
      }
      var turned := Turned(ask, namespace);
      if turned.Some? { return Refuse(turned.value); }
      if |ask.prompt| == 0 { return Malformed; }
      var over := OverBudget(ask);
      if over.Some? { return Refuse(over.value); }
      verdict := Take;
    }

    lemma SameMembers()
      requires Ok()
      ensures |pendingById| == |pending| && forall x :: x in pendingById <==> x in pending
    {
    }

    method Reject(reason: Reason) returns (answer: Submission)
      requires Ok()
      modifies this`rejected
      ensures Ok() && answer == Rejected(reason) && rejected == old(rejected) + 1
    {
      hide LLMEngine.Ok, DistinctIds, Booked, LiveIn, Sound;
      rejected := rejected + 1;
      answer := Rejected(reason);
    }

    method Accept(r: AsyncRequest)
      requires Ok() && r.arrival == arrivals && !r.cancelled && r.queue == [] && engine.env.Knows(r.ask.namespace)
      requires r.ask.prompt != []
      requires Lookup(pendingById, r.ask.requestId).None? && Lookup(active, r.ask.requestId).None?
      requires MayWait(cfg, pendingById, r.namespace, r.promptTokens)
      modifies this`submitted, this`pendingById, this`pending, this`arrivals
      ensures Ok() && pending == Inserted(old(pending), r) && submitted == old(submitted) + 1
    {
      hide LLMEngine.Ok, DistinctIds, LiveIn, MayWait, Inserted, Booked, Sound;
      AcceptedBooks(cfg, pending, pendingById, active, arrivals, r);
      NewSound(r);
      submitted := submitted + 1;
      pendingById := pendingById + [r];
      EnqueuePending(r);
      arrivals := arrivals + 1;
    }

    lemma NewSound(r: AsyncRequest)
      requires !r.cancelled && r.queue == [] && engine.env.Knows(r.ask.namespace) && r.ask.prompt != []
      ensures Sound(r)
    {
    }

    /* ---------- Admission ---------- */

    /** The first pending request that may become active, taken out of the queue. */
    function FirstAdmissible(rs: seq<AsyncRequest>): (r: Option<AsyncRequest>)
      reads this, rs
      ensures r.Some? ==> r.value in rs && CanAdmit(cfg, active, r.value, r.value.cancelled)
      ensures r.None? ==> forall i | 0 <= i < |rs| :: !CanAdmit(cfg, active, rs[i], rs[i].cancelled)
    {
      if rs == [] then None
      else if CanAdmit(cfg, active, rs[0], rs[0].cancelled) then Some(rs[0])
      else FirstAdmissible(rs[1..])
    }

    /** Admits, in queue order, what the limits allow: it stops only when nothing pending may be
        admitted.  A request that the engine refuses fails.  Each round reads the clock: they make the
        readings from first up to next. */
    method DrainPending(clock: nat -> real, first: nat) returns (next: nat)
      requires Ok() && fatalError.None?
      modifies this, pending
      modifies engine.scheduler, engine.scheduler.blockManager, engine.scheduler.live
      ensures Ok() && fatalError == old(fatalError)
      ensures forall i | 0 <= i < |pending| :: pending[i] in old(pending) && !CanAdmit(cfg, active, pending[i], false)
      ensures forall i | 0 <= i < |pending| :: !WithinCaps(cfg, active + [pending[i]])
      ensures old(active) <= active && next > first
      ensures forall i | 0 <= i < |pending| :: !WaitedTooLong(pending[i], clock(next - 1))
      ensures dequeued == old(dequeued) + |active| - |old(active)| + failed - old(failed)
      ensures forall i | |old(active)| <= i < |active| :: active[i] in old(pending) && active[i].queue == []
      ensures forall i | 0 <= i < |old(active)| :: active[i].queue == old(active[i].queue)
      ensures old(Roomy()) && cfg.outputQueueSize != 1 ==> Roomy()
      ensures forall i | 0 <= i < |engine.scheduler.live| ::
                engine.scheduler.live[i] in old(engine.scheduler.live) || fresh(engine.scheduler.live[i])
      ensures submitted == old(submitted) && finished == old(finished) && steps == old(steps)
      ensures cancelled == old(cancelled) && overcounted == old(overcounted)
      ensures |pending| + |active| + failed + timedOut == old(|pending| + |active| + failed + timedOut)
      ensures |engine.scheduler.blockManager.blocks| == old(|engine.scheduler.blockManager.blocks|)
      ensures engine.scheduler.preemptions == old(engine.scheduler.preemptions)
    {
      hide LLMEngine.Ok, DistinctIds, Booked, LiveIn, CanAdmit, Sound, AllSound, EngineSide, WaitedTooLong, Balanced,
           WithinCaps;
      ghost var start, actives, qs := pending, active, QueuesOf(active);
      var done := false;
      next := first;
      while !done
        invariant Ok() && fatalError == old(fatalError) && submitted == old(submitted) && finished == old(finished)
        invariant steps == old(steps)
        invariant cancelled == old(cancelled) && overcounted == old(overcounted)
        invariant next >= first && (done ==> next > first)
        invariant |pending| + |active| + failed + timedOut == old(|pending| + |active| + failed + timedOut)
        invariant forall i | 0 <= i < |pending| :: pending[i] in start
        invariant actives <= active && forall i | |actives| <= i < |active| :: active[i] in start && active[i].queue == []
        invariant forall i | 0 <= i < |actives| :: active[i].queue == qs[i]
        invariant done ==> forall i | 0 <= i < |pending| :: !CanAdmit(cfg, active, pending[i], false)
        invariant done ==> forall i | 0 <= i < |pending| :: !WaitedTooLong(pending[i], clock(next - 1))
        invariant dequeued == old(dequeued) + |active| - |actives| + failed - old(failed)
        invariant forall i | 0 <= i < |engine.scheduler.live| ::
                    engine.scheduler.live[i] in old(engine.scheduler.live) || fresh(engine.scheduler.live[i])
        invariant |engine.scheduler.blockManager.blocks| == old(|engine.scheduler.blockManager.blocks|)
        invariant engine.scheduler.preemptions == old(engine.scheduler.preemptions)
        decreases !done, |pending|
      {
        ghost var before, k;
        done, before, k := DrainOne(clock(next));
        next := next + 1;
      }
      NowWithinCaps();
      AdmissibleWithinCaps(active, pending);
    }

    /** One round: expire, which leaves before, then take the first admissible request, the k-th, if
        there is one: it becomes active, or fails if the engine refuses it. */
    method DrainOne(now: real) returns (done: bool, ghost before: seq<AsyncRequest>, ghost k: nat)
      requires Ok() && fatalError.None?
      modifies this, pending
      modifies engine.scheduler, engine.scheduler.blockManager, engine.scheduler.live
      ensures Ok() && fatalError.None? && submitted == old(submitted) && finished == old(finished)
      ensures steps == old(steps)
      ensures |pending| + |active| + failed + timedOut == old(|pending| + |active| + failed + timedOut)
      ensures forall i | 0 <= i < |before| :: before[i] in old(pending) && !WaitedTooLong(before[i], now)
      ensures forall i | 0 <= i < |old(pending)| && !WaitedTooLong(old(pending)[i], now) :: old(pending)[i] in before
      ensures done ==>
                && pending == before && active == old(active)
                && forall i | 0 <= i < |before| :: !CanAdmit(cfg, active, before[i], false)
      ensures !done ==>
                && k < |before| && CanAdmit(cfg, old(active), before[k], false)
                && (forall i | 0 <= i < k :: !CanAdmit(cfg, old(active), before[i], false))
                && pending == Remove(before, before[k]) && |pending| < |old(pending)|
                && ((active == old(active) + [before[k]] && before[k].queue == [])
                    || (active == old(active) && before[k].finished && failed == old(failed) + 1))
      ensures dequeued == old(dequeued) + |active| - |old(active)| + failed - old(failed)
      ensures if done then forall i | 0 <= i < |before| :: !WithinCaps(cfg, active + [before[i]])
              else && WithinCaps(cfg, old(active) + [before[k]])
                   && forall i | 0 <= i < k :: !WithinCaps(cfg, old(active) + [before[i]])
      ensures cancelled == old(cancelled) && overcounted == old(overcounted)
      ensures forall i | 0 <= i < |old(active)| :: old(active)[i].queue == old(active[i].queue)
      ensures forall i | 0 <= i < |pending| :: pending[i] in old(pending)
      ensures forall i | 0 <= i < |active| :: active[i] in old(active) || active[i] in old(pending)
      ensures forall i | 0 <= i < |engine.scheduler.live| ::
                engine.scheduler.live[i] in old(engine.scheduler.live) || fresh(engine.scheduler.live[i])
      ensures |engine.scheduler.blockManager.blocks| == old(|engine.scheduler.blockManager.blocks|)
      ensures engine.scheduler.preemptions == old(engine.scheduler.preemptions)
    {
      hide Ok, CanAdmit, WaitedTooLong, FirstAdmissible, Remove, Roomy, WithinCaps;
      ActiveApart();
      Counts();
      ExpirePending(now);
      before, k := pending, 0;
      NowWithinCaps();
      AdmissibleWithinCaps(active, before);
      if pending == [] { return true, before, k; }
      if cfg.maxActiveRequests.Some? && |active| >= cfg.maxActiveRequests.value {
        NoSeat();
        return true, before, k;
      }
      var next := FirstAdmissible(pending);
      NonePendingCancelled();
      k := FirstAt(pending);
      if next.None? { return true, before, k; }
      AdmitNext(next.value);
      Counts();
      done := false;
    }

    lemma NowWithinCaps()
      requires Ok()
      ensures WithinCaps(cfg, active) && forall i | 0 <= i < |pending| :: pending[i].ask.prompt != []
    {
    }

    /** What may become active is what the active requests have room for within the caps. */
    lemma AdmissibleWithinCaps(actives: seq<AsyncRequest>, rs: seq<AsyncRequest>)
      requires WithinCaps(cfg, actives) && forall i | 0 <= i < |rs| :: rs[i].ask.prompt != []
      ensures forall i | 0 <= i < |rs| :: CanAdmit(cfg, actives, rs[i], false) <==> WithinCaps(cfg, actives + [rs[i]])
    {
      hide CanAdmit, WithinCaps;
      forall i | 0 <= i < |rs|
        ensures CanAdmit(cfg, actives, rs[i], false) <==> WithinCaps(cfg, actives + [rs[i]])
      {
        AdmittedWithinCaps(cfg, actives, rs[i]);
      }
    }

    lemma NonePendingCancelled()
      requires Ok()
      ensures forall i | 0 <= i < |pending| :: !pending[i].cancelled
    {
    }

    /** Where the first admissible request stands. */
    lemma {:induction false} FirstAt(rs: seq<AsyncRequest>) returns (k: nat)
      requires forall i | 0 <= i < |rs| :: !rs[i].cancelled
      ensures var r := FirstAdmissible(rs);
              && (r.None? ==> forall i | 0 <= i < |rs| :: !CanAdmit(cfg, active, rs[i], false))
              && (r.Some? ==> && k < |rs| && r.value == rs[k] && CanAdmit(cfg, active, rs[k], false)
                              && forall i | 0 <= i < k :: !CanAdmit(cfg, active, rs[i], false))
    {
      hide CanAdmit;
      k := 0;
      if rs != [] && !CanAdmit(cfg, active, rs[0], rs[0].cancelled) {
        var rest := FirstAt(rs[1..]);
        k := rest + 1;
      }
    }

    /** A pending request becomes active, or fails if the engine refuses it.  Pending requests are
        never cancelled ones. */
    method AdmitNext(r: AsyncRequest)
      requires Ok() && fatalError.None? && r in pending && CanAdmit(cfg, active, r, false)
      modifies this`pending, this`pendingById, this`active, this`cancelled, this`failed, this`timedOut,
               this`overcounted, this`dequeued, r
      modifies engine.scheduler, engine.scheduler.blockManager, engine.scheduler.live
      ensures Ok() && |pending| < |old(pending)| && forall i | 0 <= i < |pending| :: pending[i] in old(pending)
      ensures pending == Remove(old(pending), r) && cancelled == old(cancelled) && overcounted == old(overcounted)
      ensures active == old(active) + [r] ==> r.queue == []
      ensures forall i | 0 <= i < |engine.scheduler.live| ::
                engine.scheduler.live[i] in old(engine.scheduler.live) || fresh(engine.scheduler.live[i])
      ensures timedOut == old(timedOut) && dequeued == old(dequeued) + 1
      ensures (active == old(active) + [r] && failed == old(failed))
              || (active == old(active) && r.finished && failed == old(failed) + 1)
      ensures |engine.scheduler.blockManager.blocks| == old(|engine.scheduler.blockManager.blocks|)
      ensures engine.scheduler.preemptions == old(engine.scheduler.preemptions)
    {
      hide LLMEngine.Ok, DistinctIds, Booked, LiveIn, CanAdmit, EngineFewer, Sound, Remove;
      ghost var live := engine.scheduler.live;
      Unpend(r);
      dequeued := dequeued + 1;
      var accepted := Activate(r);
      if !accepted {
        ConcludeLoose(r, RequestValidation);
        FewerIsIn(live, engine.scheduler.live);
      }
    }

    /** Hands a request that has left the pending queue to the engine. */
    method Activate(r: AsyncRequest) returns (accepted: bool)
      requires OkBut(1) && fatalError.None? && CanAdmit(cfg, active, r, false) && Sound(r)
      requires engine.env.Knows(r.ask.namespace)
      requires Lookup(pendingById, r.ask.requestId).None? && Lookup(active, r.ask.requestId).None?
      modifies this`active, engine.scheduler
      ensures accepted ==> Ok() && active == old(active) + [r]
      ensures !accepted ==> OkBut(1) && active == old(active) && engine.scheduler.live == old(engine.scheduler.live)
      ensures forall i | 0 <= i < |engine.scheduler.live| ::
                engine.scheduler.live[i] in old(engine.scheduler.live) || fresh(engine.scheduler.live[i])
      ensures |engine.scheduler.blockManager.blocks| == old(|engine.scheduler.blockManager.blocks|)
      ensures engine.scheduler.preemptions == old(engine.scheduler.preemptions)
    {
      hide LLMEngine.Ok, DistinctIds, Booked, LiveIn, CanAdmit, Lookup, Sound;
      ghost var live := engine.scheduler.live;
      var refused;
      ghost var s;
      refused, s := engine.AddRequest(r.ask);
      if refused.Some? { return false; }
      ActivatedBooks(cfg, pending, pendingById, active, arrivals, r);
      ActivatedLive(live, active, r, s.value);
      active := active + [r];
      accepted := true;
    }

    lemma NoSeat()
      requires cfg.maxActiveRequests.Some? && |active| >= cfg.maxActiveRequests.value
      ensures forall r :: !CanAdmit(cfg, active, r, false)
    {
    }

    /* ---------- Aborts and deliveries ---------- */

    /** Counts a request that has left the books as cancelled and ends its stream. */
    method CancelLoose(r: AsyncRequest)
      requires OkBut(1) && r !in pending && r !in active
      modifies this`active, this`pendingById, this`cancelled, r
      modifies engine.scheduler, engine.scheduler.blockManager, engine.scheduler.live
      ensures Ok() && r.cancelled && r.finished && cancelled == old(cancelled) + 1
      ensures pendingById == old(pendingById) && active == old(active) && engine.scheduler.live == old(engine.scheduler.live)
    {
      hide LLMEngine.Ok, DistinctIds, Booked, LiveIn, EngineFewer, Sound;
      Close(r, true);
      var _ := PutOrDrop(r, EndOfStream);
      cancelled := cancelled + 1;
    }

    /** Cancels a request wherever it is. */
    method Abort(requestId: string) returns (found: bool)
      requires Ok()
      modifies this`pending, this`pendingById, this`active, this`cancelled, pending, active
      modifies engine.scheduler, engine.scheduler.blockManager, engine.scheduler.live
      ensures Ok()
      ensures found <==> Lookup(old(pendingById), requestId).Some? || Lookup(old(active), requestId).Some?
      ensures found ==> Lookup(pendingById, requestId).None? && Lookup(active, requestId).None?
      ensures cancelled == old(cancelled) + if found then 1 else 0
      ensures overcounted == old(overcounted)
    {
      hide LLMEngine.Ok, DistinctIds, Booked, LiveIn, EngineFewer, Lookup, Sound;
      var r := Lookup(pendingById, requestId);
      if r.Some? {
        PendingToo(cfg, pending, pendingById, active, arrivals, r.value);
        Unpend(r.value);
        CancelLoose(r.value);
        return true;
      }
      r := Lookup(active, requestId);
      if r.Some? {
        AbortInEngine(requestId);
        Deactivate(r.value);
        CancelLoose(r.value);
        return true;
      }
      found := false;
    }

    /** What becomes of a request with the queue was when it is handed this output: without room it is
        cancelled and finds the stop item alone; the last output ends its stream, and is lost itself if
        the stop item does not fit; any other output joins the queue. */
    ghost predicate Handed(was: seq<Item>, queue: seq<Item>, stillActive: bool, output: Output) {
      if !RoomIn(was) then !stillActive && queue == [EndOfStream]
      else if output.finished then
        && !stillActive
        && queue == if RoomIn(was + [Item.Token(output)]) then was + [Item.Token(output), EndOfStream] else [EndOfStream]
      else stillActive && queue == was + [Item.Token(output)]
    }

    /** The client gets the last output if and only if its queue has room for two; with queues of length
        one it never does. */
    lemma LastOutputArrives(was: seq<Item>, queue: seq<Item>, stillActive: bool, output: Output)
      requires output.finished && Handed(was, queue, stillActive, output)
      ensures queue == was + [Item.Token(output), EndOfStream]
         <==> cfg.outputQueueSize <= 0 || |was| + 2 <= cfg.outputQueueSize
      ensures cfg.outputQueueSize == 1 ==> queue == [EndOfStream]
    {
      if queue == [EndOfStream] { assert |was + [Item.Token(output), EndOfStream]| > |queue|; }
    }

    /** A client takes the next item out of its queue. */
    method Receive(r: AsyncRequest) returns (item: Item)
      requires Ok() && r.queue != []
      modifies r`queue
      ensures Ok() && item == old(r.queue)[0] && r.queue == old(r.queue)[1..]
      ensures old(Roomy()) ==> Roomy()
    {
      hide LLMEngine.Ok, DistinctIds, Booked, LiveIn, LLMEngine.OutputTrue, Balanced;
      item := r.queue[0];
      r.queue := r.queue[1..];
    }

    /** Hands an output of the engine to its request; with the last output the request is finished.
        Outputs of requests that have left meanwhile are dropped. */
    method Deliver(output: Output)
      requires Ok() && fatalError.None? && TrueFor(active, output)
      requires output.finished ==> NotLive(engine.scheduler.live, output.requestId)
      modifies this`active, this`pendingById, this`cancelled, this`finished, active
      modifies engine.scheduler, engine.scheduler.blockManager, engine.scheduler.live
      ensures Ok() && pending == old(pending) && overcounted == old(overcounted)
      ensures forall i | 0 <= i < |active| :: active[i] in old(active)
      ensures EngineFewer(old(engine.scheduler.live), engine.scheduler.live)
      ensures forall x | x in old(active) && x.ask.requestId == output.requestId ::
                Handed(old(x.queue), x.queue, x in active, output)
      ensures forall x | x in old(active) && x.ask.requestId != output.requestId ::
                x in active && x.queue == old(x.queue)
      ensures var r := Lookup(old(active), output.requestId);
              && (r.None? ==> active == old(active) && finished == old(finished) && cancelled == old(cancelled))
              && (r.Some? ==>
                    && cancelled == old(cancelled) + (if RoomIn(old(r.value.queue)) then 0 else 1)
                    && finished == old(finished) + (if RoomIn(old(r.value.queue)) && output.finished then 1 else 0)
                    && (RoomIn(old(r.value.queue)) && !output.finished ==> active == old(active)))
      ensures |engine.scheduler.blockManager.blocks| == old(|engine.scheduler.blockManager.blocks|)
      ensures engine.scheduler.preemptions == old(engine.scheduler.preemptions)
    {
      hide Ok, Lookup, LLMEngine.OutputTrue, NotLive, EngineFewer, Handed, RoomIn;
      ActiveApart();
      SameLive(engine.scheduler.live);
      var found := Lookup(active, output.requestId);
      if found.Some? { DeliverTo(found.value, output); }
    }

    /** The output tells the truth to whichever of these requests it is for. */
    ghost predicate TrueFor(rs: seq<AsyncRequest>, output: Output) {
      forall i | 0 <= i < |rs| && rs[i].ask.requestId == output.requestId :: engine.OutputTrue(rs[i].ask, output)
    }

    method DeliverTo(r: AsyncRequest, output: Output)
      requires Ok() && fatalError.None? && r in active && r.ask.requestId == output.requestId
      requires engine.OutputTrue(r.ask, output)
      requires output.finished ==> NotLive(engine.scheduler.live, output.requestId)
      modifies this`active, this`pendingById, this`cancelled, this`finished, r
      modifies engine.scheduler, engine.scheduler.blockManager, engine.scheduler.live
      ensures Ok() && pending == old(pending) && overcounted == old(overcounted)
      ensures forall i | 0 <= i < |active| :: active[i] in old(active)
      ensures EngineFewer(old(engine.scheduler.live), engine.scheduler.live)
      ensures Handed(old(r.queue), r.queue, r in active, output)
      ensures cancelled == old(cancelled) + (if old(HasRoom(r)) then 0 else 1)
      ensures finished == old(finished) + (if old(HasRoom(r)) && output.finished then 1 else 0)
      ensures if old(HasRoom(r)) && !output.finished then active == old(active) else GoneFrom(old(active), active, r)
      ensures |engine.scheduler.blockManager.blocks| == old(|engine.scheduler.blockManager.blocks|)
      ensures engine.scheduler.preemptions == old(engine.scheduler.preemptions)
    {
      hide Ok, EngineFewer, LeftBy, NotLive, LLMEngine.OutputTrue;
      if !HasRoom(r) {
        DropActive(r, output);
        return;
      }
      ghost var queue := r.queue;
      PutActive(r, output);
      if output.finished {
        FinishActive(r);
        AppendAssoc(queue, [Item.Token(output)], EndOfStream);
      }
    }

    /** An output for an active request that has room for it. */
    method PutActive(r: AsyncRequest, output: Output)
      requires Ok() && r in active && HasRoom(r) && engine.OutputTrue(r.ask, output)
      modifies this`active, this`pendingById, this`cancelled, r
      modifies engine.scheduler, engine.scheduler.blockManager, engine.scheduler.live
      ensures Ok() && r.queue == old(r.queue) + [Item.Token(output)]
      ensures active == old(active) && cancelled == old(cancelled)
      ensures engine.scheduler.live == old(engine.scheduler.live)
      ensures EngineFewer(old(engine.scheduler.live), engine.scheduler.live)
      ensures |engine.scheduler.blockManager.blocks| == old(|engine.scheduler.blockManager.blocks|)
      ensures engine.scheduler.preemptions == old(engine.scheduler.preemptions)
    {
      hide LLMEngine.Ok, DistinctIds, Booked, LiveIn, Popped, LeftBy, Sound, LLMEngine.OutputTrue;
      PendingSound(r);
      ActiveApart();
      ghost var queue := r.queue;
      var _ := PutOrDrop(r, Item.Token(output));
      StillSound(r, queue, output);
    }

    lemma StillSound(r: AsyncRequest, queue: seq<Item>, output: Output)
      requires !r.cancelled && engine.env.Knows(r.ask.namespace) && r.ask.prompt != []
      requires r.queue == queue + [Item.Token(output)] && engine.OutputTrue(r.ask, output)
      requires forall i | 0 <= i < |queue| && queue[i].Token? :: engine.OutputTrue(r.ask, queue[i].output)
      ensures Sound(r)
    {
      hide LLMEngine.OutputTrue;
    }

    /** The last output has been put: the request is finished, and its stream ends. */
    method FinishActive(r: AsyncRequest)
      requires Ok() && r in active && (fatalError.None? ==> NotLive(engine.scheduler.live, r.ask.requestId))
      modifies this`active, this`pendingById, this`cancelled, this`finished, r
      modifies engine.scheduler, engine.scheduler.blockManager, engine.scheduler.live
      ensures Ok() && GoneFrom(old(active), active, r) && finished == old(finished) + 1 && cancelled == old(cancelled)
      ensures r.finished && r.cancelled == old(r.cancelled)
      ensures r.queue == if old(HasRoom(r)) then old(r.queue) + [EndOfStream] else [EndOfStream]
      ensures EngineFewer(old(engine.scheduler.live), engine.scheduler.live)
      ensures |engine.scheduler.blockManager.blocks| == old(|engine.scheduler.blockManager.blocks|)
      ensures engine.scheduler.preemptions == old(engine.scheduler.preemptions)
    {
      hide Ok, OkBut, GoneFrom, Lookup, Remove, RoomIn;
      Deactivate(r);
      FinishLoose(r);
    }

    /** Counts a request that has left the books as finished and ends its stream. */
    method FinishLoose(r: AsyncRequest)
      requires OkBut(1) && r !in pending && r !in active
      modifies this`active, this`pendingById, this`cancelled, this`finished, r
      modifies engine.scheduler, engine.scheduler.blockManager, engine.scheduler.live
      ensures Ok() && pendingById == old(pendingById) && active == old(active)
      ensures finished == old(finished) + 1 && cancelled == old(cancelled)
      ensures r.finished && r.cancelled == old(r.cancelled)
      ensures r.queue == if old(HasRoom(r)) then old(r.queue) + [EndOfStream] else [EndOfStream]
      ensures engine.scheduler.live == old(engine.scheduler.live)
      ensures EngineFewer(old(engine.scheduler.live), engine.scheduler.live)
      ensures |engine.scheduler.blockManager.blocks| == old(|engine.scheduler.blockManager.blocks|)
      ensures engine.scheduler.preemptions == old(engine.scheduler.preemptions)
    {
      hide LLMEngine.Ok, DistinctIds, Booked, LiveIn, Sound, Popped, LeftBy, RoomIn;
      Close(r, false);
      finished := finished + 1;
      var _ := PutOrDrop(r, EndOfStream);
    }

    /** An active request whose queue is full is cancelled. */
    method DropActive(r: AsyncRequest, output: Output)
      requires Ok() && fatalError.None? && r in active && !HasRoom(r)
      modifies this`active, this`pendingById, this`cancelled, r
      modifies engine.scheduler, engine.scheduler.blockManager, engine.scheduler.live
      ensures Ok() && GoneFrom(old(active), active, r) && cancelled == old(cancelled) + 1 && r.queue == [EndOfStream]
      ensures r.finished && r.cancelled
      ensures EngineFewer(old(engine.scheduler.live), engine.scheduler.live)
      ensures |engine.scheduler.blockManager.blocks| == old(|engine.scheduler.blockManager.blocks|)
      ensures engine.scheduler.preemptions == old(engine.scheduler.preemptions)
    {
      hide LLMEngine.Ok, DistinctIds, Booked, LiveIn, Popped, LeftBy, EngineFewer, Sound, Remove;
      DropBooks(cfg, pending, pendingById, active, arrivals, r);
      ghost var live, actives := engine.scheduler.live, active;
      var _ := PutOrDrop(r, Item.Token(output));
      DropLive(cfg, pending, pendingById, actives, arrivals, live, engine.scheduler.live, r);
    }

    /* ---------- The loop ---------- */

    /** The engine has failed: every request fails with it, and none is taken any more. */
    method Fatal(error: StepResult)
      requires Ok()
      modifies this`pending, this`pendingById, this`active, this`cancelled, this`failed, this`timedOut,
               this`overcounted, this`fatalError, pending, active
      modifies engine.scheduler, engine.scheduler.blockManager, engine.scheduler.live
      ensures Ok() && fatalError == Some(error) && pending == [] && pendingById == [] && active == []
      ensures failed == old(failed) + |old(active)| + |old(pending)| && submitted == old(submitted)
      ensures overcounted == old(overcounted) + Full(old(QueuesOf(active)))
      ensures cancelled == old(cancelled) + Full(old(QueuesOf(active)))
      ensures engine.scheduler.preemptions == old(engine.scheduler.preemptions)
    {
      hide LLMEngine.Ok, DistinctIds, Booked, LiveIn, Sound, RoomIn, Full, QueuesOf, NoDup, DistinctRequests;
      ghost var actives, waiting, qs := active, pending, QueuesOf(active);
      PendingDistinct();
      FailBoth(error);
      pending := [];
      pendingById := [];
      BookEmptied(cfg, arrivals);
    }

    method FailBoth(error: StepResult)
      requires Ok() && NoDup(active) && NoDup(pending)
      modifies this`pendingById, this`active, this`cancelled, this`failed, this`timedOut,
               this`overcounted, this`fatalError, pending, active
      modifies engine.scheduler, engine.scheduler.blockManager, engine.scheduler.live
      ensures engine.Ok() && DistinctIds(engine.scheduler.live) && fatalError == Some(error) && active == []
      ensures failed == old(failed) + |old(active)| + |old(pending)| && timedOut == old(timedOut)
      ensures overcounted == old(overcounted) + Full(old(QueuesOf(active)))
      ensures cancelled == old(cancelled) + Full(old(QueuesOf(active)))
      ensures engine.scheduler.preemptions == old(engine.scheduler.preemptions)
    {
      hide Ok, Full, NoDup, DistinctRequests, EngineFewer, QueuesOf, RoomIn;
      EngineThere();
      PendingEmpty();
      ghost var live := engine.scheduler.live;
      fatalError := Some(error);
      FailAll(active);
      FewerIsIn(live, engine.scheduler.live);
      active := [];
      NoneFull(QueuesOf(pending));
      FailAll(pending);
    }

    lemma EngineThere()
      requires Ok()
      ensures engine.Ok() && DistinctIds(engine.scheduler.live)
    {
    }

    lemma PendingEmpty()
      requires Ok()
      ensures forall i | 0 <= i < |pending| :: pending[i] !in active && pending[i].queue == []
    {
      ActiveApart();
    }

    lemma NoneFull(qs: seq<seq<Item>>)
      requires forall i | 0 <= i < |qs| :: qs[i] == []
      ensures Full(qs) == 0
    {
    }

    /** Fails all of rs.  Those with a full queue, and only those, are counted as cancelled besides. */
    method FailAll(rs: seq<AsyncRequest>)
      requires engine.Ok() && DistinctIds(engine.scheduler.live) && NoDup(rs)
      modifies this`active, this`pendingById, this`cancelled, this`failed, this`timedOut, this`overcounted, rs
      modifies engine.scheduler, engine.scheduler.blockManager, engine.scheduler.live
      ensures engine.Ok() && DistinctIds(engine.scheduler.live)
      ensures failed == old(failed) + |rs| && timedOut == old(timedOut)
      ensures old(active) == [] ==> active == []
      ensures overcounted == old(overcounted) + Full(old(QueuesOf(rs)))
      ensures cancelled == old(cancelled) + Full(old(QueuesOf(rs)))
      ensures EngineFewer(old(engine.scheduler.live), engine.scheduler.live)
      ensures |engine.scheduler.blockManager.blocks| == old(|engine.scheduler.blockManager.blocks|)
      ensures engine.scheduler.preemptions == old(engine.scheduler.preemptions)
    {
      hide LLMEngine.Ok, DistinctIds, LeftBy, QueuesOf, Full, RoomIn;
      ghost var qs := QueuesOf(rs);
      var i := 0;
      while i < |rs|
        invariant i <= |rs| && engine.Ok() && DistinctIds(engine.scheduler.live)
        invariant failed == old(failed) + i && timedOut == old(timedOut)
        invariant old(active) == [] ==> active == []
        invariant forall j | i <= j < |rs| :: rs[j].queue == qs[j]
        invariant overcounted == old(overcounted) + Full(qs[..i]) && cancelled == old(cancelled) + Full(qs[..i])
        invariant EngineFewer(old(engine.scheduler.live), engine.scheduler.live)
        invariant |engine.scheduler.blockManager.blocks| == old(|engine.scheduler.blockManager.blocks|)
        invariant engine.scheduler.preemptions == old(engine.scheduler.preemptions)
      {
        FullNext(qs, i);
        Conclude(rs[i], EngineError);
        i := i + 1;
      }
      assert qs[..i] == qs;
    }

    /** The active budgets leave room for every active request's worst case. */
    ghost predicate Budgeted()
      reads engine.scheduler.blockManager
    {
      && cfg.maxActiveTokens.Some? && cfg.maxActiveRequests.Some?
      && cfg.maxActiveTokens.value >= 0 && cfg.maxActiveRequests.value >= 0 && engine.env.BlockSize() > 0
      && cfg.maxActiveTokens.value + cfg.maxActiveRequests.value * (engine.env.BlockSize() - 1)
           <= |engine.scheduler.blockManager.blocks| * engine.env.BlockSize()
      && engine.scheduler.cfg.Sane()
    }

    /** Then all worst cases fit the pool. */
    lemma BudgetFits()
      requires Ok() && fatalError.None? && Budgeted()
      ensures engine.AllFit()
    {
      hide LLMEngine.Ok;
      var live, bs := engine.scheduler.live, engine.env.BlockSize();
      LiveWorst(live, active, bs);
      MulMonotone(|active|, cfg.maxActiveRequests.value, bs - 1);
      WorstFits(SumWorst(Views(live), bs), |engine.scheduler.blockManager.blocks|, bs);
    }

    ghost method CountStep()
      requires Ok()
      modifies this`steps
      ensures Ok() && steps == old(steps) + 1
    {
      hide LLMEngine.Ok, DistinctIds, Booked, LiveIn, Sound;
      steps := steps + 1;
    }

    /** One step of the engine.  What it finishes has left it. */
    method EngineStep(now: real) returns (step: StepResult)
      requires Ok() && fatalError.None?
      modifies this`steps, engine.scheduler, engine.scheduler.blockManager, engine.scheduler.live, engine.runner.kvCache
      ensures Ok() && EngineFewer(old(engine.scheduler.live), engine.scheduler.live)
      ensures steps == old(steps) + 1
      ensures step.Outputs? ==> forall i | 0 <= i < |step.outputs| && step.outputs[i].finished ::
                NotLive(engine.scheduler.live, step.outputs[i].requestId)
      ensures step.Outputs? ==> forall i | 0 <= i < |step.outputs| :: TrueFor(active, step.outputs[i])
      ensures step.Outputs? ==> OneOutputEach(step.outputs)
      ensures old(Budgeted()) && old(engine.scheduler.live) != [] ==>
                && engine.scheduler.preemptions == old(engine.scheduler.preemptions)
                && !step.RuntimeError?
    {
      hide LLMEngine.Ok, DistinctIds, Booked, LiveIn, LLMEngine.AllFit, Sound, Followed, LLMEngine.EventOk, OutputOf,
        TrueFor, EngineFewer, NotLive, NoEventTwice, OneOutputEach;
      if Budgeted() { BudgetFits(); }
      ghost var was := engine.scheduler.live;
      ghost var events;
      CountStep();
      step, events := engine.Step(now);
      engine.LiveDistinct();
      StillDistinctIds(was, engine.scheduler.live);
      ActiveDistinct();
      FewerLiveIn(was, engine.scheduler.live, active);
      if step.Outputs? {
        forall i | 0 <= i < |step.outputs| && step.outputs[i].finished
          ensures NotLive(engine.scheduler.live, step.outputs[i].requestId)
        {
          FinishedLeft(was, events[i]);
        }
        forall i | 0 <= i < |step.outputs| ensures TrueFor(active, step.outputs[i]) {
          ToldTrue(was, events[i]);
        }
        ToldOnce(was, events, step.outputs);
      }
    }

    lemma FinishedLeft(was: seq<Sequence>, ev: Event)
      requires engine.EventOk(ev) && ev.seq_ in was && OutputOf(ev).finished
      requires DistinctIds(was) && EngineFewer(was, engine.scheduler.live)
      ensures NotLive(engine.scheduler.live, OutputOf(ev).requestId)
    {
      FinishedNotLive(was, engine.scheduler.live, ev.seq_);
    }

    /** What the engine tells of a sequence is true for the active request it belongs to. */
    lemma ToldTrue(was: seq<Sequence>, ev: Event)
      requires LiveIn(was, active) && DistinctRequests(active) && ev.seq_ in was && engine.EventOk(ev)
      ensures TrueFor(active, OutputOf(ev))
    {
      hide LLMEngine.EventOk, LLMEngine.OutputTrue;
      var j := IndexIn(was, ev.seq_);
      var r := Lookup(active, ev.seq_.req.requestId).value;
      engine.OutputIsTrue(r.ask, ev);
      forall i | 0 <= i < |active| && active[i].ask.requestId == OutputOf(ev).requestId
        ensures engine.OutputTrue(active[i].ask, OutputOf(ev))
      {
        assert active[i] == r;
      }
    }

    lemma ActiveDistinct()
      requires Booked(cfg, pending, pendingById, active, arrivals)
      ensures DistinctRequests(active)
    {
    }

    lemma FewerTrue(was: seq<AsyncRequest>, rs: seq<AsyncRequest>, output: Output)
      requires TrueFor(was, output) && forall i | 0 <= i < |rs| :: rs[i] in was
      ensures TrueFor(rs, output)
    {
      hide LLMEngine.OutputTrue;
      forall i | 0 <= i < |rs| && rs[i].ask.requestId == output.requestId ensures engine.OutputTrue(rs[i].ask, output) {
        var j := IndexIn(was, rs[i]);
      }
    }

    /** After the first i outputs, the requests they are for have been handed theirs; the others are
        active as before, with the queues they had. */
    ghost predicate Delivered(actives: seq<AsyncRequest>, qs: seq<seq<Item>>, us: seq<seq<Item>>,
                              rest: seq<AsyncRequest>, outputs: seq<Output>, i: nat) {
      && |qs| == |us| == |actives|
      && (forall j, k | 0 <= j < |actives| && 0 <= k < i && k < |outputs|
                        && outputs[k].requestId == actives[j].ask.requestId ::
            Handed(qs[j], us[j], actives[j] in rest, outputs[k]))
      && (forall j | 0 <= j < |actives| && NotFor(outputs, i, actives[j].ask.requestId) ::
            actives[j] in rest && us[j] == qs[j])
    }

    ghost predicate NotFor(outputs: seq<Output>, i: nat, requestId: string) {
      forall k | 0 <= k < i && k < |outputs| :: outputs[k].requestId != requestId
    }

    lemma NothingDelivered(actives: seq<AsyncRequest>, qs: seq<seq<Item>>, outputs: seq<Output>)
      requires |qs| == |actives|
      ensures Delivered(actives, qs, qs, actives, outputs, 0)
    {
    }

    /** Before its turn a request is as it was. */
    lemma NotYetHanded(actives: seq<AsyncRequest>, qs: seq<seq<Item>>, us: seq<seq<Item>>, rest: seq<AsyncRequest>,
                       outputs: seq<Output>, i: nat)
      requires Delivered(actives, qs, us, rest, outputs, i) && i < |outputs| && OneOutputEach(outputs)
      ensures |us| == |qs| == |actives|
      ensures forall j | 0 <= j < |actives| && actives[j].ask.requestId == outputs[i].requestId ::
                actives[j] in rest && us[j] == qs[j]
    {
      hide Handed;
      forall j | 0 <= j < |actives| && actives[j].ask.requestId == outputs[i].requestId
        ensures NotFor(outputs, i, actives[j].ask.requestId)
      {
      }
    }

    lemma DeliveredNext(actives: seq<AsyncRequest>, qs: seq<seq<Item>>, us: seq<seq<Item>>, rest: seq<AsyncRequest>,
                        ws: seq<seq<Item>>, left: seq<AsyncRequest>, outputs: seq<Output>, i: nat)
      requires Delivered(actives, qs, us, rest, outputs, i) && i < |outputs| && OneOutputEach(outputs)
      requires |ws| == |us|
      requires forall j | 0 <= j < |actives| && actives[j].ask.requestId == outputs[i].requestId && us[j] == qs[j] ::
                 Handed(qs[j], ws[j], actives[j] in left, outputs[i])
      requires forall j | 0 <= j < |actives| && actives[j].ask.requestId != outputs[i].requestId ::
                 ws[j] == us[j] && (actives[j] in left <==> actives[j] in rest)
      ensures Delivered(actives, qs, ws, left, outputs, i + 1)
    {
      hide Handed;
      NotYetHanded(actives, qs, us, rest, outputs, i);
      forall j | 0 <= j < |actives| && NotFor(outputs, i + 1, actives[j].ask.requestId)
        ensures actives[j] in left && ws[j] == qs[j]
      {
        assert NotFor(outputs, i, actives[j].ask.requestId);
        assert outputs[i].requestId != actives[j].ask.requestId;
      }
    }

    /** Hands out the outputs of a step, in order: each to the request of its id, if that is active. */
    method DeliverAll(outputs: seq<Output>)
      requires Ok() && fatalError.None? && OneOutputEach(outputs)
      requires forall i | 0 <= i < |outputs| :: TrueFor(active, outputs[i])
      requires forall i | 0 <= i < |outputs| && outputs[i].finished :: NotLive(engine.scheduler.live, outputs[i].requestId)
      modifies this`active, this`pendingById, this`cancelled, this`finished, active
      modifies engine.scheduler, engine.scheduler.blockManager, engine.scheduler.live
      ensures Ok() && pending == old(pending) && overcounted == old(overcounted)
      ensures Delivered(old(active), old(QueuesOf(active)), QueuesOf(old(active)), active, outputs, |outputs|)
      ensures (forall q | q in old(QueuesOf(active)) :: RoomIn(q)) ==> cancelled == old(cancelled)
      ensures old(Roomy()) ==> cancelled == old(cancelled) && forall q | q in QueuesOf(active) :: RoomIn(q)
      ensures forall i | 0 <= i < |active| :: active[i] in old(active)
      ensures EngineFewer(old(engine.scheduler.live), engine.scheduler.live)
      ensures engine.scheduler.preemptions == old(engine.scheduler.preemptions)
    {
      hide Ok, NotLive, TrueFor, Lookup, Delivered, QueuesOf, Handed, OneOutputEach, RoomIn, EngineFewer, Roomy;
      ghost var live, actives, qs := engine.scheduler.live, active, QueuesOf(active);
      NothingDelivered(actives, qs, outputs);
      SameLive(live);
      var i := 0;
      while i < |outputs|
        invariant i <= |outputs| && Ok() && pending == old(pending) && overcounted == old(overcounted)
        invariant forall j | 0 <= j < |active| :: active[j] in actives
        invariant Delivered(actives, qs, QueuesOf(actives), active, outputs, i)
        invariant (forall q | q in qs :: RoomIn(q)) ==> cancelled == old(cancelled)
        invariant EngineFewer(live, engine.scheduler.live)
        invariant engine.scheduler.preemptions == old(engine.scheduler.preemptions)
      {
        ghost var before := engine.scheduler.live;
        if outputs[i].finished { StillNotLive(live, before, outputs[i].requestId); }
        FewerTrue(actives, active, outputs[i]);
        FewerIsIn(live, before);
        DeliverNext(actives, qs, outputs, i);
        FewerAgain(live, before, engine.scheduler.live);
        i := i + 1;
      }
      if old(Roomy()) { StillRoom(outputs); }
    }

    /** One output at most for each leaves room. */
    twostate lemma StillRoom(outputs: seq<Output>)
      requires old(Roomy()) && forall i | 0 <= i < |active| :: active[i] in old(active)
      requires Delivered(old(active), old(QueuesOf(active)), QueuesOf(old(active)), active, outputs, |outputs|)
      ensures forall q | q in old(QueuesOf(active)) :: RoomIn(q)
      ensures forall q | q in QueuesOf(active) :: RoomIn(q)
    {
      WereRoomy();
      forall r | r in active ensures HasRoom(r) {
        var j := IndexIn(old(active), r);
        if !NotFor(outputs, |outputs|, r.ask.requestId) {
          var k :| 0 <= k < |outputs| && outputs[k].requestId == r.ask.requestId;
          assert Handed(old(QueuesOf(active))[j], QueuesOf(old(active))[j], r in active, outputs[k]);
        }
      }
    }

    /** Hands out the i-th output. */
    method DeliverNext(ghost actives: seq<AsyncRequest>, ghost qs: seq<seq<Item>>, outputs: seq<Output>, i: nat)
      requires Ok() && fatalError.None? && OneOutputEach(outputs) && i < |outputs|
      requires TrueFor(active, outputs[i])
      requires outputs[i].finished ==> NotLive(engine.scheduler.live, outputs[i].requestId)
      requires forall j | 0 <= j < |active| :: active[j] in actives
      requires Delivered(actives, qs, QueuesOf(actives), active, outputs, i)
      modifies this`active, this`pendingById, this`cancelled, this`finished, active
      modifies engine.scheduler, engine.scheduler.blockManager, engine.scheduler.live
      ensures Ok() && pending == old(pending) && overcounted == old(overcounted)
      ensures forall j | 0 <= j < |active| :: active[j] in old(active)
      ensures Delivered(actives, qs, QueuesOf(actives), active, outputs, i + 1)
      ensures (forall q | q in qs :: RoomIn(q)) ==> cancelled == old(cancelled)
      ensures EngineFewer(old(engine.scheduler.live), engine.scheduler.live)
      ensures engine.scheduler.preemptions == old(engine.scheduler.preemptions)
    {
      hide Ok, NotLive, TrueFor, Lookup, Delivered, QueuesOf, Handed, OneOutputEach, RoomIn, EngineFewer;
      ghost var us, rest := QueuesOf(actives), active;
      NotYetHanded(actives, qs, us, rest, outputs, i);
      Deliver(outputs[i]);
      DeliveredNext(actives, qs, us, rest, QueuesOf(actives), active, outputs, i);
    }

    /** Nobody pending has waited too long, or could have been admitted beside were; those of were that have
        not taken too long are active. */
    ghost predicate Refreshed(clock: nat -> real, n: nat, were: seq<AsyncRequest>)
      reads this`pending, this`active
    {
      && n > 2
      && (forall i | 0 <= i < |pending| :: !WaitedTooLong(pending[i], clock(n - 1)))
      && (forall i | 0 <= i < |pending| :: !WithinCaps(cfg, were + [pending[i]]))
      && (forall i | 0 <= i < |active| :: active[i] in were && !TookTooLong(active[i], clock(n)))
      && (forall i | 0 <= i < |were| && !TookTooLong(were[i], clock(n)) :: were[i] in active)
    }

    /** Pending and active requests whose time is over leave. */
    method ExpireBoth(clock: nat -> real)
      requires Ok() && fatalError.None?
      modifies this`pending, this`pendingById, this`active, this`cancelled, this`failed, this`timedOut,
               this`overcounted, pending, active
      modifies engine.scheduler, engine.scheduler.blockManager, engine.scheduler.live
      ensures Ok() && (old(Roomy()) ==> Roomy() && overcounted == old(overcounted) && cancelled == old(cancelled))
      ensures forall i | 0 <= i < |pending| :: pending[i] in old(pending) && !WaitedTooLong(pending[i], clock(0))
      ensures forall i | 0 <= i < |old(pending)| && !WaitedTooLong(old(pending)[i], clock(0)) :: old(pending)[i] in pending
      ensures forall i | 0 <= i < |active| :: active[i] in old(active) && !TookTooLong(active[i], clock(1))
      ensures forall i | 0 <= i < |old(active)| && !TookTooLong(old(active)[i], clock(1)) :: old(active)[i] in active
      ensures EngineFewer(old(engine.scheduler.live), engine.scheduler.live)
      ensures |engine.scheduler.blockManager.blocks| == old(|engine.scheduler.blockManager.blocks|)
      ensures engine.scheduler.preemptions == old(engine.scheduler.preemptions)
    {
      hide Ok, Roomy, QueuesOf, FullExpired, RoomIn, TookTooLong, WaitedTooLong, EngineFewer;
      ghost var live := engine.scheduler.live;
      ExpirePending(clock(0));
      ghost var mid := engine.scheduler.live;
      FewerIsIn(live, mid);
      ExpireActive(clock(1));
      FewerAgain(live, mid, engine.scheduler.live);
    }

    /** The first half of a round: what has expired leaves, and what may be admitted is.  were are then the
        active requests, of which those that have expired meanwhile leave, too. */
    method Refresh(clock: nat -> real) returns (n: nat, ghost were: seq<AsyncRequest>)
      requires Ok() && fatalError.None?
      modifies this, pending, active
      modifies engine.scheduler, engine.scheduler.blockManager, engine.scheduler.live
      ensures Ok() && fatalError.None? && submitted == old(submitted) && steps == old(steps)
      ensures cfg.outputQueueSize != 1 && old(Roomy()) ==>
                Roomy() && overcounted == old(overcounted) && cancelled == old(cancelled)
      ensures Refreshed(clock, n, were) && forall i | 0 <= i < |pending| :: pending[i] in old(pending)
      ensures forall i | 0 <= i < |were| :: (were[i] in old(active) && !TookTooLong(were[i], clock(1)))
                                            || (were[i] in old(pending) && !WaitedTooLong(were[i], clock(0)))
      ensures forall i | 0 <= i < |pending| :: !WaitedTooLong(pending[i], clock(0))
      ensures forall i | 0 <= i < |old(active)| && !TookTooLong(old(active)[i], clock(1)) :: old(active)[i] in were
      ensures forall i | 0 <= i < |active| :: active[i] in old(active) || active[i] in old(pending)
      ensures forall i | 0 <= i < |engine.scheduler.live| ::
                engine.scheduler.live[i] in old(engine.scheduler.live) || fresh(engine.scheduler.live[i])
      ensures |engine.scheduler.blockManager.blocks| == old(|engine.scheduler.blockManager.blocks|)
      ensures engine.scheduler.preemptions == old(engine.scheduler.preemptions)
    {
      hide Ok, Roomy, QueuesOf, FullExpired, RoomIn, TookTooLong, WaitedTooLong, CanAdmit, WithinCaps;
      ExpireBoth(clock);
      n := DrainPending(clock, 2);
      were := active;
      ExpireActive(clock(n));
    }

    /** The second half: a step whose outputs are delivered, or whose error fails every request. */
    method StepAndDeliver(clock: nat -> real, n: nat)
      returns (step: StepResult, ghost rest: seq<AsyncRequest>, ghost us: seq<seq<Item>>)
      requires Ok() && fatalError.None?
      modifies this, pending, active
      modifies engine.scheduler, engine.scheduler.blockManager, engine.scheduler.live, engine.runner.kvCache
      ensures Ok() && submitted == old(submitted) && steps == old(steps) + 1
      ensures fatalError == if step.Outputs? then None else Some(step)
      ensures step.Outputs? ==>
                && pending == old(pending) && (forall i | 0 <= i < |active| :: active[i] in old(active))
                && Delivered(old(active), old(QueuesOf(active)), us, rest, step.outputs, |step.outputs|)
                && (forall i | 0 <= i < |active| :: active[i] in rest && !TookTooLong(active[i], clock(n + 2)))
                && (forall i | 0 <= i < |old(active)| && old(active)[i] in rest
                               && !TookTooLong(old(active)[i], clock(n + 2)) ::
                      i < |us| && old(active)[i] in active && old(active)[i].queue == us[i])
      ensures fatalError.Some? ==> pending == [] && active == []
      ensures old(Roomy()) ==> overcounted == old(overcounted) && cancelled == old(cancelled)
      ensures old(Budgeted()) && old(engine.scheduler.live) != [] ==>
                && engine.scheduler.preemptions == old(engine.scheduler.preemptions)
                && (fatalError.None? || fatalError == Some(AssertionFailed))
    {
      hide Ok, NotLive, TrueFor, QueuesOf, Delivered, OneOutputEach, Full, FullExpired, RoomIn, TookTooLong, Roomy,
           Budgeted;
      step := EngineStep(clock(n + 1));
      rest, us := [], [];
      if step.Outputs? {
        DeliverAll(step.outputs);
        rest, us := active, QueuesOf(old(active));
        QueuesIn(old(active), us);
        ExpireActive(clock(n + 2));
      } else {
        if Roomy() { RoomyHasRoom(); }
        Fatal(step);
      }
    }

    lemma QueuesIn(rs: seq<AsyncRequest>, us: seq<seq<Item>>)
      requires us == QueuesOf(rs)
      ensures |us| == |rs| && forall i | 0 <= i < |rs| :: us[i] == rs[i].queue
    {
    }

    /** One round of the loop: expire, admit, step, deliver.  An engine error fails every request.
        Under the budgets no step preempts, and only the repeated-lookup assertion is such an error.
        While every queue has room for two messages, nothing is counted twice and nobody is dropped.
        clock(n) is the n-th reading of the clock. */
    method RunOnce(clock: nat -> real) returns (n: nat, ghost were: seq<AsyncRequest>)
      requires Ok() && fatalError.None?
      modifies this, pending, active
      modifies engine.scheduler, engine.scheduler.blockManager, engine.scheduler.live, engine.runner.kvCache
      ensures Ok() && submitted == old(submitted)
      ensures fatalError.Some? ==> pending == [] && active == []
      ensures steps == old(steps) + 1
              || (steps == old(steps) && engine.scheduler.live == [] && Refreshed(clock, n, were))
      ensures fatalError.None? ==>
                && n > 2 && (forall i | 0 <= i < |pending| :: !WaitedTooLong(pending[i], clock(n - 1)))
                && (forall i | 0 <= i < |pending| :: !WithinCaps(cfg, were + [pending[i]]))
                && (forall i | 0 <= i < |active| :: active[i] in were && !TookTooLong(active[i], clock(n)))
      ensures cfg.outputQueueSize <= 0 || (cfg.outputQueueSize > 1 && old(Roomy())) ==>
                && overcounted == old(overcounted) && cancelled == old(cancelled)
                && (overcounted == 0 ==>
                      submitted == |pending| + |active| + finished + failed + timedOut + cancelled)
      ensures old(Budgeted()) ==>
                && engine.scheduler.preemptions == old(engine.scheduler.preemptions)
                && (fatalError.None? || fatalError == Some(AssertionFailed))
    {
      hide Ok, Roomy, Delivered, WaitedTooLong, TookTooLong, WithinCaps;
      UnboundedIsRoomy();
      n, were := Refresh(clock);
      EngineReady();
      if !engine.scheduler.IsFinished() {
        var step;
        ghost var rest, us;
        step, rest, us := StepAndDeliver(clock, n);
      }
      Counts();
    }

    lemma UnboundedIsRoomy()
      ensures cfg.outputQueueSize <= 0 ==> Roomy()
    {
    }

    lemma Counts()
      requires Ok()
      ensures submitted + overcounted == |pending| + |active| + finished + failed + timedOut + cancelled
    {
    }

    lemma EngineReady()
      requires Ok()
      ensures engine.scheduler.IsFinished() <==> engine.scheduler.live == []
    {
      engine.FinishedMeansNone();
    }
  }

  /** No two outputs are for the same request. */
  ghost predicate OneOutputEach(outputs: seq<Output>) {
    forall i, j | 0 <= i < j < |outputs| :: outputs[i].requestId != outputs[j].requestId
  }

  lemma ToldOnce(was: seq<Sequence>, events: seq<Event>, outputs: seq<Output>)
    requires DistinctIds(was) && NoEventTwice(events) && |outputs| == |events|
    requires forall i | 0 <= i < |events| :: events[i].seq_ in was && outputs[i] == OutputOf(events[i])
    ensures OneOutputEach(outputs)
  {
    forall i, j | 0 <= i < j < |outputs| ensures outputs[i].requestId != outputs[j].requestId {
      var x := IndexIn(was, events[i].seq_);
      var y := IndexIn(was, events[j].seq_);
    }
  }

  ghost function QueuesOf(rs: seq<AsyncRequest>): (qs: seq<seq<Item>>)
    reads rs
    ensures |qs| == |rs| && forall i | 0 <= i < |rs| :: qs[i] == rs[i].queue
  {
    seq(|rs|, i requires 0 <= i < |rs| reads rs => rs[i].queue)
  }

  ghost predicate EngineFewer(was: seq<Sequence>, live: seq<Sequence>) {
    forall i | 0 <= i < |live| :: live[i] in was
  }

  /** live without the sequence of this request, if there was one. */
  ghost predicate LeftBy(was: seq<Sequence>, live: seq<Sequence>, requestId: string) {
    && (forall i | 0 <= i < |live| :: live[i] in was && live[i].req.requestId != requestId)
    && (live == was || exists k :: 0 <= k < |was| && was[k].req.requestId == requestId && live == was[..k] + was[k + 1..])
  }

  lemma Left(was: seq<Sequence>, live: seq<Sequence>, requestId: string, found: bool, k: nat)
    requires DistinctIds(was)
    requires found <==> exists j :: 0 <= j < |was| && was[j].req.requestId == requestId
    requires !found ==> live == was
    requires found ==> k < |was| && was[k].req.requestId == requestId && live == was[..k] + was[k + 1..]
    ensures LeftBy(was, live, requestId) && DistinctIds(live) && EngineFewer(was, live)
  {
  }

  /** Nobody but r has left. */
  ghost predicate GoneFrom(was: seq<AsyncRequest>, rest: seq<AsyncRequest>, r: AsyncRequest) {
    && r !in rest && (forall i | 0 <= i < |rest| :: rest[i] in was)
    && forall i | 0 <= i < |was| && was[i] != r :: was[i] in rest
  }

  lemma FewerAgain(was: seq<Sequence>, mid: seq<Sequence>, live: seq<Sequence>)
    requires EngineFewer(was, mid) && EngineFewer(mid, live)
    ensures EngineFewer(was, live)
  {
  }

  lemma SameLive(live: seq<Sequence>)
    ensures EngineFewer(live, live)
  {
  }

  /** Ids that have left are no longer looked for. */
  lemma FewerLiveIn(was: seq<Sequence>, live: seq<Sequence>, active: seq<AsyncRequest>)
    requires EngineFewer(was, live) && LiveIn(was, active)
    ensures LiveIn(live, active)
  {
    forall i | 0 <= i < |live|
      ensures var r := Lookup(active, live[i].req.requestId);
              r.Some? && r.value.ask.maxTokens >= 0 && live[i].req == RequestOf(r.value.ask)
    {
      var j := IndexIn(was, live[i]);
    }
  }

  lemma UnpendedIds(cfg: AsyncConfig, pending: seq<AsyncRequest>, byId: seq<AsyncRequest>, active: seq<AsyncRequest>,
                    arrivals: nat, r: AsyncRequest)
    requires Booked(cfg, pending, byId, active, arrivals) && r in pending
    ensures Lookup(Remove(byId, r), r.ask.requestId).None? && Lookup(active, r.ask.requestId).None?
    ensures |Remove(byId, r)| == |byId| - 1
    ensures forall i | 0 <= i < |pending| && pending[i] != r :: pending[i] in Remove(pending, r)
  {
    RemoveKeeps(pending, r);
    var k := IndexIn(pending, r);
    DistinctNoDup(byId);
    RemoveKeeps(byId, r);
    var l := IndexIn(byId, r);
    var rest := Remove(byId, r);
    forall i | 0 <= i < |rest| ensures rest[i].ask.requestId != r.ask.requestId {
      var j := IndexIn(byId, rest[i]);
    }
  }

  ghost predicate NotLive(live: seq<Sequence>, requestId: string) {
    forall i | 0 <= i < |live| :: live[i].req.requestId != requestId
  }

  lemma DeactivatedIds(cfg: AsyncConfig, pending: seq<AsyncRequest>, byId: seq<AsyncRequest>, active: seq<AsyncRequest>,
                       arrivals: nat, r: AsyncRequest)
    requires Booked(cfg, pending, byId, active, arrivals) && r in active
    ensures Lookup(byId, r.ask.requestId).None? && Lookup(Remove(active, r), r.ask.requestId).None?
  {
    var k := IndexIn(active, r);
    BookDeactivated(cfg, pending, byId, active, arrivals, r);
    if Lookup(byId, r.ask.requestId).Some? { var j := IndexIn(byId, Lookup(byId, r.ask.requestId).value); }
  }

  lemma LiveWithout(cfg: AsyncConfig, pending: seq<AsyncRequest>, byId: seq<AsyncRequest>, active: seq<AsyncRequest>,
                    arrivals: nat, live: seq<Sequence>, r: AsyncRequest)
    requires Booked(cfg, pending, byId, active, arrivals) && r in active
    requires LiveIn(live, active) && NotLive(live, r.ask.requestId)
    ensures LiveIn(live, Remove(active, r))
  {
    forall i | 0 <= i < |live|
      ensures var x := Lookup(Remove(active, r), live[i].req.requestId);
              x.Some? && x.value.ask.maxTokens >= 0 && live[i].req == RequestOf(x.value.ask)
    {
      StillFound(active, r, live[i].req.requestId);
    }
  }

  lemma AcceptedBooks(cfg: AsyncConfig, pending: seq<AsyncRequest>, byId: seq<AsyncRequest>, active: seq<AsyncRequest>,
                      arrivals: nat, r: AsyncRequest)
    requires Booked(cfg, pending, byId, active, arrivals) && r.arrival == arrivals
    requires Lookup(byId, r.ask.requestId).None? && Lookup(active, r.ask.requestId).None?
    requires MayWait(cfg, byId, r.namespace, r.promptTokens)
    ensures Ordered(pending) && Booked(cfg, Inserted(pending, r), byId + [r], active, arrivals + 1)
    ensures forall i | 0 <= i < |Inserted(pending, r)| :: Inserted(pending, r)[i] in pending || Inserted(pending, r)[i] == r
    ensures |Inserted(pending, r)| == |pending| + 1
  {
    BookSubmitted(cfg, pending, byId, active, arrivals, r);
    InsertedOrdered(pending, r);
  }

  lemma FewerIsIn(was: seq<Sequence>, live: seq<Sequence>)
    requires EngineFewer(was, live)
    ensures forall i | 0 <= i < |live| :: live[i] in was
  {
  }

  lemma ActivatedBooks(cfg: AsyncConfig, pending: seq<AsyncRequest>, byId: seq<AsyncRequest>,
                       active: seq<AsyncRequest>, arrivals: nat, r: AsyncRequest)
    requires Booked(cfg, pending, byId, active, arrivals) && CanAdmit(cfg, active, r, false)
    requires Lookup(byId, r.ask.requestId).None? && Lookup(active, r.ask.requestId).None?
    ensures Booked(cfg, pending, byId, active + [r], arrivals) && DistinctRequests(active + [r])
  {
    BookActivated(cfg, pending, byId, active, arrivals, r);
  }

  /** The new sequence belongs to the new active request. */
  lemma ActivatedLive(live: seq<Sequence>, active: seq<AsyncRequest>, r: AsyncRequest, s: Sequence)
    requires LiveIn(live, active) && DistinctIds(live) && DistinctRequests(active + [r])
    requires Lookup(active, r.ask.requestId).None? && r.ask.maxTokens >= 0 && s.req == RequestOf(r.ask)
    ensures LiveIn(live + [s], active + [r]) && DistinctIds(live + [s])
  {
    RequestId(r.ask);
    var all := live + [s];
    forall i | 0 <= i < |all|
      ensures var x := Lookup(active + [r], all[i].req.requestId);
              x.Some? && x.value.ask.maxTokens >= 0 && all[i].req == RequestOf(x.value.ask)
      ensures i < |live| ==> all[i].req.requestId != s.req.requestId
    {
      FoundAppended(active, r, all[i].req.requestId);
    }
  }

  lemma RequestId(a: Ask)
    requires a.maxTokens >= 0
    ensures RequestOf(a).requestId == a.requestId
  {
  }

  lemma PendingToo(cfg: AsyncConfig, pending: seq<AsyncRequest>, byId: seq<AsyncRequest>,
                   active: seq<AsyncRequest>, arrivals: nat, r: AsyncRequest)
    requires Booked(cfg, pending, byId, active, arrivals) && r in byId
    ensures r in pending
  {
    var k := IndexIn(byId, r);
  }

  /** Dropping an active request leaves the books in order. */
  lemma DropBooks(cfg: AsyncConfig, pending: seq<AsyncRequest>, byId: seq<AsyncRequest>,
                  active: seq<AsyncRequest>, arrivals: nat, r: AsyncRequest)
    requires Booked(cfg, pending, byId, active, arrivals) && r in active
    ensures Popped(active, r.ask.requestId) == Remove(active, r) && Popped(byId, r.ask.requestId) == byId
    ensures Booked(cfg, pending, byId, Remove(active, r), arrivals) && |Remove(active, r)| == |active| - 1
    ensures r !in pending && GoneFrom(active, Remove(active, r), r)
  {
    RemoveKeeps(active, r);
    PoppedIs(active, r);
    BookDeactivated(cfg, pending, byId, active, arrivals, r);
    DeactivatedIds(cfg, pending, byId, active, arrivals, r);
  }

  lemma DropLive(cfg: AsyncConfig, pending: seq<AsyncRequest>, byId: seq<AsyncRequest>, active: seq<AsyncRequest>,
                 arrivals: nat, was: seq<Sequence>, live: seq<Sequence>, r: AsyncRequest)
    requires Booked(cfg, pending, byId, active, arrivals) && r in active
    requires LiveIn(was, active) && LeftBy(was, live, r.ask.requestId)
    ensures LiveIn(live, Remove(active, r))
  {
    FewerLiveIn(was, live, active);
    LiveWithout(cfg, pending, byId, active, arrivals, live, r);
  }

  /* ---------- Budgets and blocks ---------- */

  /** The worst cases of the engine's sequences need no more than the active requests' estimates,
      each rounded up to a whole block. */
  lemma {:induction false} LiveWorst(live: seq<Sequence>, active: seq<AsyncRequest>, bs: nat)
    requires bs > 0 && LiveIn(live, active) && DistinctIds(live) && DistinctRequests(active)
    ensures SumWorst(Views(live), bs) * bs <= EstimatedTokens(active) + |active| * (bs - 1)
    decreases |live|
  {
    hide LiveIn, DistinctIds, DistinctRequests, SumWorst, NumBlocks, Views, Lookup, EstimatedTokens, Remove;
    if live == [] {
      NoWorst(live, bs);
      assert |active| * (bs - 1) >= 0;
    } else {
      var n := |live| - 1;
      var r := RequestOfLast(live, active);
      var others := Remove(active, r);
      RestIn(live, active, r);
      LiveWorst(live[..n], others, bs);
      ActiveWithout(active, r);
      NumBlocksCovers(r.estimatedTokens, bs);
      LastWorst(live, bs);
      OneMore(SumWorst(Views(live[..n]), bs), NumBlocks(r.estimatedTokens, bs), EstimatedTokens(others),
              r.estimatedTokens, |others|, bs);
    }
  }

  lemma OneMore(worst: nat, blocks: nat, tokens: nat, more: nat, others: nat, bs: nat)
    requires bs > 0 && worst * bs <= tokens + others * (bs - 1) && blocks * bs < more + bs
    ensures (worst + blocks) * bs <= tokens + more + (others + 1) * (bs - 1)
  {
    Distributes(worst, blocks, bs);
    Distributes(others, 1, bs - 1);
  }

  lemma NoWorst(live: seq<Sequence>, bs: nat)
    requires bs > 0 && live == []
    ensures SumWorst(Views(live), bs) * bs == 0
  {
    assert Views(live) == [];
  }

  lemma RequestOfLast(live: seq<Sequence>, active: seq<AsyncRequest>) returns (r: AsyncRequest)
    requires LiveIn(live, active) && live != []
    ensures Lookup(active, live[|live| - 1].req.requestId) == Some(r) && r in active
  {
    var n := |live| - 1;
    assert Lookup(active, live[n].req.requestId).Some?;
    r := Lookup(active, live[n].req.requestId).value;
  }

  lemma ActiveWithout(active: seq<AsyncRequest>, r: AsyncRequest)
    requires DistinctRequests(active) && r in active
    ensures EstimatedTokens(Remove(active, r)) + r.estimatedTokens == EstimatedTokens(active)
    ensures |Remove(active, r)| + 1 == |active|
  {
    var k := IndexIn(active, r);
    DistinctNoDup(active);
    RemoveAt(active, k);
    SumsAt(active, k, "");
  }

  lemma Distributes(a: int, b: int, c: int)
    ensures (a + b) * c == a * c + b * c
  {
  }

  lemma LastWorst(live: seq<Sequence>, bs: nat)
    requires bs > 0 && live != []
    ensures var n := |live| - 1;
            SumWorst(Views(live), bs)
              == SumWorst(Views(live[..n]), bs) + NumBlocks(|live[n].req.prompt| + live[n].req.gen.maxTokens, bs)
  {
    var n := |live| - 1;
    assert Views(live) == Views(live[..n]) + [live[n].View()];
    SumsAppend(Views(live[..n]), live[n].View(), bs);
  }

  /** Without its last sequence and that sequence's request, the rest belongs to the rest. */
  lemma RestIn(live: seq<Sequence>, active: seq<AsyncRequest>, r: AsyncRequest)
    requires live != [] && LiveIn(live, active) && DistinctIds(live) && DistinctRequests(active)
    requires Lookup(active, live[|live| - 1].req.requestId) == Some(r)
    ensures LiveIn(live[..|live| - 1], Remove(active, r)) && DistinctIds(live[..|live| - 1])
    ensures DistinctRequests(Remove(active, r))
    ensures r.ask.maxTokens >= 0 && live[|live| - 1].req == RequestOf(r.ask)
    ensures |live[|live| - 1].req.prompt| + live[|live| - 1].req.gen.maxTokens == r.estimatedTokens
  {
    var rest := live[..|live| - 1];
    RemovedDistinct(active, r);
    forall i | 0 <= i < |rest|
      ensures var x := Lookup(Remove(active, r), rest[i].req.requestId);
              x.Some? && x.value.ask.maxTokens >= 0 && rest[i].req == RequestOf(x.value.ask)
    {
      assert live[i] == rest[i];
      StillFound(active, r, rest[i].req.requestId);
    }
  }

  lemma WorstFits(worst: nat, numBlocks: nat, bs: nat)
    requires bs > 0 && worst * bs <= numBlocks * bs
    ensures worst <= numBlocks
  {
    assert (numBlocks + 1) * bs == numBlocks * bs + bs;
    if worst > numBlocks { MulMonotone(numBlocks + 1, worst, bs); }
  }

  /** A list of different sequences out of one with different ids has different ids. */
  lemma StillDistinctIds(was: seq<Sequence>, live: seq<Sequence>)
    requires DistinctIds(was) && NoDup(live) && forall i | 0 <= i < |live| :: live[i] in was
    ensures DistinctIds(live) && EngineFewer(was, live)
  {
    forall i, j | 0 <= i < j < |live| ensures live[i].req.requestId != live[j].req.requestId {
      var x := IndexIn(was, live[i]);
      var y := IndexIn(was, live[j]);
    }
  }

  lemma FinishedNotLive(was: seq<Sequence>, live: seq<Sequence>, s: Sequence)
    requires DistinctIds(was) && EngineFewer(was, live) && s in was && s !in live
    ensures NotLive(live, s.req.requestId)
  {
    forall i | 0 <= i < |live| ensures live[i].req.requestId != s.req.requestId {
      var x := IndexIn(was, live[i]);
      var y := IndexIn(was, s);
    }
  }

  lemma StillNotLive(was: seq<Sequence>, live: seq<Sequence>, requestId: string)
    requires EngineFewer(was, live) && NotLive(was, requestId)
    ensures NotLive(live, requestId)
  {
    forall i | 0 <= i < |live| ensures live[i].req.requestId != requestId { var j := IndexIn(was, live[i]); }
  }
}
