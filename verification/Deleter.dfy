/** The delete worker: it judges, admits and buffers entries, hands full buffers to a back end, and reports the
    outcome. Every method is proved to take only steps that the network model gives to a worker. */
module Deleter {
  import opened Objects
  import opened Network
  import opened WorkerSafety
  import opened Store
  import opened Backend
  import opened Surroundings
  import opened WorkerTrail
  import opened Reports
  import opened Attributes
  import opened AttributeRules

  function EffectiveBatchSize(n: nat): (size: nat)
    ensures 1 <= size <= MAX_BATCH_SIZE
    ensures size <= 1000 && (1 <= n <= 1000 ==> size == n) && (n > 1000 ==> size == 1000) && (n == 0 ==> size == 1)
  {
    if n <= 1 then 1 else Min(n, MAX_BATCH_SIZE)
  }

  datatype Engine = One(single: SingleDeleter) | Many(many: BatchDeleter)
  {
    function Hand(): object {
      match this
      case One(d) => d
      case Many(d) => d
    }
  }

  /** A request of the deleter that fits into one batch is one chunk. */
  lemma FitsInOneChunk(os: seq<S3Object>, size: nat)
    requires 1 <= |os| <= size
    ensures ChunkCount(|os|, size) == 1 && Chunk(os, size, 0) == os
  {
    assert Start(size, 0) == 0;
    assert ChunkCount(0, size) == 0;
  }

  lemma {:induction false} KeysCount(es: seq<KeyError>)
    ensures |Keys(es)| == |es|
  {
    if es != [] {
      KeysCount(Front(es));
    }
  }

  lemma OneRun(cfg: BackendConfig, batch: seq<S3Object>, run: ChunkRun)
    ensures AllCalls(cfg, batch, [run]) == run.Calls(cfg.Targets(Chunk(batch, cfg.ChunkSize(), 0)))
    ensures AllDeleted([run]) == run.Deleted() && AllFailed([run]) == run.Failed()
  {
    var runs := [run];
    assert Front(runs) == [];
    assert AllCalls(cfg, batch, []) == [] && AllDeleted([]) == [] && AllFailed([]) == [];
  }

  lemma OneChunkResult(cfg: BackendConfig, batch: seq<S3Object>, runs: seq<ChunkRun>)
    requires 1 <= |batch| <= cfg.ChunkSize() && AllWell(cfg, batch, runs) && |runs| <= 1
    ensures runs == [] ==> AllCalls(cfg, batch, runs) == [] && AllFailed(runs) == []
    ensures runs != [] ==>
      && RunsWell(cfg, batch, runs[0])
      && AllCalls(cfg, batch, runs) == runs[0].Calls(cfg.Targets(batch))
      && AllDeleted(runs) == runs[0].Deleted() && AllFailed(runs) == runs[0].Failed()
  {
    FitsInOneChunk(batch, cfg.ChunkSize());
    if runs != [] {
      assert RunsWell(cfg, Chunk(batch, cfg.ChunkSize(), 0), runs[0]);
      assert runs == [runs[0]];
      OneRun(cfg, batch, runs[0]);
    }
  }

  /** One worker's share of the statistics report, with the entries behind the numbers. */
  class StatsReport {
    var count: nat
    var bytes: nat
    ghost var objects: seq<S3Object>

    constructor ()
      ensures Valid() && objects == []
    {
      count, bytes, objects := 0, 0, [];
    }

    ghost predicate Valid()
      reads this
    {
      count == |objects| && bytes == TotalSize(objects)
    }

    method IncrementDeleted(size: nat, ghost o: S3Object)
      requires Valid() && size == o.UnsignedSize()
      modifies this
      ensures Valid() && objects == old(objects) + [o]
    {
      TotalSizeStep(objects, o);
      count, bytes, objects := count + 1, bytes + size, objects + [o];
    }
  }

  /** The report has grown by some of these entries, none of them more often than given. */
  predicate Adds(before: seq<S3Object>, after: seq<S3Object>, from: seq<S3Object>) {
    before <= after && multiset(after[|before|..]) <= multiset(from)
  }

  lemma AddsNone(before: seq<S3Object>, from: seq<S3Object>)
    ensures Adds(before, before, from)
  {
    assert before[|before|..] == [];
  }

  lemma AddsSome(before: seq<S3Object>, more: seq<S3Object>, from: seq<S3Object>)
    requires multiset(more) <= multiset(from)
    ensures Adds(before, before + more, from)
  {
    assert (before + more)[|before|..] == more;
  }

  lemma AddsFromMore(before: seq<S3Object>, after: seq<S3Object>, from: seq<S3Object>, o: S3Object)
    requires Adds(before, after, from)
    ensures Adds(before, after, from + [o])
  {
  }

  class ObjectDeleter {
    const c: Config
    const backend: BackendConfig
    const rules: Rules
    const world: Outside
    const store: Storage
    const engine: Engine
    const report: StatsReport
    /** Selected entries that are waiting for a full batch. */
    var buffer: seq<S3Object>
    ghost var w: Worker
    ghost var path: seq<Turn>
    /** The batches that the worker has asked the store for, with the requests and their results. */
    ghost var orders: seq<Order>
    /** The store when the worker was made. */
    ghost const base: seq<Call>
    ghost const first: Shelf

    constructor (c: Config, backend: BackendConfig, rules: Rules, world: Outside, store: Storage, report: StatsReport)
      requires c.batchSize == EffectiveBatchSize(backend.batchSize)
      requires forall o :: c.attribute(o) == rules.AttributeOf(o)
      requires Sound(world.limit, world.distinct, world.scene) && world.distinct && world.room == c.queueSize && 1 <= c.queueSize
      requires world.lasting ==> !world.scene.outClosed
      requires report.Valid() && report.objects == []
      ensures Valid() && Booked(orders) && Ruled() && w == IDLE && path == [] && orders == []
      ensures buffer == [] && 1 <= c.batchSize <= 1000 && (engine.One? <==> backend.batchSize <= 1)
      ensures (1 <= backend.batchSize <= 1000 ==> c.batchSize == backend.batchSize) && (backend.batchSize > 1000 ==> c.batchSize == 1000)
      ensures first == store.Now() && base == store.calls
      ensures this.c == c && this.backend == backend && this.rules == rules && this.world == world && this.store == store && this.report == report
      ensures fresh(engine.Hand())
    {
      this.c, this.backend, this.rules, this.world, this.store, this.report := c, backend, rules, world, store, report;
      if backend.batchSize <= 1 {
        var d := new SingleDeleter(backend, store);
        engine := One(d);
      } else {
        var d := new BatchDeleter(backend, store);
        engine := Many(d);
      }
      buffer, w, path, orders := [], IDLE, [], [];
      base, first := store.calls, store.Now();
      new;
      EvolvesNot(store.writers, backend.Targets([]), first);
    }

    /** The network model sees the verdicts of the configured filters. */
    ghost predicate Ruled()
    {
      forall o :: c.attribute(o) == rules.AttributeOf(o)
    }

    ghost predicate Wired()
      reads this
    {
      && c.batchSize == EffectiveBatchSize(backend.batchSize)
      && world.distinct && world.room == c.queueSize && 1 <= c.queueSize
      && (engine.One? <==> backend.batchSize <= 1)
      && engine.Hand() !in {this as object, world, store, report}
      && (match engine
          case One(d) => d.config == backend && d.target == store
          case Many(d) => d.config == backend && d.target == store)
    }

    /** The worker has come to `v` by steps of the network model. */
    ghost predicate Stood(v: Network.View)
      reads this
    {
      && Wired()
      && v.w == w
      && v.inp.taken <= |v.inp.sent| && DistinctIds(v.inp.sent)
      && Trail(c, path, w, v.sh.cancelled)
      && (world.lasting ==> NeverClosed(path))
      && (if c.dryRun then orders == [] else Matches(path, orders))
      && BufferOk(c, v.sh.cancelled, w)
      && Known(InPlay(w), v.inp)
    }

    ghost function View(): Network.View
      reads this, world
    {
      Network.View(w, world.scene.inp, world.scene.out, world.scene.sh)
    }

    /** The store has received the requests of these orders and no others; it has lost nothing but what they permit;
        and in a dry run it is as it was. */
    ghost predicate Booked(all: seq<Order>)
      reads store
    {
      && store.calls == base + CallsOf(all)
      && AllFulfilled(backend, all)
      && Evolves(store.writers, backend.Targets(BatchesOf(all)), first, store.Now())
      && (c.dryRun ==> all == [] && store.Now() == first)
    }

    /** The report counts what the steps of the worker have counted as deleted, and nothing else. */
    ghost predicate Tallied()
      reads this, report
    {
      report.Valid() && report.objects == ReportedBy(path)
    }

    /** The worker is where the network model says it is, and so is its report. */
    ghost predicate Valid()
      reads this, world, report
    {
      && Tallied()
      && Sound(world.limit, world.distinct, world.scene)
      && (world.lasting ==> !world.scene.outClosed)
      && buffer == w.buffer
      && Stood(View())
    }

    /** Records a step that the code has just taken; `v` is how things were before it. */
    ghost method Took(v: Network.View, ch: Choice)
      requires Stood(v) && !v.w.pc.InFlight? && Tallied()
      requires Taken(v, ch)
      modifies this`w, this`path
      ensures Valid() && w == WorkerStep(c, v, world.scene.outClosed, ch).w
    {
      hide WorkerStep, Trail, BufferOk, Known, Matches;
      var m := Turn(v, world.scene.inClosed, world.scene.outClosed, ch, WorkerStep(c, v, world.scene.outClosed, ch));
      KeepsStanding(m);
      ReportedOn(path, m);
      if !c.dryRun {
        MatchesOn(path, orders, m);
      }
      w, path := m.after.w, path + [m];
    }

    /** Records the step that follows a reply of the back end; without a dry run there was an order for it. */
    ghost method TookReply(v: Network.View, ch: Choice, order: Order)
      requires Stood(v) && v.w.pc.InFlight?
      requires report.Valid() && report.objects == ReportedBy(path) + if ch.Answer? then ch.deleted else []
      requires Taken(v, ch)
      requires !c.dryRun ==> Tells(Turn(v, world.scene.inClosed, world.scene.outClosed, ch, WorkerStep(c, v, world.scene.outClosed, ch)), order)
      modifies this`w, this`path, this`orders
      ensures Valid() && w == WorkerStep(c, v, world.scene.outClosed, ch).w
      ensures orders == if c.dryRun then old(orders) else old(orders) + [order]
    {
      hide WorkerStep, WorkerEnabled, Tells, Trail, BufferOk, Known, Matches;
      var m := Turn(v, world.scene.inClosed, world.scene.outClosed, ch, WorkerStep(c, v, world.scene.outClosed, ch));
      KeepsStanding(m);
      ReportedOn(path, m);
      if !c.dryRun {
        MatchesReply(path, orders, m, order);
        orders := orders + [order];
      }
      w, path := m.after.w, path + [m];
    }

    /** The code has done what the network model does in this step. */
    ghost predicate Taken(v: Network.View, ch: Choice)
      requires v.inp.taken <= |v.inp.sent|
      reads this, world
    {
      var r := WorkerStep(c, v, world.scene.outClosed, ch);
      && WorkerEnabled(c, v, world.scene.inClosed, world.scene.outClosed, ch)
      && Sound(world.limit, world.distinct, world.scene) && (world.lasting ==> !world.scene.outClosed)
      && world.scene.inp == r.inp && world.scene.out == r.out && world.scene.sh == r.sh && buffer == r.w.buffer
    }

    lemma KeepsStanding(m: Turn)
      requires Stood(m.before) && IsTurn(c, m) && (world.lasting ==> !m.outClosed)
      ensures Trail(c, path + [m], m.after.w, m.after.sh.cancelled)
      ensures BufferOk(c, m.after.sh.cancelled, m.after.w)
      ensures m.after.inp.taken <= |m.after.inp.sent| && Known(InPlay(m.after.w), m.after.inp)
      ensures world.lasting ==> NeverClosed(path + [m])
    {
      TurnKeepsBuffer(c, m);
      TurnKeepsKnown(c, m);
      TrailOn(c, path, m, m.after.sh.cancelled);
    }

    /** Time passes between two steps. */
    lemma StaysStood(v: Network.View, s: Scene)
      requires Stood(v) && s.inp.taken <= |s.inp.sent| && DistinctIds(s.inp.sent)
      requires Grows(v.inp, s.inp) && (v.sh.cancelled ==> s.sh.cancelled)
      ensures Stood(Network.View(w, s.inp, s.out, s.sh))
    {
      TrailLater(c, path, w, v.sh.cancelled, s.sh.cancelled);
      KnownLater(InPlay(w), v.inp, s.inp);
    }

    method Pause()
      requires Valid()
      modifies world
      ensures Valid() && Later(old(world.scene), world.scene)
    {
      ghost var v := View();
      world.Yield();
      StaysStood(v, world.scene);
    }

    /** Hands a batch to the back end, of which it is exactly one chunk. After an error there is no result at all,
        so no partial result is lost. */
    method Request(batch: seq<S3Object>) returns (result: Option<DeleteResult>, messages: nat)
      requires Wired() && 1 <= |batch| <= c.batchSize
      modifies store, engine.Hand()
      ensures result.Some? ==>
        && multiset(result.value.deleted) + multiset(ErrorIds(result.value.failed)) == multiset(Ids(batch))
        && messages == |result.value.failed|
        && old(store.calls) <= store.calls
        && Answered(backend, batch, store.calls[|old(store.calls)|..], result.value)
      ensures result.None? ==>
        && messages == 0
        && backend.batchSize > 1
        && store.calls == old(store.calls) + [BatchCall(backend.Targets(batch), None)]
      ensures Evolves(store.writers, backend.Targets(batch), old(store.Now()), store.Now())
    {
      match engine
      case One(d) =>
        var already := |d.errors|;
        var r := d.Delete(batch);
        KeysCount(r.failed);
        messages := |d.errors| - already;
        result := Some(r);
      case Many(d) =>
        FitsInOneChunk(batch, backend.ChunkSize());
        var already := |d.errors|;
        ghost var runs;
        result, runs := d.Delete(batch);
        KeysCount(AllFailed(runs));
        messages := |d.errors| - already;
        OneChunkResult(backend, batch, runs);
        if result.Some? {
          BatchPartition(backend, batch, runs);
        } else {
          assert runs == [];
        }
    }

    /** Counts and announces the deleted entries, one by one. */
    method ReportDeleted(batch: seq<S3Object>, ids: seq<Ident>)
      requires AllListed(batch, ids) && report.Valid()
      modifies world`scene, report
      ensures report.Valid() && report.objects == old(report.objects) + Resolve(batch, ids)
      ensures
        var sh := old(world.scene.sh);
        world.scene == old(world.scene).(sh := sh.(deleted := sh.deleted + |ids|, log := sh.log + Announce(Resolve(batch, ids), true)))
    {
      ghost var s, os := world.scene, report.objects;
      var lookup := Lookup(batch);
      for k := 0 to |ids|
        invariant report.Valid() && report.objects == os + Resolve(batch, ids[..k])
        invariant world.scene ==
          s.(sh := s.sh.(deleted := s.sh.deleted + k, log := s.sh.log + Announce(Resolve(batch, ids[..k]), true)))
      {
        ResolveStep(batch, ids, k);
        AppendAssociative(s.sh.log, Announce(Resolve(batch, ids[..k]), true), [Completed(lookup[ids[k]])]);
        AppendAssociative(os, Resolve(batch, ids[..k]), [lookup[ids[k]]]);
        var size := if ids[k] in lookup then lookup[ids[k]].UnsignedSize() else 0;
        report.IncrementDeleted(size, lookup[ids[k]]);
        var sh := world.scene.sh;
        world.SetShared(sh.(deleted := sh.deleted + 1).Log(Completed(lookup[ids[k]])));
      }
      assert ids[..|ids|] == ids;
    }

    /** Counts and announces the failed entries; their error messages were sent by the back end. */
    method ReportFailed(batch: seq<S3Object>, ids: seq<Ident>)
      requires AllListed(batch, ids)
      modifies world`scene
      ensures
        var sh := old(world.scene.sh);
        world.scene == old(world.scene).(sh := sh.(failed := sh.failed + |ids|, log := sh.log + Announce(Resolve(batch, ids), false)))
    {
      ghost var s := world.scene;
      var lookup := Lookup(batch);
      for k := 0 to |ids|
        invariant world.scene ==
          s.(sh := s.sh.(failed := s.sh.failed + k, log := s.sh.log + Announce(Resolve(batch, ids[..k]), false)))
      {
        ResolveStep(batch, ids, k);
        AppendAssociative(s.sh.log, Announce(Resolve(batch, ids[..k]), false), [Failed(lookup[ids[k]])]);
        var sh := world.scene.sh;
        world.SetShared(sh.(failed := sh.failed + 1).Log(Failed(lookup[ids[k]])));
      }
      assert ids[..|ids|] == ids;
    }

    /** The messages of the back end and the warning; with warnings promoted, a failure cancels the run. */
    method RaiseFlags(any: bool, messages: nat) returns (stop: bool)
      modifies world`scene
      ensures stop == (any && c.warnAsError)
      ensures world.scene == old(world.scene).(sh := Flagged(old(world.scene.sh), any, stop, messages))
    {
      stop := any && c.warnAsError;
      world.SetShared(Flagged(world.scene.sh, any, stop, messages));
    }

    /** Statistics, events and flags for one batch: `d` was deleted, `f` failed. */
    method ReportAll(batch: seq<S3Object>, deleted: seq<Ident>, failed: seq<Ident>, messages: nat, ghost d: seq<S3Object>, ghost f: seq<S3Object>)
      returns (stop: bool, ghost a: Shared, ghost b: Shared)
      requires AllListed(batch, deleted) && AllListed(batch, failed) && report.Valid()
      requires d == Resolve(batch, deleted) && f == Resolve(batch, failed)
      modifies world`scene, report
      ensures report.Valid() && report.objects == old(report.objects) + d
      ensures stop == (failed != [] && c.warnAsError)
      ensures Counted(old(world.scene.sh), d, f, a, b)
      ensures world.scene == old(world.scene).(sh := Flagged(b, failed != [], stop, messages))
    {
      ReportDeleted(batch, deleted);
      a := world.scene.sh;
      ReportFailed(batch, failed);
      b := world.scene.sh;
      stop := RaiseFlags(failed != [], messages);
    }

    /** The report on one batch, and whether failures stop the run. */
    method Report(batch: seq<S3Object>, ghost k: Cont, r: DeleteResult, messages: nat, ghost order: Order) returns (stop: bool)
      requires Valid() && w.pc == InFlight(batch, k)
      requires order.batch == batch && order.result == Some(r) && Owes(order, messages)
      modifies world`scene, report, this`w, this`path, this`orders
      ensures Valid() && Later(old(world.scene), world.scene)
      ensures orders == if c.dryRun then old(orders) else old(orders) + [order]
      ensures AllListed(batch, r.deleted) && report.objects == old(report.objects) + Resolve(batch, r.deleted)
      ensures multiset(Resolve(batch, r.deleted)) <= multiset(batch)
      ensures stop == (r.failed != [] && c.warnAsError)
      ensures w.pc == if stop then After(k) else Forward(batch, k)
      ensures
        var sh := old(world.scene.sh);
        && AllListed(batch, ErrorIds(r.failed))
        && world.scene.sh == sh.(
             deleted := sh.deleted + |r.deleted|, failed := sh.failed + |r.failed|, errors := sh.errors + messages,
             warned := sh.warned || r.failed != [], cancelled := sh.cancelled || stop, outside := sh.outside || stop,
             log := sh.log + Announce(Resolve(batch, r.deleted), true) + Announce(Resolve(batch, ErrorIds(r.failed)), false))
    {
      hide Stood;
      var failed := ErrorIds(r.failed);
      NoneTwice(batch, k);
      ResolvePartition(batch, r.deleted, failed);
      ghost var d, f := Resolve(batch, r.deleted), Resolve(batch, failed);
      ResolveIds(batch, r.deleted);
      ResolveIds(batch, failed);
      stop := ReportParts(batch, k, r.deleted, failed, messages, d, f, order);
    }

    lemma NoneTwice(batch: seq<S3Object>, k: Cont)
      requires Valid() && w.pc == InFlight(batch, k)
      ensures DistinctIds(batch)
    {
    }

    method ReportParts(batch: seq<S3Object>, ghost k: Cont, deleted: seq<Ident>, failed: seq<Ident>, messages: nat,
        ghost d: seq<S3Object>, ghost f: seq<S3Object>, ghost order: Order) returns (stop: bool)
      requires Valid() && w.pc == InFlight(batch, k)
      requires AllListed(batch, deleted) && AllListed(batch, failed)
      requires d == Resolve(batch, deleted) && f == Resolve(batch, failed) && multiset(d) + multiset(f) == multiset(batch)
      requires messages == |failed| && (c.dryRun ==> failed == []) && Explains(order, batch, d, f)
      modifies world`scene, report, this`w, this`path, this`orders
      ensures Valid() && Later(old(world.scene), world.scene)
      ensures orders == if c.dryRun then old(orders) else old(orders) + [order]
      ensures report.objects == old(report.objects) + d
      ensures stop == (failed != [] && c.warnAsError)
      ensures w.pc == if stop then After(k) else Forward(batch, k)
      ensures world.scene.sh == Reported(c, old(world.scene.sh), d, f)
    {
      ghost var v, s := View(), world.scene;
      ghost var a, b;
      stop, a, b := ReportAll(batch, deleted, failed, messages, d, f);
      TookAnswer(v, s, batch, k, d, f, a, b, messages, failed != [], order);
    }

    /** The result of the order counts these entries as deleted and those as failed. */
    predicate Explains(order: Order, batch: seq<S3Object>, d: seq<S3Object>, f: seq<S3Object>)
    {
      order.batch == batch && order.result.Some? && order.result.value.deleted == Ids(d) && ErrorIds(order.result.value.failed) == Ids(f)
    }

    ghost method TookAnswer(v: Network.View, s: Scene, batch: seq<S3Object>, k: Cont, d: seq<S3Object>, f: seq<S3Object>,
        a: Shared, b: Shared, messages: nat, any: bool, order: Order)
      requires Stood(v) && w.pc == InFlight(batch, k) && buffer == w.buffer && Sound(world.limit, world.distinct, s)
      requires v == Network.View(w, s.inp, s.out, s.sh) && (world.lasting ==> !s.outClosed)
      requires multiset(d) + multiset(f) == multiset(batch) && (c.dryRun ==> f == []) && Explains(order, batch, d, f)
      requires messages == |f| && any == (f != [])
      requires Counted(s.sh, d, f, a, b)
      requires report.Valid() && report.objects == ReportedBy(path) + d
      requires world.scene == s.(sh := Flagged(b, any, any && c.warnAsError, messages))
      modifies this`w, this`path, this`orders
      ensures Valid() && w.pc == if any && c.warnAsError then After(k) else Forward(batch, k)
      ensures Later(s, world.scene) && world.scene.sh == Reported(c, s.sh, d, f)
      ensures orders == if c.dryRun then old(orders) else old(orders) + [order]
    {
      ReportedInSteps(c, v.sh, d, f, messages, any, a, b);
      assert WorkerStep(c, v, world.scene.outClosed, Answer(d, f)) == AnswerStep(c, v, batch, k, d, f);
      TookReply(v, Answer(d, f), order);
    }

    /** Takes the buffer, unless it is empty or the run is cancelled. */
    method TakeBuffer(ghost k: Cont) returns (batch: Option<seq<S3Object>>)
      requires Valid() && w.pc == Flush(k)
      modifies world, this`buffer, this`w, this`path
      ensures Valid() && Later(old(world.scene), world.scene)
      ensures match batch
        case None => w.pc == After(k) && buffer == old(buffer)
        case Some(b) => w.pc == Dispatch(b, k) && b == old(buffer) && b != []
      ensures buffer == [] || (batch.None? && world.scene.sh.cancelled)
      ensures old(world.scene.sh.cancelled) ==> batch.None?
    {
      hide Trail, BufferOk, Known, Matches;
      Pause();
      ghost var v := View();
      if buffer == [] || world.scene.sh.cancelled {
        Took(v, Go);
        return None;
      }
      batch := Some(buffer);
      buffer := [];
      Took(v, Go);
    }

    /** The back end failed as a whole: the run is cancelled and the worker dies with an error. */
    method Die(batch: seq<S3Object>, ghost k: Cont, ghost order: Order)
      requires Valid() && w.pc == InFlight(batch, k) && order.batch == batch && order.result.None? && Owes(order, 0)
      modifies world`scene, this`w, this`path, this`orders
      ensures Valid() && w.pc.Done? && Later(old(world.scene), world.scene)
      ensures world.scene.sh == old(world.scene.sh).(faulted := true, cancelled := true, outside := true)
      ensures orders == old(orders) + [order]
    {
      ghost var v := View();
      world.SetShared(world.scene.sh.(faulted := true).Cancel());
      TookReply(v, Break, order);
    }

    /** The outcome for a batch. A dry run makes no request and takes every entry for deleted. */
    method Obtain(batch: seq<S3Object>) returns (result: Option<DeleteResult>, messages: nat, ghost order: Order)
      requires Wired() && Booked(orders) && 1 <= |batch| <= c.batchSize
      modifies store, engine.Hand()
      ensures Owes(order, messages) && order.batch == batch && order.result == result
      ensures Booked(if c.dryRun then orders else orders + [order])
      ensures c.dryRun ==> result == Some(DeleteResult(Ids(batch), []))
      ensures Evolves(store.writers, backend.Targets(batch), old(store.Now()), store.Now())
      ensures c.dryRun ==> store.calls == old(store.calls) && store.Now() == old(store.Now())
    {
      if c.dryRun {
        EvolvesNot(store.writers, backend.Targets(batch), store.Now());
        result, messages := Some(DeleteResult(Ids(batch), [])), 0;
        order := Order(batch, [], result);
        return;
      }
      ghost var before, shelf := store.calls, store.Now();
      result, messages := Request(batch);
      order := Order(batch, store.calls[|before|..], result);
      BooksOrder(order, before, shelf);
    }

    lemma BooksOrder(order: Order, before: seq<Call>, shelf: Shelf)
      requires !c.dryRun && Fulfilled(backend, order)
      requires before == base + CallsOf(orders) && store.calls == before + order.calls
      requires AllFulfilled(backend, orders)
      requires Evolves(store.writers, backend.Targets(BatchesOf(orders)), first, shelf)
      requires Evolves(store.writers, backend.Targets(order.batch), shelf, store.Now())
      ensures Booked(orders + [order])
    {
      var all, more := BatchesOf(orders), BatchesOf(orders + [order]);
      assert Front(orders + [order]) == orders;
      AllFulfilledOn(backend, orders, order);
      AppendAssociative(base, CallsOf(orders), order.calls);
      ChunkIsAmong(backend, more, all);
      ChunkIsAmong(backend, more, order.batch);
      EvolvesAmong(store.writers, backend.Targets(all), backend.Targets(more), first, shelf);
      EvolvesAmong(store.writers, backend.Targets(order.batch), backend.Targets(more), shelf, store.Now());
      EvolvesThen(store.writers, backend.Targets(more), first, shelf, store.Now());
    }

    /** The result of a batch accounts for its entries, and the requests made for it account for the result. */
    ghost predicate Owes(order: Order, messages: nat)
    {
      match order.result
      case None => !c.dryRun && Fulfilled(backend, order)
      case Some(r) =>
        && multiset(r.deleted) + multiset(ErrorIds(r.failed)) == multiset(Ids(order.batch))
        && messages == |r.failed|
        && (if c.dryRun then r.failed == [] else Fulfilled(backend, order))
    }

    /** Between looking at the token and the request, the run may be cancelled. */
    method StartRequest(batch: seq<S3Object>, ghost k: Cont)
      requires Valid() && w.pc == Dispatch(batch, k)
      modifies world, this`w, this`path
      ensures Valid() && w.pc == InFlight(batch, k) && Later(old(world.scene), world.scene)
      ensures 1 <= |batch| <= c.batchSize
    {
      Pause();
      Took(View(), Go);
    }

    /** After the reply, reports it and sends the batch on, or dies. */
    method Conclude(batch: seq<S3Object>, ghost k: Cont, result: Option<DeleteResult>, messages: nat, ghost order: Order)
      requires Valid() && w.pc == InFlight(batch, k)
      requires order.batch == batch && order.result == result && Owes(order, messages)
      modifies world, report, this`w, this`path, this`orders
      ensures Valid() && Later(old(world.scene), world.scene)
      ensures orders == if c.dryRun then old(orders) else old(orders) + [order]
      ensures match result
        case None => w.pc.Done? && world.scene.sh.cancelled && world.scene.sh.faulted && report.objects == old(report.objects)
        case Some(r) =>
          && w.pc == After(k)
          && AllListed(batch, r.deleted)
          && report.objects == old(report.objects) + Resolve(batch, r.deleted)
          && multiset(Resolve(batch, r.deleted)) <= multiset(batch)
    {
      Pause();
      match result
      case None => Die(batch, k, order);
      case Some(r) =>
        Account(batch, k, r, messages, order);
    }

    /** Reports a batch and sends it on, unless its failures stop the run. */
    method Account(batch: seq<S3Object>, ghost k: Cont, r: DeleteResult, messages: nat, ghost order: Order)
      requires Valid() && w.pc == InFlight(batch, k)
      requires order.batch == batch && order.result == Some(r) && Owes(order, messages)
      modifies world, report, this`w, this`path, this`orders
      ensures Valid() && Later(old(world.scene), world.scene)
      ensures orders == if c.dryRun then old(orders) else old(orders) + [order]
      ensures AllListed(batch, r.deleted) && report.objects == old(report.objects) + Resolve(batch, r.deleted)
      ensures multiset(Resolve(batch, r.deleted)) <= multiset(batch)
      ensures w.pc == After(k)
    {
      hide Stood, Booked, Later, Resolve, Announce;
      ghost var s := world.scene;
      var stop := Report(batch, k, r, messages, order);
      if !stop {
        ghost var t := world.scene;
        ForwardAll(batch, k);
        LaterTransitive(s, t, world.scene);
      }
    }

    /** Sends a reported batch on to the terminator, entry by entry, as long as someone listens. */
    method ForwardAll(batch: seq<S3Object>, ghost k: Cont)
      requires Valid() && w.pc == Forward(batch, k)
      modifies world, this`w, this`path
      ensures Valid() && w.pc == After(k) && Later(old(world.scene), world.scene)
    {
      hide Stood, Booked;
      for i := 0 to |batch|
        invariant Valid() && w.pc == Forward(batch[i..], k) && Later(old(world.scene), world.scene)
      {
        var closed := ForwardOne(batch[i], batch[i..], k);
        if closed {
          return;
        }
        assert batch[i..][1..] == batch[i + 1..];
      }
      Took(View(), Go);
    }

    method ForwardOne(o: S3Object, ghost rest: seq<S3Object>, ghost k: Cont) returns (closed: bool)
      requires Valid() && rest != [] && o == rest[0] && w.pc == Forward(rest, k)
      modifies world, this`w, this`path
      ensures Valid() && Later(old(world.scene), world.scene)
      ensures w.pc == if closed then After(k) else Forward(rest[1..], k)
      ensures !closed ==> w.forwarded == old(w.forwarded) + [o]
    {
      hide Trail, BufferOk, Known, Matches;
      ghost var s := View();
      world.AwaitRoom();
      StaysStood(s, world.scene);
      ghost var v := View();
      closed := world.scene.outClosed;
      if !closed {
        world.Push(o);
      }
      Took(v, Go);
    }

    /** One batch from the request to the last report about it. */
    method DeleteBatch(batch: seq<S3Object>, ghost k: Cont) returns (result: Option<DeleteResult>)
      requires Valid() && w.pc == Dispatch(batch, k)
      requires Booked(orders)
      modifies world, store, engine.Hand(), report, this`w, this`path, this`orders
      ensures Booked(orders)
      ensures c.dryRun ==> result == Some(DeleteResult(Ids(batch), []))
      ensures Valid() && Later(old(world.scene), world.scene)
      ensures match result
        case None => w.pc.Done? && world.scene.sh.cancelled && world.scene.sh.faulted && report.objects == old(report.objects)
        case Some(r) =>
          && w.pc == After(k)
          && AllListed(batch, r.deleted)
          && report.objects == old(report.objects) + Resolve(batch, r.deleted)
          && multiset(Resolve(batch, r.deleted)) <= multiset(batch)
      ensures Evolves(store.writers, backend.Targets(batch), old(store.Now()), store.Now())
      ensures c.dryRun ==> store.calls == old(store.calls) && store.Now() == old(store.Now())
    {
      hide Booked, Trail, BufferOk, Known, Matches;
      ghost var s := world.scene;
      StartRequest(batch, k);
      ghost var t := world.scene;
      var messages;
      ghost var order;
      result, messages, order := Obtain(batch);
      Conclude(batch, k, result, messages, order);
      LaterTransitive(s, t, world.scene);
    }

    /** Deletes what is in the buffer. Afterwards the buffer is empty, or the run is cancelled. */
    method DeleteBufferedObjects(ghost k: Cont) returns (ok: bool)
      requires Valid() && w.pc == Flush(k)
      requires Booked(orders)
      modifies world, store, engine.Hand(), report, this`buffer, this`w, this`path, this`orders
      ensures Booked(orders)
      ensures Valid() && Later(old(world.scene), world.scene)
      ensures if ok then w.pc == After(k) else w.pc.Done? && world.scene.sh.cancelled && world.scene.sh.faulted
      ensures buffer == [] || (world.scene.sh.cancelled && buffer == old(buffer) && store.calls == old(store.calls))
      ensures old(world.scene.sh.cancelled) ==> ok && buffer == old(buffer) && store.calls == old(store.calls)
      ensures Adds(old(report.objects), report.objects, old(buffer))
      ensures Evolves(store.writers, backend.Targets(old(buffer)), old(store.Now()), store.Now())
      ensures c.dryRun ==> store.calls == old(store.calls) && store.Now() == old(store.Now())
    {
      hide Stood, Booked;
      ghost var s := world.scene;
      var batch := TakeBuffer(k);
      ghost var t := world.scene;
      ok := DeleteTaken(batch, old(buffer), k);
      LaterTransitive(s, t, world.scene);
    }

    /** What was taken out of the buffer `was`, if anything. */
    method DeleteTaken(batch: Option<seq<S3Object>>, ghost was: seq<S3Object>, ghost k: Cont) returns (ok: bool)
      requires Valid()
      requires match batch
        case None => w.pc == After(k)
        case Some(b) => w.pc == Dispatch(b, k) && b == was
      requires Booked(orders)
      modifies world, store, engine.Hand(), report, this`w, this`path, this`orders
      ensures Booked(orders)
      ensures Valid() && Later(old(world.scene), world.scene)
      ensures if ok then w.pc == After(k) else batch.Some? && w.pc.Done? && world.scene.sh.cancelled && world.scene.sh.faulted
      ensures batch.None? ==> store.calls == old(store.calls)
      ensures Adds(old(report.objects), report.objects, was)
      ensures Evolves(store.writers, backend.Targets(was), old(store.Now()), store.Now())
      ensures c.dryRun ==> store.calls == old(store.calls) && store.Now() == old(store.Now())
    {
      if batch.None? {
        EvolvesNot(store.writers, backend.Targets(was), store.Now());
        AddsNone(report.objects, was);
        return true;
      }
      ghost var objects := report.objects;
      var result := DeleteBatch(batch.value, k);
      ok := result.Some?;
      AddsSome(objects, if ok then Resolve(was, result.value.deleted) else [], was);
      assert objects + [] == objects;
    }

    /** Draws the next number of the counter that all workers share. */
    method DrawTicket(o: S3Object) returns (over: bool, ghost v: Network.View)
      requires Valid() && w.pc == Admit(o)
      modifies world, this`w, this`path
      ensures Sound(world.limit, world.distinct, world.scene) && Later(old(world.scene), world.scene)
      ensures over ==> Valid() && w.pc == Flush(ThenTrip(o))
      ensures !over ==> Drawn(v, o)
      ensures world.scene.sh == v.sh.(counter := v.sh.counter + 1)
      ensures over <==> c.maxDelete.Some? && v.sh.counter + 1 > c.maxDelete.value
    {
      Pause();
      v := View();
      var ticket := world.scene.sh.counter + 1;
      world.SetShared(world.scene.sh.(counter := ticket));
      over := c.maxDelete.Some? && ticket > c.maxDelete.value;
      if over {
        Refuse(v, o);
      }
    }

    /** The ticket drawn since `v` was above the limit. */
    ghost method Refuse(v: Network.View, o: S3Object)
      requires Stood(v) && v.w.pc == Admit(o) && buffer == w.buffer && Tallied()
      requires Sound(world.limit, world.distinct, world.scene) && (world.lasting ==> !world.scene.outClosed)
      requires world.scene.inp == v.inp && world.scene.out == v.out
      requires world.scene.sh == v.sh.(counter := v.sh.counter + 1)
      requires !c.Admits(v.sh.counter + 1)
      modifies this`w, this`path
      ensures Valid() && w.pc == Flush(ThenTrip(o))
    {
      ghost var r := AdmitStep(c, v, o);
      assert r.sh == world.scene.sh && r.inp == v.inp && r.out == v.out && r.w.buffer == buffer;
      assert WorkerStep(c, v, world.scene.outClosed, Go) == r;
      Took(v, Go);
    }

    /** A ticket within the limit was drawn since `v`, and nothing else happened. */
    ghost predicate Drawn(v: Network.View, o: S3Object)
      reads this, world, report
    {
      && Stood(v) && v.w.pc == Admit(o) && buffer == w.buffer && Tallied()
      && Sound(world.limit, world.distinct, world.scene) && (world.lasting ==> !world.scene.outClosed)
      && world.scene.inp == v.inp && world.scene.out == v.out
      && world.scene.sh == v.sh.(counter := v.sh.counter + 1)
      && c.Admits(v.sh.counter + 1)
    }

    /** The last thing that happened was the report on `o`, with its message and its warning, and the run is over. */
    ghost predicate Tripped(o: S3Object)
      reads world
    {
      var sh := world.scene.sh;
      sh.cancelled && sh.warned && sh.trips > 0 && sh.errors > 0 && sh.log != [] && Last(sh.log) == Failed(o)
    }

    /** The report on the entry above the limit was the step that follows `v`. */
    ghost method TookTrip(v: Network.View, o: S3Object)
      requires Stood(v) && v.w.pc == WorkerPc.Trip(o) && buffer == w.buffer && Tallied()
      requires Sound(world.limit, world.distinct, world.scene) && (world.lasting ==> !world.scene.outClosed)
      requires world.scene.inp == v.inp && world.scene.out == v.out && world.scene.sh == TripStep(v, o).sh
      modifies this`w, this`path
      ensures Valid() && w.pc.CheckCancel?
    {
      hide Trail, BufferOk, Known, Matches;
      assert WorkerStep(c, v, world.scene.outClosed, Go) == TripStep(v, o);
      Took(v, Go);
    }

    /** The limit is exceeded: report the entry as failed and cancel the run. */
    method Trip(o: S3Object) returns (ghost before: Shared)
      requires Valid() && w.pc == WorkerPc.Trip(o)
      modifies world, this`w, this`path
      ensures Valid() && w.pc.CheckCancel? && Tripped(o) && Later(old(world.scene), world.scene)
      ensures world.scene.sh == before.(
        errors := before.errors + 1, warned := true, trips := before.trips + 1, cancelled := true, log := before.log + [Failed(o)])
    {
      hide Trail, BufferOk, Known, Matches;
      Pause();
      ghost var v := View();
      before := world.scene.sh;
      var sh := world.scene.sh;
      world.SetShared(sh.(errors := sh.errors + 1, warned := true, trips := sh.trips + 1, cancelled := true).Log(Failed(o)));
      TookTrip(v, o);
    }

    /** Above the limit, what was admitted before is still deleted; then the run is cancelled. */
    method CheckMaxDelete(o: S3Object) returns (over: bool, ok: bool, ghost v: Network.View)
      requires Valid() && w.pc == Admit(o)
      requires Booked(orders)
      modifies world, store, engine.Hand(), report, this`buffer, this`w, this`path, this`orders
      ensures Booked(orders)
      ensures Sound(world.limit, world.distinct, world.scene) && Later(old(world.scene), world.scene)
      ensures !over ==> ok && Drawn(v, o) && buffer == old(buffer) && store.Now() == old(store.Now())
      ensures !over ==> world.scene.sh == v.sh.(counter := v.sh.counter + 1)
      ensures over <==> c.maxDelete.Some? && v.sh.counter + 1 > c.maxDelete.value
      ensures over ==> Valid() && world.scene.sh.cancelled && if ok then w.pc.CheckCancel? && Tripped(o) else w.pc.Done?
      ensures over && ok ==>
        world.scene.sh.warned && world.scene.sh.trips > 0 && world.scene.sh.log != [] && Last(world.scene.sh.log) == Failed(o)
      ensures over ==> buffer == [] || buffer == old(buffer)
      ensures if over then Adds(old(report.objects), report.objects, old(buffer)) else report.objects == old(report.objects)
      ensures Evolves(store.writers, backend.Targets(old(buffer)), old(store.Now()), store.Now())
      ensures c.dryRun ==> store.calls == old(store.calls) && store.Now() == old(store.Now())
    {
      EvolvesNot(store.writers, backend.Targets(buffer), store.Now());
      over, v := DrawTicket(o);
      ok := true;
      if over {
        ok := Exceed(o);
      }
    }

    method Exceed(o: S3Object) returns (ok: bool)
      requires Valid() && w.pc == Flush(ThenTrip(o))
      requires Booked(orders)
      modifies world, store, engine.Hand(), report, this`buffer, this`w, this`path, this`orders
      ensures Booked(orders)
      ensures Valid() && Later(old(world.scene), world.scene)
      ensures world.scene.sh.cancelled && if ok then w.pc.CheckCancel? && Tripped(o) else w.pc.Done?
      ensures buffer == [] || buffer == old(buffer)
      ensures Adds(old(report.objects), report.objects, old(buffer))
      ensures Evolves(store.writers, backend.Targets(old(buffer)), old(store.Now()), store.Now())
      ensures c.dryRun ==> store.calls == old(store.calls) && store.Now() == old(store.Now())
    {
      hide Stood, Booked, Later, Adds;
      ghost var s := world.scene;
      ok := DeleteBufferedObjects(ThenTrip(o));
      if ok {
        ghost var t := world.scene;
        ghost var before := Trip(o);
        LaterTransitive(s, t, world.scene);
      }
    }

    method BufferAndDelete(o: S3Object, ghost v: Network.View) returns (ok: bool)
      requires Drawn(v, o)
      requires Booked(orders)
      modifies world, store, engine.Hand(), report, this`buffer, this`w, this`path, this`orders
      ensures Booked(orders)
      ensures Valid() && Later(old(world.scene), world.scene)
      ensures if ok then w.pc.CheckCancel? else w.pc.Done?
      ensures
        if |old(buffer)| + 1 < c.batchSize then ok && buffer == old(buffer) + [o] && store.Now() == old(store.Now())
        else buffer == [] || (world.scene.sh.cancelled && buffer == old(buffer) + [o] && store.calls == old(store.calls))
      ensures Adds(old(report.objects), report.objects, old(buffer) + [o])
      ensures Evolves(store.writers, backend.Targets(old(buffer) + [o]), old(store.Now()), store.Now())
      ensures c.dryRun ==> store.calls == old(store.calls) && store.Now() == old(store.Now())
    {
      hide Stood, Booked;
      EvolvesNot(store.writers, backend.Targets(buffer + [o]), store.Now());
      AddsNone(report.objects, buffer + [o]);
      Push(o, v);
      ok := true;
      if |buffer| >= c.batchSize {
        ok := DeleteBufferedObjects(ThenCheck);
      }
    }

    method Push(o: S3Object, ghost v: Network.View)
      requires Drawn(v, o)
      modifies this`buffer, this`w, this`path
      ensures Valid() && buffer == old(buffer) + [o]
      ensures w.pc == if |buffer| >= c.batchSize then Flush(ThenCheck) else CheckCancel
    {
      buffer := buffer + [o];
      Took(v, Go);
    }

    /** The entry goes no further: count the skip and announce it, or fail. A missing object is skipped without an
        event; only a failed request cancels the run at once. */
    method Note(o: S3Object, a: Attribute)
      modifies world`scene
      ensures world.scene == old(world.scene).(sh := Settled(c, old(world.scene.sh), o, a))
    {
      var sh := world.scene.sh;
      match a
      case Eligible =>
      case Filtered => world.SetShared(sh.(skips := sh.skips + 1, log := sh.log + if c.observed then [FilteredOut(o)] else []));
      case Missing => world.SetShared(sh.(skips := sh.skips + 1));
      case Fatal(cancels) =>
        world.SetShared(sh.(faulted := true, cancelled := sh.cancelled || cancels, outside := sh.outside || cancels));
    }

    method Settle(o: S3Object, a: Attribute)
      requires Valid() && w.pc == Process(o) && a == c.attribute(o) && !a.Eligible?
      modifies world`scene, this`w, this`path
      ensures Valid() && Later(old(world.scene), world.scene)
      ensures w.pc == if a.Fatal? then Done else CheckCancel
      ensures
        var sh := old(world.scene.sh);
        world.scene.sh == match a
          case Eligible => sh
          case Filtered => sh.(skips := sh.skips + 1, log := sh.log + if c.observed then [FilteredOut(o)] else [])
          case Missing => sh.(skips := sh.skips + 1)
          case Fatal(cancels) => sh.(faulted := true, cancelled := sh.cancelled || cancels, outside := sh.outside || cancels)
      ensures world.scene == old(world.scene).(sh := Settled(c, old(world.scene.sh), o, a))
    {
      ghost var v := View();
      Note(o, a);
      SettledInStep(c, v, o);
      Took(v, Go);
    }

    /** Both expressions for one text. */
    method CheckRegexes(both: Both, text: Option<Bytes>) returns (a: Attribute)
      ensures a == AttributeRules.Decide(both, text)
    {
      var pass := DecideDeleteByRegex(both.required, text, true);
      if pass.None? {
        return Fatal(false);
      }
      if !pass.value {
        return Filtered;
      }
      pass := DecideDeleteByRegex(both.banned, text, false);
      if pass.None? {
        return Fatal(false);
      }
      return if pass.value then Eligible else Filtered;
    }

    /** Content type and metadata. A delete marker has neither and is never asked about. */
    method CheckHead(o: S3Object) returns (a: Attribute)
      requires rules.NeedsHead()
      ensures a == rules.HeadAttribute(o)
    {
      if o.DeleteMarker? {
        return Filtered;
      }
      match rules.head(o.Id())
      case NotFound => a := Missing;
      case ApiError => a := Fatal(true);
      case Found(h) =>
        a := CheckRegexes(rules.contentType, h.contentType);
        if a.Eligible? {
          a := CheckRegexes(rules.metadata, rules.MetadataText(h));
        }
    }

    /** Tags. A delete marker has none and is never asked about. */
    method CheckTags(o: S3Object) returns (a: Attribute)
      requires rules.NeedsTags()
      ensures a == rules.TagAttribute(o)
    {
      if o.DeleteMarker? {
        return Filtered;
      }
      match rules.tagging(o.Id())
      case NotFound => a := Missing;
      case ApiError => a := Fatal(true);
      case Found(tags) => a := CheckRegexes(rules.tags, Some(FormatTags(tags)));
    }

    /** The verdict on content type and metadata, and what it does to the worker and to the shared state, which was `sh`
        when the verdict was there. */
    method ApplyHeadObjectFilters(o: S3Object) returns (a: Attribute, ghost sh: Shared)
      requires Valid() && Ruled() && w.pc == Process(o)
      modifies world, this`w, this`path
      ensures Valid() && Later(old(world.scene), world.scene)
      ensures a == rules.HeadAttribute(o)
      ensures
        if rules.contentType.required.None? && rules.contentType.banned.None? && rules.metadata.required.None? && rules.metadata.banned.None? then a == Eligible
        else if o.DeleteMarker? then a == Filtered
        else match rules.head(Ident(o.key, if o.NotVersioning? then None else o.versionId))
          case NotFound => a == Missing
          case ApiError => a == Fatal(true)
          case Found(h) =>
            var text := if h.metadata.None? || h.metadata.value == [] then None else Some(FormatMetadata(h.metadata.value));
            a ==
              if rules.contentType.required.Some? && (h.contentType.None? || rules.contentType.required.value(h.contentType.value) == Some(false)) then Filtered
              else if rules.contentType.required.Some? && rules.contentType.required.value(h.contentType.value) == None then Fatal(false)
              else if rules.contentType.banned.Some? && h.contentType.Some? && rules.contentType.banned.value(h.contentType.value) == Some(true) then Filtered
              else if rules.contentType.banned.Some? && h.contentType.Some? && rules.contentType.banned.value(h.contentType.value) == None then Fatal(false)
              else if rules.metadata.required.Some? && (text.None? || rules.metadata.required.value(text.value) == Some(false)) then Filtered
              else if rules.metadata.required.Some? && rules.metadata.required.value(text.value) == None then Fatal(false)
              else if rules.metadata.banned.Some? && text.Some? && rules.metadata.banned.value(text.value) == Some(true) then Filtered
              else if rules.metadata.banned.Some? && text.Some? && rules.metadata.banned.value(text.value) == None then Fatal(false)
              else Eligible
      ensures match a
        case Eligible => w.pc == Process(o)
        case Filtered =>
          && w.pc == CheckCancel
          && world.scene.sh == sh.(skips := sh.skips + 1, log := sh.log + if c.observed then [FilteredOut(o)] else [])
        case Missing => w.pc == CheckCancel && world.scene.sh == sh.(skips := sh.skips + 1)
        case Fatal(cancels) =>
          && w.pc == Done
          && world.scene.sh == sh.(faulted := true, cancelled := sh.cancelled || cancels, outside := sh.outside || cancels)
      ensures old(world.scene.sh.cancelled) ==> sh.cancelled
    {
      hide Stood, Tallied, Settled, FormatMetadata, Rules.HeadAttribute, Rules.TagAttribute;
      HeadVerdict(rules, o);
      sh := world.scene.sh;
      if !rules.NeedsHead() {
        return Eligible, sh;
      }
      Pause();
      sh := world.scene.sh;
      a := CheckHead(o);
      if !a.Eligible? {
        assert c.attribute(o) == rules.AttributeOf(o);
        Settle(o, a);
      }
    }

    /** The same for tags. */
    method ApplyTagFilters(o: S3Object) returns (a: Attribute, ghost sh: Shared)
      requires Valid() && Ruled() && w.pc == Process(o) && rules.HeadAttribute(o).Eligible?
      modifies world, this`w, this`path
      ensures Valid() && Later(old(world.scene), world.scene)
      ensures a == rules.AttributeOf(o)
      ensures
        if rules.tags.required.None? && rules.tags.banned.None? then a == Eligible
        else if o.DeleteMarker? then a == Filtered
        else match rules.tagging(Ident(o.key, if o.NotVersioning? then None else o.versionId))
          case NotFound => a == Missing
          case ApiError => a == Fatal(true)
          case Found(t) =>
            a ==
              if rules.tags.required.Some? && rules.tags.required.value(FormatTags(t)) == Some(false) then Filtered
              else if rules.tags.required.Some? && rules.tags.required.value(FormatTags(t)) == None then Fatal(false)
              else if rules.tags.banned.Some? && rules.tags.banned.value(FormatTags(t)) == Some(true) then Filtered
              else if rules.tags.banned.Some? && rules.tags.banned.value(FormatTags(t)) == None then Fatal(false)
              else Eligible
      ensures match a
        case Eligible => w.pc == Process(o)
        case Filtered =>
          && w.pc == CheckCancel
          && world.scene.sh == sh.(skips := sh.skips + 1, log := sh.log + if c.observed then [FilteredOut(o)] else [])
        case Missing => w.pc == CheckCancel && world.scene.sh == sh.(skips := sh.skips + 1)
        case Fatal(cancels) =>
          && w.pc == Done
          && world.scene.sh == sh.(faulted := true, cancelled := sh.cancelled || cancels, outside := sh.outside || cancels)
      ensures old(world.scene.sh.cancelled) ==> sh.cancelled
    {
      hide Stood, Tallied, Settled, FormatTags, Rules.HeadAttribute, Rules.TagAttribute;
      TagVerdict(rules, o);
      sh := world.scene.sh;
      if !rules.NeedsTags() {
        return Eligible, sh;
      }
      Pause();
      sh := world.scene.sh;
      a := CheckTags(o);
      if !a.Eligible? {
        assert c.attribute(o) == rules.AttributeOf(o);
        Settle(o, a);
      }
    }

    /** Every filter lets the entry through. */
    ghost method Pass(o: S3Object)
      requires Valid() && w.pc == Process(o) && c.attribute(o).Eligible?
      modifies this`w, this`path
      ensures Valid() && w.pc == Admit(o)
    {
      var v := View();
      assert ProcessStep(c, v, o).sh.log == v.sh.log;
      Took(v, Go);
    }

    method ApplyFilters(o: S3Object) returns (a: Attribute)
      requires Valid() && Ruled() && w.pc == Process(o)
      modifies world, this`w, this`path
      ensures Valid() && Later(old(world.scene), world.scene)
      ensures a == rules.AttributeOf(o)
      ensures w.pc == if a.Eligible? then Admit(o) else if a.Fatal? then Done else CheckCancel
    {
      hide Stood, Booked, Rules.HeadAttribute, Rules.TagAttribute;
      ghost var sh;
      a, sh := ApplyHeadObjectFilters(o);
      if a.Eligible? {
        a, sh := ApplyTagFilters(o);
        if a.Eligible? {
          assert c.attribute(o) == rules.AttributeOf(o);
          Pass(o);
        }
      }
    }

    method ProcessObject(o: S3Object) returns (ok: bool)
      requires Valid() && Ruled() && w.pc == Process(o)
      requires Booked(orders)
      modifies world, store, engine.Hand(), report, this`buffer, this`w, this`path, this`orders
      ensures Booked(orders)
      ensures Valid() && Later(old(world.scene), world.scene)
      ensures if ok then w.pc.CheckCancel? else w.pc.Done?
      ensures c.dryRun ==> store.calls == old(store.calls) && store.Now() == old(store.Now())
      ensures Adds(old(report.objects), report.objects, old(buffer) + [o])
    {
      hide Stood, Booked;
      var a := ApplyFilters(o);
      if !a.Eligible? {
        AddsNone(report.objects, buffer + [o]);
        return !a.Fatal?;
      }
      ok := AdmitAndDelete(o);
    }

    method AdmitAndDelete(o: S3Object) returns (ok: bool)
      requires Valid() && w.pc == Admit(o)
      requires Booked(orders)
      modifies world, store, engine.Hand(), report, this`buffer, this`w, this`path, this`orders
      ensures Booked(orders)
      ensures Valid() && Later(old(world.scene), world.scene)
      ensures if ok then w.pc.CheckCancel? else w.pc.Done?
      ensures c.dryRun ==> store.calls == old(store.calls) && store.Now() == old(store.Now())
      ensures Adds(old(report.objects), report.objects, old(buffer) + [o])
    {
      hide Stood, Booked;
      var over;
      ghost var v;
      ghost var objects, buffered := report.objects, buffer;
      over, ok, v := CheckMaxDelete(o);
      if over {
        AddsFromMore(objects, report.objects, buffered, o);
      } else {
        ok := BufferAndDelete(o, v);
      }
    }

    /** The next entry, or nothing when the queue is closed and empty or the cancellation was noticed first. */
    method Next() returns (o: Option<S3Object>, quit: bool)
      requires Valid() && w.pc.Select?
      modifies world, this`w, this`path
      ensures Valid() && Later(old(world.scene), world.scene)
      ensures match o
        case Some(x) => w.pc == Process(x) && world.scene.inp.taken > old(world.scene.inp.taken)
        case None => if quit then w.pc.Done? && world.scene.sh.cancelled else w.pc == Flush(ThenExit)
    {
      ghost var s := View();
      quit := world.AwaitInputOrCancel();
      StaysStood(s, world.scene);
      o := Take(quit);
    }

    method Take(quit: bool) returns (o: Option<S3Object>)
      requires Valid() && w.pc.Select?
      requires if quit then world.scene.sh.cancelled else world.scene.inp.Waiting() > 0 || world.scene.inClosed
      modifies world`scene, this`w, this`path
      ensures Valid() && Later(old(world.scene), world.scene)
      ensures match o
        case Some(x) => w.pc == Process(x) && world.scene.inp.taken == old(world.scene.inp.taken) + 1
        case None => w.pc == if quit then Done else Flush(ThenExit)
    {
      hide Trail, BufferOk, Known, Matches;
      ghost var v := View();
      if quit {
        Took(v, Quit);
        return None;
      }
      if world.scene.inp.Waiting() > 0 {
        var x := world.Receive();
        o := Some(x);
      } else {
        o := None;
      }
      Took(v, Go);
    }

    method CheckToken() returns (cancelled: bool)
      requires Valid() && w.pc.CheckCancel?
      modifies world, this`w, this`path
      ensures Valid() && Later(old(world.scene), world.scene)
      ensures w.pc == if cancelled then Done else Select
      ensures cancelled == world.scene.sh.cancelled
    {
      hide Trail, BufferOk, Known, Matches;
      Pause();
      cancelled := world.scene.sh.cancelled;
      Took(View(), Go);
    }

    /** The life of a worker. However the other tasks act in between, it goes from idle to done by steps of the
        network model alone, so it keeps everything that is proved of a worker there. The store has received the
        requests of its orders and no others: each dispatched batch is asked for once, in the order of dispatch,
        fallbacks included, and what is announced as deleted or failed is what the store replied; the report counts
        exactly what the store called deleted, with its sizes; a dry run does not touch the store; and nothing is removed but what was asked for, under its condition. */
    method ReceiveAndDelete() returns (ok: bool)
      requires Valid() && Booked(orders) && Ruled() && w == IDLE && path == [] && orders == []
      requires c.WellFormed() && first == store.Now()
      modifies world, store, engine.Hand(), report, this`buffer, this`w, this`path, this`orders
      ensures Valid() && w.pc.Done? && Trail(c, path, w, world.scene.sh.cancelled)
      ensures world.lasting ==> WorkerOk(c, world.scene.sh.cancelled, w)
      ensures world.lasting ==> forall o :: o in w.called ==> o in w.received && c.Wants(o)
      ensures store.calls == old(store.calls) + CallsOf(orders)
      ensures AllFulfilled(backend, orders)
      ensures
        if c.dryRun then store.calls == old(store.calls) && store.Now() == old(store.Now())
        else Matches(path, orders) && w.called == BatchesOf(orders)
      ensures Evolves(store.writers, backend.Targets(BatchesOf(orders)), old(store.Now()), store.Now())
      ensures AuthorisedOnly(backend, BatchesOf(orders), old(store.removed), store.removed)
      ensures report.objects == ReportedBy(path) && report.count == |ReportedBy(path)| && report.bytes == TotalSize(ReportedBy(path))
      ensures multiset(report.objects) <= multiset(w.dispatched)
      ensures !c.dryRun ==> Ids(report.objects) == DeletedOf(orders)
    {
      hide Trail, BufferOk, Known;
      ok := Work();
      Finishes();
      Accounts();
    }

    /** The loop itself. */
    method Work() returns (ok: bool)
      requires Valid() && Booked(orders) && Ruled() && w.pc.Select?
      modifies world, store, engine.Hand(), report, this`buffer, this`w, this`path, this`orders
      ensures Valid() && Booked(orders) && w.pc.Done?
    {
      hide Stood, Booked;
      ok := true;
      while true
        invariant Valid() && w.pc.Select? && Booked(orders)
        decreases world.limit - world.scene.inp.taken
      {
        var next, quit := Next();
        if next.None? {
          if !quit {
            ok := DeleteBufferedObjects(ThenExit);
          }
          break;
        }
        var go;
        ok, go := Handle(next.value);
        if !go {
          break;
        }
      }
    }

    /** One entry, and a look at the token after it. */
    method Handle(o: S3Object) returns (ok: bool, go: bool)
      requires Valid() && Booked(orders) && Ruled() && w.pc == Process(o)
      modifies world, store, engine.Hand(), report, this`buffer, this`w, this`path, this`orders
      ensures Valid() && Booked(orders) && Later(old(world.scene), world.scene)
      ensures w.pc == if go then Select else Done
    {
      hide Stood, Booked;
      ghost var s := world.scene;
      ok := ProcessObject(o);
      go := false;
      if ok {
        ghost var t := world.scene;
        var cancelled := CheckToken();
        LaterTransitive(s, t, world.scene);
        go := !cancelled;
      }
    }

    /** What a worker can say of itself when it is done. */
    lemma Finishes()
      requires Valid() && w.pc.Done? && c.WellFormed()
      ensures Trail(c, path, w, world.scene.sh.cancelled)
      ensures !c.dryRun ==> Matches(path, orders)
      ensures world.lasting ==> WorkerOk(c, world.scene.sh.cancelled, w)
      ensures world.lasting ==> forall o :: o in w.called ==> o in w.received && c.Wants(o)
      ensures !c.dryRun ==> w.called == BatchesOf(orders)
      ensures multiset(report.objects) <= multiset(w.dispatched)
      ensures !c.dryRun ==> Ids(report.objects) == DeletedOf(orders)
    {
      ReportedWasDispatched(c, path, w, world.scene.sh.cancelled);
      if world.lasting {
        TrailIsSafe(c, path, w, world.scene.sh.cancelled);
        forall o | o in w.called ensures o in w.received && c.Wants(o) {
          CalledIsWanted(c, world.scene.sh.cancelled, w, o);
        }
      }
      if !c.dryRun {
        TrailCalled(c, path, orders, w, world.scene.sh.cancelled);
        assert BatchesOf(orders) + [] == BatchesOf(orders);
        ReportedIsReplied(path, orders);
      }
    }

    /** And what it can say of the store. */
    lemma Accounts()
      requires Booked(orders)
      ensures store.calls == base + CallsOf(orders)
      ensures AllFulfilled(backend, orders)
      ensures Evolves(store.writers, backend.Targets(BatchesOf(orders)), first, store.Now())
      ensures AuthorisedOnly(backend, BatchesOf(orders), first.removed, store.removed)
      ensures c.dryRun ==> orders == [] && store.Now() == first && store.calls == base
    {
      EvolvedIsAuthorised(store.writers, backend, BatchesOf(orders), first, store.Now());
    }
  }
}
