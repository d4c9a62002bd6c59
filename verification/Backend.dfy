/** The two deletion back ends: one request per batch with a per-key fallback, and one request per object. */
module Backend {
  import opened Objects
  import opened Store

  const MAX_BATCH_SIZE := 1000

  datatype BackendConfig = BackendConfig(batchSize: nat, ifMatch: bool, forceRetryCount: nat)
  {
    /** The largest number of entries one batch request may name. */
    function ChunkSize(): nat {
      Min(batchSize, MAX_BATCH_SIZE)
    }

    function TargetFor(o: S3Object): Target {
      Target(o.Id(), if ifMatch then o.ETag() else None)
    }

    function Targets(os: seq<S3Object>): (ts: seq<Target>)
      ensures |ts| == |os|
      ensures forall k :: 0 <= k < |os| ==> ts[k] == TargetFor(os[k])
    {
      seq(|os|, k requires 0 <= k < |os| => TargetFor(os[k]))
    }
  }

  /** A request names listed entries by key and version, and carries their listed ETags if conditions are on. */
  lemma TargetsNameListed(cfg: BackendConfig, os: seq<S3Object>, t: Target)
    requires t in cfg.Targets(os)
    ensures exists o :: o in os && t == Target(Ident(o.key, if o.NotVersioning? then None else o.versionId), if cfg.ifMatch && !o.DeleteMarker? then o.tag else None)
  {
    var k :| 0 <= k < |os| && cfg.Targets(os)[k] == t;
    assert os[k] in os && t == cfg.TargetFor(os[k]);
  }

  function Asked(call: Call): seq<Target> {
    match call
    case BatchCall(targets, _) => targets
    case SingleCall(target, _) => [target]
  }

  datatype DeleteResult = DeleteResult(deleted: seq<Ident>, failed: seq<KeyError>)

  predicate IsRetryableErrorCode(code: string) {
    code in {"InternalError", "SlowDown", "ServiceUnavailable", "RequestTimeout", "unknown"}
  }

  /** The listed object behind an identity; of several, the last. */
  function Lookup(os: seq<S3Object>): map<Ident, S3Object> {
    if os == [] then map[] else Lookup(Front(os))[Last(os).Id() := Last(os)]
  }

  lemma {:induction false} LookupFinds(os: seq<S3Object>, id: Ident)
    ensures id in Lookup(os) <==> id in Ids(os)
    ensures id in Lookup(os) ==> Lookup(os)[id] in os && Lookup(os)[id].Id() == id
  {
    if os == [] {
      assert Ids(os) == [];
    } else {
      LookupFinds(Front(os), id);
      assert Ids(os) == Ids(Front(os)) + [Last(os).Id()];
    }
  }

  /** With distinct identities the lookup finds each object by its identity. */
  lemma {:induction false} LookupOfDistinct(os: seq<S3Object>, k: nat)
    requires k < |os|
    requires forall i, j :: 0 <= i < j < |os| ==> os[i].Id() != os[j].Id()
    ensures os[k].Id() in Lookup(os) && Lookup(os)[os[k].Id()] == os[k]
  {
    if k < |os| - 1 {
      LookupOfDistinct(Front(os), k);
    }
  }

  /** What the fallback asks for when the batch reply reports an error for `id`. */
  function FallbackTarget(cfg: BackendConfig, chunk: seq<S3Object>, id: Ident): Target {
    Target(id, if cfg.ifMatch && id in Lookup(chunk) then Lookup(chunk)[id].ETag() else None)
  }

  /** One fallback: up to `count` retries after the first attempt, stopping at the first success. */
  predicate Retries(cs: seq<Call>, t: Target, count: nat, ok: bool) {
    && 1 <= |cs| <= count + 1
    && (forall k :: 0 <= k < |cs| ==> cs[k].SingleCall? && cs[k].target == t)
    && (forall k :: 0 <= k < |cs| - 1 ==> cs[k].error.Some?)
    && (Last(cs).SingleCall? && Last(cs).error.None? <==> ok)
    && (!ok ==> |cs| == count + 1)
  }

  /** How one error of a batch reply was handled: the requests made for it, and whether one of them succeeded. */
  datatype Handling = Handling(error: KeyError, attempts: seq<Call>, won: bool)

  /** Single deletes only for retryable codes, and then between one and `forceRetryCount + 1` of them. */
  predicate HandledWell(cfg: BackendConfig, chunk: seq<S3Object>, h: Handling) {
    if IsRetryableErrorCode(h.error.code) then
      Retries(h.attempts, FallbackTarget(cfg, chunk, h.error.id), cfg.forceRetryCount, h.won)
    else
      h.attempts == [] && !h.won
  }

  function Attempts(hs: seq<Handling>): seq<Call> {
    if hs == [] then [] else Attempts(Front(hs)) + Last(hs).attempts
  }

  function Won(hs: seq<Handling>): seq<Ident> {
    if hs == [] then [] else Won(Front(hs)) + if Last(hs).won then [Last(hs).error.id] else []
  }

  function Lost(hs: seq<Handling>): seq<KeyError> {
    if hs == [] then [] else Lost(Front(hs)) + if Last(hs).won then [] else [Last(hs).error]
  }

  /** What one chunk led to: the reply to its batch request, and the handling of each error in the reply. */
  datatype ChunkRun = ChunkRun(reply: Reply, handlings: seq<Handling>)
  {
    function Calls(ts: seq<Target>): seq<Call> {
      [BatchCall(ts, Some(reply))] + Attempts(handlings)
    }

    function Deleted(): seq<Ident> {
      reply.deleted + Won(handlings)
    }

    function Failed(): seq<KeyError> {
      Lost(handlings)
    }
  }

  predicate HandlesErrors(cfg: BackendConfig, chunk: seq<S3Object>, errs: seq<KeyError>, hs: seq<Handling>) {
    && |hs| == |errs|
    && forall k :: 0 <= k < |hs| ==> hs[k].error == errs[k] && HandledWell(cfg, chunk, hs[k])
  }

  predicate RunsWell(cfg: BackendConfig, chunk: seq<S3Object>, run: ChunkRun) {
    && Decides(run.reply, cfg.Targets(chunk))
    && HandlesErrors(cfg, chunk, run.reply.errors, run.handlings)
  }

  lemma {:induction false} HandlingsPartition(hs: seq<Handling>, errs: seq<KeyError>)
    requires |hs| == |errs| && forall k :: 0 <= k < |hs| ==> hs[k].error == errs[k]
    ensures multiset(Won(hs)) + multiset(ErrorIds(Lost(hs))) == multiset(ErrorIds(errs))
  {
    if hs == [] {
      assert ErrorIds(errs) == [] && ErrorIds([]) == [];
    } else {
      HandlingsPartition(Front(hs), Front(errs));
      var err := Last(errs);
      var won := Last(hs).won;
      assert ErrorIds([err]) == [err.id] && ErrorIds([]) == [];
      JoinPartitions(Won(Front(hs)), Lost(Front(hs)), ErrorIds(Front(errs)),
        if won then [err.id] else [], if won then [] else [err], [err.id]);
      assert ErrorIds(errs) == ErrorIds(Front(errs)) + [err.id];
    }
  }

  /** A chunk's identities each end up deleted or failed, never both, never lost. */
  lemma ChunkPartition(cfg: BackendConfig, chunk: seq<S3Object>, run: ChunkRun)
    requires RunsWell(cfg, chunk, run)
    ensures multiset(run.Deleted()) + multiset(ErrorIds(run.Failed())) == multiset(Ids(chunk))
  {
    HandlingsPartition(run.handlings, run.reply.errors);
    assert TargetIds(cfg.Targets(chunk)) == Ids(chunk);
  }

  lemma {:induction false} AttemptsAreRequested(cfg: BackendConfig, chunk: seq<S3Object>, errs: seq<KeyError>, hs: seq<Handling>, c: Call)
    requires HandlesErrors(cfg, chunk, errs, hs) && c in Attempts(hs)
    ensures c.SingleCall?
    ensures exists k :: 0 <= k < |errs| && IsRetryableErrorCode(errs[k].code) && c.target == FallbackTarget(cfg, chunk, errs[k].id)
  {
    if c in Attempts(Front(hs)) {
      AttemptsAreRequested(cfg, chunk, Front(errs), Front(hs), c);
      var k :| 0 <= k < |Front(errs)| && IsRetryableErrorCode(Front(errs)[k].code) && c.target == FallbackTarget(cfg, chunk, Front(errs)[k].id);
      assert errs[k] == Front(errs)[k];
    } else {
      var n := |hs| - 1;
      assert HandledWell(cfg, chunk, hs[n]) && c in hs[n].attempts;
      assert IsRetryableErrorCode(errs[n].code);
    }
  }

  /** Every single delete that follows a batch request names an object of the chunk together with the condition
      under which that object was listed. */
  lemma FallbacksCarryTheETag(cfg: BackendConfig, chunk: seq<S3Object>, run: ChunkRun, c: Call)
    requires RunsWell(cfg, chunk, run)
    requires c in Attempts(run.handlings)
    ensures c.SingleCall? && c.target in cfg.Targets(chunk)
    ensures exists o :: o in chunk && c.target == Target(Ident(o.key, if o.NotVersioning? then None else o.versionId), if cfg.ifMatch && !o.DeleteMarker? then o.tag else None)
  {
    AttemptsAreRequested(cfg, chunk, run.reply.errors, run.handlings, c);
    var k :| 0 <= k < |run.reply.errors| && c.target == FallbackTarget(cfg, chunk, run.reply.errors[k].id);
    ErrorsAreOfChunk(cfg, chunk, run.reply);
    FallbackIsTarget(cfg, chunk, run.reply.errors[k].id);
    TargetsNameListed(cfg, chunk, c.target);
  }

  // The chunks of a list

  /** The number of chunks of at most `size` entries. */
  function ChunkCount(n: nat, size: nat): nat
    requires 0 < size
  {
    if n == 0 then 0 else 1 + ChunkCount(n - Min(n, size), size)
  }

  /** Where chunk `k` begins. */
  function Start(size: nat, k: nat): nat {
    if k == 0 then 0 else Start(size, k - 1) + size
  }

  lemma {:induction false} StartShifts(size: nat, k: nat)
    ensures Start(size, k + 1) == size + Start(size, k)
  {
    if k > 0 {
      StartShifts(size, k - 1);
    }
  }

  lemma {:induction false} ChunkStart(n: nat, size: nat, k: nat)
    requires 0 < size
    ensures k < ChunkCount(n, size) <==> Start(size, k) < n
    decreases k
  {
    if k > 0 {
      StartShifts(size, k - 1);
      ChunkStart(n - Min(n, size), size, k - 1);
    }
  }

  lemma {:induction false} StartIsProduct(size: nat, k: nat)
    ensures Start(size, k) == k * size
  {
    if k > 0 {
      StartIsProduct(size, k - 1);
      assert k * size == (k - 1) * size + size;
    }
  }

  lemma NextMultiple(a: nat, b: nat, size: nat)
    requires a < b
    ensures a * size + size <= b * size
  {
    assert b * size == (b - a - 1) * size + (a * size + size);
  }

  lemma QuotientIsUnique(m: nat, size: nat, k: nat)
    requires 0 < size && k * size <= m < k * size + size
    ensures m / size == k
  {
    var q := m / size;
    assert q * size <= m < q * size + size;
    if q < k {
      NextMultiple(q, k, size);
    } else if k < q {
      NextMultiple(k, q, size);
    }
  }

  /** The number of requests is the quotient rounded up. */
  lemma ChunkCountIsCeiling(n: nat, size: nat)
    requires 0 < size
    ensures ChunkCount(n, size) == (n + size - 1) / size
  {
    var k := ChunkCount(n, size);
    ChunkStart(n, size, k);
    StartIsProduct(size, k);
    if k > 0 {
      ChunkStart(n, size, k - 1);
    }
    QuotientIsUnique(n + size - 1, size, k);
  }

  function Chunk(os: seq<S3Object>, size: nat, k: nat): seq<S3Object> {
    os[Min(Start(size, k), |os|)..Min(Start(size, k) + size, |os|)]
  }

  /** Chunks are neither empty nor larger than a batch may be. */
  lemma ChunkFits(os: seq<S3Object>, size: nat, k: nat)
    requires 0 < size && k < ChunkCount(|os|, size)
    ensures 1 <= |Chunk(os, size, k)| <= size
    ensures k + 1 < ChunkCount(|os|, size) ==> |Chunk(os, size, k)| == size
    ensures forall o :: o in Chunk(os, size, k) ==> o in os
  {
    ChunkStart(|os|, size, k);
    ChunkStart(|os|, size, k + 1);
  }

  function AllCalls(cfg: BackendConfig, os: seq<S3Object>, runs: seq<ChunkRun>): seq<Call> {
    if runs == [] then []
    else AllCalls(cfg, os, Front(runs)) + Last(runs).Calls(cfg.Targets(Chunk(os, cfg.ChunkSize(), |runs| - 1)))
  }

  function AllDeleted(runs: seq<ChunkRun>): seq<Ident> {
    if runs == [] then [] else AllDeleted(Front(runs)) + Last(runs).Deleted()
  }

  function AllFailed(runs: seq<ChunkRun>): seq<KeyError> {
    if runs == [] then [] else AllFailed(Front(runs)) + Last(runs).Failed()
  }

  predicate AllWell(cfg: BackendConfig, os: seq<S3Object>, runs: seq<ChunkRun>) {
    forall k :: 0 <= k < |runs| ==> RunsWell(cfg, Chunk(os, cfg.ChunkSize(), k), runs[k])
  }

  /** The entries covered by the first `k` chunks. */
  function Covered(os: seq<S3Object>, size: nat, k: nat): seq<S3Object> {
    os[..Min(Start(size, k), |os|)]
  }

  lemma CoveredStep(os: seq<S3Object>, size: nat, k: nat)
    ensures Ids(Covered(os, size, k + 1)) == Ids(Covered(os, size, k)) + Ids(Chunk(os, size, k))
  {
    assert Covered(os, size, k + 1) == Covered(os, size, k) + Chunk(os, size, k);
  }

  lemma WellFront(cfg: BackendConfig, os: seq<S3Object>, runs: seq<ChunkRun>)
    requires runs != [] && AllWell(cfg, os, runs)
    ensures AllWell(cfg, os, Front(runs))
    ensures
      var chunk := Chunk(os, cfg.ChunkSize(), |runs| - 1);
      multiset(Last(runs).Deleted()) + multiset(ErrorIds(Last(runs).Failed())) == multiset(Ids(chunk))
  {
    var n := |runs| - 1;
    forall k | 0 <= k < n ensures RunsWell(cfg, Chunk(os, cfg.ChunkSize(), k), Front(runs)[k]) {
      assert Front(runs)[k] == runs[k];
    }
    assert RunsWell(cfg, Chunk(os, cfg.ChunkSize(), n), runs[n]);
    ChunkPartition(cfg, Chunk(os, cfg.ChunkSize(), n), runs[n]);
  }

  lemma JoinPartitions(a: seq<Ident>, f: seq<KeyError>, ids: seq<Ident>, b: seq<Ident>, g: seq<KeyError>, more: seq<Ident>)
    requires multiset(a) + multiset(ErrorIds(f)) == multiset(ids)
    requires multiset(b) + multiset(ErrorIds(g)) == multiset(more)
    ensures multiset(a + b) + multiset(ErrorIds(f + g)) == multiset(ids + more)
  {
    assert ErrorIds(f + g) == ErrorIds(f) + ErrorIds(g);
  }

  lemma {:induction false} PrefixPartition(cfg: BackendConfig, os: seq<S3Object>, runs: seq<ChunkRun>)
    requires AllWell(cfg, os, runs)
    ensures multiset(AllDeleted(runs)) + multiset(ErrorIds(AllFailed(runs))) == multiset(Ids(Covered(os, cfg.ChunkSize(), |runs|)))
  {
    if runs == [] {
      assert Ids(Covered(os, cfg.ChunkSize(), 0)) == [] && ErrorIds([]) == [];
    } else {
      WellFront(cfg, os, runs);
      PrefixPartition(cfg, os, Front(runs));
      CoveredStep(os, cfg.ChunkSize(), |runs| - 1);
      var front, last := Front(runs), Last(runs);
      JoinPartitions(AllDeleted(front), AllFailed(front), Ids(Covered(os, cfg.ChunkSize(), |front|)),
        last.Deleted(), last.Failed(), Ids(Chunk(os, cfg.ChunkSize(), |front|)));
    }
  }

  /** A batch deletion partitions its input: each identity is reported as deleted or as failed, as often as it was
      given, and as nothing else. */
  lemma BatchPartition(cfg: BackendConfig, os: seq<S3Object>, runs: seq<ChunkRun>)
    requires 0 < cfg.ChunkSize() && AllWell(cfg, os, runs)
    requires |runs| == ChunkCount(|os|, cfg.ChunkSize())
    ensures multiset(AllDeleted(runs)) + multiset(ErrorIds(AllFailed(runs))) == multiset(Ids(os))
  {
    PrefixPartition(cfg, os, runs);
    ChunkStart(|os|, cfg.ChunkSize(), |runs|);
    assert Covered(os, cfg.ChunkSize(), |runs|) == os;
  }

  /** With distinct identities, no identity is reported both as deleted and as failed, and none twice. */
  lemma EachExactlyOnce(os: seq<S3Object>, r: DeleteResult, id: Ident)
    requires multiset(r.deleted) + multiset(ErrorIds(r.failed)) == multiset(Ids(os))
    requires forall i, j :: 0 <= i < j < |os| ==> os[i].Id() != os[j].Id()
    ensures multiset(r.deleted)[id] + multiset(ErrorIds(r.failed))[id] == if id in Ids(os) then 1 else 0
  {
    DistinctCount(Ids(os), id);
    assert (multiset(r.deleted) + multiset(ErrorIds(r.failed)))[id] == multiset(Ids(os))[id];
  }

  lemma {:induction false} DistinctCount(ids: seq<Ident>, id: Ident)
    requires forall i, j :: 0 <= i < j < |ids| ==> ids[i] != ids[j]
    ensures multiset(ids)[id] == if id in ids then 1 else 0
  {
    if ids != [] {
      DistinctCount(Front(ids), id);
      assert ids == Front(ids) + [Last(ids)];
    }
  }

  /** The removal concerns a listed object; if that object was listed with an ETag and conditions are in force,
      it still had that ETag. */
  predicate Authorised(cfg: BackendConfig, os: seq<S3Object>, x: Removal) {
    exists k :: 0 <= k < |os| && os[k].Id() == x.id && (cfg.ifMatch && os[k].ETag().Some? ==> os[k].ETag().value == x.etag)
  }

  lemma PermittedIsAuthorised(cfg: BackendConfig, os: seq<S3Object>, chunk: seq<S3Object>, t: Target, x: Removal)
    requires t in cfg.Targets(chunk) && Permits(t, x)
    requires forall o :: o in chunk ==> o in os
    ensures Authorised(cfg, os, x)
  {
    var j :| 0 <= j < |chunk| && cfg.Targets(chunk)[j] == t;
    assert chunk[j] in os;
    var k :| 0 <= k < |os| && os[k] == chunk[j];
    assert os[k].Id() == x.id;
  }

  class BatchDeleter {
    const config: BackendConfig
    const target: Storage
    /** Keys for which an error message was sent to the progress reporter. */
    var errors: seq<string>

    constructor (config: BackendConfig, target: Storage)
      ensures this.config == config && this.target == target && errors == []
    {
      this.config, this.target, this.errors := config, target, [];
    }

    method RetryFailedKeyWithSingleDelete(t: Target) returns (ok: bool, ghost attempts: seq<Call>)
      modifies target
      ensures target.calls == old(target.calls) + attempts
      ensures 1 <= |attempts| <= config.forceRetryCount + 1 && (!ok ==> |attempts| == config.forceRetryCount + 1)
      ensures forall k :: 0 <= k < |attempts| ==> attempts[k].SingleCall? && attempts[k].target == t
      ensures forall k :: 0 <= k < |attempts| ==> (attempts[k].error.None? <==> ok && k == |attempts| - 1)
      ensures Retries(attempts, t, config.forceRetryCount, ok)
      ensures Evolves(target.writers, [t], old(target.Now()), target.Now())
    {
      attempts := [];
      ghost var first := target.Now();
      EvolvesNot(target.writers, [t], first);
      var attempt := 0;
      while attempt <= config.forceRetryCount
        invariant 0 <= attempt <= config.forceRetryCount + 1
        invariant |attempts| == attempt
        invariant target.calls == old(target.calls) + attempts
        invariant forall k :: 0 <= k < |attempts| ==> attempts[k].SingleCall? && attempts[k].target == t && attempts[k].error.Some?
        invariant Evolves(target.writers, [t], first, target.Now())
      {
        ghost var before := target.Now();
        var error := target.DeleteObject(t);
        EvolvesThen(target.writers, [t], first, before, target.Now());
        attempts := attempts + [SingleCall(t, error)];
        if error.None? {
          return true, attempts;
        }
        attempt := attempt + 1;
      }
      ok := false;
    }

    /** One error of a batch reply. */
    method HandleError(chunk: seq<S3Object>, lookup: map<Ident, S3Object>, err: KeyError) returns (won: bool, ghost h: Handling)
      requires err.id in Ids(chunk) && lookup == Lookup(chunk)
      modifies this`errors, target
      ensures h.error == err && h.won == won && HandledWell(config, chunk, h)
      ensures target.calls == old(target.calls) + h.attempts
      ensures errors == old(errors) + if won then [] else [err.id.key]
      ensures Evolves(target.writers, config.Targets(chunk), old(target.Now()), target.Now())
    {
      won, h := false, Handling(err, [], false);
      ghost var first := target.Now();
      EvolvesNot(target.writers, config.Targets(chunk), first);
      if IsRetryableErrorCode(err.code) {
        var etag := if config.ifMatch && err.id in lookup then lookup[err.id].ETag() else None;
        ghost var attempts;
        won, attempts := RetryFailedKeyWithSingleDelete(Target(err.id, etag));
        FallbackIsTarget(config, chunk, err.id);
        EvolvesAmong(target.writers, [Target(err.id, etag)], config.Targets(chunk), first, target.Now());
        h := Handling(err, attempts, won);
      }
      if !won {
        errors := errors + [err.id.key];
      }
    }

    /** Every error of a batch reply in turn. */
    method HandleErrors(chunk: seq<S3Object>, errs: seq<KeyError>) returns (deleted: seq<Ident>, failed: seq<KeyError>, ghost hs: seq<Handling>)
      requires forall k :: 0 <= k < |errs| ==> errs[k].id in Ids(chunk)
      modifies this`errors, target
      ensures HandlesErrors(config, chunk, errs, hs)
      ensures deleted == Won(hs) && failed == Lost(hs)
      ensures |hs| == |errs| && forall k :: 0 <= k < |errs| ==>
        if errs[k].code in {"InternalError", "SlowDown", "ServiceUnavailable", "RequestTimeout", "unknown"}
        then
          && 1 <= |hs[k].attempts| <= config.forceRetryCount + 1
          && (if Last(hs[k].attempts).SingleCall? && Last(hs[k].attempts).error.None? then errs[k].id in deleted
              else errs[k] in failed && |hs[k].attempts| == config.forceRetryCount + 1)
        else hs[k].attempts == [] && errs[k] in failed
      ensures target.calls == old(target.calls) + Attempts(hs)
      ensures errors == old(errors) + Keys(failed)
      ensures Evolves(target.writers, config.Targets(chunk), old(target.Now()), target.Now())
    {
      deleted, failed, hs := [], [], [];
      var lookup := Lookup(chunk);
      ghost var first := target.Now();
      EvolvesNot(target.writers, config.Targets(chunk), first);
      for k := 0 to |errs|
        invariant HandlesErrors(config, chunk, errs[..k], hs)
        invariant deleted == Won(hs) && failed == Lost(hs)
        invariant target.calls == old(target.calls) + Attempts(hs)
        invariant errors == old(errors) + Keys(failed)
        invariant Evolves(target.writers, config.Targets(chunk), first, target.Now())
      {
        ghost var before, keys := target.Now(), Keys(failed);
        var won, h := HandleError(chunk, lookup, errs[k]);
        EvolvesThen(target.writers, config.Targets(chunk), first, before, target.Now());
        AppendAssociative(old(target.calls), Attempts(hs), h.attempts);
        AppendAssociative(old(errors), keys, if won then [] else [errs[k].id.key]);
        HandlingsStep(hs, h);
        HandlesStep(config, chunk, errs, k, hs, h);
        if won {
          deleted := deleted + [errs[k].id];
        } else {
          failed := failed + [errs[k]];
        }
        hs := hs + [h];
      }
      assert errs[..|errs|] == errs;
      HandledOutcomes(config, chunk, errs, hs);
    }

    /** One chunk: its batch request, then the errors of the reply. */
    method DeleteChunk(chunk: seq<S3Object>) returns (result: Option<DeleteResult>, ghost run: ChunkRun)
      modifies this`errors, target
      ensures result.Some? ==>
        && RunsWell(config, chunk, run)
        && result.value == DeleteResult(run.Deleted(), run.Failed())
        && run.reply.deleted <= result.value.deleted
        && (forall k :: 0 <= k < |run.reply.errors| ==>
              if run.reply.errors[k].code in {"InternalError", "SlowDown", "ServiceUnavailable", "RequestTimeout", "unknown"}
              then 1 <= |run.handlings[k].attempts| <= config.forceRetryCount + 1
              else run.handlings[k].attempts == [] && run.reply.errors[k] in result.value.failed)
        && target.calls == old(target.calls) + run.Calls(config.Targets(chunk))
        && errors == old(errors) + Keys(run.Failed())
      ensures result.None? ==>
        && target.calls == old(target.calls) + [BatchCall(config.Targets(chunk), None)]
        && errors == old(errors)
      ensures Evolves(target.writers, config.Targets(chunk), old(target.Now()), target.Now())
    {
      run := ChunkRun(Reply([], []), []);
      var reply := target.DeleteObjects(config.Targets(chunk));
      if reply.None? {
        return None, run;
      }
      ghost var before := target.Now();
      ErrorsAreOfChunk(config, chunk, reply.value);
      var deleted, failed, hs := HandleErrors(chunk, reply.value.errors);
      EvolvesThen(target.writers, config.Targets(chunk), old(target.Now()), before, target.Now());
      run := ChunkRun(reply.value, hs);
      AppendAssociative(old(target.calls), [BatchCall(config.Targets(chunk), reply)], Attempts(hs));
      result := Some(DeleteResult(reply.value.deleted + deleted, failed));
    }

    /** The next chunk of a list of which the first `|runs|` chunks are done. */
    method DeleteNext(objects: seq<S3Object>, chunk: seq<S3Object>, ghost runs: seq<ChunkRun>, ghost first: Log)
      returns (result: Option<DeleteResult>, ghost run: ChunkRun)
      requires 0 < config.ChunkSize() && |runs| < ChunkCount(|objects|, config.ChunkSize())
      requires chunk == Chunk(objects, config.ChunkSize(), |runs|)
      requires Done(target.writers, config, objects, runs, first, Log(target.calls, errors, target.Now()))
      modifies this`errors, target
      ensures result.Some? ==>
        && result.value == DeleteResult(run.Deleted(), run.Failed())
        && Done(target.writers, config, objects, runs + [run], first, Log(target.calls, errors, target.Now()))
      ensures result.None? ==> CutShort(target.writers, config, objects, runs, first, Log(target.calls, errors, target.Now()))
    {
      ghost var before := Log(target.calls, errors, target.Now());
      result, run := DeleteChunk(chunk);
      ChunkIsAmong(config, objects, chunk);
      EvolvesAmong(target.writers, config.Targets(chunk), config.Targets(objects), before.shelf, target.Now());
      EvolvesThen(target.writers, config.Targets(objects), first.shelf, before.shelf, target.Now());
      if result.Some? {
        DoneStep(target.writers, config, objects, runs, run, first, before, Log(target.calls, errors, target.Now()));
      }
    }

    /** The chunk that begins at entry `i`. */
    method DeleteAt(objects: seq<S3Object>, i: nat, ghost r: DeleteResult, ghost runs: seq<ChunkRun>, ghost first: Log)
      returns (result: Option<DeleteResult>, ghost run: ChunkRun)
      requires 0 < config.ChunkSize() && i < |objects|
      requires Progress(target.writers, config, objects, i, r, runs, first, Log(target.calls, errors, target.Now()))
      modifies this`errors, target
      ensures result.Some? ==>
        Progress(target.writers, config, objects, i + config.ChunkSize(),
          DeleteResult(r.deleted + result.value.deleted, r.failed + result.value.failed), runs + [run],
          first, Log(target.calls, errors, target.Now()))
      ensures result.None? ==> CutShort(target.writers, config, objects, runs, first, Log(target.calls, errors, target.Now()))
    {
      var size := config.ChunkSize();
      var chunk := objects[i..Min(i + size, |objects|)];
      ChunkAt(objects, size, |runs|, i);
      result, run := DeleteNext(objects, chunk, runs, first);
      if result.Some? {
        ProgressStep(target.writers, config, objects, i, r, runs, run, first, Log(target.calls, errors, target.Now()));
      }
    }

    method Delete(objects: seq<S3Object>) returns (result: Option<DeleteResult>, ghost runs: seq<ChunkRun>)
      requires objects == [] || 0 < config.batchSize
      modifies this`errors, target
      ensures result.Some? ==>
        Completed(target.writers, config, objects, runs, result.value, old(Log(target.calls, errors, target.Now())), Log(target.calls, errors, target.Now()))
      ensures result.None? ==>
        CutShort(target.writers, config, objects, runs, old(Log(target.calls, errors, target.Now())), Log(target.calls, errors, target.Now()))
      ensures Evolves(target.writers, config.Targets(objects), old(target.Now()), target.Now())
      ensures result.Some? && objects != [] ==>
        var size := if config.batchSize < 1000 then config.batchSize else 1000;
        |runs| == (|objects| + size - 1) / size
      ensures old(target.calls) <= target.calls
      ensures forall call :: call in target.calls[|old(target.calls)|..] && call.BatchCall? ==>
        1 <= |call.targets| <= config.batchSize && |call.targets| <= 1000
      ensures forall call, t :: call in target.calls[|old(target.calls)|..] && t in Asked(call) ==>
        exists o :: o in objects && t == Target(Ident(o.key, if o.NotVersioning? then None else o.versionId), if config.ifMatch && !o.DeleteMarker? then o.tag else None)
    {
      hide Evolves, CutShort, Completed, Asked;
      if objects == [] {
        NothingDone(target.writers, config, Log(target.calls, errors, target.Now()));
        assert target.calls[|target.calls|..] == [];
        return Some(DeleteResult([], [])), [];
      }
      ghost var before := Log(target.calls, errors, target.Now());
      result, runs := DeleteChunks(objects);
      if result.Some? {
        CompletedRequests(target.writers, config, objects, runs, result.value, before, Log(target.calls, errors, target.Now()));
      } else {
        CutShortRequests(target.writers, config, objects, runs, before, Log(target.calls, errors, target.Now()));
      }
    }

    method DeleteChunks(objects: seq<S3Object>) returns (result: Option<DeleteResult>, ghost runs: seq<ChunkRun>)
      requires objects != [] && 0 < config.batchSize
      modifies this`errors, target
      ensures result.Some? ==>
        Completed(target.writers, config, objects, runs, result.value, old(Log(target.calls, errors, target.Now())), Log(target.calls, errors, target.Now()))
      ensures result.None? ==>
        CutShort(target.writers, config, objects, runs, old(Log(target.calls, errors, target.Now())), Log(target.calls, errors, target.Now()))
    {
      var deleted, failed := [], [];
      runs := [];
      var size := config.ChunkSize();
      var i := 0;
      ghost var log := Log(target.calls, errors, target.Now());
      NothingDoneYet(target.writers, config, objects, log);
      while i < |objects|
        invariant Progress(target.writers, config, objects, i, DeleteResult(deleted, failed), runs, log, Log(target.calls, errors, target.Now()))
      {
        var outcome, run := DeleteAt(objects, i, DeleteResult(deleted, failed), runs, log);
        if outcome.None? {
          return None, runs;
        }
        deleted, failed := deleted + outcome.value.deleted, failed + outcome.value.failed;
        runs := runs + [run];
        i := i + size;
      }
      ChunkStart(|objects|, size, |runs|);
      result := Some(DeleteResult(deleted, failed));
    }
  }

  /** What the outside has seen of a batch deletion: requests, error messages and the state of the store. */
  datatype Log = Log(calls: seq<Call>, errors: seq<string>, shelf: Shelf)

  /** The first `|runs|` chunks of `os` are done, and they account for everything that was added to the log. */
  ghost predicate Done(w: Writers, cfg: BackendConfig, os: seq<S3Object>, runs: seq<ChunkRun>, first: Log, now: Log) {
    && AllWell(cfg, os, runs)
    && now.calls == first.calls + AllCalls(cfg, os, runs)
    && now.errors == first.errors + Keys(AllFailed(runs))
    && Evolves(w, cfg.Targets(os), first.shelf, now.shelf)
  }

  /** All chunks are done, and the result is what they add up to. */
  ghost predicate Completed(w: Writers, cfg: BackendConfig, os: seq<S3Object>, runs: seq<ChunkRun>, r: DeleteResult, first: Log, now: Log) {
    && Done(w, cfg, os, runs, first, now)
    && (if os == [] then runs == [] else 0 < cfg.ChunkSize() && |runs| == ChunkCount(|os|, cfg.ChunkSize()))
    && r == DeleteResult(AllDeleted(runs), AllFailed(runs))
  }

  /** The batch request of the next chunk failed as a whole: nothing was asked of the store after it. */
  ghost predicate CutShort(w: Writers, cfg: BackendConfig, os: seq<S3Object>, runs: seq<ChunkRun>, first: Log, now: Log) {
    && AllWell(cfg, os, runs)
    && 0 < cfg.ChunkSize() && |runs| < ChunkCount(|os|, cfg.ChunkSize())
    && now.calls == first.calls + AllCalls(cfg, os, runs) + [BatchCall(cfg.Targets(Chunk(os, cfg.ChunkSize(), |runs|)), None)]
    && now.errors == first.errors + Keys(AllFailed(runs))
    && Evolves(w, cfg.Targets(os), first.shelf, now.shelf)
  }

  /** The loop over the chunks has come to entry `i` with the result `r`. */
  ghost predicate Progress(w: Writers, cfg: BackendConfig, os: seq<S3Object>, i: nat, r: DeleteResult, runs: seq<ChunkRun>, first: Log, now: Log) {
    && 0 < cfg.ChunkSize()
    && i == Start(cfg.ChunkSize(), |runs|) && |runs| <= ChunkCount(|os|, cfg.ChunkSize())
    && r == DeleteResult(AllDeleted(runs), AllFailed(runs))
    && Done(w, cfg, os, runs, first, now)
  }

  lemma ChunkNamesListed(cfg: BackendConfig, os: seq<S3Object>, chunk: seq<S3Object>, t: Target)
    requires t in cfg.Targets(chunk) && forall o :: o in chunk ==> o in os
    ensures t in cfg.Targets(os)
  {
    ChunkIsAmong(cfg, os, chunk);
  }

  lemma ChunkIsPart(os: seq<S3Object>, size: nat, k: nat)
    ensures forall o :: o in Chunk(os, size, k) ==> o in os
  {
  }

  lemma {:induction false} AllCallsAsk(cfg: BackendConfig, os: seq<S3Object>, runs: seq<ChunkRun>, call: Call, t: Target)
    requires AllWell(cfg, os, runs) && call in AllCalls(cfg, os, runs) && t in Asked(call)
    ensures t in cfg.Targets(os)
  {
    var n := |runs| - 1;
    var chunk, run := Chunk(os, cfg.ChunkSize(), n), Last(runs);
    if call in AllCalls(cfg, os, Front(runs)) {
      WellFront(cfg, os, runs);
      AllCallsAsk(cfg, os, Front(runs), call, t);
    } else {
      assert RunsWell(cfg, chunk, runs[n]);
      ChunkIsPart(os, cfg.ChunkSize(), n);
      if call in Attempts(run.handlings) {
        FallbacksCarryTheETag(cfg, chunk, run, call);
      }
      ChunkNamesListed(cfg, os, chunk, t);
    }
  }

  lemma {:induction false} AllCallsFit(cfg: BackendConfig, os: seq<S3Object>, runs: seq<ChunkRun>, call: Call)
    requires AllWell(cfg, os, runs) && 0 < cfg.ChunkSize() && |runs| <= ChunkCount(|os|, cfg.ChunkSize())
    requires call in AllCalls(cfg, os, runs) && call.BatchCall?
    ensures 1 <= |call.targets| <= cfg.batchSize && |call.targets| <= 1000
  {
    var n := |runs| - 1;
    if call in AllCalls(cfg, os, Front(runs)) {
      WellFront(cfg, os, runs);
      AllCallsFit(cfg, os, Front(runs), call);
    } else {
      assert RunsWell(cfg, Chunk(os, cfg.ChunkSize(), n), runs[n]);
      ChunkFits(os, cfg.ChunkSize(), n);
      if call in Attempts(runs[n].handlings) {
        FallbacksCarryTheETag(cfg, Chunk(os, cfg.ChunkSize(), n), runs[n], call);
      }
    }
  }

  lemma BatchesFitLimit(cfg: BackendConfig, os: seq<S3Object>, runs: seq<ChunkRun>, before: seq<Call>, after: seq<Call>, complete: bool)
    requires AllWell(cfg, os, runs) && 0 < cfg.ChunkSize()
    requires if complete then |runs| <= ChunkCount(|os|, cfg.ChunkSize()) else |runs| < ChunkCount(|os|, cfg.ChunkSize())
    requires
      if complete then after == before + AllCalls(cfg, os, runs)
      else after == before + AllCalls(cfg, os, runs) + [BatchCall(cfg.Targets(Chunk(os, cfg.ChunkSize(), |runs|)), None)]
    ensures before <= after
    ensures forall call :: call in after[|before|..] && call.BatchCall? ==>
      1 <= |call.targets| <= cfg.batchSize && |call.targets| <= 1000
  {
    hide AllCalls, AllWell, Chunk, ChunkCount;
    var last := if complete then [] else [BatchCall(cfg.Targets(Chunk(os, cfg.ChunkSize(), |runs|)), None)];
    assert after[|before|..] == AllCalls(cfg, os, runs) + last;
    forall call | call in after[|before|..] && call.BatchCall?
      ensures 1 <= |call.targets| <= cfg.batchSize && |call.targets| <= 1000
    {
      if call in AllCalls(cfg, os, runs) {
        AllCallsFit(cfg, os, runs, call);
      } else {
        ChunkFits(os, cfg.ChunkSize(), |runs|);
      }
    }
  }

  /** Every request of a batch deletion, fallbacks included, names listed entries under their listed ETags. */
  lemma CallsNameListed(cfg: BackendConfig, os: seq<S3Object>, runs: seq<ChunkRun>, before: seq<Call>, after: seq<Call>, complete: bool)
    requires AllWell(cfg, os, runs)
    requires
      if complete then after == before + AllCalls(cfg, os, runs)
      else after == before + AllCalls(cfg, os, runs) + [BatchCall(cfg.Targets(Chunk(os, cfg.ChunkSize(), |runs|)), None)]
    ensures before <= after
    ensures forall call, t :: call in after[|before|..] && t in Asked(call) ==>
      exists o :: o in os && t == Target(Ident(o.key, if o.NotVersioning? then None else o.versionId), if cfg.ifMatch && !o.DeleteMarker? then o.tag else None)
  {
    hide AllCalls, AllWell, Chunk;
    var last := if complete then [] else [BatchCall(cfg.Targets(Chunk(os, cfg.ChunkSize(), |runs|)), None)];
    assert after[|before|..] == AllCalls(cfg, os, runs) + last;
    forall call, t | call in after[|before|..] && t in Asked(call)
      ensures exists o :: o in os && t == Target(Ident(o.key, if o.NotVersioning? then None else o.versionId), if cfg.ifMatch && !o.DeleteMarker? then o.tag else None)
    {
      if call in AllCalls(cfg, os, runs) {
        AllCallsAsk(cfg, os, runs, call, t);
      } else {
        ChunkIsPart(os, cfg.ChunkSize(), |runs|);
        ChunkNamesListed(cfg, os, Chunk(os, cfg.ChunkSize(), |runs|), t);
      }
      TargetsNameListed(cfg, os, t);
    }
  }

  /** The requests of a batch deletion, as they can be told from the listed fields and the settings. */
  lemma CompletedRequests(w: Writers, cfg: BackendConfig, os: seq<S3Object>, runs: seq<ChunkRun>, r: DeleteResult, first: Log, now: Log)
    requires Completed(w, cfg, os, runs, r, first, now) && os != []
    ensures
      var size := if cfg.batchSize < 1000 then cfg.batchSize else 1000;
      0 < size && |runs| == (|os| + size - 1) / size
    ensures Evolves(w, cfg.Targets(os), first.shelf, now.shelf) && first.calls <= now.calls
    ensures forall call :: call in now.calls[|first.calls|..] && call.BatchCall? ==>
      1 <= |call.targets| <= cfg.batchSize && |call.targets| <= 1000
    ensures forall call, t :: call in now.calls[|first.calls|..] && t in Asked(call) ==>
      exists o :: o in os && t == Target(Ident(o.key, if o.NotVersioning? then None else o.versionId), if cfg.ifMatch && !o.DeleteMarker? then o.tag else None)
  {
    CallsNameListed(cfg, os, runs, first.calls, now.calls, true);
    BatchesFitLimit(cfg, os, runs, first.calls, now.calls, true);
    ChunkCountIsCeiling(|os|, cfg.ChunkSize());
  }

  lemma CutShortRequests(w: Writers, cfg: BackendConfig, os: seq<S3Object>, runs: seq<ChunkRun>, first: Log, now: Log)
    requires CutShort(w, cfg, os, runs, first, now)
    ensures Evolves(w, cfg.Targets(os), first.shelf, now.shelf) && first.calls <= now.calls
    ensures forall call :: call in now.calls[|first.calls|..] && call.BatchCall? ==>
      1 <= |call.targets| <= cfg.batchSize && |call.targets| <= 1000
    ensures forall call, t :: call in now.calls[|first.calls|..] && t in Asked(call) ==>
      exists o :: o in os && t == Target(Ident(o.key, if o.NotVersioning? then None else o.versionId), if cfg.ifMatch && !o.DeleteMarker? then o.tag else None)
  {
    CallsNameListed(cfg, os, runs, first.calls, now.calls, false);
    BatchesFitLimit(cfg, os, runs, first.calls, now.calls, false);
  }

  lemma ProgressStep(w: Writers, cfg: BackendConfig, os: seq<S3Object>, i: nat, r: DeleteResult, runs: seq<ChunkRun>, run: ChunkRun, first: Log, now: Log)
    requires 0 < cfg.ChunkSize() && i == Start(cfg.ChunkSize(), |runs|) && |runs| < ChunkCount(|os|, cfg.ChunkSize())
    requires r == DeleteResult(AllDeleted(runs), AllFailed(runs))
    requires Done(w, cfg, os, runs + [run], first, now)
    ensures Progress(w, cfg, os, i + cfg.ChunkSize(), DeleteResult(r.deleted + run.Deleted(), r.failed + run.Failed()), runs + [run], first, now)
  {
    hide Done, AllDeleted, AllFailed, ChunkCount;
    ResultNext(runs, run);
    StartNext(cfg.ChunkSize(), |runs|);
    assert |runs + [run]| == |runs| + 1;
  }

  lemma ResultNext(runs: seq<ChunkRun>, run: ChunkRun)
    ensures AllDeleted(runs + [run]) == AllDeleted(runs) + run.Deleted()
    ensures AllFailed(runs + [run]) == AllFailed(runs) + run.Failed()
  {
    assert Front(runs + [run]) == runs;
  }

  lemma StartNext(size: nat, k: nat)
    ensures Start(size, k + 1) == Start(size, k) + size
  {
  }

  lemma ChunkAt(os: seq<S3Object>, size: nat, k: nat, i: nat)
    requires 0 < size && i == Start(size, k) && i < |os|
    ensures k < ChunkCount(|os|, size)
    ensures os[i..Min(i + size, |os|)] == Chunk(os, size, k)
  {
    ChunkStart(|os|, size, k);
  }

  lemma NothingDoneYet(w: Writers, cfg: BackendConfig, os: seq<S3Object>, log: Log)
    ensures Done(w, cfg, os, [], log, log)
  {
    EvolvesNot(w, cfg.Targets(os), log.shelf);
  }

  lemma NothingDone(w: Writers, cfg: BackendConfig, log: Log)
    ensures Completed(w, cfg, [], [], DeleteResult([], []), log, log)
    ensures Evolves(w, cfg.Targets([]), log.shelf, log.shelf)
  {
    NothingDoneYet(w, cfg, [], log);
  }

  lemma DoneStep(w: Writers, cfg: BackendConfig, os: seq<S3Object>, runs: seq<ChunkRun>, run: ChunkRun, first: Log, before: Log, now: Log)
    requires Done(w, cfg, os, runs, first, before)
    requires RunsWell(cfg, Chunk(os, cfg.ChunkSize(), |runs|), run)
    requires now.calls == before.calls + run.Calls(cfg.Targets(Chunk(os, cfg.ChunkSize(), |runs|)))
    requires now.errors == before.errors + Keys(run.Failed())
    requires Evolves(w, cfg.Targets(os), first.shelf, now.shelf)
    ensures Done(w, cfg, os, runs + [run], first, now)
  {
    WellStep(cfg, os, runs, run);
    RunsStep(cfg, os, runs, run);
    AppendAssociative(first.calls, AllCalls(cfg, os, runs), run.Calls(cfg.Targets(Chunk(os, cfg.ChunkSize(), |runs|))));
    AppendAssociative(first.errors, Keys(AllFailed(runs)), Keys(run.Failed()));
  }

  lemma HandlesStep(cfg: BackendConfig, chunk: seq<S3Object>, errs: seq<KeyError>, k: nat, hs: seq<Handling>, h: Handling)
    requires k < |errs| && HandlesErrors(cfg, chunk, errs[..k], hs)
    requires h.error == errs[k] && HandledWell(cfg, chunk, h)
    ensures HandlesErrors(cfg, chunk, errs[..k + 1], hs + [h])
  {
    var next := hs + [h];
    forall j | 0 <= j < |next| ensures next[j].error == errs[..k + 1][j] && HandledWell(cfg, chunk, next[j]) {
      if j < k {
        assert next[j] == hs[j] && errs[..k][j] == errs[j];
      }
    }
  }

  lemma {:induction false} OutcomeOf(hs: seq<Handling>, k: nat)
    requires k < |hs|
    ensures if hs[k].won then hs[k].error.id in Won(hs) else hs[k].error in Lost(hs)
  {
    if k < |hs| - 1 {
      OutcomeOf(Front(hs), k);
    }
  }

  /** Which codes lead to single deletes, how many, and what becomes of the key. */
  lemma HandledOutcomes(cfg: BackendConfig, chunk: seq<S3Object>, errs: seq<KeyError>, hs: seq<Handling>)
    requires HandlesErrors(cfg, chunk, errs, hs)
    ensures |hs| == |errs| && forall k :: 0 <= k < |errs| ==>
      if errs[k].code in {"InternalError", "SlowDown", "ServiceUnavailable", "RequestTimeout", "unknown"}
      then
        && 1 <= |hs[k].attempts| <= cfg.forceRetryCount + 1
        && (if Last(hs[k].attempts).SingleCall? && Last(hs[k].attempts).error.None? then errs[k].id in Won(hs)
            else errs[k] in Lost(hs) && |hs[k].attempts| == cfg.forceRetryCount + 1)
      else hs[k].attempts == [] && errs[k] in Lost(hs)
  {
    forall k | 0 <= k < |errs|
      ensures
        if errs[k].code in {"InternalError", "SlowDown", "ServiceUnavailable", "RequestTimeout", "unknown"}
        then
          && 1 <= |hs[k].attempts| <= cfg.forceRetryCount + 1
          && (if Last(hs[k].attempts).SingleCall? && Last(hs[k].attempts).error.None? then errs[k].id in Won(hs)
              else errs[k] in Lost(hs) && |hs[k].attempts| == cfg.forceRetryCount + 1)
        else hs[k].attempts == [] && errs[k] in Lost(hs)
    {
      assert HandledWell(cfg, chunk, hs[k]);
      OutcomeOf(hs, k);
    }
  }

  lemma HandlingsStep(hs: seq<Handling>, h: Handling)
    ensures Attempts(hs + [h]) == Attempts(hs) + h.attempts
    ensures Won(hs + [h]) == Won(hs) + if h.won then [h.error.id] else []
    ensures Lost(hs + [h]) == Lost(hs) + if h.won then [] else [h.error]
    ensures Keys(Lost(hs + [h])) == Keys(Lost(hs)) + if h.won then [] else [h.error.id.key]
  {
    assert Front(hs + [h]) == hs;
    if h.won {
      assert Lost(hs) + [] == Lost(hs);
    } else {
      KeysAppend(Lost(hs), [h.error]);
      assert Front([h.error]) == [];
      assert Keys([h.error]) == [h.error.id.key];
    }
  }

  lemma WellStep(cfg: BackendConfig, os: seq<S3Object>, runs: seq<ChunkRun>, run: ChunkRun)
    requires AllWell(cfg, os, runs)
    requires RunsWell(cfg, Chunk(os, cfg.ChunkSize(), |runs|), run)
    ensures AllWell(cfg, os, runs + [run])
  {
    var next := runs + [run];
    forall k | 0 <= k < |next| ensures RunsWell(cfg, Chunk(os, cfg.ChunkSize(), k), next[k]) {
      if k < |runs| {
        assert next[k] == runs[k];
      }
    }
  }

  lemma RunsStep(cfg: BackendConfig, os: seq<S3Object>, runs: seq<ChunkRun>, run: ChunkRun)
    ensures AllCalls(cfg, os, runs + [run]) == AllCalls(cfg, os, runs) + run.Calls(cfg.Targets(Chunk(os, cfg.ChunkSize(), |runs|)))
    ensures AllDeleted(runs + [run]) == AllDeleted(runs) + run.Deleted()
    ensures AllFailed(runs + [run]) == AllFailed(runs) + run.Failed()
    ensures Keys(AllFailed(runs + [run])) == Keys(AllFailed(runs)) + Keys(run.Failed())
  {
    assert Front(runs + [run]) == runs;
    KeysAppend(AllFailed(runs), run.Failed());
  }

  function Keys(es: seq<KeyError>): seq<string> {
    if es == [] then [] else Keys(Front(es)) + [Last(es).id.key]
  }

  lemma {:induction false} KeysAppend(a: seq<KeyError>, b: seq<KeyError>)
    ensures Keys(a + b) == Keys(a) + Keys(b)
  {
    if b == [] {
      assert a + b == a;
    } else {
      assert Front(a + b) == a + Front(b);
      KeysAppend(a, Front(b));
    }
  }

  lemma FallbackIsTarget(cfg: BackendConfig, chunk: seq<S3Object>, id: Ident)
    requires id in Ids(chunk)
    ensures exists j :: 0 <= j < |chunk| && cfg.Targets(chunk)[j] == FallbackTarget(cfg, chunk, id)
  {
    LookupFinds(chunk, id);
    var j :| 0 <= j < |chunk| && chunk[j] == Lookup(chunk)[id];
    assert cfg.Targets(chunk)[j] == FallbackTarget(cfg, chunk, id);
  }

  lemma ErrorsAreOfChunk(cfg: BackendConfig, chunk: seq<S3Object>, reply: Reply)
    requires Decides(reply, cfg.Targets(chunk))
    ensures forall k :: 0 <= k < |reply.errors| ==> reply.errors[k].id in Ids(chunk)
  {
    assert TargetIds(cfg.Targets(chunk)) == Ids(chunk);
    forall k | 0 <= k < |reply.errors| ensures reply.errors[k].id in Ids(chunk) {
      assert ErrorIds(reply.errors)[k] in multiset(ErrorIds(reply.errors));
      assert reply.errors[k].id in multiset(Ids(chunk));
    }
  }

  predicate AuthorisedOnly(cfg: BackendConfig, os: seq<S3Object>, before: seq<Removal>, after: seq<Removal>) {
    && before <= after
    && forall x :: x in after[|before|..] ==> Authorised(cfg, os, x)
  }

  /** Only listed entries are removed, and with if-match only under the ETag they were listed with. */
  lemma EvolvedIsAuthorised(w: Writers, cfg: BackendConfig, os: seq<S3Object>, a: Shelf, b: Shelf)
    requires Evolves(w, cfg.Targets(os), a, b)
    ensures AuthorisedOnly(cfg, os, a.removed, b.removed)
    ensures a.removed <= b.removed && forall x :: x in b.removed[|a.removed|..] ==>
      exists o ::
        && o in os && x.id == Ident(o.key, if o.NotVersioning? then None else o.versionId)
        && (cfg.ifMatch && !o.DeleteMarker? && o.tag.Some? ==> x.etag == o.tag.value)
  {
    forall x | x in b.removed[|a.removed|..]
      ensures Authorised(cfg, os, x)
      ensures exists o ::
        && o in os && x.id == Ident(o.key, if o.NotVersioning? then None else o.versionId)
        && (cfg.ifMatch && !o.DeleteMarker? && o.tag.Some? ==> x.etag == o.tag.value)
    {
      assert Permitted(cfg.Targets(os), x);
      var k :| 0 <= k < |os| && Permits(cfg.Targets(os)[k], x);
      PermittedIsAuthorised(cfg, os, os, cfg.Targets(os)[k], x);
      assert os[k] in os;
    }
  }

  /** Optimistic locking. An entry was listed with an ETag. Unless the other clients alone would have left it under
      that very ETag at the end, it is exactly as they would have left it: overwritten once or often, deleted by them
      or stored again, no request of ours has made a difference. */
  lemma OverwrittenObjectsSurvive(w: Writers, cfg: BackendConfig, os: seq<S3Object>, a: Shelf, b: Shelf, k: nat, e: string)
    requires Evolves(w, cfg.Targets(os), a, b)
    requires cfg.ifMatch && k < |os| && !os[k].DeleteMarker? && os[k].tag == Some(e)
    requires forall i, j :: 0 <= i < j < |os| ==> os[i].Id() != os[j].Id()
    ensures
      var id := Ident(os[k].key, if os[k].NotVersioning? then None else os[k].versionId);
      var alone := Alone(w, id, Found(a.current, id), a.asked, b.asked);
      alone != Some(e) ==> Found(b.current, id) == alone
  {
    var ts, id := cfg.Targets(os), os[k].Id();
    var now, alone := Found(b.current, id), Alone(w, id, Found(a.current, id), a.asked, b.asked);
    assert LeftAs(ts, id, now, alone);
    if now != alone {
      var j :| 0 <= j < |ts| && Permits(ts[j], Removal(id, alone.value));
      assert ts[j] == cfg.TargetFor(os[j]) && j == k;
    }
  }

  /** And an entry that is not among those to be deleted is as the other clients alone would have left it, with or
      without if-match. */
  lemma OthersSurvive(w: Writers, cfg: BackendConfig, os: seq<S3Object>, a: Shelf, b: Shelf, id: Ident)
    requires Evolves(w, cfg.Targets(os), a, b) && id !in Ids(os)
    ensures Found(b.current, id) == Alone(w, id, Found(a.current, id), a.asked, b.asked)
  {
    assert TargetIds(cfg.Targets(os)) == Ids(os);
    assert LeftAs(cfg.Targets(os), id, Found(b.current, id), Alone(w, id, Found(a.current, id), a.asked, b.asked));
  }

  lemma ChunkIsAmong(cfg: BackendConfig, os: seq<S3Object>, chunk: seq<S3Object>)
    requires forall o :: o in chunk ==> o in os
    ensures Among(cfg.Targets(chunk), cfg.Targets(os))
  {
    forall k | 0 <= k < |chunk| ensures cfg.Targets(chunk)[k] in cfg.Targets(os) {
      assert chunk[k] in os;
      var j :| 0 <= j < |os| && os[j] == chunk[k];
      assert cfg.Targets(os)[j] == cfg.TargetFor(chunk[k]);
    }
  }

  class SingleDeleter {
    const config: BackendConfig
    const target: Storage
    var errors: seq<string>

    constructor (config: BackendConfig, target: Storage)
      ensures this.config == config && this.target == target && errors == []
    {
      this.config, this.target, this.errors := config, target, [];
    }

    /** Exactly one object, exactly one request, never a retry. */
    method Delete(objects: seq<S3Object>) returns (result: DeleteResult)
      requires |objects| == 1
      modifies this`errors, target
      ensures multiset(result.deleted) + multiset(ErrorIds(result.failed)) == multiset(Ids(objects))
      ensures |target.calls| == |old(target.calls)| + 1 && old(target.calls) < target.calls
      ensures
        var o := objects[0];
        var id := Ident(o.key, if o.NotVersioning? then None else o.versionId);
        && Last(target.calls).SingleCall?
        && Last(target.calls).target == Target(id, if config.ifMatch && !o.DeleteMarker? then o.tag else None)
        && result.deleted == (if Last(target.calls).error.None? then [id] else [])
      ensures Last(target.calls).target == config.TargetFor(objects[0])
      ensures result.failed == (if Last(target.calls).error.None? then [] else [Last(target.calls).error.value])
      ensures errors == old(errors) + Keys(result.failed)
      ensures Evolves(target.writers, config.Targets(objects), old(target.Now()), target.Now())
    {
      var obj := objects[0];
      var error := target.DeleteObject(config.TargetFor(obj));
      assert config.Targets(objects) == [config.TargetFor(obj)];
      if error.None? {
        result := DeleteResult([obj.Id()], []);
      } else {
        errors := errors + [obj.key];
        result := DeleteResult([], [error.value]);
        assert Front(result.failed) == [];
      }
      assert ErrorIds(result.failed) == if error.None? then [] else [obj.Id()];
      assert Ids(objects) == [obj.Id()];
    }
  }
}
