/** The path of one worker through the network model while other tasks act between its steps. */
module WorkerTrail {
  import opened Objects
  import opened Network
  import opened WorkerSafety
  import opened Store
  import opened Backend
  import opened Surroundings

  /** One step of a worker as the network model knows it. */
  datatype Turn = Turn(before: View, inClosed: bool, outClosed: bool, choice: Choice, after: View)

  predicate IsTurn(c: Config, m: Turn) {
    && m.before.inp.taken <= |m.before.inp.sent|
    && WorkerEnabled(c, m.before, m.inClosed, m.outClosed, m.choice)
    && m.after == WorkerStep(c, m.before, m.outClosed, m.choice)
  }

  /** What became of a batch of one worker: its one request, with the fallbacks for keys of its reply, and the
      result they add up to. */
  ghost predicate Answered(cfg: BackendConfig, batch: seq<S3Object>, calls: seq<Call>, r: DeleteResult) {
    if cfg.batchSize <= 1 then
      && |batch| == |calls| == 1 && calls[0].SingleCall? && calls[0].target == cfg.TargetFor(batch[0])
      && r == (if calls[0].error.None? then DeleteResult([batch[0].Id()], []) else DeleteResult([], [calls[0].error.value]))
    else
      exists run :: RunsWell(cfg, batch, run) && calls == run.Calls(cfg.Targets(batch)) && r == DeleteResult(run.Deleted(), run.Failed())
  }

  /** The turns lead from the idle worker to `w`; between two of them only other tasks have acted, who may have
      cancelled the run, and `cancelled` tells whether it is cancelled now. */
  predicate Trail(c: Config, path: seq<Turn>, w: Worker, cancelled: bool) {
    if path == [] then w == IDLE
    else
      var m := Last(path);
      && Trail(c, Front(path), m.before.w, m.before.sh.cancelled)
      && IsTurn(c, m)
      && m.after.w == w
      && (m.after.sh.cancelled ==> cancelled)
  }

  lemma TrailOn(c: Config, path: seq<Turn>, m: Turn, cancelled: bool)
    requires Trail(c, path, m.before.w, m.before.sh.cancelled) && IsTurn(c, m)
    requires m.after.sh.cancelled ==> cancelled
    ensures Trail(c, path + [m], m.after.w, cancelled)
  {
    assert Front(path + [m]) == path;
  }

  lemma TrailLater(c: Config, path: seq<Turn>, w: Worker, cancelled: bool, later: bool)
    requires Trail(c, path, w, cancelled) && (cancelled ==> later)
    ensures Trail(c, path, w, later)
  {
  }

  /** Every turn of a trail is a network step. */
  lemma {:induction false} TrailSteps(c: Config, path: seq<Turn>, w: Worker, cancelled: bool, k: nat)
    requires Trail(c, path, w, cancelled) && k < |path|
    ensures IsTurn(c, path[k])
  {
    if k < |path| - 1 {
      TrailSteps(c, Front(path), Last(path).before.w, Last(path).before.sh.cancelled, k);
    }
  }

  // The requests behind the steps

  /** What one batch led to: the requests made for it, and the result they add up to, if the batch request did not
      fail as a whole. */
  datatype Order = Order(batch: seq<S3Object>, calls: seq<Call>, result: Option<DeleteResult>)

  ghost predicate Fulfilled(cfg: BackendConfig, o: Order) {
    match o.result
    case None => o.calls == [BatchCall(cfg.Targets(o.batch), None)]
    case Some(r) => Answered(cfg, o.batch, o.calls, r)
  }

  ghost predicate AllFulfilled(cfg: BackendConfig, orders: seq<Order>) {
    forall k {:trigger Fulfilled(cfg, orders[k])} :: 0 <= k < |orders| ==> Fulfilled(cfg, orders[k])
  }

  lemma AllFulfilledOn(cfg: BackendConfig, orders: seq<Order>, o: Order)
    requires AllFulfilled(cfg, orders) && Fulfilled(cfg, o)
    ensures AllFulfilled(cfg, orders + [o])
  {
    var next := orders + [o];
    forall k {:trigger Fulfilled(cfg, next[k])} | 0 <= k < |next| ensures Fulfilled(cfg, next[k]) {
      if k < |orders| {
        assert Fulfilled(cfg, orders[k]) && next[k] == orders[k];
      }
    }
  }

  function CallsOf(orders: seq<Order>): seq<Call> {
    if orders == [] then [] else CallsOf(Front(orders)) + Last(orders).calls
  }

  function BatchesOf(orders: seq<Order>): seq<S3Object> {
    if orders == [] then [] else BatchesOf(Front(orders)) + Last(orders).batch
  }

  /** The step takes for deleted and for failed what the requests for its batch brought. */
  predicate Tells(m: Turn, o: Order) {
    && m.before.w.pc.InFlight? && m.before.w.pc.batch == o.batch
    && (match o.result
        case None => m.choice.Break?
        case Some(r) => m.choice.Answer? && Ids(m.choice.deleted) == r.deleted && Ids(m.choice.failed) == ErrorIds(r.failed))
  }

  /** One order for each batch in flight along the path, and none besides. */
  predicate Matches(path: seq<Turn>, orders: seq<Order>) {
    if path == [] then orders == []
    else if !Last(path).before.w.pc.InFlight? then Matches(Front(path), orders)
    else orders != [] && Tells(Last(path), Last(orders)) && Matches(Front(path), Front(orders))
  }

  lemma MatchesOn(path: seq<Turn>, orders: seq<Order>, m: Turn)
    requires Matches(path, orders) && !m.before.w.pc.InFlight?
    ensures Matches(path + [m], orders)
  {
    assert Front(path + [m]) == path;
  }

  lemma MatchesReply(path: seq<Turn>, orders: seq<Order>, m: Turn, o: Order)
    requires Matches(path, orders) && Tells(m, o)
    ensures Matches(path + [m], orders + [o])
  {
    assert Front(path + [m]) == path && Front(orders + [o]) == orders;
  }

  // What the worker counts as deleted

  function DeletedIn(m: Turn): seq<S3Object> {
    if m.before.w.pc.InFlight? && m.choice.Answer? then m.choice.deleted else []
  }

  /** The entries that the turns of the path count as deleted, in the order in which they do. */
  function ReportedBy(path: seq<Turn>): seq<S3Object> {
    if path == [] then [] else ReportedBy(Front(path)) + DeletedIn(Last(path))
  }

  lemma ReportedOn(path: seq<Turn>, m: Turn)
    ensures ReportedBy(path + [m]) == ReportedBy(path) + DeletedIn(m)
  {
    assert Front(path + [m]) == path;
  }

  /** The identities that the replies behind the orders call deleted. */
  function DeletedOf(orders: seq<Order>): seq<Ident> {
    if orders == [] then []
    else DeletedOf(Front(orders)) + if Last(orders).result.Some? then Last(orders).result.value.deleted else []
  }

  lemma IdsAppend(a: seq<S3Object>, b: seq<S3Object>)
    ensures Ids(a + b) == Ids(a) + Ids(b)
  {
  }

  /** What is counted as deleted is what the store has called deleted, in the same order. */
  lemma {:induction false} ReportedIsReplied(path: seq<Turn>, orders: seq<Order>)
    requires Matches(path, orders)
    ensures Ids(ReportedBy(path)) == DeletedOf(orders)
  {
    if path != [] {
      var m := Last(path);
      IdsAppend(ReportedBy(Front(path)), DeletedIn(m));
      ReportedIsReplied(Front(path), if m.before.w.pc.InFlight? then Front(orders) else orders);
    }
  }

  function Given(w: Worker): seq<S3Object> {
    if w.pc.Dispatch? then w.pc.batch else []
  }

  lemma DispatchedStep(c: Config, m: Turn)
    requires IsTurn(c, m)
    ensures m.after.w.dispatched == m.before.w.dispatched + Given(m.before.w)
    ensures Open(m.after.w) == Given(m.before.w)
  {
  }

  lemma AnswerPartitions(c: Config, m: Turn)
    requires IsTurn(c, m)
    ensures multiset(DeletedIn(m)) <= multiset(Open(m.before.w))
  {
  }

  lemma TurnDispatches(c: Config, m: Turn, counted: multiset<S3Object>)
    requires IsTurn(c, m) && counted + multiset(Open(m.before.w)) <= multiset(m.before.w.dispatched)
    ensures counted + multiset(DeletedIn(m)) + multiset(Open(m.after.w)) <= multiset(m.after.w.dispatched)
  {
    hide IsTurn;
    DispatchedStep(c, m);
    AnswerPartitions(c, m);
  }

  /** Only what was dispatched is ever counted as deleted, and nothing more often than it was dispatched. */
  lemma {:induction false} ReportedWasDispatched(c: Config, path: seq<Turn>, w: Worker, cancelled: bool)
    requires Trail(c, path, w, cancelled)
    ensures multiset(ReportedBy(path)) + multiset(Open(w)) <= multiset(w.dispatched)
  {
    if path != [] {
      var m := Last(path);
      ReportedWasDispatched(c, Front(path), m.before.w, m.before.sh.cancelled);
      TurnDispatches(c, m, multiset(ReportedBy(Front(path))));
    }
  }

  function Open(w: Worker): seq<S3Object> {
    if w.pc.InFlight? then w.pc.batch else []
  }

  lemma CalledStep(c: Config, m: Turn)
    requires IsTurn(c, m) && !c.dryRun
    ensures m.after.w.called == m.before.w.called + if m.before.w.pc.Dispatch? then m.before.w.pc.batch else []
    ensures m.after.w.pc.InFlight? <==> m.before.w.pc.Dispatch?
    ensures m.after.w.pc.InFlight? ==> m.after.w.pc.batch == m.before.w.pc.batch
  {
  }

  /** The entries named in requests are exactly the dispatched batches, each of which was asked for once. */
  lemma {:induction false} TrailCalled(c: Config, path: seq<Turn>, orders: seq<Order>, w: Worker, cancelled: bool)
    requires Trail(c, path, w, cancelled) && !c.dryRun && Matches(path, orders)
    ensures w.called == BatchesOf(orders) + Open(w)
  {
    if path != [] {
      var m := Last(path);
      CalledStep(c, m);
      if m.before.w.pc.InFlight? {
        TrailCalled(c, Front(path), Front(orders), m.before.w, m.before.sh.cancelled);
        assert m.before.w.called + [] == m.before.w.called;
      } else {
        TrailCalled(c, Front(path), orders, m.before.w, m.before.sh.cancelled);
        assert BatchesOf(orders) + [] == BatchesOf(orders);
      }
    }
  }

  /** With a safe worker, only entries that it received and that the filters want are ever named in a request. */
  lemma CalledIsWanted(c: Config, cancelled: bool, w: Worker, o: S3Object)
    requires WorkerOk(c, cancelled, w) && o in w.called
    ensures o in w.received && c.Wants(o)
  {
    assert o in w.dispatched && o in w.admitted && o in w.drawn;
    assert o in Where(c.Wants, Judged(w));
    WhereMember(c.Wants, Judged(w), o);
  }

  predicate NeverClosed(path: seq<Turn>) {
    forall k :: 0 <= k < |path| ==> !path[k].outClosed
  }

  /** Everything the network model proves of a worker holds of every trail on which the output stayed open. */
  lemma {:induction false} TrailIsSafe(c: Config, path: seq<Turn>, w: Worker, cancelled: bool)
    requires c.WellFormed() && Trail(c, path, w, cancelled) && NeverClosed(path)
    ensures WorkerOk(c, cancelled, w)
  {
    if path == [] {
      IdleOk(c);
      if cancelled { CancelKeepsWorker(c, w); }
    } else {
      var m := Last(path);
      assert !path[|path| - 1].outClosed;
      forall k | 0 <= k < |path| - 1 ensures !Front(path)[k].outClosed {
        assert !path[k].outClosed;
      }
      TrailIsSafe(c, Front(path), m.before.w, m.before.sh.cancelled);
      WorkerStepOk(c, m.before, m.inClosed, m.choice);
      if cancelled && !m.after.sh.cancelled { CancelKeepsWorker(c, w); }
    }
  }

  lemma TurnKeepsBuffer(c: Config, m: Turn)
    requires BufferOk(c, m.before.sh.cancelled, m.before.w) && 1 <= c.batchSize && IsTurn(c, m)
    ensures BufferOk(c, m.after.sh.cancelled, m.after.w)
  {
    if m.outClosed && m.before.w.pc.Forward? {
      assert m.after == ForwardStep(m.before, m.before.w.pc.rest, m.before.w.pc.k, true);
    } else {
      assert m.after == WorkerStep(c, m.before, false, m.choice);
      assert WorkerEnabled(c, m.before, m.inClosed, false, m.choice);
      KeepsBuffer(c, m.before, m.inClosed, m.choice);
    }
  }

  /** The entries in the hands of the worker. */
  function InPlay(w: Worker): seq<S3Object> {
    match w.pc
    case Process(o) => w.buffer + [o]
    case Admit(o) => w.buffer + [o]
    case Dispatch(batch, _) => batch
    case InFlight(batch, _) => batch
    case _ => w.buffer
  }

  /** They all came from the queue and no two of them are the same entry. */
  predicate Known(os: seq<S3Object>, inp: Chan)
    requires inp.taken <= |inp.sent|
  {
    && DistinctIds(os)
    && forall k :: 0 <= k < |os| ==> os[k] in inp.Received()
  }

  lemma KnownLater(os: seq<S3Object>, a: Chan, b: Chan)
    requires a.taken <= |a.sent| && b.taken <= |b.sent| && Grows(a, b)
    requires Known(os, a)
    ensures Known(os, b)
  {
    forall k | 0 <= k < |os| ensures os[k] in b.Received() {
      var j :| 0 <= j < |a.Received()| && a.Received()[j] == os[k];
      assert b.Received()[j] == os[k];
    }
  }

  lemma KnownNext(os: seq<S3Object>, inp: Chan)
    requires inp.taken < |inp.sent| && DistinctIds(inp.sent) && Known(os, inp)
    ensures Known(os + [inp.sent[inp.taken]], inp.(taken := inp.taken + 1))
  {
    var o, next := inp.sent[inp.taken], inp.(taken := inp.taken + 1);
    KnownLater(os, inp, next);
    assert next.Received()[inp.taken] == o;
    forall k | 0 <= k < |os| ensures os[k].Id() != o.Id() {
      var j :| 0 <= j < |inp.Received()| && inp.Received()[j] == os[k];
      assert inp.sent[j] == os[k];
    }
  }

  lemma KnownPart(os: seq<S3Object>, part: seq<S3Object>, inp: Chan)
    requires inp.taken <= |inp.sent| && Known(os, inp) && part <= os
    ensures Known(part, inp)
  {
    forall k | 0 <= k < |part| ensures part[k] in inp.Received() {
      assert part[k] == os[k];
    }
  }

  lemma TurnKeepsKnown(c: Config, m: Turn)
    requires IsTurn(c, m) && BufferOk(c, m.before.sh.cancelled, m.before.w)
    requires DistinctIds(m.before.inp.sent) && Known(InPlay(m.before.w), m.before.inp)
    ensures m.after.inp.taken <= |m.after.inp.sent| && Known(InPlay(m.after.w), m.after.inp)
  {
    var v, w := m.before, m.after.w;
    match v.w.pc
    case Select =>
      if m.choice.Go? && v.inp.Waiting() > 0 {
        KnownNext(v.w.buffer, v.inp);
      }
    case Process(o) =>
      assert w == ProcessStep(c, v, o).w;
      KnownPart(InPlay(v.w), v.w.buffer, v.inp);
    case Admit(o) =>
      assert w == AdmitStep(c, v, o).w;
      KnownPart(InPlay(v.w), v.w.buffer, v.inp);
    case InFlight(batch, k) => assert InPlay(w) == [];
    case _ => assert InPlay(w) == InPlay(v.w) || InPlay(w) == [];
  }
}
