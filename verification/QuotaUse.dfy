/** How much of the quota a run uses when only the quota stops it: all of it, up to what workers other than the first
    to exceed it still hold in their buffers. */
module QuotaUse {
  import opened Objects
  import opened Network
  import opened StageSafety
  import opened WorkerSafety
  import opened TallySafety
  import opened RunSafety
  import opened Guarantees

  /** The worker exceeded the quota after it had emptied its buffer. */
  predicate Emptied(w: Worker) {
    w.refused != [] && w.buffer == [] && (w.pc.CheckCancel? || w.pc.Done?)
  }

  /** Before anybody cancels, a worker whose ticket was refused deals with its buffer first. */
  predicate EmptiesFirst(w: Worker) {
    w.refused != [] && !w.pc.Flush? ==> w.buffer == []
  }

  /** If only the quota has cancelled, some worker has emptied its buffer before it did. */
  predicate QuotaFlushed(s: State) {
    !s.sh.outside ==>
      && (!s.sh.cancelled ==> forall k :: 0 <= k < |s.workers| ==> EmptiesFirst(s.workers[k]))
      && (s.sh.cancelled ==> exists k :: 0 <= k < |s.workers| && Emptied(s.workers[k]))
  }

  lemma StepEmptiesFirst(c: Config, v: View, inClosed: bool, ch: Choice)
    requires AdmissionOk(v.sh.cancelled, v.w) && BufferOk(c, v.sh.cancelled, v.w) && EmptiesFirst(v.w) && !v.sh.cancelled
    requires v.inp.taken <= |v.inp.sent| && WorkerEnabled(c, v, inClosed, false, ch)
    ensures
      var r := WorkerStep(c, v, false, ch);
      !r.sh.outside ==> if r.sh.cancelled then Emptied(r.w) else EmptiesFirst(r.w)
  {
    match v.w.pc
    case Process(o) => assert EmptiesFirst(ProcessStep(c, v, o).w);
    case Admit(o) => assert EmptiesFirst(AdmitStep(c, v, o).w);
    case InFlight(batch, k) =>
      if ch.Answer? {
        assert EmptiesFirst(AnswerStep(c, v, batch, k, ch.deleted, ch.failed).w);
      }
    case Trip(o) => assert Emptied(TripStep(v, o).w);
    case _ =>
  }

  lemma StepStaysEmptied(c: Config, v: View, inClosed: bool, ch: Choice)
    requires Emptied(v.w) && v.sh.cancelled
    requires v.inp.taken <= |v.inp.sent| && WorkerEnabled(c, v, inClosed, false, ch)
    ensures Emptied(WorkerStep(c, v, false, ch).w)
  {
  }

  /** What the outside did and who cancelled is never forgotten. */
  lemma WorkerKeepsOutside(c: Config, v: View, ch: Choice)
    requires v.inp.taken <= |v.inp.sent|
    ensures v.sh.outside ==> WorkerStep(c, v, false, ch).sh.outside
    ensures v.sh.cancelled ==> WorkerStep(c, v, false, ch).sh.cancelled
  {
    if v.sh.cancelled {
      CancelStays(c, v, false, ch);
    }
    match v.w.pc
    case Process(o) => assert v.sh.outside ==> ProcessStep(c, v, o).sh.outside;
    case InFlight(batch, k) =>
      if ch.Answer? {
        assert v.sh.outside ==> AnswerStep(c, v, batch, k, ch.deleted, ch.failed).sh.outside;
      }
    case _ =>
  }

  lemma WorkerKeepsFlushed(c: Config, s: State, k: nat, ch: Choice)
    requires Shape(c, s) && WorkersOk(c, s) && QuotaFlushed(s) && !s.drained
    requires Enabled(c, s, OfWorker(k, ch))
    ensures QuotaFlushed(Apply(c, s, OfWorker(k, ch)))
  {
    var v, t := ViewOfWorker(s, k), Apply(c, s, OfWorker(k, ch));
    assert WorkerOk(c, s.sh.cancelled, v.w);
    WorkerKeepsOutside(c, v, ch);
    if !t.sh.outside {
      if s.sh.cancelled {
        var j :| 0 <= j < |s.workers| && Emptied(s.workers[j]);
        if j == k {
          StepStaysEmptied(c, v, SendersGone(s, |s.stages|), ch);
        }
        assert Emptied(t.workers[j]);
      } else {
        assert EmptiesFirst(s.workers[k]);
        StepEmptiesFirst(c, v, SendersGone(s, |s.stages|), ch);
        assert t.sh.cancelled ==> Emptied(t.workers[k]);
      }
    }
  }

  lemma ActionKeepsFlushed(c: Config, s: State, a: Action)
    requires Shape(c, s) && WorkersOk(c, s) && MainOk(c, s) && QuotaFlushed(s)
    requires Enabled(c, s, a)
    ensures QuotaFlushed(Apply(c, s, a))
  {
    match a
    case OfWorker(k, ch) => WorkerKeepsFlushed(c, s, k, ch);
    case OfStage(k, ch) =>
      StageShares(c, c.filters[k], ViewOfStage(s, k), ReceiversGone(s, k), ch);
    case _ =>
  }

  lemma WorkersAreOk(c: Config, acts: seq<Action>, tr: seq<State>, n: nat)
    requires c.WellFormed() && Run(c, acts, tr) && n < |tr|
    ensures WorkersOk(c, tr[n])
  {
    RunKeepsInv(c, acts, tr, n);
  }

  lemma {:induction false} RunKeepsFlushed(c: Config, acts: seq<Action>, tr: seq<State>, n: nat)
    requires c.WellFormed() && Run(c, acts, tr) && n < |tr|
    ensures QuotaFlushed(tr[n])
  {
    if n > 0 {
      RunKeepsFlushed(c, acts, tr, n - 1);
      WorkersAreOk(c, acts, tr, n - 1);
      MainIsOk(c, acts, tr, n - 1);
      assert Takes(c, tr[n - 1], acts[n - 1], tr[n]);
      ActionKeepsFlushed(c, tr[n - 1], acts[n - 1]);
    }
  }

  /** All workers but one may still hold something. */
  lemma {:induction false} AllButOne(ws: seq<Worker>, k: nat, bound: nat)
    requires k < |ws|
    requires forall j :: 0 <= j < |ws| ==> |ws[j].admitted| <= |ws[j].dispatched| + if j == k then 0 else bound
    ensures Tally(ws, Admissions) <= Tally(ws, Dispatches) + (|ws| - 1) * bound
  {
    if k == |ws| - 1 {
      TallyIsSum(Front(ws), Admissions);
      TallyIsSum(Front(ws), Dispatches);
      SumAtMost(Readings(Front(ws), Admissions), Readings(Front(ws), Dispatches), bound);
    } else {
      AllButOne(Front(ws), k, bound);
      assert (|ws| - 1) * bound == (|ws| - 2) * bound + bound;
    }
  }

  lemma DoneHolds(c: Config, s: State, k: nat)
    requires WorkersOk(c, s) && k < |s.workers| && s.workers[k].pc.Done?
    ensures |s.workers[k].admitted| == |s.workers[k].dispatched| + |s.workers[k].buffer|
    ensures |s.workers[k].buffer| <= c.batchSize
  {
    assert WorkerOk(c, s.sh.cancelled, s.workers[k]);
  }

  lemma AdmittedIsQuota(c: Config, s: State)
    requires Inv(c, s) && c.maxDelete.Some? && s.sh.trips > 0
    ensures Tally(s.workers, Admissions) == c.maxDelete.value
  {
    WorkersNumbered(c, s);
    DrawnIsAdmittedOrRefused(s.workers);
    TrippedNonNegative(s.workers);
  }

  lemma CancelledByQuota(c: Config, acts: seq<Action>, tr: seq<State>)
    requires c.WellFormed() && 1 <= c.workers && Run(c, acts, tr) && Final(Last(tr))
    requires c.maxDelete.Some? && c.maxDelete.value < |c.Selected()|
    requires !Last(tr).sh.faulted && !Last(tr).sh.outside
    ensures Last(tr).sh.cancelled && Last(tr).sh.trips > 0
  {
    if !Last(tr).sh.cancelled {
      CleanRunDeletesTheSelection(c, acts, tr);
      QuotaSafety(c, acts, tr);
    }
    CountsAreOk(c, acts, tr, |acts|);
  }

  lemma BuffersAreSmall(c: Config, s: State, k: nat)
    requires Inv(c, s) && AllDone(s) && k < |s.workers| && Emptied(s.workers[k])
    ensures Tally(s.workers, Admissions) <= Tally(s.workers, Dispatches) + (c.workers - 1) * c.batchSize
  {
    hide SumsOk, CleanOk, LogOk, StageOk, WorkerOk;
    forall j | 0 <= j < |s.workers|
      ensures |s.workers[j].admitted| <= |s.workers[j].dispatched| + if j == k then 0 else c.batchSize
    {
      assert s.workers[j].pc.Done?;
      DoneHolds(c, s, j);
    }
    AllButOne(s.workers, k, c.batchSize);
  }

  lemma HeldBack(c: Config, s: State)
    requires Inv(c, s) && AllDone(s) && QuotaFlushed(s) && c.maxDelete.Some?
    requires s.sh.cancelled && !s.sh.outside && s.sh.trips > 0
    ensures c.maxDelete.value <= Tally(s.workers, Dispatches) + (c.workers - 1) * c.batchSize
  {
    hide Inv, AllDone, Tally;
    var k :| 0 <= k < |s.workers| && Emptied(s.workers[k]);
    BuffersAreSmall(c, s, k);
    AdmittedIsQuota(c, s);
  }

  /** If nothing but the quota stops a finished run and more is selected than it allows, the run uses the quota up, but
      for what all workers except one can hold in a buffer. A single worker uses it exactly. */
  lemma QuotaIsUsed(c: Config, acts: seq<Action>, tr: seq<State>)
    requires c.WellFormed() && 1 <= c.workers && Run(c, acts, tr) && Final(Last(tr))
    requires c.maxDelete.Some? && c.maxDelete.value < |c.Selected()|
    requires !Last(tr).sh.faulted && !Last(tr).sh.outside
    ensures |Handed(Last(tr).workers)| <= c.maxDelete.value <= |Handed(Last(tr).workers)| + (c.workers - 1) * c.batchSize
  {
    var s := Last(tr);
    hide Inv;
    RunKeepsInv(c, acts, tr, |acts|);
    CancelledByQuota(c, acts, tr);
    RunKeepsFlushed(c, acts, tr, |acts|);
    HeldBack(c, s);
    HandedSize(s.workers);
    QuotaSafety(c, acts, tr);
  }
}
