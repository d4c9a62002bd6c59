/** With a single worker the quota is exact and keeps the order of the listing. */
module OneWorker {
  import opened Objects
  import opened Filters
  import opened Network
  import opened StageSafety
  import opened WorkerSafety
  import opened TallySafety
  import opened RunSafety
  import opened Guarantees

  /** As long as only the quota has cancelled, the worker that exceeded it has emptied its buffer first. */
  predicate FlushedFirst(sh: Shared, w: Worker) {
    !sh.outside ==>
      && (w.refused != [] && !w.pc.Flush? ==> w.buffer == [])
      && (sh.cancelled ==> w.refused != [] && (w.pc.CheckCancel? || w.pc.Done?))
  }

  predicate Alone(s: State) {
    && |s.workers| == 1
    && s.chans != []
    && Last(s.chans).taken <= |Last(s.chans).sent|
    && s.workers[0].received == Last(s.chans).Received()
    && FlushedFirst(s.sh, s.workers[0])
  }

  lemma StepFlushesFirst(c: Config, v: View, inClosed: bool, ch: Choice)
    requires AdmissionOk(v.sh.cancelled, v.w) && BufferOk(c, v.sh.cancelled, v.w) && FlushedFirst(v.sh, v.w)
    requires v.inp.taken <= |v.inp.sent| && WorkerEnabled(c, v, inClosed, false, ch)
    ensures FlushedFirst(WorkerStep(c, v, false, ch).sh, WorkerStep(c, v, false, ch).w)
  {
    match v.w.pc
    case Process(o) => assert FlushedFirst(ProcessStep(c, v, o).sh, ProcessStep(c, v, o).w);
    case Admit(o) => assert FlushedFirst(AdmitStep(c, v, o).sh, AdmitStep(c, v, o).w);
    case InFlight(batch, k) =>
      if ch.Answer? {
        var r := AnswerStep(c, v, batch, k, ch.deleted, ch.failed);
        assert FlushedFirst(r.sh, r.w);
      } else {
        assert FlushedFirst(BreakStep(v, batch).sh, BreakStep(v, batch).w);
      }
    case _ =>
  }

  lemma StepReceives(c: Config, v: View, ch: Choice)
    requires v.inp.taken <= |v.inp.sent|
    requires v.w.received == v.inp.Received()
    ensures
      var r := WorkerStep(c, v, false, ch);
      r.inp.taken <= |r.inp.sent| && r.w.received == r.inp.Received()
  {
    match v.w.pc
    case Select =>
      var r := SelectStep(v, ch);
      if r.w.pc.Process? {
        assert r.inp.Received() == v.inp.Received() + [r.w.pc.o];
      }
    case Process(o) => assert ProcessStep(c, v, o).w.received == v.w.received;
    case _ =>
  }

  lemma WorkerKeepsAlone(c: Config, s: State, k: nat, ch: Choice)
    requires Shape(c, s) && WorkersOk(c, s) && Alone(s) && !s.drained
    requires Enabled(c, s, OfWorker(k, ch))
    ensures Alone(Apply(c, s, OfWorker(k, ch)))
  {
    var v := ViewOfWorker(s, 0);
    assert WorkerOk(c, s.sh.cancelled, v.w);
    StepFlushesFirst(c, v, SendersGone(s, |s.stages|), ch);
    StepReceives(c, v, ch);
  }

  lemma ActionKeepsAlone(c: Config, s: State, a: Action)
    requires c.WellFormed() && Inv(c, s) && Alone(s)
    requires Enabled(c, s, a)
    ensures Alone(Apply(c, s, a))
  {
    match a
    case OfWorker(k, ch) =>
      WorkerActionKeepsMain(c, s, k, ch);
      WorkerKeepsAlone(c, s, k, ch);
    case OfStage(k, ch) => StageKeepsAlone(c, s, k, ch);
    case OfMain => assert MainStep(c, s).sh.outside == s.sh.outside && MainStep(c, s).sh.cancelled == s.sh.cancelled;
    case _ =>
  }

  lemma StageKeepsAlone(c: Config, s: State, k: nat, ch: Choice)
    requires StagesOk(c, s) && Alone(s)
    requires Enabled(c, s, OfStage(k, ch))
    ensures Alone(Apply(c, s, OfStage(k, ch)))
  {
    hide StageStep;
    var v := ViewOfStage(s, k);
    var r := StageStep(c, c.filters[k], v, ReceiversGone(s, k), ch);
    StageStepOk(c, c.filters[k], v, SendersGone(s, k), ReceiversGone(s, k), ch);
    StageShares(c, c.filters[k], v, ReceiversGone(s, k), ch);
    var t := ApplyStage(s, k, r);
    assert Last(s.chans).sent <= Last(t.chans).sent && Last(t.chans).taken == Last(s.chans).taken;
    assert Last(t.chans).Received() == Last(s.chans).Received();
  }

  lemma {:induction false} RunKeepsAlone(c: Config, acts: seq<Action>, tr: seq<State>, k: nat)
    requires c.WellFormed() && Run(c, acts, tr) && k < |tr| && c.workers == 1
    ensures Alone(tr[k])
  {
    if k > 0 {
      RunKeepsAlone(c, acts, tr, k - 1);
      RunKeepsInv(c, acts, tr, k - 1);
      assert tr[k] == Apply(c, tr[k - 1], acts[k - 1]);
      ActionKeepsAlone(c, tr[k - 1], acts[k - 1]);
    }
  }

  lemma {:induction false} WherePrefix(p: S3Object -> bool, s: seq<S3Object>, t: seq<S3Object>)
    requires s <= t
    ensures Where(p, s) <= Where(p, t)
  {
    assert t == s + t[|s|..];
    WhereAppend(p, s, t[|s|..]);
  }

  function Quota(c: Config): nat {
    if c.maxDelete.None? then |c.Selected()| else Min(c.maxDelete.value, |c.Selected()|)
  }

  /** A worker that has drawn `n` tickets of which the limit grants `Granted(c, n)`. */
  lemma QuotaOfDrawn(c: Config, w: Worker)
    requires w.drawn == w.admitted + w.refused && |w.refused| <= 1
    requires |w.drawn| - |w.refused| == Granted(c, |w.drawn|)
    requires w.drawn <= c.Selected()
    requires w.refused == [] ==> w.drawn == c.Selected()
    ensures w.admitted == c.Selected()[..Quota(c)]
  {
    assert w.admitted == w.drawn[..|w.admitted|];
  }

  lemma AloneDrawn(c: Config, s: State)
    requires Inv(c, s) && Alone(s) && s.workers[0].pc.Done?
    ensures s.workers[0].drawn == Where(c.Wants, Last(s.chans).Received())
    ensures s.workers[0].drawn <= c.Selected()
    ensures |s.workers[0].drawn| == s.sh.counter
    ensures |s.workers[0].drawn| - |s.workers[0].refused| == Granted(c, |s.workers[0].drawn|)
  {
    var w := s.workers[0];
    assert WorkerOk(c, s.sh.cancelled, w);
    PoolPrefix(c, s);
    WherePrefix(c.Wants, Last(s.chans).Received(), Chain(c.filters, c.listing));
    assert Front(s.workers) == [];
    assert Tally(s.workers, Drawn) == Read(Drawn, w);
    assert Tally(s.workers, Refused) == Read(Refused, w);
  }

  lemma AloneAdmission(c: Config, s: State)
    requires Inv(c, s) && Alone(s)
    ensures AdmissionOk(s.sh.cancelled, s.workers[0])
  {
    assert WorkerOk(c, s.sh.cancelled, s.workers[0]);
  }

  /** One worker, no task failed, and nothing but the quota cancelled: the entries handed to deletion are exactly
      the first entries of the selection, in the order of the listing, as many as the limit allows. Entries that
      the filters reject use up no quota, and what was admitted is flushed before the run is cancelled. */
  lemma ExactQuota(c: Config, acts: seq<Action>, tr: seq<State>)
    requires c.WellFormed() && Run(c, acts, tr) && Final(Last(tr))
    requires c.workers == 1 && !Last(tr).sh.faulted && !Last(tr).sh.outside
    ensures |Last(tr).workers| == 1 && Last(tr).workers[0].dispatched == c.Selected()[..Quota(c)]
    ensures Last(tr).sh.cancelled <==> c.maxDelete.Some? && c.maxDelete.value < |c.Selected()|
  {
    var s := Last(tr);
    RunKeepsInv(c, acts, tr, |acts|);
    RunKeepsAlone(c, acts, tr, |acts|);
    assert s.workers[0].pc.Done?;
    AloneDrawn(c, s);
    AloneAdmission(c, s);
    if !s.sh.cancelled {
      assert CleanWorker(s, s.workers[0]);
      CleanPool(c, s);
    }
    QuotaOfDrawn(c, s.workers[0]);
  }
}
