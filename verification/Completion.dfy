/** The end of a run: the order of its last events, when its totals are final, which warnings become errors, and
    how little is still done after a cancellation. */
module Completion {
  import opened Objects
  import opened Filters
  import opened Network
  import opened StageSafety
  import opened WorkerSafety
  import opened TallySafety
  import opened RunSafety
  import opened Guarantees
  import opened CleanRuns
  import opened Events

  // The end event

  lemma EndedMeansDrained(c: Config, s: State)
    requires MainOk(c, s) && LogOk(c, s.main, s.sh)
    requires Ended in s.sh.log
    ensures s.drained && AllDone(s)
  {
  }

  predicate SameTotals(sh: Shared, r: Shared) {
    && r.deleted == sh.deleted && r.failed == sh.failed && r.trips == sh.trips
    && r.errors == sh.errors && r.warned == sh.warned && r.counter == sh.counter
    && sh.log <= r.log
  }

  /** After the terminator no worker acts, so no total moves. */
  lemma TotalsStay(c: Config, s: State, a: Action)
    requires Shape(c, s) && s.drained && AllDone(s)
    requires Enabled(c, s, a)
    ensures SameTotals(s.sh, Apply(c, s, a).sh)
    ensures Apply(c, s, a).drained
  {
    match a
    case OfStage(k, ch) => assert SameTotals(s.sh, StageShared(c, c.filters[k], ViewOfStage(s, k), ch));
    case OfWorker(k, ch) =>
    case OfMain => assert SameTotals(s.sh, MainStep(c, s).sh);
    case _ =>
  }

  lemma LogIsOk(c: Config, acts: seq<Action>, tr: seq<State>, n: nat)
    requires c.WellFormed() && Run(c, acts, tr) && n < |tr|
    ensures LogOk(c, tr[n].main, tr[n].sh)
  {
    RunKeepsInv(c, acts, tr, n);
  }

  lemma {:induction false} TotalsAreFinal(c: Config, acts: seq<Action>, tr: seq<State>, i: nat, j: nat)
    requires c.WellFormed() && Run(c, acts, tr)
    requires i <= j < |tr| && tr[i].drained
    ensures tr[j].drained && SameTotals(tr[i].sh, tr[j].sh)
  {
    if i < j {
      TotalsAreFinal(c, acts, tr, i, j - 1);
      MainIsOk(c, acts, tr, j - 1);
      assert tr[j] == Apply(c, tr[j - 1], acts[j - 1]);
      TotalsStay(c, tr[j - 1], acts[j - 1]);
    }
  }

  /** The end event is fired only after every worker has finished. No deletion or failure event follows it, the
      totals are final from then on, and the statistics that come with it are those totals. */
  lemma CompletionOrder(c: Config, acts: seq<Action>, tr: seq<State>, i: nat, j: nat)
    requires c.WellFormed() && Run(c, acts, tr)
    requires i <= j < |tr| && Ended in tr[i].sh.log
    ensures AllDone(tr[i]) && tr[i].drained
    ensures Completes(tr[j].sh.log) == Completes(tr[i].sh.log) == tr[j].sh.deleted
    ensures Failures(tr[j].sh.log) == Failures(tr[i].sh.log) == tr[j].sh.failed + tr[j].sh.trips
    ensures forall m, n :: 0 <= m < n < |tr[j].sh.log| && tr[j].sh.log[m].Ended? ==>
      !tr[j].sh.log[n].Completed? && !tr[j].sh.log[n].Failed?
    ensures forall e :: e in tr[j].sh.log && e.Stats? ==> e == Stats(Completes(tr[i].sh.log), Failures(tr[i].sh.log))
  {
    RunKeepsInv(c, acts, tr, i);
    RunKeepsInv(c, acts, tr, j);
    EndedMeansDrained(c, tr[i]);
    TotalsAreFinal(c, acts, tr, i, j);
  }

  lemma OccursAt(log: seq<Event>, e: Event) returns (i: nat)
    requires e in log
    ensures i < |log| && log[i] == e
  {
    i :| 0 <= i < |log| && log[i] == e;
  }

  // What may follow the end event

  /** A stage rejects something, or its callback fails on it, among what the stages before it let through. */
  predicate Rejects(fs: seq<Filter>, s: seq<S3Object>) {
    exists k, n :: 0 <= k < |fs| && 0 <= n < |Chain(fs[..k], s)| && !VerdictAt(fs, s, k, n).Keep?
  }

  /** Something other than the statistics is logged after the end event. */
  predicate HasLateEvent(log: seq<Event>) {
    exists i, j :: 0 <= i < j < |log| && log[i].Ended? && !log[j].Stats?
  }

  lemma StageIsSilent(c: Config, s: State, k: nat, ch: Choice)
    requires StagesOk(c, s) && Enabled(c, s, OfStage(k, ch))
    requires !c.observed || !Rejects(c.filters, c.listing)
    ensures Apply(c, s, OfStage(k, ch)).sh.log == s.sh.log
  {
    var v := ViewOfStage(s, k);
    if s.stages[k].pc.Have? {
      VerdictInHand(c, s, k);
    }
    assert StageEvents(c, c.filters[k], v, ch) == [];
    assert s.sh.log + [] == s.sh.log;
    StageShares(c, c.filters[k], v, ReceiversGone(s, k), ch);
  }

  lemma NoEndNotLate(log: seq<Event>)
    requires Ended !in log
    ensures !HasLateEvent(log)
  {
  }

  lemma MainIsNotLate(c: Config, s: State)
    requires LogOk(c, s.main, s.sh) && MainEnabled(s) && !HasLateEvent(s.sh.log)
    ensures !HasLateEvent(MainStep(c, s).sh.log)
  {
    var log, es := s.sh.log, MainEvents(c, s.main, s.sh);
    assert MainStep(c, s).sh.log == log + es;
    if s.main.FireStats? {
      assert forall j :: 0 <= j < |log| ==> (log + es)[j] == log[j];
    } else {
      assert Ended !in log;
    }
  }

  lemma NoStageNotLate(c: Config, s: State, a: Action)
    requires Shape(c, s) && MainOk(c, s) && LogOk(c, s.main, s.sh) && !HasLateEvent(s.sh.log)
    requires Enabled(c, s, a) && !a.OfStage?
    ensures !HasLateEvent(Apply(c, s, a).sh.log)
  {
    match a
    case OfWorker(k, ch) =>
      WorkerActionKeepsMain(c, s, k, ch);
      NoEndNotLate(Apply(c, s, a).sh.log);
    case OfMain => MainIsNotLate(c, s);
    case _ =>
  }

  lemma ActionIsNotLate(c: Config, s: State, a: Action)
    requires StagesOk(c, s) && MainOk(c, s) && LogOk(c, s.main, s.sh)
    requires !c.observed || !Rejects(c.filters, c.listing)
    requires Enabled(c, s, a) && !HasLateEvent(s.sh.log)
    ensures !HasLateEvent(Apply(c, s, a).sh.log)
  {
    if a.OfStage? {
      StageIsSilent(c, s, a.stage, a.choice);
    } else {
      NoStageNotLate(c, s, a);
    }
  }

  lemma {:induction false} NeverLate(c: Config, acts: seq<Action>, tr: seq<State>, n: nat)
    requires c.WellFormed() && Run(c, acts, tr) && n < |tr|
    requires !c.observed || !Rejects(c.filters, c.listing)
    ensures !HasLateEvent(tr[n].sh.log)
  {
    if n > 0 {
      NeverLate(c, acts, tr, n - 1);
      StagesAreOk(c, acts, tr, n - 1);
      MainIsOk(c, acts, tr, n - 1);
      LogIsOk(c, acts, tr, n - 1);
      assert Takes(c, tr[n - 1], acts[n - 1], tr[n]);
      ActionIsNotLate(c, tr[n - 1], acts[n - 1]);
    }
  }

  lemma {:induction false} StatsTriggerNothing(log: seq<Event>, more: seq<Event>)
    requires forall j :: 0 <= j < |more| ==> more[j].Stats?
    ensures Triggers(log + more) == Triggers(log)
  {
    if more == [] {
      assert log + more == log;
    } else {
      assert more[|more| - 1] == Last(more);
      assert Front(log + more) == log + Front(more) && Last(log + more) == Last(more);
      StatsTriggerNothing(log, Front(more));
    }
  }

  lemma NotLateMore(log: seq<Event>, longer: seq<Event>)
    requires Ended in log && log <= longer && !HasLateEvent(longer)
    ensures Triggers(longer) == Triggers(log)
  {
    var i := OccursAt(log, Ended);
    var more := longer[|log|..];
    assert longer == log + more;
    forall j | 0 <= j < |more| ensures more[j].Stats? {
      assert more[j] == longer[|log| + j] && longer[i].Ended?;
    }
    StatsTriggerNothing(log, more);
  }

  /** If there is no event callback, or no stage rejects or fails on anything that reaches it, then nothing but the
      statistics follows the end event, in any run, cancelled or failed: every total of the event statistics, the
      skipped entries included, is final. */
  lemma EndIsLast(c: Config, acts: seq<Action>, tr: seq<State>, i: nat, j: nat)
    requires c.WellFormed() && Run(c, acts, tr)
    requires !c.observed || !Rejects(c.filters, c.listing)
    requires i <= j < |tr| && Ended in tr[i].sh.log
    ensures !HasLateEvent(tr[j].sh.log)
    ensures Triggers(tr[j].sh.log) == Triggers(tr[i].sh.log)
  {
    NeverLate(c, acts, tr, j);
    MainIsOk(c, acts, tr, i);
    LogIsOk(c, acts, tr, i);
    EndedMeansDrained(c, tr[i]);
    TotalsAreFinal(c, acts, tr, i, j);
    NotLateMore(tr[i].sh.log, tr[j].sh.log);
  }

  lemma CleanIsOk(c: Config, acts: seq<Action>, tr: seq<State>, n: nat)
    requires c.WellFormed() && Run(c, acts, tr) && n < |tr|
    ensures Shape(c, tr[n]) && CleanOk(c, tr[n])
  {
    RunKeepsInv(c, acts, tr, n);
  }

  lemma {:induction false} StoppedBelow(c: Config, s: State, n: nat, k: nat)
    requires Shape(c, s) && CleanOk(c, s) && Clean(c, s.sh)
    requires k <= n < |s.stages| && s.stages[n].pc.Stopped?
    ensures s.stages[k].pc.Stopped?
  {
    if k < n {
      assert CleanStage(s, n);
      StoppedBelow(c, s, n - 1, k);
    }
  }

  lemma AllStopped(c: Config, s: State)
    requires Shape(c, s) && CleanOk(c, s) && Clean(c, s.sh) && AllDone(s)
    ensures forall k :: 0 <= k < |s.stages| ==> s.stages[k].pc.Stopped?
  {
    assert s.workers[0].pc.Done? && CleanWorker(s, s.workers[0]);
    forall k | 0 <= k < |s.stages| ensures s.stages[k].pc.Stopped? {
      StoppedBelow(c, s, |s.stages| - 1, k);
    }
  }

  lemma EndedMeansStopped(c: Config, acts: seq<Action>, tr: seq<State>, n: nat)
    requires c.WellFormed() && Run(c, acts, tr) && n < |tr|
    requires Ended in tr[n].sh.log && Clean(c, tr[n].sh)
    ensures forall k :: 0 <= k < |tr[n].stages| ==> tr[n].stages[k].pc.Stopped?
  {
    MainIsOk(c, acts, tr, n);
    LogIsOk(c, acts, tr, n);
    CleanIsOk(c, acts, tr, n);
    EndedMeansDrained(c, tr[n]);
    AllStopped(c, tr[n]);
  }

  lemma LiveStageIsNotLate(c: Config, s: State, k: nat, ch: Choice)
    requires Shape(c, s) && Enabled(c, s, OfStage(k, ch)) && Ended !in s.sh.log
    ensures !HasLateEvent(Apply(c, s, OfStage(k, ch)).sh.log)
  {
    var v := ViewOfStage(s, k);
    StageShares(c, c.filters[k], v, ReceiversGone(s, k), ch);
    assert Ended !in StageEvents(c, c.filters[k], v, ch);
    NoEndNotLate(Apply(c, s, OfStage(k, ch)).sh.log);
  }

  /** If no one cancelled, nothing failed and there is a worker, then when the end event is fired every stage has
      stopped, so nothing but the statistics is logged after it. */
  lemma {:induction false} CleanEndIsLast(c: Config, acts: seq<Action>, tr: seq<State>, n: nat)
    requires c.WellFormed() && Run(c, acts, tr) && n < |tr|
    requires Clean(c, tr[n].sh)
    ensures Ended in tr[n].sh.log ==> forall k :: 0 <= k < |tr[n].stages| ==> tr[n].stages[k].pc.Stopped?
    ensures !HasLateEvent(tr[n].sh.log)
  {
    hide Apply, StageOk, LogOk;
    if Ended in tr[n].sh.log {
      EndedMeansStopped(c, acts, tr, n);
    }
    if n > 0 {
      var s, a := tr[n - 1], acts[n - 1];
      if Troubled(s.sh) {
        TroubleStays(c, acts, tr, n - 1, n);
      }
      CleanEndIsLast(c, acts, tr, n - 1);
      StagesAreOk(c, acts, tr, n - 1);
      assert Takes(c, s, a, tr[n]);
      if a.OfStage? {
        LiveStageIsNotLate(c, s, a.stage, a.choice);
      } else {
        MainIsOk(c, acts, tr, n - 1);
        LogIsOk(c, acts, tr, n - 1);
        NoStageNotLate(c, s, a);
      }
    }
  }

  // Warnings

  /** With warnings promoted to errors, a run in which any deletion failed or the quota was exceeded ends with an
      error on record, and the error event comes before the end event, in every interleaving. */
  lemma WarningsArePromoted(c: Config, acts: seq<Action>, tr: seq<State>)
    requires c.WellFormed() && Run(c, acts, tr) && Final(Last(tr))
    requires c.warnAsError && Last(tr).sh.failed + Last(tr).sh.trips > 0
    ensures Last(tr).sh.hasError
    ensures exists i, j :: 0 <= i < j < |Last(tr).sh.log| && Last(tr).sh.log[i] == Errored && Last(tr).sh.log[j] == Ended
    ensures forall j :: 0 <= j < |Last(tr).sh.log| && Last(tr).sh.log[j] == Ended ==> Errored in Last(tr).sh.log[..j]
  {
    var s := Last(tr);
    RunKeepsInv(c, acts, tr, |acts|);
    var j := OccursAt(s.sh.log, Ended);
    var i := OccursAt(s.sh.log[..j], Errored);
    assert s.sh.log[i] == Errored;
  }

  // After a cancellation

  predicate LateKept(w: Worker, r: Worker) {
    && |r.received| - r.lateReceived == |w.received| - w.lateReceived
    && |r.dispatched| - r.lateObjects == |w.dispatched| - w.lateObjects
  }

  lemma LateStep(c: Config, v: View, outClosed: bool, ch: Choice)
    requires v.inp.taken <= |v.inp.sent| && v.sh.cancelled
    ensures LateKept(v.w, WorkerStep(c, v, outClosed, ch).w)
  {
    match v.w.pc
    case Process(o) => assert LateKept(v.w, ProcessStep(c, v, o).w);
    case Admit(o) => assert LateKept(v.w, AdmitStep(c, v, o).w);
    case Dispatch(batch, k) => assert LateKept(v.w, DispatchStep(c, v, batch, k).w);
    case _ =>
  }

  lemma LateAction(c: Config, s: State, a: Action, k: nat)
    requires Shape(c, s) && MainOk(c, s) && LogOk(c, s.main, s.sh)
    requires s.sh.cancelled && Enabled(c, s, a) && k < |s.workers|
    ensures Apply(c, s, a).sh.cancelled && |Apply(c, s, a).workers| == |s.workers|
    ensures LateKept(s.workers[k], Apply(c, s, a).workers[k])
  {
    if a.OfWorker? {
      WorkerActionKeepsMain(c, s, a.worker, a.choice);
      LateStep(c, ViewOfWorker(s, a.worker), false, a.choice);
      CancelStays(c, ViewOfWorker(s, a.worker), false, a.choice);
    } else {
      assert Apply(c, s, a).workers == s.workers;
    }
  }

  lemma {:induction false} LateSince(c: Config, acts: seq<Action>, tr: seq<State>, i: nat, j: nat, k: nat)
    requires c.WellFormed() && Run(c, acts, tr)
    requires i <= j < |tr| && tr[i].sh.cancelled && k < |tr[i].workers|
    ensures tr[j].sh.cancelled && k < |tr[j].workers| && LateKept(tr[i].workers[k], tr[j].workers[k])
  {
    hide Apply, Enabled;
    if i < j {
      LateSince(c, acts, tr, i, j - 1, k);
      MainIsOk(c, acts, tr, j - 1);
      LogIsOk(c, acts, tr, j - 1);
      assert tr[j] == Apply(c, tr[j - 1], acts[j - 1]);
      LateAction(c, tr[j - 1], acts[j - 1], k);
    }
  }

  /** Once the run is cancelled, each worker receives at most one further entry and hands at most one further
      batch to deletion. */
  lemma WorkerAfterCancel(c: Config, acts: seq<Action>, tr: seq<State>, i: nat, j: nat, k: nat)
    requires c.WellFormed() && Run(c, acts, tr)
    requires i <= j < |tr| && tr[i].sh.cancelled && k < c.workers
    ensures |tr[i].workers| == |tr[j].workers| == c.workers
    ensures |tr[j].workers[k].received| <= |tr[i].workers[k].received| + 1
    ensures |tr[j].workers[k].dispatched| <= |tr[i].workers[k].dispatched| + c.batchSize
    ensures tr[j].workers[k].lateCalls <= 1
  {
    RunKeepsInv(c, acts, tr, i);
    RunKeepsInv(c, acts, tr, j);
    LateSince(c, acts, tr, i, j, k);
    assert WorkerOk(c, true, tr[j].workers[k]);
  }

  lemma PoolSize(c: Config, acts: seq<Action>, tr: seq<State>, i: nat)
    requires c.WellFormed() && Run(c, acts, tr) && i < |tr|
    ensures |tr[i].workers| == c.workers
  {
    RunKeepsInv(c, acts, tr, i);
  }

  lemma BatchesAfterCancel(c: Config, acts: seq<Action>, tr: seq<State>, i: nat, j: nat)
    requires c.WellFormed() && Run(c, acts, tr)
    requires i <= j < |tr| && tr[i].sh.cancelled
    ensures |tr[i].workers| == |tr[j].workers| == c.workers
    ensures forall k :: 0 <= k < c.workers ==> Read(Dispatches, tr[j].workers[k]) <= Read(Dispatches, tr[i].workers[k]) + c.batchSize
  {
    PoolSize(c, acts, tr, i);
    PoolSize(c, acts, tr, j);
    forall k | 0 <= k < c.workers
      ensures Read(Dispatches, tr[j].workers[k]) <= Read(Dispatches, tr[i].workers[k]) + c.batchSize
    {
      WorkerAfterCancel(c, acts, tr, i, j, k);
    }
  }

  /** So all workers together hand at most one effective batch each to deletion after the cancellation. */
  lemma BoundedWorkAfterCancel(c: Config, acts: seq<Action>, tr: seq<State>, i: nat, j: nat)
    requires c.WellFormed() && Run(c, acts, tr)
    requires i <= j < |tr| && tr[i].sh.cancelled
    ensures |Handed(tr[j].workers)| <= |Handed(tr[i].workers)| + c.workers * c.batchSize
  {
    BatchesAfterCancel(c, acts, tr, i, j);
    TallyGrowth(tr[i].workers, tr[j].workers, Dispatches, c.batchSize);
    HandedSize(tr[i].workers);
    HandedSize(tr[j].workers);
  }
}
