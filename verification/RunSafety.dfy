/** The invariant of the whole network, kept by every action and so true in every state of every run. */
module RunSafety {
  import opened Objects
  import opened Network
  import opened StageSafety
  import opened WorkerSafety
  import opened TallySafety

  predicate WorkersOk(c: Config, s: State) {
    forall k :: 0 <= k < |s.workers| ==> WorkerOk(c, s.sh.cancelled, s.workers[k])
  }

  // Runs in which nothing was cancelled and no task failed

  predicate Clean(c: Config, sh: Shared) {
    !sh.cancelled && !sh.faulted && 1 <= c.workers
  }

  predicate Exiting(pc: WorkerPc) {
    pc.Done? || (HasCont(pc) && pc.k.ThenExit?)
  }

  predicate CleanStage(s: State, k: nat)
    requires k < |s.stages| < |s.chans|
  {
    s.stages[k].pc.Stopped? ==> s.stages[k].done == |s.chans[k].sent| && SendersGone(s, k)
  }

  predicate CleanWorker(s: State, w: Worker)
    requires s.chans != []
  {
    && (Exiting(w.pc) ==> SendersGone(s, |s.stages|) && Last(s.chans).Waiting() == 0)
    && (w.pc.Done? ==> w.buffer == [])
  }

  /** In a clean run a task stops only after the task before it has stopped and its input is used up. */
  predicate CleanOk(c: Config, s: State)
    requires Shape(c, s)
  {
    Clean(c, s.sh) ==>
      && (forall k :: 0 <= k < |s.stages| ==> CleanStage(s, k))
      && (forall k :: 0 <= k < |s.workers| ==> CleanWorker(s, s.workers[k]))
  }

  lemma LiveStageIsHeard(c: Config, s: State, k: nat)
    requires Shape(c, s) && CleanOk(c, s) && Clean(c, s.sh)
    requires k < |s.stages| && !s.stages[k].pc.Stopped?
    ensures !ReceiversGone(s, k)
    ensures k + 1 < |s.stages| ==> !s.stages[k + 1].pc.Stopped?
    ensures k + 1 == |s.stages| ==> forall j :: 0 <= j < |s.workers| ==> !Exiting(s.workers[j].pc)
  {
    if k + 1 < |s.stages| {
      assert CleanStage(s, k + 1);
    } else {
      forall j | 0 <= j < |s.workers| ensures !Exiting(s.workers[j].pc) {
        assert CleanWorker(s, s.workers[j]);
      }
      assert !Exiting(s.workers[0].pc);
    }
  }

  lemma CleanStop(c: Config, s: State, k: nat, ch: Choice)
    requires StagesOk(c, s) && CleanOk(c, s) && Clean(c, s.sh)
    requires Enabled(c, s, OfStage(k, ch))
    requires !StageShared(c, c.filters[k], ViewOfStage(s, k), ch).faulted
    ensures
      var r := StageStep(c, c.filters[k], ViewOfStage(s, k), ReceiversGone(s, k), ch);
      r.st.pc.Stopped? ==> r.st.done == |r.inp.sent| && SendersGone(s, k)
  {
    LiveStageIsHeard(c, s, k);
  }

  lemma StageActionKeepsClean(c: Config, s: State, k: nat, ch: Choice)
    requires StagesOk(c, s) && CleanOk(c, s)
    requires Enabled(c, s, OfStage(k, ch))
    requires Shape(c, Apply(c, s, OfStage(k, ch)))
    ensures CleanOk(c, Apply(c, s, OfStage(k, ch)))
  {
    hide StageStep, StageOk;
    var v := ViewOfStage(s, k);
    var r := StageStep(c, c.filters[k], v, ReceiversGone(s, k), ch);
    var t := ApplyStage(s, k, r);
    StageStepOk(c, c.filters[k], v, SendersGone(s, k), ReceiversGone(s, k), ch);
    StageShares(c, c.filters[k], v, ReceiversGone(s, k), ch);
    if Clean(c, t.sh) {
      assert Clean(c, s.sh);
      CleanStop(c, s, k, ch);
      LiveStageIsHeard(c, s, k);
      forall j | 0 <= j < |t.stages| ensures CleanStage(t, j) {
        assert CleanStage(s, j);
        if j == k {
          assert t.chans[k] == r.inp;
        }
      }
      forall j | 0 <= j < |t.workers| ensures CleanWorker(t, t.workers[j]) {
        assert CleanWorker(s, s.workers[j]);
      }
    }
  }

  predicate LeavesCleanly(v: View, r: View, inClosed: bool) {
    && (Exiting(r.w.pc) ==> Exiting(v.w.pc) || (inClosed && r.inp.Waiting() == 0))
    && (r.w.pc.Done? ==> r.w.buffer == [])
    && (r.inp == v.inp || (v.inp.Waiting() > 0 && !Exiting(r.w.pc)))
  }

  lemma WorkerLeavesCleanly(c: Config, v: View, inClosed: bool, ch: Choice)
    requires BufferOk(c, v.sh.cancelled, v.w)
    requires v.inp.taken <= |v.inp.sent| && WorkerEnabled(c, v, inClosed, false, ch)
    requires Clean(c, WorkerStep(c, v, false, ch).sh) && Clean(c, v.sh)
    ensures LeavesCleanly(v, WorkerStep(c, v, false, ch), inClosed)
  {
    match v.w.pc
    case Process(o) => assert LeavesCleanly(v, ProcessStep(c, v, o), inClosed);
    case Admit(o) => assert LeavesCleanly(v, AdmitStep(c, v, o), inClosed);
    case Flush(k) => assert LeavesCleanly(v, FlushStep(v, k), inClosed);
    case Forward(rest, k) => assert LeavesCleanly(v, ForwardStep(v, rest, k, false), inClosed);
    case _ =>
  }

  lemma FaultsStay(c: Config, v: View, ch: Choice)
    requires v.inp.taken <= |v.inp.sent|
    requires Clean(c, WorkerStep(c, v, false, ch).sh)
    ensures Clean(c, v.sh)
  {
    if v.sh.cancelled { CancelStays(c, v, false, ch); }
    match v.w.pc
    case Process(o) => assert !ProcessStep(c, v, o).sh.faulted;
    case Admit(o) => assert !AdmitStep(c, v, o).sh.faulted;
    case _ =>
  }

  lemma WorkerActionKeepsClean(c: Config, s: State, k: nat, ch: Choice)
    requires StagesOk(c, s) && WorkersOk(c, s) && CleanOk(c, s)
    requires Enabled(c, s, OfWorker(k, ch)) && !s.drained
    requires Shape(c, Apply(c, s, OfWorker(k, ch)))
    ensures CleanOk(c, Apply(c, s, OfWorker(k, ch)))
  {
    var v := ViewOfWorker(s, k);
    var r := WorkerStep(c, v, false, ch);
    var t := ApplyWorker(s, k, r);
    WorkerTakesFromQueue(c, v, false, ch, SendersGone(s, |s.stages|));
    if Clean(c, t.sh) {
      FaultsStay(c, v, ch);
      WorkerLeavesCleanly(c, v, SendersGone(s, |s.stages|), ch);
      CleanAfterWorker(c, s, k, v, r);
    }
  }

  lemma CleanAfterWorker(c: Config, s: State, k: nat, v: View, r: View)
    requires Shape(c, s) && CleanOk(c, s) && Clean(c, s.sh)
    requires k < |s.workers| && v == ViewOfWorker(s, k)
    requires Shape(c, ApplyWorker(s, k, r)) && r.inp.sent == v.inp.sent
    requires LeavesCleanly(v, r, SendersGone(s, |s.stages|))
    ensures CleanOk(c, ApplyWorker(s, k, r))
  {
    var t := ApplyWorker(s, k, r);
    forall j | 0 <= j < |t.stages| ensures CleanStage(t, j) {
      assert CleanStage(s, j);
      assert t.chans[j] == s.chans[j];
    }
    assert CleanWorker(s, s.workers[k]);
    forall j | 0 <= j < |t.workers| ensures CleanWorker(t, t.workers[j]) {
      assert CleanWorker(s, s.workers[j]);
    }
  }

  // The task that runs the pipeline, and the order of events

  predicate Concluded(m: MainPc) {
    m.FireStats? || m.Finished?
  }

  predicate MainOk(c: Config, s: State) {
    && (s.drained ==> AllDone(s) && s.out.Waiting() == 0)
    && (!s.main.Await? ==> s.drained)
    && (c.warnAsError && s.sh.warned && !s.main.Await? && !s.main.Promote? ==> s.sh.hasError)
    && (c.warnAsError && s.sh.warned && (s.main.FireCancel? || s.main.FireEnd? || Concluded(s.main)) ==> Errored in s.sh.log)
  }

  predicate LogOk(c: Config, m: MainPc, sh: Shared) {
    && (Ended in sh.log <==> Concluded(m))
    && (forall e :: e in sh.log && e.Stats? ==> m.Finished? && e == Stats(sh.deleted, sh.failed + sh.trips))
    && (forall i, j :: 0 <= i < j < |sh.log| && sh.log[i].Ended? ==> !sh.log[j].Completed? && !sh.log[j].Failed?)
    && (forall j :: 0 <= j < |sh.log| && sh.log[j].Ended? && c.warnAsError && sh.warned ==> Errored in sh.log[..j])
  }

  /** Events a worker may log. */
  predicate WorkEvent(e: Event) {
    e.Completed? || e.Failed? || e.FilteredOut?
  }

  /** Events a filter stage may log. */
  predicate SideEvent(e: Event) {
    e.FilteredOut? || e.Errored?
  }

  lemma {:induction false} AnnounceEvents(os: seq<S3Object>, ok: bool)
    ensures forall e :: e in Announce(os, ok) ==> WorkEvent(e)
  {
    if os != [] {
      AnnounceEvents(Front(os), ok);
    }
  }

  lemma WorkerLogs(c: Config, v: View, ch: Choice)
    requires v.inp.taken <= |v.inp.sent|
    ensures forall e :: e in WorkerStep(c, v, false, ch).sh.log ==> e in v.sh.log || WorkEvent(e)
  {
    match v.w.pc
    case Process(o) => assert forall e :: e in ProcessStep(c, v, o).sh.log ==> e in v.sh.log || WorkEvent(e);
    case InFlight(batch, k) =>
      if ch.Answer? {
        AnnounceEvents(ch.deleted, true);
        AnnounceEvents(ch.failed, false);
        assert forall e :: e in AnswerStep(c, v, batch, k, ch.deleted, ch.failed).sh.log ==> e in v.sh.log || WorkEvent(e);
      }
    case Trip(o) => assert forall e :: e in TripStep(v, o).sh.log ==> e in v.sh.log || WorkEvent(e);
    case _ => QuietOrAdmit(c, v, ch);
  }

  lemma QuietOrAdmit(c: Config, v: View, ch: Choice)
    requires v.inp.taken <= |v.inp.sent|
    requires Quiet(v.w.pc) || v.w.pc.Admit?
    ensures WorkerStep(c, v, false, ch).sh.log == v.sh.log
  {
    if !v.w.pc.Admit? {
      QuietStep(c, v, false, ch);
    }
  }

  lemma WorkerActionKeepsMain(c: Config, s: State, k: nat, ch: Choice)
    requires Shape(c, s) && MainOk(c, s) && LogOk(c, s.main, s.sh)
    requires Enabled(c, s, OfWorker(k, ch))
    ensures !s.drained
    ensures MainOk(c, Apply(c, s, OfWorker(k, ch)))
    ensures LogOk(c, s.main, Apply(c, s, OfWorker(k, ch)).sh)
  {
    assert !s.workers[k].pc.Done?;
    WorkerLogs(c, ViewOfWorker(s, k), ch);
    var sh := WorkerStep(c, ViewOfWorker(s, k), false, ch).sh;
    assert forall e :: e in sh.log ==> !e.Ended? && !e.Stats?;
  }

  /** Side events change nothing about the order of the others. */
  lemma SideEventsKeepLog(c: Config, m: MainPc, sh: Shared, r: Shared, es: seq<Event>)
    requires LogOk(c, m, sh)
    requires r.log == sh.log + es && forall e :: e in es ==> SideEvent(e) || e.Cancelled?
    requires r.deleted == sh.deleted && r.failed == sh.failed && r.trips == sh.trips && r.warned == sh.warned
    ensures LogOk(c, m, r)
  {
    forall j | |sh.log| <= j < |r.log| ensures SideEvent(r.log[j]) || r.log[j].Cancelled? {
      assert r.log[j] == es[j - |sh.log|];
    }
    forall j | 0 <= j < |r.log| && r.log[j].Ended? && c.warnAsError && r.warned ensures Errored in r.log[..j] {
      assert r.log[..j] == sh.log[..j];
    }
  }

  lemma StageActionKeepsMain(c: Config, s: State, k: nat, ch: Choice)
    requires Shape(c, s) && MainOk(c, s) && LogOk(c, s.main, s.sh)
    requires Enabled(c, s, OfStage(k, ch))
    ensures MainOk(c, Apply(c, s, OfStage(k, ch)))
    ensures LogOk(c, s.main, Apply(c, s, OfStage(k, ch)).sh)
  {
    var v := ViewOfStage(s, k);
    var sh := StageShared(c, c.filters[k], v, ch);
    assert StageStep(c, c.filters[k], v, ReceiversGone(s, k), ch).sh == sh;
    SideEventsKeepLog(c, s.main, s.sh, sh, StageEvents(c, c.filters[k], v, ch));
  }

  lemma MainActionKeepsLog(c: Config, s: State)
    requires MainOk(c, s) && LogOk(c, s.main, s.sh) && CountsOk(s.sh)
    requires MainEnabled(s)
    ensures LogOk(c, MainStep(c, s).main, MainStep(c, s).sh)
  {
    var sh, r := s.sh, MainStep(c, s).sh;
    var es := MainEvents(c, s.main, sh);
    if s.main.FireEnd? || s.main.FireStats? {
      forall j | 0 <= j < |r.log| && r.log[j].Ended? && c.warnAsError && r.warned ensures Errored in r.log[..j] {
        if j < |sh.log| {
          assert r.log[..j] == sh.log[..j];
        } else {
          assert r.log[..j] == sh.log;
        }
      }
    } else {
      SideEventsKeepLog(c, s.main, sh, r, es);
    }
  }

  lemma MainActionKeepsMain(c: Config, s: State)
    requires MainOk(c, s) && MainEnabled(s)
    ensures MainOk(c, MainStep(c, s))
  {
  }

  // The invariant

  ghost predicate Inv(c: Config, s: State) {
    && StagesOk(c, s)
    && WorkersOk(c, s)
    && SumsOk(c, s)
    && CountsOk(s.sh)
    && CleanOk(c, s)
    && MainOk(c, s)
    && LogOk(c, s.main, s.sh)
  }

  lemma InitOk(c: Config)
    requires c.WellFormed()
    ensures Inv(c, Init(c))
  {
    InitStagesOk(c);
    IdleOk(c);
    InitSums(c);
  }

  lemma CancelKeepsWorkers(c: Config, s: State)
    requires WorkersOk(c, s)
    ensures forall k :: 0 <= k < |s.workers| ==> WorkerOk(c, true, s.workers[k])
  {
    forall k | 0 <= k < |s.workers| ensures WorkerOk(c, true, s.workers[k]) {
      if !s.sh.cancelled {
        CancelKeepsWorker(c, s.workers[k]);
      }
    }
  }

  lemma ActionKeepsWorkers(c: Config, s: State, a: Action)
    requires c.WellFormed()
    requires StagesOk(c, s) && WorkersOk(c, s)
    requires Enabled(c, s, a) && (a.OfWorker? ==> !s.drained)
    ensures WorkersOk(c, Apply(c, s, a))
  {
    CancelKeepsWorkers(c, s);
    if a.OfWorker? {
      var v := ViewOfWorker(s, a.worker);
      WorkerStepOk(c, v, SendersGone(s, |s.stages|), a.choice);
      if s.sh.cancelled {
        CancelStays(c, v, false, a.choice);
      }
    } else {
      assert Apply(c, s, a).workers == s.workers;
      assert s.sh.cancelled ==> Apply(c, s, a).sh.cancelled;
    }
  }

  lemma OthersKeepClean(c: Config, s: State, a: Action)
    requires StagesOk(c, s) && CleanOk(c, s)
    requires Enabled(c, s, a) && !a.OfStage? && !a.OfWorker?
    requires Shape(c, Apply(c, s, a))
    ensures CleanOk(c, Apply(c, s, a))
  {
    var t := Apply(c, s, a);
    assert t.workers == s.workers && t.chans == s.chans && t.stages == s.stages;
    assert Clean(c, t.sh) ==> Clean(c, s.sh);
    forall j | 0 <= j < |t.stages| && Clean(c, t.sh) ensures CleanStage(t, j) {
      assert CleanStage(s, j);
    }
    forall j | 0 <= j < |t.workers| && Clean(c, t.sh) ensures CleanWorker(t, t.workers[j]) {
      assert CleanWorker(s, s.workers[j]);
    }
  }

  lemma ActionKeepsMain(c: Config, s: State, a: Action)
    requires Shape(c, s) && MainOk(c, s) && LogOk(c, s.main, s.sh) && CountsOk(s.sh)
    requires Enabled(c, s, a)
    ensures a.OfWorker? ==> !s.drained
    ensures MainOk(c, Apply(c, s, a))
    ensures LogOk(c, Apply(c, s, a).main, Apply(c, s, a).sh)
  {
    match a
    case OfStage(k, ch) => StageActionKeepsMain(c, s, k, ch);
    case OfWorker(k, ch) => WorkerActionKeepsMain(c, s, k, ch);
    case OfMain =>
      MainActionKeepsMain(c, s);
      MainActionKeepsLog(c, s);
    case _ =>
  }

  lemma ActionKeepsInv(c: Config, s: State, a: Action)
    requires c.WellFormed() && Inv(c, s)
    requires Enabled(c, s, a)
    ensures Inv(c, Apply(c, s, a))
  {
    ActionKeepsMain(c, s, a);
    ActionKeepsStages(c, s, a);
    ActionKeepsWorkers(c, s, a);
    ActionKeepsSums(c, s, a);
    ActionKeepsCounts(c, s, a);
    match a
    case OfStage(k, ch) => StageActionKeepsClean(c, s, k, ch);
    case OfWorker(k, ch) => WorkerActionKeepsClean(c, s, k, ch);
    case _ => OthersKeepClean(c, s, a);
  }

  /** The invariant holds all along every run. */
  lemma {:induction false} RunKeepsInv(c: Config, acts: seq<Action>, tr: seq<State>, k: nat)
    requires c.WellFormed() && Run(c, acts, tr) && k < |tr|
    ensures Inv(c, tr[k])
  {
    if k == 0 {
      InitOk(c);
    } else {
      RunKeepsInv(c, acts, tr, k - 1);
      assert tr[k] == Apply(c, tr[k - 1], acts[k - 1]);
      ActionKeepsInv(c, tr[k - 1], acts[k - 1]);
    }
  }

  lemma MainIsOk(c: Config, acts: seq<Action>, tr: seq<State>, n: nat)
    requires c.WellFormed() && Run(c, acts, tr) && n < |tr|
    ensures Shape(c, tr[n]) && MainOk(c, tr[n])
  {
    RunKeepsInv(c, acts, tr, n);
  }

  lemma StagesAreOk(c: Config, acts: seq<Action>, tr: seq<State>, n: nat)
    requires c.WellFormed() && Run(c, acts, tr) && n < |tr|
    ensures StagesOk(c, tr[n])
  {
    RunKeepsInv(c, acts, tr, n);
  }

  lemma CountsAreOk(c: Config, acts: seq<Action>, tr: seq<State>, n: nat)
    requires c.WellFormed() && Run(c, acts, tr) && n < |tr|
    ensures CountsOk(tr[n].sh)
  {
    RunKeepsInv(c, acts, tr, n);
  }

  /** A run goes on with any action that is enabled. */
  lemma Extend(c: Config, acts: seq<Action>, tr: seq<State>, a: Action, t: State)
    requires Run(c, acts, tr) && Takes(c, Last(tr), a, t)
    ensures Run(c, acts + [a], tr + [t]) && Last(tr + [t]) == t
  {
    var bcts, ur := acts + [a], tr + [t];
    forall k {:trigger bcts[k]} | 0 <= k < |bcts| ensures Takes(c, ur[k], bcts[k], ur[k + 1]) {
      if k < |acts| {
        assert Takes(c, tr[k], acts[k], tr[k + 1]);
      }
    }
  }
}
