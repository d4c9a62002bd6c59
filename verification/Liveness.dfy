/** The network never gets stuck and every run ends. */
module Liveness {
  import opened Objects
  import opened Filters
  import opened Network
  import opened StageSafety
  import opened WorkerSafety
  import opened RunSafety

  // Deadlock freedom

  /** A task of the pipeline can take a step without any help from the outside world or the supervisors. */
  ghost predicate CanStep(c: Config, s: State)
    requires Shape(c, s)
  {
    exists a: Action :: !a.Interrupt? && !a.Supervise? && Enabled(c, s, a)
  }

  /** The actions of tasks that do what they are meant to do: nobody interrupts, no back end fails, and every entry of
      a batch is deleted. */
  predicate Gentle(a: Action) {
    match a
    case OfStage(_, ch) => ch.Go?
    case OfWorker(_, ch) => ch.Go? || (ch.Answer? && ch.failed == [])
    case OfTerminator => true
    case OfMain => true
    case Supervise => false
    case Interrupt => false
  }

  ghost predicate CanGoOn(c: Config, s: State)
    requires Shape(c, s)
  {
    exists a: Action :: Gentle(a) && Enabled(c, s, a)
  }

  /** A stage that is alive and can get rid of its output is either able to step or waits for a stage that is. */
  lemma {:induction false} ChainCanStep(c: Config, s: State, k: nat)
    requires c.WellFormed() && StagesOk(c, s)
    requires k < |s.stages| && !s.stages[k].pc.Stopped?
    requires ReceiversGone(s, k) || s.chans[k + 1].Waiting() < c.queueSize
    ensures CanGoOn(c, s)
  {
    if s.stages[k].pc.Recv? && s.chans[k].Waiting() == 0 && !SendersGone(s, k) {
      ChainCanStep(c, s, k - 1);
    } else {
      assert Gentle(OfStage(k, Go)) && Enabled(c, s, OfStage(k, Go));
    }
  }

  lemma WorkerCanGo(c: Config, s: State, k: nat)
    requires Shape(c, s) && 1 <= c.queueSize && s.out.Waiting() == 0
    requires k < |s.workers| && !s.workers[k].pc.Done? && !s.workers[k].pc.InFlight?
    requires s.workers[k].pc.Select? ==> Last(s.chans).Waiting() > 0 || SendersGone(s, |s.stages|)
    ensures Gentle(OfWorker(k, Go)) && Enabled(c, s, OfWorker(k, Go))
  {
  }

  lemma WorkerCanAnswer(c: Config, s: State, k: nat)
    requires Shape(c, s) && k < |s.workers| && s.workers[k].pc.InFlight?
    ensures Gentle(OfWorker(k, Answer(s.workers[k].pc.batch, []))) && Enabled(c, s, OfWorker(k, Answer(s.workers[k].pc.batch, [])))
  {
    var batch := s.workers[k].pc.batch;
    assert multiset(batch) + multiset([]) == multiset(batch);
  }

  lemma WorkerCanStep(c: Config, s: State, k: nat)
    requires c.WellFormed() && StagesOk(c, s) && !s.drained
    requires k < |s.workers| && !s.workers[k].pc.Done?
    ensures CanGoOn(c, s)
  {
    var pc := s.workers[k].pc;
    if s.out.Waiting() > 0 {
      assert Gentle(OfTerminator) && Enabled(c, s, OfTerminator);
    } else if pc.InFlight? {
      WorkerCanAnswer(c, s, k);
    } else if pc.Select? && Last(s.chans).Waiting() == 0 && !SendersGone(s, |s.stages|) {
      ChainCanStep(c, s, |s.stages| - 1);
    } else {
      WorkerCanGo(c, s, k);
    }
  }

  lemma StageCanStep(c: Config, s: State, k: nat)
    requires c.WellFormed() && Inv(c, s) && AllDone(s)
    requires k < |s.stages| && !s.stages[k].pc.Stopped?
    ensures CanGoOn(c, s)
    decreases |s.stages| - k
  {
    if ReceiversGone(s, k) {
      ChainCanStep(c, s, k);
    } else {
      StageCanStep(c, s, k + 1);
    }
  }

  /** Every state is final or some task of the pipeline can step and do what it is meant to do: no cancellation, closed
      channel or full queue can leave the pipeline hanging. */
  lemma NeverStuck(c: Config, s: State)
    requires c.WellFormed() && Inv(c, s)
    ensures Final(s) || CanGoOn(c, s)
  {
    if !AllDone(s) {
      var k :| 0 <= k < |s.workers| && !s.workers[k].pc.Done?;
      WorkerCanStep(c, s, k);
    } else if !s.drained {
      assert Gentle(OfTerminator) && Enabled(c, s, OfTerminator);
    } else if exists k :: 0 <= k < |s.stages| && !s.stages[k].pc.Stopped? {
      var k :| 0 <= k < |s.stages| && !s.stages[k].pc.Stopped?;
      StageCanStep(c, s, k);
    } else if !s.main.Finished? {
      assert Gentle(OfMain) && Enabled(c, s, OfMain);
    }
  }

  lemma FinalIsFinal(c: Config, s: State)
    requires c.WellFormed() && Inv(c, s) && Final(s)
    ensures !CanStep(c, s)
  {
  }

  lemma DeadlockFreedom(c: Config, acts: seq<Action>, tr: seq<State>)
    requires c.WellFormed() && Run(c, acts, tr)
    ensures Shape(c, Last(tr))
    ensures Final(Last(tr)) <==> !CanStep(c, Last(tr))
  {
    RunKeepsInv(c, acts, tr, |tr| - 1);
    NeverStuck(c, Last(tr));
    if CanGoOn(c, Last(tr)) {
      var a: Action :| Gentle(a) && Enabled(c, Last(tr), a);
      assert !a.Interrupt? && !a.Supervise?;
    }
    if Final(Last(tr)) {
      FinalIsFinal(c, Last(tr));
    }
  }

  // Termination

  /** The worth of an entry in the workers' queue: an upper bound on the steps it can still cause. */
  const IN_POOL: nat := 12

  function Worth(c: Config, k: nat): nat
    requires k <= |c.filters|
  {
    IN_POOL + 4 * (|c.filters| - k)
  }

  /** Steps a stage can take before its next entry; `w` is the worth of an entry in its output. */
  function StageRank(pc: StagePc, w: nat): nat {
    match pc
    case Stopped => 0
    case Recv => 1
    case Check => 2
    case Sending(_) => 3 + w
    case Have(_) => 4 + w
  }

  function AfterRank(k: Cont): nat {
    match k
    case ThenExit => 0
    case ThenCheck => 8
    case ThenTrip(_) => 9
  }

  function PcRank(pc: WorkerPc): nat {
    match pc
    case Done => 0
    case Select => 7
    case CheckCancel => 8
    case Trip(_) => 9
    case Flush(k) => AfterRank(k) + 6
    case Dispatch(batch, k) => AfterRank(k) + 4 + 2 * |batch|
    case InFlight(batch, k) => AfterRank(k) + 3 + 2 * |batch|
    case Forward(rest, k) => AfterRank(k) + 1 + 2 * |rest|
    case Admit(_) => 17
    case Process(_) => 18
  }

  function WorkerRank(w: Worker): nat {
    PcRank(w.pc) + 2 * |w.buffer|
  }

  function MainRank(m: MainPc): nat {
    match m
    case Await => 6
    case Promote => 5
    case FireError => 4
    case FireCancel => 3
    case FireEnd => 2
    case FireStats => 1
    case Finished => 0
  }

  function FlagRank(sh: Shared): nat {
    (if sh.cancelled then 0 else 1) + (if sh.hasError then 0 else 1)
  }

  function QueueRank(c: Config, chans: seq<Chan>, n: nat): int
    requires n <= |chans| && n <= |c.filters| + 1
  {
    if n == 0 then 0 else QueueRank(c, chans, n - 1) + Worth(c, n - 1) * chans[n - 1].Waiting()
  }

  function StagesRank(c: Config, stages: seq<Stage>, n: nat): nat
    requires n <= |stages| && n <= |c.filters|
  {
    if n == 0 then 0 else StagesRank(c, stages, n - 1) + StageRank(stages[n - 1].pc, Worth(c, n))
  }

  function WorkersRank(ws: seq<Worker>): nat {
    if ws == [] then 0 else WorkersRank(Front(ws)) + WorkerRank(Last(ws))
  }

  /** Strictly smaller after every action. */
  function Measure(c: Config, s: State): int
    requires Shape(c, s)
  {
    QueueRank(c, s.chans, |s.chans|) + StagesRank(c, s.stages, |s.stages|) + WorkersRank(s.workers)
    + s.out.Waiting() + (if s.drained then 0 else 1) + MainRank(s.main) + FlagRank(s.sh)
  }

  lemma {:induction false} QueueUpdate(c: Config, chans: seq<Chan>, k: nat, ch: Chan, n: nat)
    requires n <= |chans| && n <= |c.filters| + 1 && k < |chans|
    ensures k >= n ==> QueueRank(c, chans[k := ch], n) == QueueRank(c, chans, n)
    ensures k < n ==> QueueRank(c, chans[k := ch], n) == QueueRank(c, chans, n) + Worth(c, k) * (ch.Waiting() - chans[k].Waiting())
  {
    if n > 0 {
      QueueUpdate(c, chans, k, ch, n - 1);
      if k == n - 1 {
        Distribute(Worth(c, k), ch.Waiting(), chans[k].Waiting());
      }
    }
  }

  lemma Distribute(w: int, x: int, y: int)
    ensures w * (x - y) == w * x - w * y
  {
  }

  lemma {:induction false} QueueRankNonNegative(c: Config, chans: seq<Chan>, n: nat)
    requires n <= |chans| && n <= |c.filters| + 1
    requires forall k :: 0 <= k < n ==> chans[k].Waiting() >= 0
    ensures QueueRank(c, chans, n) >= 0
  {
    if n > 0 {
      QueueRankNonNegative(c, chans, n - 1);
      assert Worth(c, n - 1) * chans[n - 1].Waiting() >= 0;
    }
  }

  lemma {:induction false} StagesUpdate(c: Config, stages: seq<Stage>, k: nat, st: Stage, n: nat)
    requires n <= |stages| && n <= |c.filters| && k < |stages|
    ensures k >= n ==> StagesRank(c, stages[k := st], n) == StagesRank(c, stages, n)
    ensures k < n ==>
      StagesRank(c, stages[k := st], n) == StagesRank(c, stages, n) + StageRank(st.pc, Worth(c, k + 1)) - StageRank(stages[k].pc, Worth(c, k + 1))
  {
    if n > 0 {
      StagesUpdate(c, stages, k, st, n - 1);
    }
  }

  lemma {:induction false} WorkersUpdate(ws: seq<Worker>, k: nat, w: Worker)
    requires k < |ws|
    ensures WorkersRank(ws[k := w]) == WorkersRank(ws) - WorkerRank(ws[k]) + WorkerRank(w)
  {
    if k == |ws| - 1 {
      assert Front(ws[k := w]) == Front(ws);
    } else {
      assert Front(ws[k := w]) == Front(ws)[k := w];
      WorkersUpdate(Front(ws), k, w);
    }
  }

  lemma StageStepShrinks(c: Config, f: Filter, v: StageView, inClosed: bool, outClosed: bool, ch: Choice, w: nat)
    requires StageOk(f, v.st, v.inp, v.outp)
    requires StageEnabled(c, f, v, inClosed, outClosed, ch)
    ensures
      var r := StageStep(c, f, v, outClosed, ch);
      var fewer, more := v.inp.Waiting() - r.inp.Waiting(), r.outp.Waiting() - v.outp.Waiting();
      && fewer in {0, 1} && more in {0, 1}
      && StageRank(r.st.pc, w) + w * more < StageRank(v.st.pc, w) + (w + 4) * fewer
      && r.sh.hasError == v.sh.hasError && (v.sh.cancelled ==> r.sh.cancelled)
  {
  }

  lemma QueuesAfterStage(c: Config, chans: seq<Chan>, k: nat, inp: Chan, outp: Chan)
    requires k + 1 < |chans| == |c.filters| + 1
    ensures
      var w := Worth(c, k + 1);
      var fewer, more := chans[k].Waiting() - inp.Waiting(), outp.Waiting() - chans[k + 1].Waiting();
      QueueRank(c, chans[k := inp][k + 1 := outp], |chans|) == QueueRank(c, chans, |chans|) - (w + 4) * fewer + w * more
  {
    var w := Worth(c, k + 1);
    var fewer := chans[k].Waiting() - inp.Waiting();
    QueueUpdate(c, chans, k, inp, |chans|);
    QueueUpdate(c, chans[k := inp], k + 1, outp, |chans|);
    assert (w + 4) * (0 - fewer) == 0 - (w + 4) * fewer;
  }

  lemma StageShrinks(c: Config, s: State, k: nat, r: StageView, w: nat, gone: int, come: int)
    requires StagesOk(c, s) && k < |s.stages| && Shape(c, ApplyStage(s, k, r))
    requires w == Worth(c, k + 1)
    requires gone == (w + 4) * (s.chans[k].Waiting() - r.inp.Waiting())
    requires come == w * (r.outp.Waiting() - s.chans[k + 1].Waiting())
    requires StageRank(r.st.pc, w) + come < StageRank(s.stages[k].pc, w) + gone
    requires FlagRank(r.sh) <= FlagRank(s.sh)
    ensures Measure(c, ApplyStage(s, k, r)) < Measure(c, s)
  {
    QueuesAfterStage(c, s.chans, k, r.inp, r.outp);
    StagesUpdate(c, s.stages, k, r.st, |s.stages|);
  }

  lemma StageActionShrinks(c: Config, s: State, k: nat, ch: Choice)
    requires StagesOk(c, s)
    requires Enabled(c, s, OfStage(k, ch))
    requires Shape(c, Apply(c, s, OfStage(k, ch)))
    ensures Measure(c, Apply(c, s, OfStage(k, ch))) < Measure(c, s)
  {
    var v := ViewOfStage(s, k);
    var r := StageStep(c, c.filters[k], v, ReceiversGone(s, k), ch);
    var w := Worth(c, k + 1);
    StageStepShrinks(c, c.filters[k], v, SendersGone(s, k), ReceiversGone(s, k), ch, w);
    StageShrinks(c, s, k, r, w, (w + 4) * (v.inp.Waiting() - r.inp.Waiting()), w * (r.outp.Waiting() - v.outp.Waiting()));
  }

  lemma WorkerStepShrinks(c: Config, v: View, inClosed: bool, ch: Choice)
    requires BufferOk(c, v.sh.cancelled, v.w)
    requires v.inp.taken <= |v.inp.sent| && WorkerEnabled(c, v, inClosed, false, ch)
    ensures
      var r := WorkerStep(c, v, false, ch);
      var fewer, more := v.inp.Waiting() - r.inp.Waiting(), r.out.Waiting() - v.out.Waiting();
      && fewer in {0, 1}
      && WorkerRank(r.w) + more < WorkerRank(v.w) + IN_POOL * fewer
  {
  }

  lemma WorkerFlags(c: Config, v: View, ch: Choice)
    requires v.inp.taken <= |v.inp.sent|
    ensures WorkerStep(c, v, false, ch).sh.hasError == v.sh.hasError
    ensures v.sh.cancelled ==> WorkerStep(c, v, false, ch).sh.cancelled
  {
    if v.sh.cancelled { CancelStays(c, v, false, ch); }
    match v.w.pc
    case Process(o) => assert ProcessStep(c, v, o).sh.hasError == v.sh.hasError;
    case InFlight(batch, k) =>
      if ch.Answer? {
        assert AnswerStep(c, v, batch, k, ch.deleted, ch.failed).sh.hasError == v.sh.hasError;
      }
    case _ =>
  }

  lemma WorkerShrinks(c: Config, s: State, k: nat, r: View)
    requires StagesOk(c, s) && k < |s.workers| && Shape(c, ApplyWorker(s, k, r))
    requires WorkerRank(r.w) + r.out.Waiting() - s.out.Waiting()
           < WorkerRank(s.workers[k]) + IN_POOL * (Last(s.chans).Waiting() - r.inp.Waiting())
    requires FlagRank(r.sh) <= FlagRank(s.sh)
    ensures Measure(c, ApplyWorker(s, k, r)) < Measure(c, s)
  {
    var t, n := ApplyWorker(s, k, r), |s.chans|;
    QueueUpdate(c, s.chans, n - 1, r.inp, n);
    assert Worth(c, n - 1) == IN_POOL;
    assert QueueRank(c, t.chans, n) == QueueRank(c, s.chans, n) + IN_POOL * (r.inp.Waiting() - s.chans[n - 1].Waiting());
    WorkersUpdate(s.workers, k, r.w);
    assert StagesRank(c, t.stages, |t.stages|) == StagesRank(c, s.stages, |s.stages|);
  }

  lemma WorkerActionShrinks(c: Config, s: State, k: nat, ch: Choice)
    requires StagesOk(c, s) && WorkersOk(c, s) && !s.drained
    requires Enabled(c, s, OfWorker(k, ch))
    requires Shape(c, Apply(c, s, OfWorker(k, ch)))
    ensures Measure(c, Apply(c, s, OfWorker(k, ch))) < Measure(c, s)
  {
    var v := ViewOfWorker(s, k);
    WorkerStepShrinks(c, v, SendersGone(s, |s.stages|), ch);
    WorkerFlags(c, v, ch);
    WorkerShrinks(c, s, k, WorkerStep(c, v, false, ch));
  }

  lemma OtherActionShrinks(c: Config, s: State, a: Action)
    requires Shape(c, s) && Enabled(c, s, a)
    requires a.OfTerminator? || a.OfMain? || a.Supervise? || a.Interrupt?
    ensures Measure(c, Apply(c, s, a)) < Measure(c, s)
  {
    if a.OfMain? {
      assert s.main != Finished;
    }
  }

  lemma ActionShrinks(c: Config, s: State, a: Action)
    requires c.WellFormed() && Inv(c, s)
    requires Enabled(c, s, a)
    requires Shape(c, Apply(c, s, a))
    ensures Measure(c, Apply(c, s, a)) < Measure(c, s)
  {
    match a
    case OfStage(k, ch) => StageActionShrinks(c, s, k, ch);
    case OfWorker(k, ch) => WorkerActionShrinks(c, s, k, ch);
    case _ => OtherActionShrinks(c, s, a);
  }

  lemma MeasureNonNegative(c: Config, s: State)
    requires Shape(c, s)
    ensures Measure(c, s) >= 0
  {
    QueueRankNonNegative(c, s.chans, |s.chans|);
  }

  lemma {:induction false} InitQueues(c: Config, chans: seq<Chan>, n: nat)
    requires 1 <= n <= |chans| && n <= |c.filters| + 1
    requires forall k :: 1 <= k < n ==> chans[k].Waiting() == 0
    ensures QueueRank(c, chans, n) == Worth(c, 0) * chans[0].Waiting()
  {
    if n == 1 {
      assert QueueRank(c, chans, 0) == 0;
    } else {
      InitQueues(c, chans, n - 1);
    }
  }

  lemma {:induction false} InitStages(c: Config, stages: seq<Stage>, n: nat)
    requires n <= |stages| && n <= |c.filters|
    requires forall k :: 0 <= k < n ==> stages[k].pc.Check? || stages[k].pc.Recv?
    ensures StagesRank(c, stages, n) <= 2 * n
  {
    if n > 0 {
      InitStages(c, stages, n - 1);
    }
  }

  lemma {:induction false} InitWorkers(n: nat)
    ensures WorkersRank(seq(n, _ => IDLE)) == 7 * n
  {
    if n > 0 {
      assert Front(seq(n, _ => IDLE)) == seq(n - 1, _ => IDLE);
      InitWorkers(n - 1);
    }
  }

  function StepBound(c: Config): nat {
    |c.listing| * (12 + 4 * |c.filters|) + 2 * |c.filters| + 7 * c.workers + 9
  }

  lemma InitMeasure(c: Config)
    requires c.WellFormed()
    ensures Measure(c, Init(c)) <= StepBound(c)
  {
    var s := Init(c);
    InitQueues(c, s.chans, |s.chans|);
    assert QueueRank(c, s.chans, |s.chans|) == |c.listing| * (12 + 4 * |c.filters|);
    InitStages(c, s.stages, |s.stages|);
    InitWorkers(c.workers);
  }

  lemma StepFalls(c: Config, s: State, a: Action, t: State)
    requires c.WellFormed() && Inv(c, s) && Takes(c, s, a, t)
    ensures Inv(c, t) && Measure(c, t) < Measure(c, s)
  {
    ActionKeepsInv(c, s, a);
    ActionShrinks(c, s, a);
  }

  lemma {:induction false} MeasureFalls(c: Config, acts: seq<Action>, tr: seq<State>, k: nat)
    requires c.WellFormed() && Run(c, acts, tr) && k < |tr|
    ensures Inv(c, tr[k])
    ensures k + Measure(c, tr[k]) <= StepBound(c)
  {
    if k == 0 {
      InitOk(c);
      InitMeasure(c);
    } else {
      MeasureFalls(c, acts, tr, k - 1);
      assert Takes(c, tr[k - 1], acts[k - 1], tr[k]);
      StepFalls(c, tr[k - 1], acts[k - 1], tr[k]);
    }
  }

  /** No run has more actions than this bound, whatever the schedule, the failures and the cancellations. */
  lemma EveryRunEnds(c: Config, acts: seq<Action>, tr: seq<State>)
    requires c.WellFormed() && Run(c, acts, tr)
    ensures |acts| <= StepBound(c)
  {
    MeasureFalls(c, acts, tr, |acts|);
    MeasureNonNegative(c, Last(tr));
  }
}
