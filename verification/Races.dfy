/** What a finished run does not promise: a stage can fail without the run reporting an error, because the task that
    records the failure is not waited for. */
module Races {
  import opened Objects
  import opened Filters
  import opened Network
  import opened StageSafety
  import opened WorkerSafety
  import opened RunSafety
  import opened Liveness
  import opened Completion

  // Every configuration has a run whose failure goes unreported

  predicate BarrenStage(f: Filter, st: Stage) {
    st.pc.Stopped? || (!f.Lister? && (st.pc.Check? || st.pc.Recv?))
  }

  predicate BarrenWorker(w: Worker) {
    w.buffer == [] && (w.pc.Select? || w.pc == Flush(ThenExit) || w.pc.Done?)
  }

  /** The lister failed before it sent anything: no entry is anywhere, and nobody has noticed the failure. */
  predicate Barren(c: Config, s: State) {
    && Shape(c, s)
    && (forall k :: 0 <= k < |s.stages| ==> BarrenStage(c.filters[k], s.stages[k]))
    && (forall k :: 1 <= k < |s.chans| ==> s.chans[k].sent == [])
    && (forall k :: 0 <= k < |s.workers| ==> BarrenWorker(s.workers[k]))
    && s.out.sent == []
    && Unnoticed(s.sh)
  }

  predicate Unnoticed(sh: Shared) {
    sh.faulted && !sh.hasError && !sh.cancelled && !sh.warned && Errored !in sh.log
  }

  lemma BreakIsBarren(c: Config)
    requires c.WellFormed()
    ensures Shape(c, Init(c)) && Enabled(c, Init(c), OfStage(0, Break))
    ensures Barren(c, Apply(c, Init(c), OfStage(0, Break)))
  {
    var s := Init(c);
    var v := ViewOfStage(s, 0);
    var t := Apply(c, s, OfStage(0, Break));
    assert StageEvents(c, c.filters[0], v, Break) == [];
    assert t.sh.log == [Started];
    forall k | 0 <= k < |t.stages| ensures BarrenStage(c.filters[k], t.stages[k]) {
      if k > 0 {
        assert t.stages[k] == Stage(Top(c.filters[k]), 0);
      }
    }
  }

  lemma StageKeepsBarren(c: Config, s: State, k: nat, ch: Choice)
    requires c.WellFormed() && Barren(c, s) && Enabled(c, s, OfStage(k, ch))
    requires Shape(c, Apply(c, s, OfStage(k, ch)))
    ensures Barren(c, Apply(c, s, OfStage(k, ch)))
  {
    var f, v := c.filters[k], ViewOfStage(s, k);
    var r := StageStep(c, f, v, ReceiversGone(s, k), ch);
    var t := ApplyStage(s, k, r);
    assert BarrenStage(f, s.stages[k]) && k != 0;
    StageStaysBarren(c, f, v, SendersGone(s, k), ReceiversGone(s, k), ch);
    forall j | 0 <= j < |t.stages| ensures BarrenStage(c.filters[j], t.stages[j]) {
      if j != k {
        assert t.stages[j] == s.stages[j];
      }
    }
  }

  lemma StageStaysBarren(c: Config, f: Filter, v: StageView, inClosed: bool, outClosed: bool, ch: Choice)
    requires v.st.done <= v.inp.taken <= |v.inp.sent|
    requires BarrenStage(f, v.st) && Unnoticed(v.sh) && StageEnabled(c, f, v, inClosed, outClosed, ch)
    requires v.inp.sent == []
    ensures
      var r := StageStep(c, f, v, outClosed, ch);
      BarrenStage(f, r.st) && Unnoticed(r.sh) && r.inp.sent == v.inp.sent && r.outp == v.outp
  {
    assert StageEvents(c, f, v, ch) == [];
    assert v.sh.log + [] == v.sh.log;
  }

  lemma WorkerStaysBarren(c: Config, v: View, inClosed: bool, outClosed: bool, ch: Choice)
    requires v.inp.taken <= |v.inp.sent| && v.inp.sent == []
    requires BarrenWorker(v.w) && Unnoticed(v.sh) && WorkerEnabled(c, v, inClosed, outClosed, ch)
    ensures
      var r := WorkerStep(c, v, outClosed, ch);
      BarrenWorker(r.w) && r.sh == v.sh && r.inp == v.inp && r.out == v.out
  {
  }

  lemma WorkerKeepsBarren(c: Config, s: State, k: nat, ch: Choice)
    requires Barren(c, s) && 1 < |s.chans| && Enabled(c, s, OfWorker(k, ch))
    ensures Barren(c, Apply(c, s, OfWorker(k, ch)))
  {
    var v := ViewOfWorker(s, k);
    assert BarrenWorker(s.workers[k]) && Last(s.chans) == s.chans[|s.chans| - 1];
    WorkerStaysBarren(c, v, SendersGone(s, |s.stages|), s.drained, ch);
    var t := Apply(c, s, OfWorker(k, ch));
    forall j | 0 <= j < |t.workers| ensures BarrenWorker(t.workers[j]) {
      if j != k {
        assert t.workers[j] == s.workers[j];
      }
    }
  }

  lemma OtherKeepsBarren(c: Config, s: State, a: Action)
    requires Barren(c, s) && Enabled(c, s, a) && (a.OfTerminator? || a.OfMain?)
    ensures Barren(c, Apply(c, s, a))
  {
    if a.OfMain? {
      assert Errored !in MainEvents(c, s.main, s.sh);
    }
  }

  /** As long as nobody supervises or interrupts, the failure stays unnoticed. */
  lemma ActionKeepsBarren(c: Config, s: State, a: Action)
    requires c.WellFormed() && Barren(c, s) && Enabled(c, s, a) && !a.Supervise? && !a.Interrupt?
    requires Shape(c, Apply(c, s, a))
    ensures Barren(c, Apply(c, s, a))
  {
    match a
    case OfStage(k, ch) =>
      StageKeepsBarren(c, s, k, ch);
    case OfWorker(k, ch) => WorkerKeepsBarren(c, s, k, ch);
    case _ => OtherKeepsBarren(c, s, a);
  }

  lemma UnnoticedStep(c: Config, s: State) returns (a: Action, t: State)
    requires c.WellFormed() && Inv(c, s) && Barren(c, s) && !Final(s)
    ensures Takes(c, s, a, t) && Inv(c, t) && Barren(c, t)
    ensures 0 <= Measure(c, t) < Measure(c, s)
  {
    NeverStuck(c, s);
    a :| Gentle(a) && Enabled(c, s, a);
    t := Apply(c, s, a);
    StepFalls(c, s, a, t);
    MeasureNonNegative(c, t);
    ActionKeepsBarren(c, s, a);
  }

  lemma UnnoticedStart(c: Config) returns (a: Action, t: State)
    requires c.WellFormed()
    ensures Takes(c, Init(c), a, t) && Inv(c, t) && Barren(c, t)
  {
    hide Inv, Barren, Measure, Enabled, Apply, Init;
    BreakIsBarren(c);
    InitOk(c);
    a := OfStage(0, Break);
    t := Apply(c, Init(c), a);
    StepFalls(c, Init(c), a, t);
  }

  lemma UnnoticedEnd(c: Config, s: State)
    requires Inv(c, s) && Barren(c, s) && Final(s)
    ensures s.sh.faulted && !s.sh.hasError && !s.sh.cancelled
    ensures Errored !in s.sh.log && Ended in s.sh.log
  {
  }

  /** The run goes on without anyone noticing, and it ends. */
  lemma {:induction false} EndsUnnoticed(c: Config, acts: seq<Action>, tr: seq<State>) returns (bcts: seq<Action>, ur: seq<State>)
    requires c.WellFormed() && Run(c, acts, tr) && Inv(c, Last(tr)) && Barren(c, Last(tr))
    ensures Run(c, bcts, ur) && Inv(c, Last(ur)) && Barren(c, Last(ur)) && Final(Last(ur))
    decreases Measure(c, Last(tr))
  {
    var s := Last(tr);
    if Final(s) {
      bcts, ur := acts, tr;
    } else {
      var a, t := UnnoticedStep(c, s);
      Extend(c, acts, tr, a, t);
      bcts, ur := EndsUnnoticed(c, acts + [a], tr + [t]);
    }
  }

  /** No setting makes a finished run record every failure of its stages: for every configuration there is a finished
      run in which the lister failed, yet the run ends without an error, without a cancellation and without an error
      event. */
  lemma FailureCanGoUnreported(c: Config) returns (acts: seq<Action>, tr: seq<State>)
    requires c.WellFormed()
    ensures Run(c, acts, tr) && Final(Last(tr))
    ensures Last(tr).sh.faulted && !Last(tr).sh.hasError && !Last(tr).sh.cancelled
    ensures Errored !in Last(tr).sh.log && Ended in Last(tr).sh.log
  {
    hide Inv, Barren, Final, Takes, Measure;
    var a, t := UnnoticedStart(c);
    Extend(c, [], [Init(c)], a, t);
    acts, tr := EndsUnnoticed(c, [] + [a], [Init(c)] + [t]);
    UnnoticedEnd(c, Last(tr));
  }

  // What an error on record does mean

  predicate Promoted(m: MainPc) {
    !m.Await? && !m.Promote?
  }

  /** The ways in which an error gets recorded: a supervisor notes a failed task, or the main task promotes a
      warning. */
  predicate Recorded(c: Config, acts: seq<Action>, s: State) {
    Supervise in acts || (Promoted(s.main) && c.warnAsError && s.sh.warned)
  }

  lemma WorkerRecordsNothing(c: Config, s: State, k: nat, ch: Choice)
    requires Shape(c, s) && MainOk(c, s) && Enabled(c, s, OfWorker(k, ch))
    ensures Apply(c, s, OfWorker(k, ch)).sh.hasError == s.sh.hasError
    ensures Apply(c, s, OfWorker(k, ch)).main == s.main == Await
  {
    var v := ViewOfWorker(s, k);
    assert !s.drained;
    WorkerFlags(c, v, ch);
  }

  lemma StageRecordsNothing(c: Config, s: State, k: nat, ch: Choice)
    requires Shape(c, s) && Enabled(c, s, OfStage(k, ch))
    ensures
      var t := Apply(c, s, OfStage(k, ch));
      t.sh.hasError == s.sh.hasError && t.sh.warned == s.sh.warned && t.main == s.main
  {
    assert Apply(c, s, OfStage(k, ch)).sh == StageShared(c, c.filters[k], ViewOfStage(s, k), ch);
  }

  lemma ActionRecords(c: Config, s: State, a: Action, acts: seq<Action>)
    requires Shape(c, s) && MainOk(c, s) && Enabled(c, s, a)
    requires s.sh.hasError <==> Recorded(c, acts, s)
    ensures Apply(c, s, a).sh.hasError <==> Recorded(c, acts + [a], Apply(c, s, a))
  {
    assert Supervise in acts + [a] <==> Supervise in acts || a == Supervise;
    match a
    case OfWorker(k, ch) => WorkerRecordsNothing(c, s, k, ch);
    case OfStage(k, ch) => StageRecordsNothing(c, s, k, ch);
    case OfMain => assert Apply(c, s, a) == MainStep(c, s);
    case _ =>
  }

  /** An error is on record when a supervisor came in time or a warning was promoted, and in no other way. */
  lemma {:induction false} RecordedInTwoWays(c: Config, acts: seq<Action>, tr: seq<State>, n: nat)
    requires c.WellFormed() && Run(c, acts, tr) && n < |tr|
    ensures tr[n].sh.hasError <==> Recorded(c, acts[..n], tr[n])
  {
    if n > 0 {
      RecordedInTwoWays(c, acts, tr, n - 1);
      MainIsOk(c, acts, tr, n - 1);
      assert Takes(c, tr[n - 1], acts[n - 1], tr[n]);
      ActionRecords(c, tr[n - 1], acts[n - 1], acts[..n - 1]);
      assert acts[..n] == acts[..n - 1] + [acts[n - 1]];
    }
  }

  /** What can have led to an error: a task that failed, or a deletion that failed or went over the limit while
      warnings count as errors. */
  predicate Guilty(c: Config, sh: Shared) {
    sh.faulted || (c.warnAsError && sh.warned)
  }

  predicate GuiltKept(sh: Shared, r: Shared) {
    && (sh.faulted ==> r.faulted)
    && (sh.warned ==> r.warned)
    && r.hasError == sh.hasError
  }

  lemma WorkerKeepsGuilt(c: Config, v: View, outClosed: bool, ch: Choice)
    requires v.inp.taken <= |v.inp.sent|
    ensures GuiltKept(v.sh, WorkerStep(c, v, outClosed, ch).sh)
  {
    match v.w.pc
    case Process(o) => assert GuiltKept(v.sh, ProcessStep(c, v, o).sh);
    case InFlight(batch, k) =>
      if ch.Answer? {
        assert GuiltKept(v.sh, AnswerStep(c, v, batch, k, ch.deleted, ch.failed).sh);
      }
    case _ =>
  }

  lemma ActionKeepsGuilt(c: Config, s: State, a: Action)
    requires Shape(c, s) && Enabled(c, s, a)
    requires s.sh.hasError ==> Guilty(c, s.sh)
    ensures Apply(c, s, a).sh.hasError ==> Guilty(c, Apply(c, s, a).sh)
  {
    match a
    case OfWorker(k, ch) => WorkerKeepsGuilt(c, ViewOfWorker(s, k), s.drained, ch);
    case OfStage(k, ch) => assert GuiltKept(s.sh, StageShared(c, c.filters[k], ViewOfStage(s, k), ch));
    case OfMain => assert Apply(c, s, a) == MainStep(c, s);
    case _ =>
  }

  /** No false alarm: when a run has an error on record, a task has failed, or warnings are promoted and there was
      one. */
  lemma {:induction false} RecordedErrorsAreReal(c: Config, acts: seq<Action>, tr: seq<State>, n: nat)
    requires c.WellFormed() && Run(c, acts, tr) && n < |tr|
    ensures tr[n].sh.hasError ==> tr[n].sh.faulted || (c.warnAsError && tr[n].sh.warned)
  {
    if n > 0 {
      RecordedErrorsAreReal(c, acts, tr, n - 1);
      assert Takes(c, tr[n - 1], acts[n - 1], tr[n]);
      ActionKeepsGuilt(c, tr[n - 1], acts[n - 1]);
    }
  }

  lemma ActionErrsForAReason(c: Config, s: State, a: Action)
    requires Shape(c, s) && MainOk(c, s) && LogOk(c, s.main, s.sh) && Enabled(c, s, a)
    requires s.sh.hasError ==> Guilty(c, s.sh)
    requires Errored in s.sh.log ==> Guilty(c, s.sh)
    ensures Errored in Apply(c, s, a).sh.log ==> Guilty(c, Apply(c, s, a).sh)
  {
    match a
    case OfWorker(k, ch) =>
      assert !s.drained;
      WorkerLogs(c, ViewOfWorker(s, k), ch);
      WorkerKeepsGuilt(c, ViewOfWorker(s, k), false, ch);
    case OfStage(k, ch) =>
      StageShares(c, c.filters[k], ViewOfStage(s, k), ReceiversGone(s, k), ch);
    case OfMain => assert Apply(c, s, a) == MainStep(c, s);
    case _ =>
  }

  /** The same of the error events. */
  lemma {:induction false} ErrorEventsAreReal(c: Config, acts: seq<Action>, tr: seq<State>, n: nat)
    requires c.WellFormed() && Run(c, acts, tr) && n < |tr|
    ensures Errored in tr[n].sh.log ==> tr[n].sh.faulted || (c.warnAsError && tr[n].sh.warned)
  {
    if n > 0 {
      ErrorEventsAreReal(c, acts, tr, n - 1);
      RecordedErrorsAreReal(c, acts, tr, n - 1);
      MainIsOk(c, acts, tr, n - 1);
      LogIsOk(c, acts, tr, n - 1);
      assert Takes(c, tr[n - 1], acts[n - 1], tr[n]);
      ActionErrsForAReason(c, tr[n - 1], acts[n - 1]);
    }
  }

  lemma ActionKeepsRecord(c: Config, s: State, a: Action)
    requires Shape(c, s) && Enabled(c, s, a) && s.sh.hasError && s.sh.cancelled
    ensures Apply(c, s, a).sh.hasError && Apply(c, s, a).sh.cancelled
  {
    match a
    case OfWorker(k, ch) =>
      WorkerKeepsGuilt(c, ViewOfWorker(s, k), s.drained, ch);
      CancelStays(c, ViewOfWorker(s, k), s.drained, ch);
    case OfStage(k, ch) => StageShares(c, c.filters[k], ViewOfStage(s, k), ReceiversGone(s, k), ch);
    case _ =>
  }

  /** Once a supervisor has acted, the error is on record and the run is cancelled, and both remain so. */
  lemma {:induction false} SupervisionStays(c: Config, acts: seq<Action>, tr: seq<State>, i: nat, j: nat)
    requires Run(c, acts, tr) && i < j < |tr| && acts[i] == Supervise
    ensures tr[j].sh.hasError && tr[j].sh.cancelled
  {
    assert Takes(c, tr[j - 1], acts[j - 1], tr[j]);
    if i < j - 1 {
      SupervisionStays(c, acts, tr, i, j - 1);
      ActionKeepsRecord(c, tr[j - 1], acts[j - 1]);
    }
  }

  // Runs in which no task failed

  lemma {:induction false} FaultsAreKept(c: Config, acts: seq<Action>, tr: seq<State>, i: nat, j: nat)
    requires Run(c, acts, tr) && i <= j < |tr| && tr[i].sh.faulted
    ensures tr[j].sh.faulted
  {
    if i < j {
      FaultsAreKept(c, acts, tr, i, j - 1);
      assert Takes(c, tr[j - 1], acts[j - 1], tr[j]);
      match acts[j - 1]
      case OfWorker(k, ch) => WorkerKeepsGuilt(c, ViewOfWorker(tr[j - 1], k), tr[j - 1].drained, ch);
      case _ =>
    }
  }

  lemma NobodySupervises(c: Config, acts: seq<Action>, tr: seq<State>)
    requires Run(c, acts, tr) && !Last(tr).sh.faulted
    ensures Supervise !in acts
  {
    if Supervise in acts {
      var i :| 0 <= i < |acts| && acts[i] == Supervise;
      assert Takes(c, tr[i], acts[i], tr[i + 1]);
      FaultsAreKept(c, acts, tr, i, |acts|);
    }
  }

  /** A finished run in which no task failed has an error on record if and only if warnings are promoted and some key
      was not deleted or the quota was exceeded. */
  lemma ErrorIsRecordedIff(c: Config, acts: seq<Action>, tr: seq<State>)
    requires c.WellFormed() && Run(c, acts, tr) && Final(Last(tr)) && !Last(tr).sh.faulted
    ensures Last(tr).sh.hasError <==> c.warnAsError && Last(tr).sh.failed + Last(tr).sh.trips > 0
  {
    RecordedInTwoWays(c, acts, tr, |acts|);
    NobodySupervises(c, acts, tr);
    assert acts[..|acts|] == acts;
    CountsAreOk(c, acts, tr, |acts|);
  }

  /** And exactly then it fires an error event. */
  lemma ErrorEventIff(c: Config, acts: seq<Action>, tr: seq<State>)
    requires c.WellFormed() && Run(c, acts, tr) && Final(Last(tr)) && !Last(tr).sh.faulted
    ensures Errored in Last(tr).sh.log <==> c.warnAsError && Last(tr).sh.failed + Last(tr).sh.trips > 0
  {
    ErrorEventsAreReal(c, acts, tr, |acts|);
    CountsAreOk(c, acts, tr, |acts|);
    if c.warnAsError && Last(tr).sh.failed + Last(tr).sh.trips > 0 {
      WarningsArePromoted(c, acts, tr);
    }
  }
}
