/** A dry run previews a real run: with the same schedule, it takes exactly the steps of a real run whose store
    deletes everything it is asked to, and differs from it only in the requests that reach the store. */
module DryRun {
  import opened Objects
  import opened Filters
  import opened Network
  import opened WorkerSafety
  import opened RunSafety

  /** The worker without its record of requests to the store. */
  function Erase(w: Worker): Worker {
    w.(called := [])
  }

  function EraseAll(ws: seq<Worker>): (r: seq<Worker>)
    ensures |r| == |ws|
    ensures forall k :: 0 <= k < |ws| ==> r[k] == Erase(ws[k])
  {
    seq(|ws|, k requires 0 <= k < |ws| => Erase(ws[k]))
  }

  function Preview(s: State): State {
    s.(workers := EraseAll(s.workers))
  }

  function Real(c: Config): Config {
    c.(dryRun := false)
  }

  /** The back end answers, and every entry it was given is deleted. */
  predicate Succeeds(s: State, a: Action) {
    a.OfWorker? && a.worker < |s.workers| && s.workers[a.worker].pc.InFlight? ==> a.choice.Answer? && a.choice.failed == []
  }

  function EraseView(v: View): View {
    v.(w := Erase(v.w))
  }

  lemma ProcessIsPreviewed(c: Config, v: View, o: S3Object)
    ensures EraseView(ProcessStep(Real(c), v, o)) == EraseView(ProcessStep(c, EraseView(v), o))
    ensures ProcessStep(c, EraseView(v), o).w.called == []
  {
  }

  lemma AdmitIsPreviewed(c: Config, v: View, o: S3Object)
    ensures EraseView(AdmitStep(Real(c), v, o)) == EraseView(AdmitStep(c, EraseView(v), o))
    ensures AdmitStep(c, EraseView(v), o).w.called == []
  {
  }

  lemma AnswerIsPreviewed(c: Config, v: View, batch: seq<S3Object>, k: Cont, deleted: seq<S3Object>, failed: seq<S3Object>)
    ensures EraseView(AnswerStep(Real(c), v, batch, k, deleted, failed)) == EraseView(AnswerStep(c, EraseView(v), batch, k, deleted, failed))
    ensures AnswerStep(c, EraseView(v), batch, k, deleted, failed).w.called == []
  {
    assert Reported(Real(c), v.sh, deleted, failed) == Reported(c, v.sh, deleted, failed);
  }

  lemma OtherStepIsPreviewed(c: Config, v: View, outClosed: bool, ch: Choice)
    requires c.dryRun && v.inp.taken <= |v.inp.sent|
    requires !v.w.pc.Process? && !v.w.pc.Admit? && !(v.w.pc.InFlight? && ch.Answer?)
    ensures EraseView(WorkerStep(Real(c), v, outClosed, ch)) == EraseView(WorkerStep(c, EraseView(v), outClosed, ch))
    ensures WorkerStep(c, EraseView(v), outClosed, ch).w.called == []
  {
  }

  lemma StepIsPreviewed(c: Config, v: View, outClosed: bool, ch: Choice)
    requires c.dryRun && v.inp.taken <= |v.inp.sent|
    ensures EraseView(WorkerStep(Real(c), v, outClosed, ch)) == EraseView(WorkerStep(c, EraseView(v), outClosed, ch))
    ensures WorkerStep(c, EraseView(v), outClosed, ch).w.called == []
  {
    if v.w.pc.Process? {
      ProcessIsPreviewed(c, v, v.w.pc.o);
    } else if v.w.pc.Admit? {
      AdmitIsPreviewed(c, v, v.w.pc.o);
    } else if v.w.pc.InFlight? && ch.Answer? {
      AnswerIsPreviewed(c, v, v.w.pc.batch, v.w.pc.k, ch.deleted, ch.failed);
    } else {
      OtherStepIsPreviewed(c, v, outClosed, ch);
    }
  }

  lemma WorkerEnabledIsPreviewed(c: Config, v: View, inClosed: bool, outClosed: bool, ch: Choice)
    requires c.dryRun
    ensures
      WorkerEnabled(Real(c), v, inClosed, outClosed, ch) && (v.w.pc.InFlight? ==> ch.Answer? && ch.failed == [])
      <==> WorkerEnabled(c, EraseView(v), inClosed, outClosed, ch)
  {
  }

  lemma StageEnabledIsPreviewed(c: Config, f: Filter, v: StageView, inClosed: bool, outClosed: bool, ch: Choice)
    ensures StageEnabled(Real(c), f, v, inClosed, outClosed, ch) <==> StageEnabled(c, f, v, inClosed, outClosed, ch)
  {
  }

  lemma AllDoneIsPreviewed(s: State)
    ensures AllDone(s) <==> AllDone(Preview(s))
  {
    assert forall k :: 0 <= k < |s.workers| ==> s.workers[k].pc == Preview(s).workers[k].pc;
  }

  lemma EnabledIsPreviewed(c: Config, s: State, a: Action)
    requires c.dryRun && Shape(Real(c), s)
    ensures Shape(c, Preview(s))
    ensures Enabled(Real(c), s, a) && Succeeds(s, a) <==> Enabled(c, Preview(s), a)
  {
    hide AllDone, WorkerEnabled, StageEnabled;
    AllDoneIsPreviewed(s);
    match a
    case OfWorker(k, ch) =>
      if k < |s.workers| {
        assert ViewOfWorker(Preview(s), k) == EraseView(ViewOfWorker(s, k));
        WorkerEnabledIsPreviewed(c, ViewOfWorker(s, k), SendersGone(s, |s.stages|), s.drained, ch);
      }
    case OfStage(k, ch) =>
      if k < |s.stages| {
        assert ViewOfStage(Preview(s), k) == ViewOfStage(s, k);
        StageEnabledIsPreviewed(c, c.filters[k], ViewOfStage(s, k), SendersGone(s, k), ReceiversGone(s, k), ch);
      }
    case _ =>
  }

  lemma WorkerIsPreviewed(c: Config, s: State, k: nat, ch: Choice)
    requires c.dryRun && Shape(Real(c), s) && Shape(c, Preview(s))
    requires Enabled(Real(c), s, OfWorker(k, ch)) && Enabled(c, Preview(s), OfWorker(k, ch))
    ensures Preview(Apply(Real(c), s, OfWorker(k, ch))) == Apply(c, Preview(s), OfWorker(k, ch))
  {
    var v := ViewOfWorker(s, k);
    StepIsPreviewed(c, v, s.drained, ch);
    var r, q := WorkerStep(Real(c), v, s.drained, ch), WorkerStep(c, EraseView(v), s.drained, ch);
    assert ViewOfWorker(Preview(s), k) == EraseView(v);
    assert Erase(r.w) == q.w;
    assert EraseAll(s.workers[k := r.w]) == EraseAll(s.workers)[k := q.w];
  }

  lemma ActionIsPreviewed(c: Config, s: State, a: Action)
    requires c.dryRun && Shape(Real(c), s) && Shape(c, Preview(s))
    requires Enabled(Real(c), s, a) && Enabled(c, Preview(s), a)
    ensures Preview(Apply(Real(c), s, a)) == Apply(c, Preview(s), a)
  {
    match a
    case OfWorker(k, ch) => WorkerIsPreviewed(c, s, k, ch);
    case OfStage(k, ch) =>
      AllDoneIsPreviewed(s);
      assert ViewOfStage(s, k) == ViewOfStage(Preview(s), k);
      assert ReceiversGone(s, k) == ReceiversGone(Preview(s), k);
      StageIgnoresDryRun(c, c.filters[k], ViewOfStage(s, k), ReceiversGone(s, k), ch);
    case OfMain => assert MainEvents(Real(c), s.main, s.sh) == MainEvents(c, s.main, s.sh);
    case _ =>
  }

  lemma StageIgnoresDryRun(c: Config, f: Filter, v: StageView, outClosed: bool, ch: Choice)
    requires v.st.done <= v.inp.taken <= |v.inp.sent|
    ensures StageStep(Real(c), f, v, outClosed, ch) == StageStep(c, f, v, outClosed, ch)
  {
    assert StageEvents(Real(c), f, v, ch) == StageEvents(c, f, v, ch);
  }

  function PreviewAll(tr: seq<State>): (r: seq<State>)
    ensures |r| == |tr|
    ensures forall k :: 0 <= k < |tr| ==> r[k] == Preview(tr[k])
  {
    seq(|tr|, k requires 0 <= k < |tr| => Preview(tr[k]))
  }

  lemma InitIsPreviewed(c: Config)
    requires c.dryRun
    ensures Preview(Init(Real(c))) == Init(c)
  {
    assert EraseAll(Init(Real(c)).workers) == Init(c).workers;
  }

  ghost predicate AllSucceed(acts: seq<Action>, tr: seq<State>)
    requires |tr| == |acts| + 1
  {
    forall k {:trigger acts[k]} :: 0 <= k < |acts| ==> Succeeds(tr[k], acts[k])
  }

  /** From real to dry: a real run whose store deletes everything is a dry run once the requests are forgotten. */
  lemma RealRunIsPreviewed(c: Config, acts: seq<Action>, tr: seq<State>)
    requires c.dryRun && c.WellFormed()
    requires Run(Real(c), acts, tr) && AllSucceed(acts, tr)
    ensures Run(c, acts, PreviewAll(tr))
  {
    var ur := PreviewAll(tr);
    InitIsPreviewed(c);
    forall k {:trigger acts[k]} | 0 <= k < |acts| ensures Takes(c, ur[k], acts[k], ur[k + 1]) {
      assert Takes(Real(c), tr[k], acts[k], tr[k + 1]);
      assert Succeeds(tr[k], acts[k]);
      EnabledIsPreviewed(c, tr[k], acts[k]);
      ActionIsPreviewed(c, tr[k], acts[k]);
    }
  }

  lemma RealShape(c: Config, s: State)
    requires Shape(c, Preview(s))
    ensures Shape(Real(c), s)
  {
  }

  lemma PreviewShape(c: Config, s: State, a: Action)
    requires c.dryRun && c.WellFormed() && Inv(c, Preview(s))
    requires Shape(Real(c), s) && Enabled(Real(c), s, a) && Enabled(c, Preview(s), a)
    ensures Preview(Apply(Real(c), s, a)) == Apply(c, Preview(s), a)
    ensures Shape(Real(c), Apply(Real(c), s, a))
  {
    ActionIsPreviewed(c, s, a);
    ActionKeepsInv(c, Preview(s), a);
    RealShape(c, Apply(Real(c), s, a));
  }

  /** From dry to real: every dry run is the preview of the real run with the same schedule. The counters, the
      event log, the entries sent on and every other part of the two final states are the same; the dry run sent
      no request, and the real one asked the store for exactly the entries that the dry run reported. */
  lemma {:induction false} DryRunIsFaithful(c: Config, acts: seq<Action>, ur: seq<State>) returns (tr: seq<State>)
    requires c.dryRun && c.WellFormed() && Run(c, acts, ur)
    ensures Run(Real(c), acts, tr) && AllSucceed(acts, tr) && ur == PreviewAll(tr)
    ensures forall k :: 0 <= k < |Last(ur).workers| ==>
      && Last(ur).workers[k].called == []
      && Last(tr).workers[k].called == Last(tr).workers[k].dispatched == Last(ur).workers[k].dispatched
  {
    tr := Replay(c, acts, ur, |acts|);
    assert ur == PreviewAll(tr);
    RunKeepsInv(c, acts, ur, |acts|);
    RunKeepsInv(Real(c), acts, tr, |acts|);
    forall k | 0 <= k < |Last(ur).workers|
      ensures Last(ur).workers[k].called == []
      ensures Last(tr).workers[k].called == Last(tr).workers[k].dispatched == Last(ur).workers[k].dispatched
    {
      assert WorkerOk(c, Last(ur).sh.cancelled, Last(ur).workers[k]);
      assert WorkerOk(Real(c), Last(tr).sh.cancelled, Last(tr).workers[k]);
      assert Last(ur).workers[k] == Erase(Last(tr).workers[k]);
    }
  }

  /** `tr` is the real run of the first `n` actions, and `ur` its preview. */
  ghost predicate Replays(c: Config, acts: seq<Action>, ur: seq<State>, n: nat, tr: seq<State>)
    requires n <= |acts| && |ur| == |acts| + 1
  {
    && |tr| == n + 1
    && tr[0] == Init(Real(c))
    && (forall k {:trigger acts[k]} :: 0 <= k < n ==> Takes(Real(c), tr[k], acts[k], tr[k + 1]) && Succeeds(tr[k], acts[k]))
    && (forall k :: 0 <= k <= n ==> Preview(tr[k]) == ur[k])
  }

  lemma ExtendReplay(c: Config, acts: seq<Action>, ur: seq<State>, n: nat, tr: seq<State>, t: State)
    requires n < |acts| && |ur| == |acts| + 1 && Replays(c, acts, ur, n, tr)
    requires Takes(Real(c), tr[n], acts[n], t) && Succeeds(tr[n], acts[n]) && Preview(t) == ur[n + 1]
    ensures Replays(c, acts, ur, n + 1, tr + [t])
  {
    hide Takes, Succeeds, Preview;
  }

  lemma {:induction false} Replay(c: Config, acts: seq<Action>, ur: seq<State>, n: nat) returns (tr: seq<State>)
    requires c.dryRun && c.WellFormed() && Run(c, acts, ur) && n <= |acts|
    ensures Replays(c, acts, ur, n, tr)
  {
    if n == 0 {
      tr := [Init(Real(c))];
      InitIsPreviewed(c);
    } else {
      var sr := Replay(c, acts, ur, n - 1);
      var t := ReplayStep(c, acts, ur, n - 1, sr[n - 1], acts[n - 1]);
      ExtendReplay(c, acts, ur, n - 1, sr, t);
      tr := sr + [t];
    }
  }

  lemma ReplayStep(c: Config, acts: seq<Action>, ur: seq<State>, k: nat, s: State, a: Action) returns (t: State)
    requires c.dryRun && c.WellFormed() && Run(c, acts, ur) && k < |acts|
    requires Preview(s) == ur[k] && a == acts[k]
    ensures Takes(Real(c), s, a, t) && Succeeds(s, a) && Preview(t) == ur[k + 1]
  {
    assert Takes(c, ur[k], a, ur[k + 1]);
    RealShape(c, s);
    EnabledIsPreviewed(c, s, a);
    RunKeepsInv(c, acts, ur, k);
    PreviewShape(c, s, a);
    t := Apply(Real(c), s, a);
  }
}
