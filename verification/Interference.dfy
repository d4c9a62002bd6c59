/** What the tasks of a run do to each other. Between two actions of one task the others change what it sees in no
    other way than `Surroundings` allows, so a task of a run takes the steps that its loop is proved to take. */
module Interference {
  import opened Objects
  import opened Filters
  import opened Network
  import opened StageSafety
  import opened WorkerSafety
  import opened RunSafety
  import opened Surroundings
  import opened WorkerTrail
  import opened Stages

  // No entry is made twice on the way

  lemma {:induction false} PassedShort(f: Filter, s: seq<S3Object>)
    ensures |Passed(f, s)| <= |s|
  {
    if s != [] {
      PassedShort(f, Front(s));
    }
  }

  lemma {:induction false} PassedDistinct(f: Filter, s: seq<S3Object>)
    requires DistinctIds(s)
    ensures DistinctIds(Passed(f, s))
  {
    if s != [] {
      PassedDistinct(f, Front(s));
      forall j | 0 <= j < |Passed(f, Front(s))| ensures Passed(f, Front(s))[j].Id() != Last(s).Id() {
        PassedMember(f, Front(s), Passed(f, Front(s))[j]);
        var i :| 0 <= i < |s| - 1 && s[i] == Passed(f, Front(s))[j];
      }
    }
  }

  lemma {:induction false} ChainIsSound(fs: seq<Filter>, s: seq<S3Object>)
    ensures |Chain(fs, s)| <= |s|
    ensures DistinctIds(s) ==> DistinctIds(Chain(fs, s))
  {
    if fs != [] {
      ChainIsSound(Front(fs), s);
      PassedShort(Last(fs), Chain(Front(fs), s));
      if DistinctIds(s) {
        PassedDistinct(Last(fs), Chain(Front(fs), s));
      }
    }
  }

  lemma ChannelIsSound(c: Config, s: State, k: nat)
    requires StagesOk(c, s) && k < |s.chans|
    ensures s.chans[k].taken <= |s.chans[k].sent| <= |c.listing|
    ensures DistinctIds(c.listing) ==> DistinctIds(s.chans[k].sent)
  {
    ChannelsArePrefixes(c, s, k);
    ChainIsSound(c.filters[..k], c.listing);
    var all := Chain(c.filters[..k], c.listing);
    assert forall i :: 0 <= i < |s.chans[k].sent| ==> s.chans[k].sent[i] == all[i];
  }

  // What each task sees

  function SceneOfStage(s: State, k: nat): Scene
    requires k < |s.stages| && |s.chans| == |s.stages| + 1
  {
    Scene(s.chans[k], SendersGone(s, k), s.chans[k + 1], ReceiversGone(s, k), s.sh)
  }

  function SceneOfWorkers(s: State): Scene
    requires s.chans != []
  {
    Scene(Last(s.chans), SendersGone(s, |s.stages|), s.out, s.drained, s.sh)
  }

  /** The terminator sends nothing. */
  function SceneOfTerminator(s: State): Scene {
    Scene(s.out, AllDone(s), Chan([], 0), false, s.sh)
  }

  /** A step of a stage that was alive has this effect on what others see. */
  predicate StageMoved(v: StageView, r: StageView) {
    && !v.st.pc.Stopped?
    && r.inp.sent == v.inp.sent && v.inp.taken <= r.inp.taken
    && v.outp.sent <= r.outp.sent && r.outp.taken == v.outp.taken
    && (v.sh.cancelled ==> r.sh.cancelled)
  }

  lemma StageMoves(c: Config, s: State, k: nat, ch: Choice)
    requires StagesOk(c, s) && Enabled(c, s, OfStage(k, ch))
    ensures StageMoved(ViewOfStage(s, k), StageStep(c, c.filters[k], ViewOfStage(s, k), ReceiversGone(s, k), ch))
  {
    var v := ViewOfStage(s, k);
    StageStepOk(c, c.filters[k], v, SendersGone(s, k), ReceiversGone(s, k), ch);
    StageShares(c, c.filters[k], v, ReceiversGone(s, k), ch);
  }

  predicate WorkerMoved(v: View, r: View) {
    && !v.w.pc.Done?
    && r.inp.sent == v.inp.sent && v.inp.taken <= r.inp.taken
    && v.out.sent <= r.out.sent && r.out.taken == v.out.taken
    && (v.sh.cancelled ==> r.sh.cancelled)
  }

  lemma WorkerMoves(c: Config, s: State, k: nat, ch: Choice)
    requires StagesOk(c, s) && Enabled(c, s, OfWorker(k, ch))
    ensures WorkerMoved(ViewOfWorker(s, k), WorkerStep(c, ViewOfWorker(s, k), s.drained, ch))
  {
    var v := ViewOfWorker(s, k);
    WorkerTakesFromQueue(c, v, s.drained, ch, SendersGone(s, |s.stages|));
    if v.sh.cancelled {
      CancelStays(c, v, s.drained, ch);
    }
  }

  // The workers

  lemma WorkersAfterStage(s: State, k: nat, r: StageView)
    requires k < |s.stages| && |s.chans| == |s.stages| + 1
    requires StageMoved(ViewOfStage(s, k), r)
    ensures Later(SceneOfWorkers(s), SceneOfWorkers(ApplyStage(s, k, r)))
  {
  }

  lemma WorkersAfterWorker(s: State, k: nat, r: View)
    requires k < |s.workers| && |s.chans| == |s.stages| + 1
    requires WorkerMoved(ViewOfWorker(s, k), r)
    ensures Later(SceneOfWorkers(s), SceneOfWorkers(ApplyWorker(s, k, r)))
  {
  }

  lemma WorkersSeeLater(c: Config, s: State, a: Action)
    requires StagesOk(c, s) && Enabled(c, s, a)
    ensures Apply(c, s, a).chans != [] && Later(SceneOfWorkers(s), SceneOfWorkers(Apply(c, s, a)))
  {
    match a
    case OfStage(k, ch) =>
      StageMoves(c, s, k, ch);
      WorkersAfterStage(s, k, StageStep(c, c.filters[k], ViewOfStage(s, k), ReceiversGone(s, k), ch));
    case OfWorker(k, ch) =>
      WorkerMoves(c, s, k, ch);
      WorkersAfterWorker(s, k, WorkerStep(c, ViewOfWorker(s, k), s.drained, ch));
    case _ =>
  }

  predicate IsOfWorker(a: Action, k: nat) {
    a.OfWorker? && a.worker == k
  }

  /** Whoever else acts, the worker stays as it is, and its output stays open as long as it lives. */
  lemma WorkerIsLeftAlone(c: Config, s: State, a: Action, k: nat)
    requires Shape(c, s) && Enabled(c, s, a) && !IsOfWorker(a, k) && k < |s.workers|
    ensures |Apply(c, s, a).workers| == |s.workers| && Apply(c, s, a).workers[k] == s.workers[k]
    ensures !s.workers[k].pc.Done? ==> Apply(c, s, a).drained == s.drained
  {
  }

  /** What the other tasks do between two actions of a worker is what `Surroundings` allows them: the input grows by
      what is listed, the output stays open, channels stay closed and the run stays cancelled. */
  lemma {:induction false} BetweenWorkerActions(c: Config, acts: seq<Action>, tr: seq<State>, i: nat, j: nat, k: nat)
    requires c.WellFormed() && Run(c, acts, tr) && i <= j < |tr|
    requires forall n :: i <= n < j ==> !IsOfWorker(acts[n], k)
    requires k < |tr[i].workers| && !tr[i].workers[k].pc.Done?
    ensures tr[i].chans != [] && tr[j].chans != []
    ensures k < |tr[j].workers| && tr[j].workers[k] == tr[i].workers[k] && !tr[j].drained
    ensures Possible(|c.listing|, DistinctIds(c.listing), true, true, SceneOfWorkers(tr[i]), SceneOfWorkers(tr[j]))
  {
    hide StageOk, Apply, Enabled;
    StagesAreOk(c, acts, tr, j);
    MainIsOk(c, acts, tr, j);
    ChannelIsSound(c, tr[j], |c.filters|);
    if i < j {
      BetweenWorkerActions(c, acts, tr, i, j - 1, k);
      StagesAreOk(c, acts, tr, j - 1);
      assert Takes(c, tr[j - 1], acts[j - 1], tr[j]);
      WorkersSeeLater(c, tr[j - 1], acts[j - 1]);
      WorkerIsLeftAlone(c, tr[j - 1], acts[j - 1], k);
      LaterTransitive(SceneOfWorkers(tr[i]), SceneOfWorkers(tr[j - 1]), SceneOfWorkers(tr[j]));
    }
  }

  /** What the worker decides in the course of a run. */
  function ChoicesOf(acts: seq<Action>, k: nat): seq<Choice> {
    if acts == [] then []
    else ChoicesOf(Front(acts), k) + if IsOfWorker(Last(acts), k) then [Last(acts).choice] else []
  }

  function ChoicesIn(path: seq<Turn>): seq<Choice> {
    if path == [] then [] else ChoicesIn(Front(path)) + [Last(path).choice]
  }

  function TurnAt(c: Config, s: State, k: nat, ch: Choice): Turn
    requires k < |s.workers| && s.chans != [] && Last(s.chans).taken <= |Last(s.chans).sent|
  {
    var v := ViewOfWorker(s, k);
    Turn(v, SendersGone(s, |s.stages|), s.drained, ch, WorkerStep(c, v, s.drained, ch))
  }

  lemma NextAction(acts: seq<Action>, n: nat)
    requires n < |acts|
    ensures Front(acts[..n + 1]) == acts[..n] && Last(acts[..n + 1]) == acts[n]
  {
  }

  lemma WorkerTurns(c: Config, s: State, k: nat, ch: Choice)
    requires Shape(c, s) && MainOk(c, s) && Enabled(c, s, OfWorker(k, ch))
    ensures
      var m, t := TurnAt(c, s, k, ch), Apply(c, s, OfWorker(k, ch));
      IsTurn(c, m) && !m.outClosed && |t.workers| == |s.workers| && m.after.w == t.workers[k] && m.after.sh == t.sh
  {
  }

  lemma OthersKeepTrail(c: Config, s: State, a: Action, k: nat)
    requires StagesOk(c, s) && Enabled(c, s, a) && !IsOfWorker(a, k) && k < |s.workers|
    ensures |Apply(c, s, a).workers| == |s.workers| && Apply(c, s, a).workers[k] == s.workers[k]
    ensures s.sh.cancelled ==> Apply(c, s, a).sh.cancelled
  {
    WorkerIsLeftAlone(c, s, a, k);
    WorkersSeeLater(c, s, a);
  }

  lemma TrailAndChoices(c: Config, path: seq<Turn>, m: Turn, cancelled: bool)
    requires Trail(c, path, m.before.w, m.before.sh.cancelled) && NeverClosed(path)
    requires IsTurn(c, m) && !m.outClosed && (m.after.sh.cancelled ==> cancelled)
    ensures Trail(c, path + [m], m.after.w, cancelled) && NeverClosed(path + [m])
    ensures ChoicesIn(path + [m]) == ChoicesIn(path) + [m.choice]
    ensures ReportedBy(path + [m]) == ReportedBy(path) + DeletedIn(m)
  {
    TrailOn(c, path, m, cancelled);
    ReportedOn(path, m);
    assert Front(path + [m]) == path;
  }

  /** The actions of one worker in a run are a trail on which the output never closes: exactly the steps, in order,
      that its loop is proved to take in such surroundings. */
  lemma {:induction false} RunIsTrail(c: Config, acts: seq<Action>, tr: seq<State>, n: nat, k: nat) returns (path: seq<Turn>)
    requires c.WellFormed() && Run(c, acts, tr) && n < |tr| && k < c.workers
    ensures |tr[n].workers| == c.workers
    ensures Trail(c, path, tr[n].workers[k], tr[n].sh.cancelled) && NeverClosed(path)
    ensures ChoicesIn(path) == ChoicesOf(acts[..n], k)
  {
    hide StageOk, Apply, Enabled;
    if n == 0 {
      path := [];
    } else {
      path := RunIsTrail(c, acts, tr, n - 1, k);
      StagesAreOk(c, acts, tr, n - 1);
      MainIsOk(c, acts, tr, n - 1);
      var s, a := tr[n - 1], acts[n - 1];
      assert Takes(c, s, a, tr[n]);
      NextAction(acts, n - 1);
      if IsOfWorker(a, k) {
        var m := TurnAt(c, s, k, a.choice);
        WorkerTurns(c, s, k, a.choice);
        TrailAndChoices(c, path, m, tr[n].sh.cancelled);
        path := path + [m];
      } else {
        OthersKeepTrail(c, s, a, k);
        TrailLater(c, path, s.workers[k], s.sh.cancelled, tr[n].sh.cancelled);
      }
    }
  }

  // The stages

  predicate IsOfStage(a: Action, k: nat) {
    a.OfStage? && a.stage == k
  }

  lemma LaterNow(a: Scene)
    ensures Later(a, a)
  {
  }

  lemma StageAfterStage(s: State, k: nat, r: StageView, j: nat)
    requires k < |s.stages| && |s.chans| == |s.stages| + 1 && j < |s.stages| && j != k
    requires StageMoved(ViewOfStage(s, k), r)
    ensures
      var t := ApplyStage(s, k, r);
      t.stages[j] == s.stages[j] && Later(SceneOfStage(s, j), SceneOfStage(t, j)) && Untouched(SceneOfStage(s, j), SceneOfStage(t, j))
  {
  }

  lemma StageAfterWorker(s: State, k: nat, r: View, j: nat)
    requires k < |s.workers| && |s.chans| == |s.stages| + 1 && j < |s.stages|
    requires WorkerMoved(ViewOfWorker(s, k), r)
    ensures
      var t := ApplyWorker(s, k, r);
      t.stages[j] == s.stages[j] && Later(SceneOfStage(s, j), SceneOfStage(t, j)) && Untouched(SceneOfStage(s, j), SceneOfStage(t, j))
  {
  }

  lemma StageSeesLater(c: Config, s: State, a: Action, j: nat)
    requires StagesOk(c, s) && Enabled(c, s, a) && !IsOfStage(a, j) && j < |s.stages|
    ensures |Apply(c, s, a).stages| == |s.stages| && |Apply(c, s, a).chans| == |s.stages| + 1
    ensures
      var t := Apply(c, s, a);
      t.stages[j] == s.stages[j] && Later(SceneOfStage(s, j), SceneOfStage(t, j)) && Untouched(SceneOfStage(s, j), SceneOfStage(t, j))
  {
    match a
    case OfStage(k, ch) =>
      StageMoves(c, s, k, ch);
      StageAfterStage(s, k, StageStep(c, c.filters[k], ViewOfStage(s, k), ReceiversGone(s, k), ch), j);
    case OfWorker(k, ch) =>
      WorkerMoves(c, s, k, ch);
      StageAfterWorker(s, k, WorkerStep(c, ViewOfWorker(s, k), s.drained, ch), j);
    case _ =>
  }

  /** The same for a stage; besides, nobody else reads its input or writes its output. */
  lemma {:induction false} BetweenStageActions(c: Config, acts: seq<Action>, tr: seq<State>, i: nat, j: nat, k: nat)
    requires c.WellFormed() && Run(c, acts, tr) && i <= j < |tr|
    requires forall n :: i <= n < j ==> !IsOfStage(acts[n], k)
    requires k < |c.filters|
    ensures |tr[i].stages| == |tr[j].stages| == |c.filters| && |tr[i].chans| == |tr[j].chans| == |c.filters| + 1
    ensures tr[j].stages[k] == tr[i].stages[k]
    ensures Possible(|c.listing|, DistinctIds(c.listing), false, false, SceneOfStage(tr[i], k), SceneOfStage(tr[j], k))
  {
    hide StageOk, Apply, Enabled, Later;
    StagesAreOk(c, acts, tr, j);
    ChannelIsSound(c, tr[j], k);
    ChannelIsSound(c, tr[j], k + 1);
    if i < j {
      BetweenStageActions(c, acts, tr, i, j - 1, k);
      StagesAreOk(c, acts, tr, j - 1);
      assert Takes(c, tr[j - 1], acts[j - 1], tr[j]);
      StageSeesLater(c, tr[j - 1], acts[j - 1], k);
      LaterTransitive(SceneOfStage(tr[i], k), SceneOfStage(tr[j - 1], k), SceneOfStage(tr[j], k));
    } else {
      LaterNow(SceneOfStage(tr[i], k));
    }
  }

  function MoveAt(c: Config, s: State, k: nat, ch: Choice): Move
    requires Shape(c, s) && k < |s.stages|
  {
    var v := ViewOfStage(s, k);
    Move(v, SendersGone(s, k), ReceiversGone(s, k), ch, StageStep(c, c.filters[k], v, ReceiversGone(s, k), ch))
  }

  /** The actions of a stage in a run are a walk, as its loop takes it. */
  lemma {:induction false} RunIsWalk(c: Config, acts: seq<Action>, tr: seq<State>, n: nat, k: nat) returns (path: seq<Move>)
    requires c.WellFormed() && Run(c, acts, tr) && n < |tr| && k < |c.filters|
    ensures |tr[n].stages| == |c.filters| && Walk(c, c.filters[k], path, tr[n].stages[k])
  {
    if n == 0 {
      path := [];
    } else {
      path := RunIsWalk(c, acts, tr, n - 1, k);
      StagesAreOk(c, acts, tr, n - 1);
      var s, a := tr[n - 1], acts[n - 1];
      assert Takes(c, s, a, tr[n]);
      if IsOfStage(a, k) {
        var m := MoveAt(c, s, k, a.choice);
        WalkOn(c, c.filters[k], path, m);
        path := path + [m];
      } else {
        StageSeesLater(c, s, a, k);
      }
    }
  }

  // The terminator

  lemma TerminatorSeesLater(c: Config, s: State, a: Action)
    requires StagesOk(c, s) && Enabled(c, s, a) && !a.OfTerminator?
    ensures
      var t := Apply(c, s, a);
      Later(SceneOfTerminator(s), SceneOfTerminator(t)) && Untouched(SceneOfTerminator(s), SceneOfTerminator(t))
  {
    match a
    case OfStage(k, ch) => StageMoves(c, s, k, ch);
    case OfWorker(k, ch) => WorkerMoves(c, s, k, ch);
    case _ =>
  }
}
