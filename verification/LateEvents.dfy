/** Which runs announce a rejected entry after the end event. The stages are not waited for, so whatever a stage may
    reject at all it may also reject late; and when every entry can be worked through, that is the case exactly if an
    observed chain rejects something. */
module LateEvents {
  import opened Objects
  import opened Filters
  import opened Network
  import opened StageSafety
  import opened TallySafety
  import opened RunSafety
  import opened Liveness
  import opened Guarantees
  import opened CleanRuns
  import opened Completion

  /** The stage holds an entry that it will not keep. */
  predicate Rejecting(c: Config, s: State, k: nat)
    requires Shape(c, s)
  {
    && k < |s.stages|
    && s.stages[k].pc.Have?
    && !Judge(c.filters[k], s.chans[k].sent[..s.stages[k].done], s.stages[k].pc.o).Keep?
  }

  // Every other task can finish while the stage holds the entry

  /** What tasks other than the stages do when the run is over: workers notice the cancellation. */
  predicate Winds(a: Action) {
    match a
    case OfWorker(_, ch) => ch.Go? || ch.Quit? || (ch.Answer? && ch.failed == [])
    case OfTerminator => true
    case OfMain => true
    case _ => false
  }

  lemma WorkerCanWind(c: Config, s: State, k: nat) returns (a: Action)
    requires c.WellFormed() && Shape(c, s) && s.sh.cancelled && !s.drained
    requires k < |s.workers| && !s.workers[k].pc.Done?
    ensures Winds(a) && Enabled(c, s, a)
  {
    var pc := s.workers[k].pc;
    if s.out.Waiting() > 0 {
      a := OfTerminator;
    } else if pc.InFlight? {
      WorkerCanAnswer(c, s, k);
      a := OfWorker(k, Answer(pc.batch, []));
    } else if pc.Select? {
      a := OfWorker(k, Quit);
    } else {
      WorkerCanGo(c, s, k);
      a := OfWorker(k, Go);
    }
  }

  lemma CanWind(c: Config, s: State) returns (a: Action)
    requires c.WellFormed() && Shape(c, s) && MainOk(c, s)
    requires s.sh.cancelled || AllDone(s)
    requires !s.main.Finished?
    ensures Winds(a) && Enabled(c, s, a)
  {
    if !AllDone(s) {
      var k :| 0 <= k < |s.workers| && !s.workers[k].pc.Done?;
      a := WorkerCanWind(c, s, k);
    } else if !s.drained {
      a := OfTerminator;
    } else {
      a := OfMain;
    }
  }

  lemma WorkerKeepsHolding(c: Config, s: State, k: nat, ch: Choice, j: nat)
    requires StagesOk(c, s) && Enabled(c, s, OfWorker(k, ch)) && j < |s.stages|
    ensures
      var t := Apply(c, s, OfWorker(k, ch));
      t.stages == s.stages && |t.chans| == |s.chans| && t.chans[j] == s.chans[j] && (s.sh.cancelled ==> t.sh.cancelled)
  {
    WorkerKeepsTrouble(c, ViewOfWorker(s, k), s.drained, ch);
  }

  /** Winding down neither moves a stage nor changes its mind, and without a living worker it cancels nothing. */
  lemma WindKeepsHolding(c: Config, s: State, a: Action, k: nat)
    requires StagesOk(c, s) && Rejecting(c, s, k) && Winds(a) && Enabled(c, s, a)
    requires Shape(c, Apply(c, s, a))
    ensures Rejecting(c, Apply(c, s, a), k)
    ensures s.sh.cancelled ==> Apply(c, s, a).sh.cancelled
    ensures AllDone(s) ==> AllDone(Apply(c, s, a)) && Apply(c, s, a).sh.cancelled == s.sh.cancelled
  {
    if a.OfWorker? {
      WorkerKeepsHolding(c, s, a.worker, a.choice, k);
      assert !s.workers[a.worker].pc.Done?;
    } else {
      assert Apply(c, s, a).stages == s.stages && Apply(c, s, a).chans == s.chans && Apply(c, s, a).workers == s.workers;
    }
  }

  predicate Ready(c: Config, s: State, k: nat) {
    StagesOk(c, s) && MainOk(c, s) && Rejecting(c, s, k) && (s.sh.cancelled || AllDone(s))
  }

  lemma WindStep(c: Config, s: State, k: nat) returns (a: Action, t: State)
    requires c.WellFormed() && Inv(c, s) && Ready(c, s, k) && !s.main.Finished?
    ensures Takes(c, s, a, t) && Inv(c, t) && Ready(c, t, k)
    ensures 0 <= Measure(c, t) < Measure(c, s)
    ensures AllDone(s) ==> AllDone(t) && t.sh.cancelled == s.sh.cancelled
  {
    a := CanWind(c, s);
    t := Apply(c, s, a);
    StepFalls(c, s, a, t);
    MeasureNonNegative(c, t);
    WindKeepsHolding(c, s, a, k);
  }

  lemma {:induction false} WindDown(c: Config, acts: seq<Action>, tr: seq<State>, k: nat) returns (bcts: seq<Action>, ur: seq<State>)
    requires c.WellFormed() && Run(c, acts, tr) && Inv(c, Last(tr)) && Ready(c, Last(tr), k)
    ensures Run(c, bcts, ur) && Inv(c, Last(ur)) && Ready(c, Last(ur), k) && Last(ur).main.Finished?
    ensures AllDone(Last(tr)) ==> Last(ur).sh.cancelled == Last(tr).sh.cancelled
    decreases Measure(c, Last(tr))
  {
    if Last(tr).main.Finished? {
      bcts, ur := acts, tr;
    } else {
      var a, t := WindStep(c, Last(tr), k);
      Extend(c, acts, tr, a, t);
      bcts, ur := WindDown(c, acts + [a], tr + [t], k);
    }
  }

  lemma LateAnnouncement(c: Config, s: State, k: nat) returns (t: State)
    requires Inv(c, s) && Rejecting(c, s, k) && s.main.Finished? && c.observed
    ensures Takes(c, s, OfStage(k, Go), t) && HasLateEvent(t.sh.log)
    ensures c.filters[k].Simple? ==> t.sh.cancelled == s.sh.cancelled
  {
    hide StageOk, SumsOk, CleanOk, WorkersOk, CountsOk;
    var a, v := OfStage(k, Go), ViewOfStage(s, k);
    t := Apply(c, s, a);
    var es := StageEvents(c, c.filters[k], v, Go);
    assert t.sh == StageShared(c, c.filters[k], v, Go) && |es| == 1 && !es[0].Stats?;
    var i := OccursAt(s.sh.log, Ended);
    assert t.sh.log[i].Ended? && t.sh.log[|s.sh.log|] == es[0];
  }

  /** Whatever a stage holds and will not keep, it may announce after the end event: there is a run that goes on from
      here and does. If no worker is left and the stage has no callback, it does so without any cancellation. */
  lemma RejectionCanBeLate(c: Config, acts: seq<Action>, tr: seq<State>, k: nat) returns (bcts: seq<Action>, ur: seq<State>)
    requires c.WellFormed() && c.observed && Run(c, acts, tr)
    requires Shape(c, Last(tr)) && Rejecting(c, Last(tr), k)
    ensures Run(c, bcts, ur) && HasLateEvent(Last(ur).sh.log)
    ensures AllDone(Last(tr)) && c.filters[k].Simple? ==> Last(ur).sh.cancelled == Last(tr).sh.cancelled
  {
    RunKeepsInv(c, acts, tr, |acts|);
    bcts, ur := acts, tr;
    if !Last(tr).sh.cancelled && !AllDone(Last(tr)) {
      var t := Apply(c, Last(tr), Interrupt);
      StepFalls(c, Last(tr), Interrupt, t);
      Extend(c, acts, tr, Interrupt, t);
      bcts, ur := acts + [Interrupt], tr + [t];
    }
    bcts, ur := WindDown(c, bcts, ur, k);
    var t := LateAnnouncement(c, Last(ur), k);
    Extend(c, bcts, ur, OfStage(k, Go), t);
    bcts, ur := bcts + [OfStage(k, Go)], ur + [t];
  }

  // How far a run gets without a rejection

  /** The actions that are tried: those of the stages and, if the pool takes part, of all tasks. */
  predicate Tried(pool: bool, a: Action) {
    Gentle(a) && (pool || a.OfStage?)
  }

  predicate Keeps(f: Filter, sent: seq<S3Object>, done: nat)
    requires done <= |sent|
  {
    forall n :: 0 <= n < done ==> Judge(f, sent[..n], sent[n]).Keep?
  }

  /** Nothing has been rejected, nobody has failed and nobody has cancelled. Without the pool no worker has moved. */
  predicate Calm(c: Config, pool: bool, s: State)
    requires Shape(c, s)
  {
    && Peaceful(s.sh) && !s.sh.cancelled
    && (forall k :: 0 <= k < |s.stages| ==> Keeps(c.filters[k], s.chans[k].sent, s.stages[k].done))
    && (!pool ==> Untouched(s))
  }

  predicate Untouched(s: State) {
    && (forall k :: 0 <= k < |s.workers| ==> s.workers[k] == IDLE)
    && s.chans != [] && Last(s.chans).taken == 0
    && !s.drained && s.main.Await?
  }

  /** The pool can work through everything. */
  predicate Workable(c: Config) {
    NoneFatal(c) && QuotaFits(c)
  }

  lemma StageKeepsOn(c: Config, f: Filter, v: StageView, inClosed: bool, outClosed: bool)
    requires StageOk(f, v.st, v.inp, v.outp) && StageEnabled(c, f, v, inClosed, outClosed, Go)
    requires Keeps(f, v.inp.sent, v.st.done)
    requires v.st.pc.Have? ==> Judge(f, v.inp.sent[..v.st.done], v.st.pc.o).Keep?
    ensures
      var r := StageStep(c, f, v, outClosed, Go);
      && r.st.done <= |v.inp.sent| && Keeps(f, v.inp.sent, r.st.done)
      && r.sh.cancelled == v.sh.cancelled && r.sh.outside == v.sh.outside && r.sh.faulted == v.sh.faulted
  {
  }

  lemma KeepsElsewhere(f: Filter, a: seq<S3Object>, b: seq<S3Object>, done: nat)
    requires done <= |a| && a <= b && Keeps(f, a, done)
    ensures Keeps(f, b, done)
  {
    forall n | 0 <= n < done ensures Judge(f, b[..n], b[n]).Keep? {
      assert a[..n] == b[..n];
    }
  }

  lemma StageStaysCalm(c: Config, pool: bool, s: State, k: nat)
    requires StagesOk(c, s) && Calm(c, pool, s) && Enabled(c, s, OfStage(k, Go)) && !Rejecting(c, s, k)
    requires Shape(c, Apply(c, s, OfStage(k, Go)))
    ensures Calm(c, pool, Apply(c, s, OfStage(k, Go)))
  {
    hide StageStep, StageOk;
    var v, t := ViewOfStage(s, k), Apply(c, s, OfStage(k, Go));
    StageStepOk(c, c.filters[k], v, SendersGone(s, k), ReceiversGone(s, k), Go);
    StageKeepsOn(c, c.filters[k], v, SendersGone(s, k), ReceiversGone(s, k));
    forall j | 0 <= j < |t.stages| ensures Keeps(c.filters[j], t.chans[j].sent, t.stages[j].done) {
      if j != k {
        KeepsElsewhere(c.filters[j], s.chans[j].sent, t.chans[j].sent, s.stages[j].done);
      }
    }
  }

  lemma WorkerStaysCalm(c: Config, s: State, k: nat, ch: Choice)
    requires Inv(c, s) && Workable(c) && Calm(c, true, s) && Enabled(c, s, OfWorker(k, ch)) && Gentle(OfWorker(k, ch))
    requires Inv(c, Apply(c, s, OfWorker(k, ch)))
    ensures Calm(c, true, Apply(c, s, OfWorker(k, ch)))
  {
    hide WorkerStep, StageOk, SumsOk, LogOk, CleanOk, WorkersOk;
    var v, t := ViewOfWorker(s, k), Apply(c, s, OfWorker(k, ch));
    WorkerTakesFromQueue(c, v, s.drained, ch, SendersGone(s, |s.stages|));
    if s.workers[k].pc.Process? {
      WorkerProcesses(c, s, k);
    }
    WorkerStaysPeaceful(c, v, SendersGone(s, |s.stages|), s.drained, k, ch);
    NobodyTrips(c, t);
  }

  lemma ActionStaysCalm(c: Config, pool: bool, s: State, a: Action)
    requires Inv(c, s) && (pool ==> Workable(c)) && Calm(c, pool, s)
    requires Enabled(c, s, a) && Tried(pool, a) && (a.OfStage? ==> !Rejecting(c, s, a.stage))
    requires Inv(c, Apply(c, s, a))
    ensures Calm(c, pool, Apply(c, s, a))
  {
    match a
    case OfStage(k, ch) => StageStaysCalm(c, pool, s, k);
    case OfWorker(k, ch) => WorkerStaysCalm(c, s, k, ch);
    case _ =>
  }

  /** Some stage holds an entry that it rejects, or none of the actions that are tried can be taken. */
  ghost predicate Halted(c: Config, pool: bool, s: State)
    requires Shape(c, s)
  {
    (exists k :: Rejecting(c, s, k)) || (forall a :: Tried(pool, a) ==> !Enabled(c, s, a))
  }

  lemma CalmStep(c: Config, pool: bool, s: State) returns (a: Action, t: State)
    requires c.WellFormed() && Inv(c, s) && (pool ==> Workable(c)) && Calm(c, pool, s) && !Halted(c, pool, s)
    ensures Takes(c, s, a, t) && Inv(c, t) && Calm(c, pool, t)
    ensures 0 <= Measure(c, t) < Measure(c, s)
  {
    a :| Tried(pool, a) && Enabled(c, s, a);
    t := Apply(c, s, a);
    StepFalls(c, s, a, t);
    MeasureNonNegative(c, t);
    ActionStaysCalm(c, pool, s, a);
  }

  lemma {:induction false} Proceed(c: Config, pool: bool, acts: seq<Action>, tr: seq<State>) returns (bcts: seq<Action>, ur: seq<State>)
    requires c.WellFormed() && (pool ==> Workable(c)) && Run(c, acts, tr)
    requires Inv(c, Last(tr)) && Calm(c, pool, Last(tr))
    ensures Run(c, bcts, ur) && Inv(c, Last(ur)) && Calm(c, pool, Last(ur)) && Halted(c, pool, Last(ur))
    decreases Measure(c, Last(tr))
  {
    if Halted(c, pool, Last(tr)) {
      bcts, ur := acts, tr;
    } else {
      var a, t := CalmStep(c, pool, Last(tr));
      Extend(c, acts, tr, a, t);
      bcts, ur := Proceed(c, pool, acts + [a], tr + [t]);
    }
  }

  lemma InitIsCalm(c: Config, pool: bool)
    requires c.WellFormed()
    ensures Inv(c, Init(c)) && Calm(c, pool, Init(c)) && Run(c, [], [Init(c)])
  {
    InitOk(c);
  }

  // With the pool, a calm run that rejects nothing works through everything

  lemma CalmEndKeepsAll(c: Config, s: State)
    requires StagesOk(c, s) && CleanOk(c, s) && Clean(c, s.sh) && Final(s) && Calm(c, true, s)
    ensures !Rejects(c.filters, c.listing)
  {
    forall k, n | 0 <= k < |c.filters| && 0 <= n < |Chain(c.filters[..k], c.listing)|
      ensures VerdictAt(c.filters, c.listing, k, n).Keep?
    {
      assert CleanStage(s, k);
      CleanChannels(c, s, k);
      assert Keeps(c.filters[k], s.chans[k].sent, s.stages[k].done);
    }
  }

  lemma WorkableRejects(c: Config, s: State) returns (k: nat)
    requires c.WellFormed() && Inv(c, s) && 1 <= c.workers && Rejects(c.filters, c.listing)
    requires Calm(c, true, s) && Halted(c, true, s)
    ensures Shape(c, s) && Rejecting(c, s, k)
  {
    if forall k :: !Rejecting(c, s, k) {
      NeverStuck(c, s);
      if CanGoOn(c, s) {
        var a: Action :| Gentle(a) && Enabled(c, s, a);
        assert Tried(true, a);
      }
      CalmEndKeepsAll(c, s);
    }
    k :| Rejecting(c, s, k);
  }

  /** If no entry kills its worker and the selection fits into the quota, then an observed chain that rejects anything
      has a run in which a rejection is announced after the end event. */
  lemma RejectionsCanBeLate(c: Config) returns (acts: seq<Action>, tr: seq<State>)
    requires c.WellFormed() && c.observed && 1 <= c.workers && Workable(c) && Rejects(c.filters, c.listing)
    ensures Run(c, acts, tr) && HasLateEvent(Last(tr).sh.log)
  {
    hide Inv, Calm, Halted, Rejecting, Rejects, Run, HasLateEvent;
    InitIsCalm(c, true);
    var bcts, ur := Proceed(c, true, [], [Init(c)]);
    var k := WorkableRejects(c, Last(ur));
    acts, tr := RejectionCanBeLate(c, bcts, ur, k);
  }

  /** For such a listing the condition is exact: something can follow the end event if and only if there is an event
      callback and a stage rejects something. */
  lemma LateIffRejects(c: Config)
    requires c.WellFormed() && 1 <= c.workers && Workable(c)
    ensures (exists acts, tr :: Run(c, acts, tr) && HasLateEvent(Last(tr).sh.log)) <==> c.observed && Rejects(c.filters, c.listing)
  {
    if c.observed && Rejects(c.filters, c.listing) {
      var acts, tr := RejectionsCanBeLate(c);
    } else {
      forall acts, tr | Run(c, acts, tr) ensures !HasLateEvent(Last(tr).sh.log) {
        NeverLate(c, acts, tr, |acts|);
      }
    }
  }

  // Without the pool, the stages get as far as the last queue reaches

  lemma {:induction false} PassedKept(f: Filter, s: seq<S3Object>, n: nat)
    requires n <= |s| && Keeps(f, s, n)
    ensures Passed(f, s[..n]) == s[..n]
  {
    if n == 0 {
      assert s[..0] == [];
    } else {
      PassedKept(f, s, n - 1);
      PassedStep(f, s[..n - 1], s[n - 1]);
      assert s[..n] == s[..n - 1] + [s[n - 1]];
    }
  }

  /** In a calm state everything has been passed on as it was listed. */
  lemma {:induction false} CalmChannels(c: Config, pool: bool, s: State, k: nat)
    requires StagesOk(c, s) && Calm(c, pool, s) && k < |s.chans|
    ensures s.chans[k].sent <= c.listing
    ensures k > 0 ==> s.chans[k].sent == s.chans[k - 1].sent[..s.stages[k - 1].done]
  {
    if k > 0 {
      CalmChannels(c, pool, s, k - 1);
      var f, sent, done := c.filters[k - 1], s.chans[k - 1].sent, s.stages[k - 1].done;
      assert StageOk(f, s.stages[k - 1], s.chans[k - 1], s.chans[k]) && Keeps(f, sent, done);
      PassedKept(f, sent, done);
    }
  }

  /** Every stage has decided to keep the first `m` entries of the listing. */
  predicate KeepsFirst(c: Config, m: nat)
    requires m <= |c.listing|
  {
    forall k :: 0 <= k < |c.filters| ==> Keeps(c.filters[k], c.listing[..m], m)
  }

  lemma {:induction false} KeptFirst(c: Config, m: nat, k: nat)
    requires m <= |c.listing| && KeepsFirst(c, m) && k <= |c.filters|
    ensures Chain(c.filters[..k], c.listing[..m]) == c.listing[..m]
  {
    if k > 0 {
      KeptFirst(c, m, k - 1);
      assert Front(c.filters[..k]) == c.filters[..k - 1];
      PassedKept(c.filters[k - 1], c.listing[..m], m);
      assert c.listing[..m][..m] == c.listing[..m];
    }
  }

  lemma KeepsFirstMeansNoRejection(c: Config, m: nat)
    requires m <= |c.listing| && KeepsFirst(c, m)
    ensures !Rejects(c.filters, c.listing[..m])
  {
    forall k, n | 0 <= k < |c.filters| && 0 <= n < |Chain(c.filters[..k], c.listing[..m])|
      ensures VerdictAt(c.filters, c.listing[..m], k, n).Keep?
    {
      KeptFirst(c, m, k);
      assert Keeps(c.filters[k], c.listing[..m], m);
    }
  }

  lemma KeepsPrefix(f: Filter, sent: seq<S3Object>, done: nat, all: seq<S3Object>, m: nat)
    requires m <= done <= |sent| && Keeps(f, sent, done) && sent <= all
    ensures m <= |all| && Keeps(f, all[..m], m)
  {
    forall n | 0 <= n < m ensures Judge(f, all[..m][..n], all[..m][n]).Keep? {
      assert all[..m][..n] == sent[..n];
    }
  }

  predicate Stuck(c: Config, s: State)
    requires Shape(c, s)
  {
    forall k :: 0 <= k < |s.stages| ==> !Enabled(c, s, OfStage(k, Go))
  }

  /** A stage that cannot send waits for one that cannot send either, up to the last. */
  lemma {:induction false} BlockedBeyond(c: Config, s: State, k: nat, j: nat)
    requires c.WellFormed() && StagesOk(c, s) && Stuck(c, s)
    requires k <= j < |s.stages| && s.stages[k].pc.Sending?
    ensures s.stages[j].pc.Sending? && s.chans[j + 1].Waiting() >= c.queueSize
  {
    assert !Enabled(c, s, OfStage(j, Go));
    if k < j {
      BlockedBeyond(c, s, k, j - 1);
      assert !Enabled(c, s, OfStage(j - 1, Go));
    }
  }

  /** The last stage waits with one more entry than its queue holds, so every stage has seen as many. */
  lemma {:induction false} SentAtLeast(c: Config, pool: bool, s: State, k: nat, m: nat)
    requires StagesOk(c, s) && Calm(c, pool, s) && k < |s.stages|
    requires m <= |s.chans[|s.stages| - 1].sent|
    ensures m <= |s.chans[k].sent|
    decreases |s.stages| - k
  {
    if k < |s.stages| - 1 {
      SentAtLeast(c, pool, s, k + 1, m);
      CalmChannels(c, pool, s, k + 1);
    }
  }

  /** The last stage waits with an entry that it has decided to keep, like all before it. */
  lemma LastKeepsFirst(c: Config, s: State, m: nat)
    requires c.WellFormed() && StagesOk(c, s) && Calm(c, false, s)
    requires s.stages[|s.stages| - 1].pc.Sending? && Last(s.chans).Waiting() >= c.queueSize
    requires m <= c.queueSize + 1 && m <= |c.listing|
    ensures Keeps(c.filters[|s.stages| - 1], c.listing[..m], m) && c.queueSize + 1 <= |s.chans[|s.stages| - 1].sent|
  {
    var l := |s.stages| - 1;
    var f, st, inp := c.filters[l], s.stages[l], s.chans[l];
    CalmChannels(c, false, s, l + 1);
    CalmChannels(c, false, s, l);
    assert StageOk(f, st, inp, s.chans[l + 1]) && st.done >= c.queueSize;
    assert Keeps(f, inp.sent, st.done) && Judge(f, inp.sent[..st.done], inp.sent[st.done]).Keep?;
    KeepsPrefix(f, inp.sent, st.done + 1, c.listing, m);
  }

  lemma OtherKeepsFirst(c: Config, s: State, k: nat, m: nat)
    requires StagesOk(c, s) && Calm(c, false, s) && k < |s.stages| - 1
    requires m <= |s.chans[|s.stages| - 1].sent| && m <= |c.listing|
    ensures Keeps(c.filters[k], c.listing[..m], m)
  {
    SentAtLeast(c, false, s, k + 1, m);
    CalmChannels(c, false, s, k);
    CalmChannels(c, false, s, k + 1);
    assert Keeps(c.filters[k], s.chans[k].sent, s.stages[k].done);
    KeepsPrefix(c.filters[k], s.chans[k].sent, s.stages[k].done, c.listing, m);
  }

  lemma BlockedKeepsFirst(c: Config, s: State, m: nat)
    requires c.WellFormed() && StagesOk(c, s) && Calm(c, false, s)
    requires s.stages[|s.stages| - 1].pc.Sending? && Last(s.chans).Waiting() >= c.queueSize
    requires m <= c.queueSize + 1 && m <= |c.listing|
    ensures KeepsFirst(c, m)
  {
    hide StageOk, Calm, Keeps;
    LastKeepsFirst(c, s, m);
    forall k | 0 <= k < |c.filters| ensures Keeps(c.filters[k], c.listing[..m], m) {
      if k < |s.stages| - 1 {
        OtherKeepsFirst(c, s, k, m);
      }
    }
  }

  /** Where no stage waits to send, they have all stopped. */
  lemma {:induction false} StuckMeansStopped(c: Config, s: State, k: nat)
    requires c.WellFormed() && StagesOk(c, s) && Stuck(c, s) && k < |s.stages|
    requires forall j :: 0 <= j < |s.stages| ==> !s.stages[j].pc.Sending?
    ensures s.stages[k].pc.Stopped?
  {
    if k > 0 {
      StuckMeansStopped(c, s, k - 1);
    }
    assert !Enabled(c, s, OfStage(k, Go)) && !s.stages[k].pc.Sending?;
  }

  lemma {:induction false} StoppedHasListing(c: Config, s: State, k: nat)
    requires StagesOk(c, s) && CleanOk(c, s) && Clean(c, s.sh) && Calm(c, false, s) && k < |s.chans|
    requires forall j :: 0 <= j < |s.stages| ==> s.stages[j].pc.Stopped?
    ensures s.chans[k].sent == c.listing
  {
    if k > 0 {
      StoppedHasListing(c, s, k - 1);
      assert CleanStage(s, k - 1);
      CalmChannels(c, false, s, k);
    }
  }

  lemma StoppedKeepsFirst(c: Config, s: State, m: nat)
    requires StagesOk(c, s) && CleanOk(c, s) && Clean(c, s.sh) && Calm(c, false, s) && m <= |c.listing|
    requires forall j :: 0 <= j < |s.stages| ==> s.stages[j].pc.Stopped?
    ensures KeepsFirst(c, m)
  {
    forall k | 0 <= k < |c.filters| ensures Keeps(c.filters[k], c.listing[..m], m) {
      StoppedHasListing(c, s, k);
      assert CleanStage(s, k) && Keeps(c.filters[k], s.chans[k].sent, s.stages[k].done);
      KeepsPrefix(c.filters[k], s.chans[k].sent, s.stages[k].done, c.listing, m);
    }
  }

  lemma StuckKeepsFirst(c: Config, s: State, m: nat)
    requires c.WellFormed() && Inv(c, s) && Calm(c, false, s) && Stuck(c, s) && 1 <= c.workers
    requires m <= c.queueSize + 1 && m <= |c.listing|
    ensures KeepsFirst(c, m)
  {
    if k :| 0 <= k < |s.stages| && s.stages[k].pc.Sending? {
      BlockedBeyond(c, s, k, |s.stages| - 1);
      BlockedKeepsFirst(c, s, m);
    } else {
      forall k | 0 <= k < |s.stages| ensures s.stages[k].pc.Stopped? {
        StuckMeansStopped(c, s, k);
      }
      StoppedKeepsFirst(c, s, m);
    }
  }

  lemma FirstRejects(c: Config, s: State, m: nat) returns (k: nat)
    requires c.WellFormed() && Inv(c, s) && 1 <= c.workers
    requires m <= c.queueSize + 1 && m <= |c.listing| && Rejects(c.filters, c.listing[..m])
    requires Calm(c, false, s) && Halted(c, false, s)
    ensures Shape(c, s) && Rejecting(c, s, k)
  {
    if forall k :: !Rejecting(c, s, k) {
      assert Stuck(c, s) by {
        forall k | 0 <= k < |s.stages| ensures !Enabled(c, s, OfStage(k, Go)) {
          assert Tried(false, OfStage(k, Go));
        }
      }
      StuckKeepsFirst(c, s, m);
      KeepsFirstMeansNoRejection(c, m);
    }
    k :| Rejecting(c, s, k);
  }

  /** Whatever the quota and the entries do to the workers: if the first rejection comes before the stages need a
      reader, which is within one entry more than a queue holds, there is a run that announces it after the end. */
  lemma EarlyRejectionsCanBeLate(c: Config, m: nat) returns (acts: seq<Action>, tr: seq<State>)
    requires c.WellFormed() && c.observed && 1 <= c.workers
    requires m <= c.queueSize + 1 && m <= |c.listing| && Rejects(c.filters, c.listing[..m])
    ensures Run(c, acts, tr) && HasLateEvent(Last(tr).sh.log)
  {
    hide Inv, Calm, Halted, Rejecting, Rejects, Run, HasLateEvent;
    InitIsCalm(c, false);
    var bcts, ur := Proceed(c, false, [], [Init(c)]);
    var k := FirstRejects(c, Last(ur), m);
    acts, tr := RejectionCanBeLate(c, bcts, ur, k);
  }

  // Without any cancellation

  /** A chain of one filter that keeps the first entry and rejects the second, and a single worker that dies of the
      first without cancelling. */
  predicate DiesAndRejects(c: Config) {
    && |c.filters| == 2 && c.filters[1].Simple?
    && 2 <= |c.listing| && c.filters[1].pass(c.listing[0]) && !c.filters[1].pass(c.listing[1])
    && c.workers == 1 && c.attribute(c.listing[0]) == Fatal(false)
  }

  lemma SecondIsRejected(c: Config)
    requires c.WellFormed() && DiesAndRejects(c)
    ensures Rejects(c.filters, c.listing[..2])
  {
    assert c.filters[..1] == [Lister] && Front([Lister]) == [];
    PassedLister(c.listing[..2]);
    assert Chain(c.filters[..1], c.listing[..2]) == c.listing[..2];
    assert !VerdictAt(c.filters, c.listing[..2], 1, 1).Keep?;
  }

  /** When the filter holds the second entry, the first one is waiting for the worker. */
  lemma FirstIsWaiting(c: Config, s: State, k: nat)
    requires c.WellFormed() && DiesAndRejects(c) && StagesOk(c, s) && Calm(c, false, s) && Rejecting(c, s, k)
    ensures k == 1 && Last(s.chans).sent == [c.listing[0]] && Last(s.chans).taken == 0
  {
    CalmChannels(c, false, s, 1);
    CalmChannels(c, false, s, 2);
    assert StageOk(c.filters[1], s.stages[1], s.chans[1], s.chans[2]);
    assert Keeps(c.filters[1], s.chans[1].sent, s.stages[1].done);
    assert s.stages[1].done > 1 ==> Judge(c.filters[1], s.chans[1].sent[..1], s.chans[1].sent[1]).Keep?;
  }

  lemma WorkerDies(c: Config, s: State) returns (t: State, u: State)
    requires Shape(c, s) && c.workers == 1 && s.workers[0] == IDLE && !s.sh.cancelled
    requires Last(s.chans).taken == 0 && Last(s.chans).sent != [] && c.attribute(Last(s.chans).sent[0]) == Fatal(false)
    ensures Takes(c, s, OfWorker(0, Go), t) && Takes(c, t, OfWorker(0, Go), u)
    ensures AllDone(u) && !u.sh.cancelled && u.sh.faulted
  {
    t := Apply(c, s, OfWorker(0, Go));
    u := Apply(c, t, OfWorker(0, Go));
  }

  lemma DiesHere(c: Config, s: State, k: nat) returns (t: State, u: State)
    requires c.WellFormed() && DiesAndRejects(c) && Inv(c, s) && Calm(c, false, s) && Rejecting(c, s, k)
    ensures k == 1 && Takes(c, s, OfWorker(0, Go), t) && Takes(c, t, OfWorker(0, Go), u)
    ensures AllDone(u) && !u.sh.cancelled && u.sh.faulted
  {
    FirstIsWaiting(c, s, k);
    t, u := WorkerDies(c, s);
  }

  /** A run that nobody cancels can announce a rejected entry after the end as well: the worker is dead, the pipeline
      does not wait for the filter. */
  lemma FailedRunEndsEarly(c: Config) returns (acts: seq<Action>, tr: seq<State>)
    requires c.WellFormed() && c.observed && DiesAndRejects(c)
    ensures Run(c, acts, tr) && HasLateEvent(Last(tr).sh.log) && !Last(tr).sh.cancelled
  {
    hide Inv, Calm, Halted, Rejecting, Rejects, Run, HasLateEvent, Takes;
    SecondIsRejected(c);
    InitIsCalm(c, false);
    var bcts, ur := Proceed(c, false, [], [Init(c)]);
    var k := FirstRejects(c, Last(ur), 2);
    var t, u := DiesHere(c, Last(ur), k);
    acts, tr := GoesOn(c, bcts, ur, t, u, k);
  }

  lemma GoesOn(c: Config, acts: seq<Action>, tr: seq<State>, t: State, u: State, k: nat) returns (bcts: seq<Action>, ur: seq<State>)
    requires c.WellFormed() && c.observed && Run(c, acts, tr) && Inv(c, Last(tr)) && Rejecting(c, Last(tr), k)
    requires Takes(c, Last(tr), OfWorker(0, Go), t) && Takes(c, t, OfWorker(0, Go), u)
    requires AllDone(u) && !u.sh.cancelled && c.filters[k].Simple?
    ensures Run(c, bcts, ur) && HasLateEvent(Last(ur).sh.log) && !Last(ur).sh.cancelled
  {
    var a := OfWorker(0, Go);
    Extend(c, acts, tr, a, t);
    StepFalls(c, Last(tr), a, t);
    WindKeepsHolding(c, Last(tr), a, k);
    Extend(c, acts + [a], tr + [t], a, u);
    StepFalls(c, t, a, u);
    WindKeepsHolding(c, t, a, k);
    bcts, ur := RejectionCanBeLate(c, acts + [a] + [a], tr + [t] + [u], k);
  }
}
