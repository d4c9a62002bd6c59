/** When a finished run is clean: exactly if nothing in its schedule disturbs it and nothing in its configuration
    makes a task fail or exceeds the quota. */
module CleanRuns {
  import opened Objects
  import opened Filters
  import opened Network
  import opened StageSafety
  import opened WorkerSafety
  import opened TallySafety
  import opened RunSafety
  import opened Guarantees

  // What the configuration and the listing decide

  /** What a stage says of the n-th entry that the stages before it let through of `s`. */
  function VerdictAt(fs: seq<Filter>, s: seq<S3Object>, k: nat, n: nat): Verdict
    requires k < |fs| && n < |Chain(fs[..k], s)|
  {
    var all := Chain(fs[..k], s);
    Judge(fs[k], all[..n], all[n])
  }

  /** No callback fails on anything that reaches it. */
  predicate NoneFails(c: Config) {
    forall k, n :: 0 <= k < |c.filters| && 0 <= n < |Chain(c.filters[..k], c.listing)| ==> !VerdictAt(c.filters, c.listing, k, n).Fail?
  }

  /** No entry that reaches the workers kills the one that takes it. */
  predicate NoneFatal(c: Config) {
    forall o :: o in Chain(c.filters, c.listing) ==> !c.attribute(o).Fatal?
  }

  predicate QuotaFits(c: Config) {
    c.maxDelete.None? || |c.Selected()| <= c.maxDelete.value
  }

  predicate Harmless(c: Config) {
    NoneFails(c) && NoneFatal(c) && QuotaFits(c)
  }

  /** An action that is not part of a smooth run: somebody interrupts, a lister or a back end fails, or a deletion
      fails while warnings count as errors. */
  predicate Disturbs(c: Config, a: Action) {
    match a
    case OfStage(_, ch) => ch.Break?
    case OfWorker(_, ch) => ch.Break? || (ch.Answer? && Stops(c, ch.failed))
    case Interrupt => true
    case _ => false
  }

  // A smooth run stays clean

  /** The stage judges the entry in its hand as the chain does. */
  lemma VerdictInHand(c: Config, s: State, k: nat)
    requires StagesOk(c, s) && k < |s.stages| && s.stages[k].pc.Have?
    ensures s.stages[k].done < |Chain(c.filters[..k], c.listing)|
    ensures Judge(c.filters[k], s.chans[k].sent[..s.stages[k].done], s.stages[k].pc.o) == VerdictAt(c.filters, c.listing, k, s.stages[k].done)
  {
    assert StageOk(c.filters[k], s.stages[k], s.chans[k], s.chans[k + 1]);
    ChannelsArePrefixes(c, s, k);
    var sent, all, n := s.chans[k].sent, Chain(c.filters[..k], c.listing), s.stages[k].done;
    assert sent[..n] == all[..n] && sent[n] == all[n];
  }

  /** The entries that have drawn a ticket. */
  function AllDrawn(ws: seq<Worker>): multiset<S3Object> {
    if ws == [] then multiset{} else AllDrawn(Front(ws)) + multiset(Last(ws).drawn)
  }

  lemma {:induction false} AllDrawnSize(ws: seq<Worker>)
    ensures |AllDrawn(ws)| == Tally(ws, Drawn)
  {
    if ws != [] {
      AllDrawnSize(Front(ws));
    }
  }

  predicate Draws(c: Config, w: Worker, o: S3Object) {
    multiset(w.drawn)[o] <= Due(c, w, o)
  }

  lemma {:induction false} AllDrawnAtMost(c: Config, ws: seq<Worker>, o: S3Object)
    requires forall k :: 0 <= k < |ws| ==> Draws(c, ws[k], o)
    ensures AllDrawn(ws)[o] <= if c.Wants(o) then Tally(ws, Received(o)) else 0
  {
    if ws != [] {
      assert Draws(c, ws[|ws| - 1], o);
      AllDrawnAtMost(c, Front(ws), o);
    }
  }

  lemma WorkersDraw(c: Config, s: State, o: S3Object)
    requires WorkersOk(c, s)
    ensures forall k :: 0 <= k < |s.workers| ==> Draws(c, s.workers[k], o)
  {
    WorkersSelect(c, s);
    forall k | 0 <= k < |s.workers| ensures Draws(c, s.workers[k], o) {
      DrawnWasReceived(c, s.workers[k], o);
    }
  }

  lemma WorkersSelect(c: Config, s: State)
    requires WorkersOk(c, s)
    ensures forall k :: 0 <= k < |s.workers| ==> SelectionOk(c, s.workers[k])
  {
    forall k | 0 <= k < |s.workers| ensures SelectionOk(c, s.workers[k]) {
      assert WorkerOk(c, s.sh.cancelled, s.workers[k]);
    }
  }

  /** Tickets are drawn for selected entries only, each as often as it was listed. */
  lemma TicketsAreSelected(c: Config, s: State)
    requires StagesOk(c, s) && WorkersOk(c, s) && SumsOk(c, s)
    ensures s.sh.counter <= |c.Selected()|
  {
    forall o ensures AllDrawn(s.workers)[o] <= multiset(c.Selected())[o] {
      WorkersDraw(c, s, o);
      AllDrawnAtMost(c, s.workers, o);
      PoolPrefix(c, s);
      PrefixCount(Last(s.chans).Received(), Chain(c.filters, c.listing), o);
      WhereCount(c.Wants, Chain(c.filters, c.listing), o);
      assert Tally(s.workers, Received(o)) == multiset(Last(s.chans).Received())[o];
    }
    AllDrawnSize(s.workers);
    PartOfMultiset(AllDrawn(s.workers), multiset(c.Selected()));
  }

  lemma PartOfMultiset(a: multiset<S3Object>, b: multiset<S3Object>)
    requires a <= b
    ensures |a| <= |b|
  {
    assert b == a + (b - a);
  }

  /** Within the quota nobody trips, so only the outside can have cancelled. */
  lemma NobodyTrips(c: Config, s: State)
    requires Inv(c, s) && QuotaFits(c)
    ensures s.sh.cancelled ==> s.sh.outside
  {
    TicketsAreSelected(c, s);
    TrippedNonNegative(s.workers);
  }

  lemma QuietMeansUncancelled(c: Config, s: State)
    requires Inv(c, s) && Harmless(c) && Peaceful(s.sh)
    ensures !s.sh.cancelled
  {
    NobodyTrips(c, s);
  }

  lemma {:induction false} TallyAtLeast(ws: seq<Worker>, k: nat, o: S3Object)
    requires k < |ws|
    ensures Tally(ws, Received(o)) >= multiset(ws[k].received)[o]
  {
    if k < |ws| - 1 {
      TallyAtLeast(Front(ws), k, o);
    } else {
      ReceivedNonNegative(Front(ws), o);
    }
  }

  lemma {:induction false} ReceivedNonNegative(ws: seq<Worker>, o: S3Object)
    ensures Tally(ws, Received(o)) >= 0
  {
    if ws != [] {
      ReceivedNonNegative(Front(ws), o);
    }
  }

  lemma ReceivedWasPassed(c: Config, s: State, k: nat, o: S3Object)
    requires StagesOk(c, s) && SumsOk(c, s) && k < |s.workers| && o in s.workers[k].received
    ensures o in Chain(c.filters, c.listing)
  {
    TallyAtLeast(s.workers, k, o);
    assert Tally(s.workers, Received(o)) == multiset(Last(s.chans).Received())[o];
    assert o in Last(s.chans).Received();
    PoolPrefix(c, s);
  }

  predicate Peaceful(sh: Shared) {
    !sh.outside && !sh.faulted
  }

  lemma StageStaysPeaceful(c: Config, s: State, k: nat, ch: Choice)
    requires StagesOk(c, s) && NoneFails(c) && Peaceful(s.sh)
    requires Enabled(c, s, OfStage(k, ch)) && !ch.Break?
    ensures Peaceful(Apply(c, s, OfStage(k, ch)).sh)
  {
    var v := ViewOfStage(s, k);
    if s.stages[k].pc.Have? {
      VerdictInHand(c, s, k);
    }
    assert !Fails(c.filters[k], v, ch);
    StageShares(c, c.filters[k], v, ReceiversGone(s, k), ch);
  }

  lemma WorkerStaysPeaceful(c: Config, v: View, inClosed: bool, outClosed: bool, k: nat, ch: Choice)
    requires v.inp.taken <= |v.inp.sent| && WorkerEnabled(c, v, inClosed, outClosed, ch) && Peaceful(v.sh)
    requires !Disturbs(c, OfWorker(k, ch)) && (v.w.pc.Process? ==> !c.attribute(v.w.pc.o).Fatal?)
    ensures Peaceful(WorkerStep(c, v, outClosed, ch).sh)
  {
    match v.w.pc
    case Process(o) => assert Peaceful(ProcessStep(c, v, o).sh);
    case InFlight(batch, t) => assert Peaceful(AnswerStep(c, v, batch, t, ch.deleted, ch.failed).sh);
    case Trip(o) => assert Peaceful(TripStep(v, o).sh);
    case _ =>
  }

  lemma WorkerProcesses(c: Config, s: State, k: nat)
    requires StagesOk(c, s) && WorkersOk(c, s) && SumsOk(c, s) && NoneFatal(c)
    requires k < |s.workers| && s.workers[k].pc.Process?
    ensures !c.attribute(s.workers[k].pc.o).Fatal?
  {
    var w := s.workers[k];
    assert SelectionOk(c, w) by { WorkersSelect(c, s); }
    assert w.pc.o in w.received;
    ReceivedWasPassed(c, s, k, w.pc.o);
  }

  lemma ActionStaysPeaceful(c: Config, s: State, a: Action)
    requires Inv(c, s)
    requires Harmless(c) && Peaceful(s.sh) && Enabled(c, s, a) && !Disturbs(c, a)
    ensures Peaceful(Apply(c, s, a).sh)
  {
    match a
    case OfStage(k, ch) => StageStaysPeaceful(c, s, k, ch);
    case OfWorker(k, ch) =>
      if s.workers[k].pc.Process? {
        WorkerProcesses(c, s, k);
      }
      WorkerStaysPeaceful(c, ViewOfWorker(s, k), SendersGone(s, |s.stages|), s.drained, k, ch);
    case _ =>
  }

  lemma InitIsPeaceful(c: Config)
    ensures Peaceful(Init(c).sh)
  {
  }

  predicate Smooth(c: Config, acts: seq<Action>, n: nat)
    requires n <= |acts|
  {
    forall k :: 0 <= k < n ==> !Disturbs(c, acts[k])
  }

  lemma {:induction false} SmoothRunIsPeaceful(c: Config, acts: seq<Action>, tr: seq<State>, n: nat)
    requires c.WellFormed() && Run(c, acts, tr) && n < |tr|
    requires Harmless(c) && Smooth(c, acts, n)
    ensures Peaceful(tr[n].sh) && !tr[n].sh.cancelled
  {
    hide Inv, Harmless, Peaceful, Disturbs, Enabled, Apply;
    RunKeepsInv(c, acts, tr, n);
    if n == 0 {
      InitIsPeaceful(c);
    } else {
      SmoothRunIsPeaceful(c, acts, tr, n - 1);
      RunKeepsInv(c, acts, tr, n - 1);
      assert Takes(c, tr[n - 1], acts[n - 1], tr[n]);
      ActionStaysPeaceful(c, tr[n - 1], acts[n - 1]);
    }
    QuietMeansUncancelled(c, tr[n]);
  }

  // A clean run was smooth

  predicate Troubled(sh: Shared) {
    sh.cancelled || sh.faulted
  }

  predicate TroubleKept(sh: Shared, r: Shared) {
    (sh.cancelled ==> r.cancelled) && (sh.faulted ==> r.faulted)
  }

  lemma WorkerKeepsTrouble(c: Config, v: View, outClosed: bool, ch: Choice)
    requires v.inp.taken <= |v.inp.sent|
    ensures TroubleKept(v.sh, WorkerStep(c, v, outClosed, ch).sh)
  {
    match v.w.pc
    case Process(o) => assert TroubleKept(v.sh, ProcessStep(c, v, o).sh);
    case InFlight(batch, k) =>
      if ch.Answer? {
        assert TroubleKept(v.sh, AnswerStep(c, v, batch, k, ch.deleted, ch.failed).sh);
      }
    case _ =>
  }

  /** Trouble stays, and a disturbance makes it. */
  lemma TroubleShows(c: Config, s: State, a: Action)
    requires Shape(c, s) && Enabled(c, s, a)
    ensures Troubled(s.sh) || Disturbs(c, a) ==> Troubled(Apply(c, s, a).sh)
  {
    match a
    case OfStage(k, ch) =>
      StageShares(c, c.filters[k], ViewOfStage(s, k), ReceiversGone(s, k), ch);
    case OfWorker(k, ch) => WorkerKeepsTrouble(c, ViewOfWorker(s, k), s.drained, ch);
    case _ =>
  }

  lemma {:induction false} TroubleStays(c: Config, acts: seq<Action>, tr: seq<State>, i: nat, j: nat)
    requires Run(c, acts, tr) && i < j < |tr|
    requires Troubled(tr[i].sh) || Disturbs(c, acts[i])
    ensures Troubled(tr[j].sh)
  {
    if i < j - 1 {
      TroubleStays(c, acts, tr, i, j - 1);
    }
    assert Takes(c, tr[j - 1], acts[j - 1], tr[j]);
    TroubleShows(c, tr[j - 1], acts[j - 1]);
  }

  /** The verdicts of a stage so far. */
  predicate FailsNowhere(f: Filter, sent: seq<S3Object>, done: nat)
    requires done <= |sent|
  {
    forall n :: 0 <= n < done ==> !Judge(f, sent[..n], sent[n]).Fail?
  }

  predicate DiesNowhere(c: Config, w: Worker) {
    forall o :: o in Judged(w) ==> !c.attribute(o).Fatal?
  }

  /** As long as no task has failed, there was no reason to. */
  predicate Unfailed(c: Config, s: State)
    requires Shape(c, s)
  {
    !s.sh.faulted ==>
      && (forall k :: 0 <= k < |s.stages| ==> FailsNowhere(c.filters[k], s.chans[k].sent, s.stages[k].done))
      && (forall k :: 0 <= k < |s.workers| ==> DiesNowhere(c, s.workers[k]))
  }

  lemma FailsNowhereElse(f: Filter, a: seq<S3Object>, b: seq<S3Object>, done: nat)
    requires done <= |a| && a <= b && FailsNowhere(f, a, done)
    ensures FailsNowhere(f, b, done)
  {
    forall n | 0 <= n < done ensures !Judge(f, b[..n], b[n]).Fail? {
      assert a[..n] == b[..n];
    }
  }

  lemma StageFailsNowhere(c: Config, f: Filter, v: StageView, inClosed: bool, outClosed: bool, ch: Choice)
    requires StageOk(f, v.st, v.inp, v.outp) && StageEnabled(c, f, v, inClosed, outClosed, ch)
    requires FailsNowhere(f, v.inp.sent, v.st.done)
    ensures
      var r := StageStep(c, f, v, outClosed, ch);
      r.st.done <= |v.inp.sent| && FailsNowhere(f, v.inp.sent, r.st.done)
  {
  }

  lemma StageKeepsUnfailed(c: Config, s: State, k: nat, ch: Choice)
    requires StagesOk(c, s) && Unfailed(c, s) && Enabled(c, s, OfStage(k, ch))
    requires Shape(c, Apply(c, s, OfStage(k, ch)))
    ensures Unfailed(c, Apply(c, s, OfStage(k, ch)))
  {
    var v, t := ViewOfStage(s, k), Apply(c, s, OfStage(k, ch));
    var r := StageStep(c, c.filters[k], v, ReceiversGone(s, k), ch);
    assert r.sh == StageShared(c, c.filters[k], v, ch);
    if !t.sh.faulted {
      StageStepOk(c, c.filters[k], v, SendersGone(s, k), ReceiversGone(s, k), ch);
      StageFailsNowhere(c, c.filters[k], v, SendersGone(s, k), ReceiversGone(s, k), ch);
      forall j | 0 <= j < |t.stages| ensures FailsNowhere(c.filters[j], t.chans[j].sent, t.stages[j].done) {
        if j != k {
          FailsNowhereElse(c.filters[j], s.chans[j].sent, t.chans[j].sent, s.stages[j].done);
        }
      }
    }
  }

  lemma WorkerDiesNowhere(c: Config, v: View, outClosed: bool, ch: Choice)
    requires v.inp.taken <= |v.inp.sent|
    requires DiesNowhere(c, v.w) && SelectionOk(c, v.w) && !WorkerStep(c, v, outClosed, ch).sh.faulted
    ensures DiesNowhere(c, WorkerStep(c, v, outClosed, ch).w)
  {
    match v.w.pc
    case Select => assert Judged(SelectStep(v, ch).w) == Judged(v.w);
    case Process(o) =>
      assert ProcessStep(c, v, o).w.received == Judged(v.w) + [o];
      assert Judged(ProcessStep(c, v, o).w) == Judged(v.w) + [o];
    case Admit(o) => assert Judged(AdmitStep(c, v, o).w) == Judged(v.w);
    case _ =>
  }

  lemma WorkerKeepsUnfailed(c: Config, s: State, k: nat, ch: Choice)
    requires StagesOk(c, s) && WorkersOk(c, s) && Unfailed(c, s) && Enabled(c, s, OfWorker(k, ch))
    requires Shape(c, Apply(c, s, OfWorker(k, ch)))
    ensures Unfailed(c, Apply(c, s, OfWorker(k, ch)))
  {
    var v, t := ViewOfWorker(s, k), Apply(c, s, OfWorker(k, ch));
    WorkerTakesFromQueue(c, v, s.drained, ch, SendersGone(s, |s.stages|));
    WorkerKeepsTrouble(c, v, s.drained, ch);
    if !t.sh.faulted {
      WorkersSelect(c, s);
      WorkerDiesNowhere(c, v, s.drained, ch);
      forall j | 0 <= j < |t.workers| ensures DiesNowhere(c, t.workers[j]) {
        assert j != k ==> t.workers[j] == s.workers[j];
      }
    }
  }

  lemma ActionKeepsUnfailed(c: Config, s: State, a: Action)
    requires StagesOk(c, s) && WorkersOk(c, s) && Unfailed(c, s) && Enabled(c, s, a)
    requires Shape(c, Apply(c, s, a))
    ensures Unfailed(c, Apply(c, s, a))
  {
    match a
    case OfStage(k, ch) => StageKeepsUnfailed(c, s, k, ch);
    case OfWorker(k, ch) => WorkerKeepsUnfailed(c, s, k, ch);
    case _ =>
  }

  lemma PartsAreOk(c: Config, acts: seq<Action>, tr: seq<State>, n: nat)
    requires c.WellFormed() && Run(c, acts, tr) && n < |tr|
    ensures StagesOk(c, tr[n]) && WorkersOk(c, tr[n])
  {
    RunKeepsInv(c, acts, tr, n);
  }

  lemma {:induction false} RunKeepsUnfailed(c: Config, acts: seq<Action>, tr: seq<State>, n: nat)
    requires c.WellFormed() && Run(c, acts, tr) && n < |tr|
    ensures Shape(c, tr[n]) && Unfailed(c, tr[n])
  {
    hide WorkersOk, StageOk, Apply;
    PartsAreOk(c, acts, tr, n);
    if n > 0 {
      RunKeepsUnfailed(c, acts, tr, n - 1);
      PartsAreOk(c, acts, tr, n - 1);
      assert Takes(c, tr[n - 1], acts[n - 1], tr[n]);
      ActionKeepsUnfailed(c, tr[n - 1], acts[n - 1]);
    }
  }

  /** At the end of a clean run every stage has judged all that reaches it, and every worker all that it received. */
  lemma CleanMeansNoneFails(c: Config, s: State)
    requires StagesOk(c, s) && CleanOk(c, s) && Clean(c, s.sh) && Final(s) && Unfailed(c, s)
    ensures NoneFails(c)
  {
    forall k, n | 0 <= k < |c.filters| && 0 <= n < |Chain(c.filters[..k], c.listing)|
      ensures !VerdictAt(c.filters, c.listing, k, n).Fail?
    {
      assert CleanStage(s, k);
      CleanChannels(c, s, k);
      assert FailsNowhere(c.filters[k], s.chans[k].sent, s.stages[k].done);
    }
  }

  lemma CleanMeansNoneFatal(c: Config, s: State)
    requires StagesOk(c, s) && SumsOk(c, s) && CleanOk(c, s) && Clean(c, s.sh) && AllDone(s) && Unfailed(c, s)
    ensures NoneFatal(c)
  {
    CleanPool(c, s);
    forall o | o in Chain(c.filters, c.listing) ensures !c.attribute(o).Fatal? {
      assert Tally(s.workers, Received(o)) == multiset(Last(s.chans).Received())[o];
      assert multiset(Last(s.chans).Received())[o] > 0;
      var k := WhoReceived(s.workers, o);
      assert s.workers[k].pc.Done? && DiesNowhere(c, s.workers[k]);
    }
  }

  lemma {:induction false} WhoReceived(ws: seq<Worker>, o: S3Object) returns (k: nat)
    requires Tally(ws, Received(o)) > 0
    ensures k < |ws| && o in ws[k].received
  {
    if o in Last(ws).received {
      k := |ws| - 1;
    } else {
      k := WhoReceived(Front(ws), o);
    }
  }

  lemma CleanMeansQuotaFits(c: Config, acts: seq<Action>, tr: seq<State>)
    requires c.WellFormed() && Run(c, acts, tr) && Final(Last(tr)) && Clean(c, Last(tr).sh)
    ensures QuotaFits(c)
  {
    if c.maxDelete.Some? {
      QuotaSafety(c, acts, tr);
      CleanRunDeletesTheSelection(c, acts, tr);
    }
  }

  /** A finished run is clean if and only if nothing in its schedule disturbed it, and the configuration is harmless
      for this listing: no callback fails on what reaches it, no entry that reaches a worker is fatal, and the
      selection fits into the quota. */
  lemma CleanIff(c: Config, acts: seq<Action>, tr: seq<State>)
    requires c.WellFormed() && 1 <= c.workers && Run(c, acts, tr) && Final(Last(tr))
    ensures Clean(c, Last(tr).sh) <==> Harmless(c) && Smooth(c, acts, |acts|)
  {
    if Harmless(c) && Smooth(c, acts, |acts|) {
      SmoothRunIsPeaceful(c, acts, tr, |acts|);
    }
    if Clean(c, Last(tr).sh) {
      forall n | 0 <= n < |acts| ensures !Disturbs(c, acts[n]) {
        if Disturbs(c, acts[n]) {
          TroubleStays(c, acts, tr, n, |acts|);
        }
      }
      RunKeepsInv(c, acts, tr, |acts|);
      RunKeepsUnfailed(c, acts, tr, |acts|);
      CleanMeansNoneFails(c, Last(tr));
      CleanMeansNoneFatal(c, Last(tr));
      CleanMeansQuotaFits(c, acts, tr);
    }
  }
}
