/** What the pipeline promises of every run: the quota, the selection, conservation, the order of events and a
    bounded amount of work after cancellation. `tr` is always the list of states of some run, so a statement
    about its last state is a statement about every reachable state. */
module Guarantees {
  import opened Objects
  import opened Filters
  import opened Network
  import opened StageSafety
  import opened WorkerSafety
  import opened TallySafety
  import opened RunSafety

  /** Everything that all workers together have handed to deletion, with multiplicity. */
  function Handed(ws: seq<Worker>): multiset<S3Object> {
    if ws == [] then multiset{} else Handed(Front(ws)) + multiset(Last(ws).dispatched)
  }

  lemma {:induction false} HandedCount(ws: seq<Worker>, o: S3Object)
    ensures Handed(ws)[o] == Tally(ws, Dispatched(o))
  {
    if ws != [] {
      HandedCount(Front(ws), o);
    }
  }

  lemma {:induction false} HandedSize(ws: seq<Worker>)
    ensures |Handed(ws)| == Tally(ws, Dispatches)
  {
    if ws != [] {
      HandedSize(Front(ws));
    }
  }

  // Only selected entries are handed to deletion

  function Due(c: Config, w: Worker, o: S3Object): int {
    if c.Wants(o) then multiset(w.received)[o] else 0
  }

  lemma DrawnWasReceived(c: Config, w: Worker, o: S3Object)
    requires SelectionOk(c, w)
    ensures multiset(w.drawn)[o] <= Due(c, w, o)
  {
    WhereCount(c.Wants, Judged(w), o);
    if w.pc.Process? {
      assert w.received == Judged(w) + [w.pc.o];
    }
    assert multiset(Where(c.Wants, Judged(w)))[o] == multiset(w.drawn)[o] + multiset(Pending(w.pc))[o];
  }

  lemma DispatchedWasDrawn(cancelled: bool, w: Worker, o: S3Object)
    requires AdmissionOk(cancelled, w)
    ensures multiset(w.dispatched)[o] <= multiset(w.drawn)[o]
  {
    assert multiset(w.drawn) == multiset(w.dispatched) + multiset(Held(w)) + multiset(w.refused);
  }

  lemma DispatchedWasReceived(c: Config, cancelled: bool, w: Worker, o: S3Object)
    requires SelectionOk(c, w) && AdmissionOk(cancelled, w)
    ensures multiset(w.dispatched)[o] <= Due(c, w, o)
  {
    hide SelectionOk, AdmissionOk, Due;
    DispatchedWasDrawn(cancelled, w, o);
    DrawnWasReceived(c, w, o);
  }

  lemma PrefixCount(s: seq<S3Object>, t: seq<S3Object>, o: S3Object)
    requires s <= t
    ensures multiset(s)[o] <= multiset(t)[o]
  {
    assert t == s + t[|s|..];
  }

  /** What the workers have received is a prefix of what the chain lets through. */
  lemma PoolPrefix(c: Config, s: State)
    requires StagesOk(c, s)
    ensures Last(s.chans).Received() <= Last(s.chans).sent <= Chain(c.filters, c.listing)
  {
    ChannelsArePrefixes(c, s, |c.filters|);
    assert c.filters[..|c.filters|] == c.filters;
  }

  predicate Picks(c: Config, w: Worker, o: S3Object) {
    multiset(w.dispatched)[o] <= Due(c, w, o)
  }

  lemma HandedAtMostReceived(c: Config, ws: seq<Worker>, o: S3Object)
    requires forall k :: 0 <= k < |ws| ==> Picks(c, ws[k], o)
    ensures Tally(ws, Dispatched(o)) <= if c.Wants(o) then Tally(ws, Received(o)) else 0
  {
    if c.Wants(o) {
      forall k | 0 <= k < |ws| ensures Read(Dispatched(o), ws[k]) <= Read(Received(o), ws[k]) {
        assert Picks(c, ws[k], o);
      }
      TallyMonotone(ws, Dispatched(o), Received(o));
    } else {
      forall k | 0 <= k < |ws| ensures Read(Dispatched(o), ws[k]) <= 0 {
        assert Picks(c, ws[k], o);
      }
      TallyAtMost(ws, Dispatched(o), 0);
    }
  }

  lemma WorkersPick(c: Config, s: State, o: S3Object)
    requires WorkersOk(c, s)
    ensures forall k :: 0 <= k < |s.workers| ==> Picks(c, s.workers[k], o)
  {
    forall k | 0 <= k < |s.workers| ensures Picks(c, s.workers[k], o) {
      assert WorkerOk(c, s.sh.cancelled, s.workers[k]);
      DispatchedWasReceived(c, s.sh.cancelled, s.workers[k], o);
    }
  }

  lemma HandedAtMostSelected(c: Config, s: State, o: S3Object)
    requires StagesOk(c, s) && WorkersOk(c, s) && SumsOk(c, s)
    ensures Handed(s.workers)[o] <= multiset(c.Selected())[o]
  {
    WorkersPick(c, s, o);
    HandedCount(s.workers, o);
    HandedAtMostReceived(c, s.workers, o);
    PoolPrefix(c, s);
    PrefixCount(Last(s.chans).Received(), Chain(c.filters, c.listing), o);
    WhereCount(c.Wants, Chain(c.filters, c.listing), o);
  }

  /** In every state of every run, whatever was cancelled or failed: nothing is handed to deletion that the
      filters did not select from the listing, and nothing more often than it was listed. */
  lemma OnlySelectedIsDeleted(c: Config, acts: seq<Action>, tr: seq<State>)
    requires c.WellFormed() && Run(c, acts, tr)
    ensures Handed(Last(tr).workers) <= multiset(c.Selected())
    ensures forall o :: o in Handed(Last(tr).workers) ==>
      o in c.listing && c.Wants(o) && forall k :: 0 <= k < |c.filters| && c.filters[k].Simple? ==> c.filters[k].pass(o)
  {
    var s := Last(tr);
    RunKeepsInv(c, acts, tr, |acts|);
    forall o ensures Handed(s.workers)[o] <= multiset(c.Selected())[o] {
      HandedAtMostSelected(c, s, o);
    }
    forall o | o in Handed(s.workers)
      ensures o in c.listing && c.Wants(o)
      ensures forall k :: 0 <= k < |c.filters| && c.filters[k].Simple? ==> c.filters[k].pass(o)
    {
      HandedAtMostSelected(c, s, o);
      assert o in c.Selected();
      WhereMember(c.Wants, Chain(c.filters, c.listing), o);
      ChainMember(c.filters, c.listing, o);
    }
  }

  // The quota

  /** The numbers behind `AdmissionOk`. */
  predicate Numbered(w: Worker) {
    |w.dispatched| <= |w.admitted| && |w.drawn| == |w.admitted| + |w.refused| && |w.refused| <= 1
  }

  lemma WorkersNumbered(c: Config, s: State)
    requires WorkersOk(c, s)
    ensures forall k :: 0 <= k < |s.workers| ==> Numbered(s.workers[k])
  {
    forall k | 0 <= k < |s.workers| ensures Numbered(s.workers[k]) {
      assert AdmissionOk(s.sh.cancelled, s.workers[k]);
    }
  }

  lemma DispatchesAtMostAdmissions(ws: seq<Worker>)
    requires forall k :: 0 <= k < |ws| ==> Numbered(ws[k])
    ensures Tally(ws, Dispatches) <= Tally(ws, Admissions)
  {
    TallyMonotone(ws, Dispatches, Admissions);
  }

  lemma DrawnIsAdmittedOrRefused(ws: seq<Worker>)
    requires forall k :: 0 <= k < |ws| ==> Numbered(ws[k])
    ensures Tally(ws, Drawn) == Tally(ws, Admissions) + Tally(ws, Refused)
  {
    TallyAdds(ws, Drawn, Admissions, Refused);
  }

  lemma FewRefusals(ws: seq<Worker>)
    requires forall k :: 0 <= k < |ws| ==> Numbered(ws[k])
    ensures Tally(ws, Refused) <= |ws|
  {
    TallyAtMost(ws, Refused, 1);
  }

  /** With a limit of M, all workers together hand at most M entries to deletion; the shared counter can
      overshoot by one ticket per worker and no more; and no worker reports the limit twice. */
  lemma QuotaSafety(c: Config, acts: seq<Action>, tr: seq<State>)
    requires c.WellFormed() && Run(c, acts, tr)
    requires c.maxDelete.Some?
    ensures |Handed(Last(tr).workers)| <= c.maxDelete.value
    ensures Last(tr).sh.counter <= c.maxDelete.value + c.workers
    ensures Last(tr).sh.trips <= c.workers
  {
    var s := Last(tr);
    RunKeepsInv(c, acts, tr, |acts|);
    WorkersNumbered(c, s);
    DispatchesAtMostAdmissions(s.workers);
    DrawnIsAdmittedOrRefused(s.workers);
    FewRefusals(s.workers);
    HandedSize(s.workers);
    TrippedNonNegative(s.workers);
  }

  lemma {:induction false} TrippedNonNegative(ws: seq<Worker>)
    ensures Tally(ws, Tripped) >= 0
  {
    if ws != [] {
      TrippedNonNegative(Front(ws));
    }
  }

  /** The two failure tallies differ exactly by the quota trips, in every state: failures counted from events =
      failures in the report + trips = error messages sent. Each worker trips at most once. */
  lemma FailureTalliesAgree(c: Config, acts: seq<Action>, tr: seq<State>)
    requires c.WellFormed() && Run(c, acts, tr)
    ensures Failures(Last(tr).sh.log) == Last(tr).sh.failed + Last(tr).sh.trips == Last(tr).sh.errors
    ensures Completes(Last(tr).sh.log) == Last(tr).sh.deleted
    ensures Last(tr).sh.trips <= c.workers
    ensures Last(tr).sh.trips > 0 ==> c.maxDelete.Some? && Last(tr).sh.counter > c.maxDelete.value
  {
    var s := Last(tr);
    RunKeepsInv(c, acts, tr, |acts|);
    WorkersNumbered(c, s);
    DispatchesAtMostAdmissions(s.workers);
    DrawnIsAdmittedOrRefused(s.workers);
    FewRefusals(s.workers);
    TrippedNonNegative(s.workers);
  }

  /** A request to the back end names between one entry and one effective batch, and a buffer never outgrows a
      batch. With an effective batch size of one, every request names exactly one entry. */
  lemma BatchesFit(c: Config, acts: seq<Action>, tr: seq<State>, k: nat)
    requires c.WellFormed() && Run(c, acts, tr)
    requires k < |Last(tr).workers|
    ensures |Last(tr).workers[k].buffer| <= c.batchSize
    ensures Last(tr).workers[k].pc.InFlight? ==> 1 <= |Last(tr).workers[k].pc.batch| <= c.batchSize
  {
    RunKeepsInv(c, acts, tr, |acts|);
    assert WorkerOk(c, Last(tr).sh.cancelled, Last(tr).workers[k]);
  }

  // Runs that nobody cancelled and in which no task failed

  lemma CleanWorkerDispatched(c: Config, w: Worker, o: S3Object)
    requires WorkerOk(c, false, w) && w.pc.Done? && w.buffer == []
    ensures w.drawn == w.dispatched == w.forwarded
    ensures multiset(w.dispatched)[o] == if c.Wants(o) then multiset(w.received)[o] else 0
  {
    WhereCount(c.Wants, w.received, o);
  }

  /** At the end of a clean run every stage has worked through its whole input. */
  lemma {:induction false} CleanChannels(c: Config, s: State, k: nat)
    requires StagesOk(c, s) && CleanOk(c, s) && Clean(c, s.sh)
    requires k <= |s.stages| && SendersGone(s, k)
    ensures s.chans[k].sent == Chain(c.filters[..k], c.listing)
  {
    if k > 0 {
      assert CleanStage(s, k - 1);
      CleanChannels(c, s, k - 1);
      assert StageOk(c.filters[k - 1], s.stages[k - 1], s.chans[k - 1], s.chans[k]);
      assert s.chans[k - 1].sent[..s.stages[k - 1].done] == s.chans[k - 1].sent;
      assert Front(c.filters[..k]) == c.filters[..k - 1];
    }
  }

  lemma CleanPool(c: Config, s: State)
    requires StagesOk(c, s) && CleanOk(c, s) && Clean(c, s.sh) && AllDone(s)
    ensures Last(s.chans).Received() == Chain(c.filters, c.listing)
  {
    assert s.workers[0].pc.Done? && CleanWorker(s, s.workers[0]);
    CleanChannels(c, s, |s.stages|);
    assert c.filters[..|c.filters|] == c.filters;
  }

  predicate PicksAll(c: Config, w: Worker, o: S3Object) {
    && Read(Dispatched(o), w) == Due(c, w, o)
    && Read(Forwarded(o), w) == Due(c, w, o)
  }

  lemma DispatchedIsForwarded(c: Config, ws: seq<Worker>, o: S3Object)
    requires forall k :: 0 <= k < |ws| ==> PicksAll(c, ws[k], o)
    ensures Tally(ws, Dispatched(o)) == Tally(ws, Forwarded(o))
  {
    forall k | 0 <= k < |ws| ensures Read(Dispatched(o), ws[k]) == Read(Forwarded(o), ws[k]) {
      assert PicksAll(c, ws[k], o);
    }
    TallyEqual(ws, Dispatched(o), Forwarded(o));
  }

  lemma WantedIsDispatched(c: Config, ws: seq<Worker>, o: S3Object)
    requires forall k :: 0 <= k < |ws| ==> PicksAll(c, ws[k], o)
    requires c.Wants(o)
    ensures Tally(ws, Dispatched(o)) == Tally(ws, Received(o))
  {
    forall k | 0 <= k < |ws| ensures Read(Dispatched(o), ws[k]) == Read(Received(o), ws[k]) {
      assert PicksAll(c, ws[k], o);
    }
    TallyEqual(ws, Dispatched(o), Received(o));
  }

  lemma UnwantedIsNotDispatched(c: Config, ws: seq<Worker>, o: S3Object)
    requires forall k :: 0 <= k < |ws| ==> PicksAll(c, ws[k], o)
    requires !c.Wants(o)
    ensures Tally(ws, Dispatched(o)) <= 0
  {
    forall k | 0 <= k < |ws| ensures Read(Dispatched(o), ws[k]) <= 0 {
      assert PicksAll(c, ws[k], o);
    }
    TallyAtMost(ws, Dispatched(o), 0);
  }

  lemma TallyEqual(ws: seq<Worker>, m: Meter, n: Meter)
    requires forall k :: 0 <= k < |ws| ==> Read(m, ws[k]) == Read(n, ws[k])
    ensures Tally(ws, m) == Tally(ws, n)
  {
    TallyMonotone(ws, m, n);
    TallyMonotone(ws, n, m);
  }

  predicate Finished(c: Config, w: Worker) {
    WorkerOk(c, false, w) && w.pc.Done? && w.buffer == []
  }

  lemma CleanWorkers(c: Config, s: State)
    requires Shape(c, s) && WorkersOk(c, s) && CleanOk(c, s) && Clean(c, s.sh) && AllDone(s)
    ensures forall k :: 0 <= k < |s.workers| ==> Finished(c, s.workers[k])
  {
    forall k | 0 <= k < |s.workers| ensures Finished(c, s.workers[k]) {
      assert CleanWorker(s, s.workers[k]);
    }
  }

  lemma CleanWorkerPicks(c: Config, w: Worker, o: S3Object)
    requires Finished(c, w)
    ensures PicksAll(c, w, o)
  {
    CleanWorkerDispatched(c, w, o);
  }

  lemma CleanWorkersPick(c: Config, ws: seq<Worker>, o: S3Object)
    requires forall k :: 0 <= k < |ws| ==> Finished(c, ws[k])
    ensures forall k :: 0 <= k < |ws| ==> PicksAll(c, ws[k], o)
  {
    forall k | 0 <= k < |ws| ensures PicksAll(c, ws[k], o) {
      CleanWorkerPicks(c, ws[k], o);
    }
  }

  lemma CleanHanded(c: Config, s: State, o: S3Object)
    requires StagesOk(c, s) && WorkersOk(c, s) && SumsOk(c, s) && CleanOk(c, s) && Clean(c, s.sh) && AllDone(s)
    ensures Handed(s.workers)[o] == multiset(c.Selected())[o]
    ensures Handed(s.workers)[o] == multiset(s.out.sent)[o]
  {
    CleanWorkers(c, s);
    CleanWorkersPick(c, s.workers, o);
    HandedCount(s.workers, o);
    DispatchedIsForwarded(c, s.workers, o);
    if c.Wants(o) {
      WantedIsDispatched(c, s.workers, o);
    } else {
      UnwantedIsNotDispatched(c, s.workers, o);
    }
    CleanPool(c, s);
    WhereCount(c.Wants, Chain(c.filters, c.listing), o);
    assert Tally(s.workers, Received(o)) == multiset(Last(s.chans).Received())[o];
    assert Tally(s.workers, Forwarded(o)) == multiset(s.out.sent)[o];
  }

  /** A clean run hands exactly the selected entries to deletion, each as often as it was listed, and sends each
      of them on to the terminator exactly once, whatever the schedule, the queue size, the batch size and the
      number of workers. */
  lemma CleanRunDeletesTheSelection(c: Config, acts: seq<Action>, tr: seq<State>)
    requires c.WellFormed() && Run(c, acts, tr)
    requires Final(Last(tr)) && Clean(c, Last(tr).sh)
    ensures Handed(Last(tr).workers) == multiset(c.Selected())
    ensures multiset(Last(tr).out.sent) == multiset(c.Selected()) && Last(tr).out.Waiting() == 0
  {
    var s := Last(tr);
    RunKeepsInv(c, acts, tr, |acts|);
    forall o
      ensures Handed(s.workers)[o] == multiset(c.Selected())[o]
      ensures Handed(s.workers)[o] == multiset(s.out.sent)[o]
    {
      CleanHanded(c, s, o);
    }
    assert Handed(s.workers) == multiset(c.Selected());
    assert Handed(s.workers) == multiset(s.out.sent);
  }

  /** The same entries listed in another order, by another number of workers, with other queues and batches, even
      with another limit that also is not reached: clean runs hand over the same entries. */
  lemma ResultIgnoresTheSchedule(c: Config, acts: seq<Action>, tr: seq<State>, d: Config, bcts: seq<Action>, ur: seq<State>)
    requires c.WellFormed() && Run(c, acts, tr) && Final(Last(tr)) && Clean(c, Last(tr).sh)
    requires d.WellFormed() && Run(d, bcts, ur) && Final(Last(ur)) && Clean(d, Last(ur).sh)
    requires c.filters == d.filters && Stateless(c.filters) && c.attribute == d.attribute
    requires multiset(c.listing) == multiset(d.listing)
    ensures Handed(Last(tr).workers) == Handed(Last(ur).workers)
  {
    CleanRunDeletesTheSelection(c, acts, tr);
    CleanRunDeletesTheSelection(d, bcts, ur);
    var all := o => PassesAll(c.filters, o);
    ChainIsConjunction(c.filters, c.listing);
    ChainIsConjunction(d.filters, d.listing);
    WhereIgnoresOrder(all, c.listing, d.listing);
    WhereIgnoresOrder(c.Wants, Where(all, c.listing), Where(all, d.listing));
    WhereIgnoresOrder(d.Wants, Where(all, c.listing), Where(all, d.listing));
    forall o: S3Object ensures c.Wants(o) == d.Wants(o) {
    }
    WhereSame(c.Wants, d.Wants, Where(all, d.listing));
  }

  lemma CleanCounts(c: Config, w: Worker)
    requires Finished(c, w) && w.lost == 0 && w.broken == 0
    ensures |w.received| == w.skipped + w.answered
    ensures |w.dispatched| == w.answered
  {
  }

  lemma {:induction false} CasualtiesSum(ws: seq<Worker>)
    ensures Tally(ws, Casualties) >= 0
  {
    if ws != [] {
      CasualtiesSum(Front(ws));
    }
  }

  function ReceivedCount(ws: seq<Worker>): nat {
    if ws == [] then 0 else ReceivedCount(Front(ws)) + |Last(ws).received|
  }

  lemma {:induction false} CleanTotals(c: Config, ws: seq<Worker>)
    requires forall k :: 0 <= k < |ws| ==> Finished(c, ws[k])
    requires Tally(ws, Casualties) == 0
    ensures ReceivedCount(ws) == Tally(ws, Skipped) + Tally(ws, Answered)
    ensures Tally(ws, Dispatches) == Tally(ws, Answered)
  {
    hide Finished;
    if ws != [] {
      assert forall k :: 0 <= k < |ws| - 1 ==> Front(ws)[k] == ws[k];
      assert Finished(c, ws[|ws| - 1]);
      CasualtiesSum(Front(ws));
      CleanTotals(c, Front(ws));
      CleanCounts(c, Last(ws));
    }
  }

  /** At the end of a clean run, entries received by the workers = deleted + failed + skipped. */
  lemma CleanRunAccountsForEveryEntry(c: Config, acts: seq<Action>, tr: seq<State>)
    requires c.WellFormed() && Run(c, acts, tr)
    requires Final(Last(tr)) && Clean(c, Last(tr).sh)
    ensures ReceivedCount(Last(tr).workers) == Last(tr).sh.deleted + Last(tr).sh.failed + Last(tr).sh.skips
    ensures |c.Selected()| == Last(tr).sh.deleted + Last(tr).sh.failed
  {
    var s := Last(tr);
    RunKeepsInv(c, acts, tr, |acts|);
    CleanWorkers(c, s);
    CleanTotals(c, s.workers);
    CleanRunDeletesTheSelection(c, acts, tr);
    HandedSize(s.workers);
    assert |multiset(c.Selected())| == |c.Selected()|;
  }
}
