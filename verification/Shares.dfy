/** The statistics report of a run. Each worker enters what it counts as deleted; together the entries are those whose
    deletion was announced, and the sizes add up to the bytes of the event statistics. */
module Shares {
  import opened Objects
  import opened Network
  import opened StageSafety
  import opened RunSafety
  import opened Events
  import opened Reports
  import opened Announcements
  import opened WorkerTrail
  import opened Interference

  function Deletes(ch: Choice): seq<S3Object> {
    if ch.Answer? then ch.deleted else []
  }

  /** What one worker counts as deleted in the course of a run. */
  function Share(acts: seq<Action>, k: nat): seq<S3Object> {
    if acts == [] then []
    else Share(Front(acts), k) + if IsOfWorker(Last(acts), k) then Deletes(Last(acts).choice) else []
  }

  /** What all workers together count as deleted, in the order of their reports. */
  function AllShares(acts: seq<Action>): seq<S3Object> {
    if acts == [] then [] else AllShares(Front(acts)) + if Last(acts).OfWorker? then Deletes(Last(acts).choice) else []
  }

  lemma {:induction false} CompletionsAppend(a: seq<Event>, b: seq<Event>)
    ensures Completions(a + b) == Completions(a) + Completions(b)
  {
    if b == [] {
      assert a + b == a;
    } else {
      assert Front(a + b) == a + Front(b);
      CompletionsAppend(a, Front(b));
    }
  }

  lemma {:induction false} AnnouncedCompletions(os: seq<S3Object>, ok: bool)
    ensures Completions(Announce(os, ok)) == if ok then os else []
  {
    if os != [] {
      AnnouncedCompletions(Front(os), ok);
      var e := if ok then Completed(Last(os)) else Failed(Last(os));
      assert Front(Announce(os, ok)) == Announce(Front(os), ok) && Last(Announce(os, ok)) == e;
      assert os == Front(os) + [Last(os)];
    }
  }

  lemma OneCompletion(e: Event)
    requires !e.Completed?
    ensures Completions([e]) == []
  {
    assert Front([e]) == [];
  }

  lemma AnswerCompletes(c: Config, v: View, batch: seq<S3Object>, k: Cont, deleted: seq<S3Object>, failed: seq<S3Object>)
    ensures Completions(AnswerStep(c, v, batch, k, deleted, failed).sh.log) == Completions(v.sh.log) + deleted
  {
    AnnouncedCompletions(deleted, true);
    AnnouncedCompletions(failed, false);
    CompletionsAppend(v.sh.log, Announce(deleted, true));
    CompletionsAppend(v.sh.log + Announce(deleted, true), Announce(failed, false));
  }

  lemma ProcessCompletes(c: Config, v: View, o: S3Object)
    ensures Completions(ProcessStep(c, v, o).sh.log) == Completions(v.sh.log)
  {
    var es := if c.attribute(o).Filtered? && c.observed then [FilteredOut(o)] else [];
    CompletionsAppend(v.sh.log, es);
    OneCompletion(FilteredOut(o));
  }

  lemma TripCompletes(v: View, o: S3Object)
    ensures Completions(TripStep(v, o).sh.log) == Completions(v.sh.log)
  {
    CompletionsAppend(v.sh.log, [Failed(o)]);
    OneCompletion(Failed(o));
  }

  lemma WorkerCompletes(c: Config, v: View, inClosed: bool, ch: Choice)
    requires v.inp.taken <= |v.inp.sent| && WorkerEnabled(c, v, inClosed, false, ch)
    ensures Completions(WorkerStep(c, v, false, ch).sh.log) == Completions(v.sh.log) + Deletes(ch)
  {
    match v.w.pc
    case Process(o) => ProcessCompletes(c, v, o);
    case InFlight(batch, k) =>
      if ch.Answer? {
        AnswerCompletes(c, v, batch, k, ch.deleted, ch.failed);
      }
    case Trip(o) => TripCompletes(v, o);
    case Admit(o) => assert AdmitStep(c, v, o).sh.log == v.sh.log;
    case _ =>
  }

  lemma QuietCompletes(log: seq<Event>, es: seq<Event>)
    requires |es| <= 1 && forall e :: e in es ==> !e.Completed?
    ensures Completions(log + es) == Completions(log)
  {
    CompletionsAppend(log, es);
    if es != [] {
      OneCompletion(es[0]);
      assert es == [es[0]];
    }
  }

  lemma ActionCompletes(c: Config, s: State, a: Action)
    requires Shape(c, s) && MainOk(c, s) && Enabled(c, s, a)
    ensures Completions(Apply(c, s, a).sh.log) == Completions(s.sh.log) + if a.OfWorker? then Deletes(a.choice) else []
  {
    match a
    case OfWorker(k, ch) =>
      assert !s.drained;
      WorkerCompletes(c, ViewOfWorker(s, k), SendersGone(s, |s.stages|), ch);
    case OfStage(k, ch) =>
      var v := ViewOfStage(s, k);
      StageShares(c, c.filters[k], v, ReceiversGone(s, k), ch);
      QuietCompletes(s.sh.log, StageEvents(c, c.filters[k], v, ch));
    case OfMain => QuietCompletes(s.sh.log, MainEvents(c, s.main, s.sh));
    case _ =>
  }

  lemma {:induction false} SharesAreCompletions(c: Config, acts: seq<Action>, tr: seq<State>, n: nat)
    requires c.WellFormed() && Run(c, acts, tr) && n < |tr|
    ensures AllShares(acts[..n]) == Completions(tr[n].sh.log)
  {
    if n == 0 {
      OneCompletion(Started);
    } else {
      SharesAreCompletions(c, acts, tr, n - 1);
      MainIsOk(c, acts, tr, n - 1);
      assert Takes(c, tr[n - 1], acts[n - 1], tr[n]);
      ActionCompletes(c, tr[n - 1], acts[n - 1]);
      NextAction(acts, n - 1);
    }
  }

  // The sum over the workers

  /** The entries and the bytes in the reports of the first `n` workers. */
  function SumOfCounts(acts: seq<Action>, n: nat): nat {
    if n == 0 then 0 else SumOfCounts(acts, n - 1) + |Share(acts, n - 1)|
  }

  function SumOfBytes(acts: seq<Action>, n: nat): nat {
    if n == 0 then 0 else SumOfBytes(acts, n - 1) + TotalSize(Share(acts, n - 1))
  }

  lemma {:induction false} TotalSizeAppend(a: seq<S3Object>, b: seq<S3Object>)
    ensures TotalSize(a + b) == TotalSize(a) + TotalSize(b)
  {
    if b == [] {
      assert a + b == a;
    } else {
      assert Front(a + b) == a + Front(b);
      TotalSizeAppend(a, Front(b));
    }
  }

  /** One more action counts in one share. */
  lemma {:induction false} SumNext(acts: seq<Action>, n: nat)
    requires acts != []
    ensures
      var more := if Last(acts).OfWorker? && Last(acts).worker < n then Deletes(Last(acts).choice) else [];
      && SumOfCounts(acts, n) == SumOfCounts(Front(acts), n) + |more|
      && SumOfBytes(acts, n) == SumOfBytes(Front(acts), n) + TotalSize(more)
  {
    if n > 0 {
      SumNext(acts, n - 1);
      TotalSizeAppend(Share(Front(acts), n - 1), if IsOfWorker(Last(acts), n - 1) then Deletes(Last(acts).choice) else []);
    }
  }

  lemma {:induction false} NothingShared(n: nat)
    ensures SumOfCounts([], n) == 0 && SumOfBytes([], n) == 0
  {
    if n > 0 {
      NothingShared(n - 1);
    }
  }

  lemma {:induction false} SumIsAll(acts: seq<Action>, n: nat)
    requires forall i :: 0 <= i < |acts| && acts[i].OfWorker? ==> acts[i].worker < n
    ensures SumOfCounts(acts, n) == |AllShares(acts)| && SumOfBytes(acts, n) == TotalSize(AllShares(acts))
  {
    if acts == [] {
      NothingShared(n);
    } else {
      SumIsAll(Front(acts), n);
      SumNext(acts, n);
      assert acts[|acts| - 1] == Last(acts);
      TotalSizeAppend(AllShares(Front(acts)), if Last(acts).OfWorker? then Deletes(Last(acts).choice) else []);
    }
  }

  lemma ActorsExist(c: Config, acts: seq<Action>, tr: seq<State>, n: nat)
    requires Run(c, acts, tr) && n < |acts| && acts[n].OfWorker?
    ensures acts[n].worker < c.workers
  {
    assert Takes(c, tr[n], acts[n], tr[n + 1]);
  }

  /** In every state the entries in the reports of all workers are those whose deletion has been announced, and the
      bytes are the bytes of the event statistics. */
  lemma SharesAddUp(c: Config, acts: seq<Action>, tr: seq<State>)
    requires c.WellFormed() && Run(c, acts, tr)
    ensures SumOfCounts(acts, c.workers) == Last(tr).sh.deleted
    ensures SumOfBytes(acts, c.workers) == TotalSize(Completions(Last(tr).sh.log)) == Tally(Triggers(Last(tr).sh.log)).bytes
  {
    forall i | 0 <= i < |acts| && acts[i].OfWorker? ensures acts[i].worker < c.workers {
      ActorsExist(c, acts, tr, i);
    }
    SumIsAll(acts, c.workers);
    SharesAreCompletions(c, acts, tr, |acts|);
    assert acts[..|acts|] == acts;
    CountsAreOk(c, acts, tr, |acts|);
    CompletionCount(Last(tr).sh.log);
    BytesOfCompletions(Last(tr).sh.log);
  }

  lemma {:induction false} CompletionCount(log: seq<Event>)
    ensures |Completions(log)| == Completes(log)
  {
    if log != [] {
      CompletionCount(Front(log));
    }
  }

  /** The share of a worker is what its trail counts as deleted, which is what its loop leaves in the report. */
  lemma {:induction false} ShareIsReported(path: seq<Turn>, acts: seq<Action>, k: nat)
    requires ChoicesIn(path) == ChoicesOf(acts, k)
    requires forall i :: 0 <= i < |path| && path[i].choice.Answer? ==> path[i].before.w.pc.InFlight?
    ensures ReportedBy(path) == Share(acts, k)
  {
    if acts != [] {
      if IsOfWorker(Last(acts), k) {
        assert ChoicesIn(path) == ChoicesOf(Front(acts), k) + [Last(acts).choice];
        assert path != [] && Front(ChoicesIn(path)) == ChoicesIn(Front(path)) && Last(ChoicesIn(path)) == Last(path).choice;
        assert ChoicesIn(Front(path)) == ChoicesOf(Front(acts), k) && Last(path).choice == Last(acts).choice;
        assert path[|path| - 1] == Last(path);
        assert forall i :: 0 <= i < |path| - 1 ==> Front(path)[i] == path[i];
        ShareIsReported(Front(path), Front(acts), k);
      } else {
        assert ChoicesOf(Front(acts), k) + [] == ChoicesOf(Front(acts), k);
        ShareIsReported(path, Front(acts), k);
      }
    }
  }

  /** So every worker of a run has a trail, and what its loop enters in its report along it is its share. */
  lemma WorkerReportsItsShare(c: Config, acts: seq<Action>, tr: seq<State>, k: nat) returns (path: seq<Turn>)
    requires c.WellFormed() && Run(c, acts, tr) && k < c.workers
    ensures |Last(tr).workers| == c.workers
    ensures Trail(c, path, Last(tr).workers[k], Last(tr).sh.cancelled) && NeverClosed(path)
    ensures ReportedBy(path) == Share(acts, k)
  {
    path := RunIsTrail(c, acts, tr, |acts|, k);
    assert acts[..|acts|] == acts;
    forall i | 0 <= i < |path| && path[i].choice.Answer? ensures path[i].before.w.pc.InFlight? {
      TrailSteps(c, path, Last(tr).workers[k], Last(tr).sh.cancelled, i);
    }
    ShareIsReported(path, acts, k);
  }
}
