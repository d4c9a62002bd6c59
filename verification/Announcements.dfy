/** The events about single entries: in a clean run every selected entry is announced exactly once, as deleted or as
    failed, and the reported bytes are the sizes of the deleted ones. */
module Announcements {
  import opened Objects
  import opened Network
  import opened StageSafety
  import opened RunSafety
  import opened Guarantees
  import opened Events
  import opened Reports

  function Completions(log: seq<Event>): seq<S3Object> {
    if log == [] then [] else Completions(Front(log)) + if Last(log).Completed? then [Last(log).o] else []
  }

  function Losses(log: seq<Event>): seq<S3Object> {
    if log == [] then [] else Losses(Front(log)) + if Last(log).Failed? then [Last(log).o] else []
  }

  function Announced(log: seq<Event>, o: S3Object): nat {
    multiset(Completions(log))[o] + multiset(Losses(log))[o]
  }

  lemma AnnouncedNext(log: seq<Event>, e: Event, o: S3Object)
    ensures Announced(log + [e], o) == Announced(log, o) + if e == Completed(o) || e == Failed(o) then 1 else 0
  {
    assert Front(log + [e]) == log;
  }

  predicate Silent(es: seq<Event>) {
    forall k :: 0 <= k < |es| ==> !es[k].Completed? && !es[k].Failed?
  }

  lemma {:induction false} AnnouncedSilently(log: seq<Event>, es: seq<Event>, o: S3Object)
    requires Silent(es)
    ensures Announced(log + es, o) == Announced(log, o)
  {
    hide Announced;
    if es == [] {
      assert log + es == log;
    } else {
      assert es[|es| - 1] == Last(es);
      assert forall k :: 0 <= k < |es| - 1 ==> Front(es)[k] == es[k];
      AnnouncedSilently(log, Front(es), o);
      AnnouncedNext(log + Front(es), Last(es), o);
      assert log + es == log + Front(es) + [Last(es)];
    }
  }

  lemma CountNext(os: seq<S3Object>, o: S3Object)
    requires os != []
    ensures multiset(os)[o] == multiset(Front(os))[o] + if Last(os) == o then 1 else 0
  {
    assert os == Front(os) + [Last(os)];
  }

  lemma {:induction false} AnnouncedReport(log: seq<Event>, os: seq<S3Object>, ok: bool, o: S3Object)
    ensures Announced(log + Announce(os, ok), o) == Announced(log, o) + multiset(os)[o]
  {
    if os == [] {
      assert log + [] == log;
    } else {
      AnnouncedReport(log, Front(os), ok, o);
      var e := if ok then Completed(Last(os)) else Failed(Last(os));
      var most := Announce(Front(os), ok);
      assert Announce(os, ok) == most + [e];
      AnnouncedNext(log + most, e, o);
      AppendAssociative(log, most, [e]);
      CountNext(os, o);
    }
  }

  /** How often the worker has handed over `o` and got an answer. */
  function Settled(w: Worker, o: S3Object): int {
    var all: int, open: int := multiset(w.dispatched)[o], if w.pc.InFlight? then multiset(w.pc.batch)[o] else 0;
    all - open
  }

  function AllSettled(ws: seq<Worker>, o: S3Object): int {
    if ws == [] then 0 else AllSettled(Front(ws), o) + Settled(Last(ws), o)
  }

  lemma {:induction false} SettledUpdate(ws: seq<Worker>, k: nat, w: Worker, o: S3Object)
    requires k < |ws|
    ensures AllSettled(ws[k := w], o) == AllSettled(ws, o) - Settled(ws[k], o) + Settled(w, o)
  {
    if k == |ws| - 1 {
      assert Front(ws[k := w]) == Front(ws);
    } else {
      assert Front(ws[k := w]) == Front(ws)[k := w];
      SettledUpdate(Front(ws), k, w, o);
    }
  }

  /** As many announcements as answers. */
  predicate Balanced(v: View, r: View, o: S3Object) {
    Announced(r.sh.log, o) - Announced(v.sh.log, o) == Settled(r.w, o) - Settled(v.w, o)
  }

  lemma AnswerBalances(c: Config, v: View, batch: seq<S3Object>, k: Cont, deleted: seq<S3Object>, failed: seq<S3Object>, o: S3Object)
    requires v.w.pc == InFlight(batch, k) && multiset(deleted) + multiset(failed) == multiset(batch)
    ensures Balanced(v, AnswerStep(c, v, batch, k, deleted, failed), o)
  {
    AnnouncedReport(v.sh.log, deleted, true, o);
    AnnouncedReport(v.sh.log + Announce(deleted, true), failed, false, o);
    assert multiset(batch)[o] == multiset(deleted)[o] + multiset(failed)[o];
  }

  lemma ProcessBalances(c: Config, v: View, x: S3Object, o: S3Object)
    requires v.w.pc == Process(x)
    ensures Balanced(v, ProcessStep(c, v, x), o)
  {
    AnnouncedSilently(v.sh.log, if c.attribute(x).Filtered? && c.observed then [FilteredOut(x)] else [], o);
  }

  lemma DispatchBalances(c: Config, v: View, batch: seq<S3Object>, k: Cont, o: S3Object)
    requires v.w.pc == Dispatch(batch, k)
    ensures Balanced(v, DispatchStep(c, v, batch, k), o)
  {
    assert multiset(v.w.dispatched + batch)[o] == multiset(v.w.dispatched)[o] + multiset(batch)[o];
  }

  lemma OtherStepBalances(c: Config, v: View, ch: Choice, o: S3Object)
    requires v.inp.taken <= |v.inp.sent|
    requires !v.w.pc.Process? && !v.w.pc.Dispatch? && !v.w.pc.InFlight? && !v.w.pc.Trip?
    ensures Balanced(v, WorkerStep(c, v, false, ch), o)
  {
    var r := WorkerStep(c, v, false, ch);
    assert r.sh.log == v.sh.log && r.w.dispatched == v.w.dispatched && !r.w.pc.InFlight?;
  }

  lemma WorkerBalances(c: Config, v: View, inClosed: bool, ch: Choice, o: S3Object)
    requires v.inp.taken <= |v.inp.sent| && WorkerEnabled(c, v, inClosed, false, ch)
    requires Clean(c, WorkerStep(c, v, false, ch).sh)
    ensures Balanced(v, WorkerStep(c, v, false, ch), o)
  {
    if v.w.pc.Process? {
      ProcessBalances(c, v, v.w.pc.o, o);
    } else if v.w.pc.Dispatch? {
      DispatchBalances(c, v, v.w.pc.batch, v.w.pc.k, o);
    } else if v.w.pc.InFlight? {
      AnswerBalances(c, v, v.w.pc.batch, v.w.pc.k, ch.deleted, ch.failed, o);
    } else {
      OtherStepBalances(c, v, ch, o);
    }
  }

  ghost predicate AllBalanced(c: Config, s: State) {
    Clean(c, s.sh) ==> forall o :: Announced(s.sh.log, o) == AllSettled(s.workers, o)
  }

  lemma WorkerKeepsBalance(c: Config, s: State, k: nat, ch: Choice)
    requires Shape(c, s) && AllBalanced(c, s) && !s.drained
    requires Enabled(c, s, OfWorker(k, ch))
    ensures AllBalanced(c, Apply(c, s, OfWorker(k, ch)))
  {
    var v := ViewOfWorker(s, k);
    var r := WorkerStep(c, v, false, ch);
    if Clean(c, r.sh) {
      FaultsStay(c, v, ch);
      forall o ensures Announced(r.sh.log, o) == AllSettled(s.workers[k := r.w], o) {
        WorkerBalances(c, v, SendersGone(s, |s.stages|), ch, o);
        SettledUpdate(s.workers, k, r.w, o);
      }
    }
  }

  lemma StageKeepsBalance(c: Config, s: State, k: nat, ch: Choice)
    requires Shape(c, s) && AllBalanced(c, s)
    requires Enabled(c, s, OfStage(k, ch))
    ensures AllBalanced(c, Apply(c, s, OfStage(k, ch)))
  {
    var v := ViewOfStage(s, k);
    var sh := StageShared(c, c.filters[k], v, ch);
    StageShares(c, c.filters[k], v, ReceiversGone(s, k), ch);
    forall o ensures Announced(sh.log, o) == Announced(s.sh.log, o) {
      AnnouncedSilently(s.sh.log, StageEvents(c, c.filters[k], v, ch), o);
    }
  }

  lemma MainKeepsBalance(c: Config, s: State)
    requires AllBalanced(c, s) && MainEnabled(s)
    ensures AllBalanced(c, MainStep(c, s))
  {
    forall o ensures Announced(MainStep(c, s).sh.log, o) == Announced(s.sh.log, o) {
      AnnouncedSilently(s.sh.log, MainEvents(c, s.main, s.sh), o);
    }
  }

  lemma ActionKeepsBalance(c: Config, s: State, a: Action)
    requires Shape(c, s) && MainOk(c, s) && AllBalanced(c, s) && Enabled(c, s, a)
    ensures AllBalanced(c, Apply(c, s, a))
  {
    match a
    case OfWorker(k, ch) =>
      assert !s.drained;
      WorkerKeepsBalance(c, s, k, ch);
    case OfStage(k, ch) => StageKeepsBalance(c, s, k, ch);
    case OfMain => MainKeepsBalance(c, s);
    case _ =>
  }

  lemma {:induction false} IdleSettled(n: nat, o: S3Object)
    ensures AllSettled(seq(n, _ => IDLE), o) == 0
  {
    if n > 0 {
      assert Front(seq(n, _ => IDLE)) == seq(n - 1, _ => IDLE);
      IdleSettled(n - 1, o);
    }
  }

  lemma {:induction false} RunKeepsBalance(c: Config, acts: seq<Action>, tr: seq<State>, k: nat)
    requires c.WellFormed() && Run(c, acts, tr) && k < |tr|
    ensures AllBalanced(c, tr[k])
  {
    if k == 0 {
      forall o ensures AllSettled(tr[0].workers, o) == 0 {
        IdleSettled(c.workers, o);
      }
      assert Front([Started]) == [];
    } else {
      RunKeepsBalance(c, acts, tr, k - 1);
      MainIsOk(c, acts, tr, k - 1);
      assert Takes(c, tr[k - 1], acts[k - 1], tr[k]);
      ActionKeepsBalance(c, tr[k - 1], acts[k - 1]);
    }
  }

  lemma {:induction false} DoneIsSettled(ws: seq<Worker>, o: S3Object)
    requires forall k :: 0 <= k < |ws| ==> ws[k].pc.Done?
    ensures AllSettled(ws, o) == Handed(ws)[o]
  {
    if ws != [] {
      assert forall k :: 0 <= k < |ws| - 1 ==> Front(ws)[k] == ws[k];
      assert ws[|ws| - 1].pc.Done?;
      DoneIsSettled(Front(ws), o);
    }
  }

  lemma AllAnnounced(c: Config, s: State)
    requires AllBalanced(c, s) && Clean(c, s.sh) && AllDone(s)
    ensures multiset(Completions(s.sh.log)) + multiset(Losses(s.sh.log)) == Handed(s.workers)
  {
    var both := multiset(Completions(s.sh.log)) + multiset(Losses(s.sh.log));
    forall o ensures both[o] == Handed(s.workers)[o] {
      DoneIsSettled(s.workers, o);
      assert both[o] == Announced(s.sh.log, o);
    }
  }

  /** At the end of a clean run the entries announced as deleted and those announced as failed together are the
      selected entries, each as often as it was listed; and the bytes of the statistics report are the sizes of
      the deleted ones. */
  lemma CleanRunAnnouncesTheSelection(c: Config, acts: seq<Action>, tr: seq<State>)
    requires c.WellFormed() && Run(c, acts, tr)
    requires Final(Last(tr)) && Clean(c, Last(tr).sh)
    ensures
      var log := Last(tr).sh.log;
      && multiset(Completions(log)) + multiset(Losses(log)) == multiset(c.Selected())
      && Tally(Triggers(log)).bytes == TotalSize(Completions(log))
  {
    RunKeepsBalance(c, acts, tr, |acts|);
    CleanRunDeletesTheSelection(c, acts, tr);
    AllAnnounced(c, Last(tr));
    BytesOfCompletions(Last(tr).sh.log);
  }

  lemma BytesNext(es: seq<EventData>, e: EventData)
    ensures Bytes(es + [e]) == Bytes(es) + SizeOf(e)
  {
    assert Front(es + [e]) == es;
  }

  lemma {:induction false} BytesOfCompletions(log: seq<Event>)
    ensures Bytes(Triggers(log)) == TotalSize(Completions(log))
  {
    if log != [] {
      var front, last := Front(log), Last(log);
      BytesOfCompletions(front);
      BytesNext(Triggers(front), DataOf(last));
      if last.Completed? {
        TotalSizeStep(Completions(front), last.o);
      } else {
        assert Completions(log) == Completions(front);
        assert last.Stats? ==> Triggers(log) == Triggers(front);
      }
    }
  }
}
