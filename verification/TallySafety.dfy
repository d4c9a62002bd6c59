/** Totals over all workers, and how they tie to the shared counters, the event log and the two channels the
    workers use. */
module TallySafety {
  import opened Objects
  import opened Filters
  import opened Network
  import opened StageSafety
  import opened WorkerSafety

  datatype Meter =
    | Drawn | Refused | Tripped | Answered | Skipped | Casualties | InHands | Undecideds
    | Received(o: S3Object) | Forwarded(o: S3Object) | Dispatched(o: S3Object) | Dispatches | Admissions
    | LateReceipts | LateCalls | LateObjects

  function Read(m: Meter, w: Worker): int {
    match m
    case Drawn => |w.drawn|
    case Refused => |w.refused|
    case Tripped => if Tripping(w.pc) then 1 else 0
    case Answered => w.answered
    case Skipped => w.skipped
    case Casualties => w.lost + w.broken
    case InHands => InHand(w.pc)
    case Undecideds => Undecided(w.pc)
    case Received(o) => multiset(w.received)[o]
    case Forwarded(o) => multiset(w.forwarded)[o]
    case Dispatched(o) => multiset(w.dispatched)[o]
    case Dispatches => |w.dispatched|
    case Admissions => |w.admitted|
    case LateReceipts => w.lateReceived
    case LateCalls => w.lateCalls
    case LateObjects => w.lateObjects
  }

  function Tally(ws: seq<Worker>, m: Meter): int {
    if ws == [] then 0 else Tally(Front(ws), m) + Read(m, Last(ws))
  }

  lemma {:induction false} TallyUpdate(ws: seq<Worker>, k: nat, w: Worker, m: Meter)
    requires k < |ws|
    ensures Tally(ws[k := w], m) == Tally(ws, m) - Read(m, ws[k]) + Read(m, w)
  {
    if k == |ws| - 1 {
      assert Front(ws[k := w]) == Front(ws);
    } else {
      assert Front(ws[k := w]) == Front(ws)[k := w];
      TallyUpdate(Front(ws), k, w, m);
    }
  }

  function Sum(xs: seq<int>): int {
    if xs == [] then 0 else Sum(Front(xs)) + Last(xs)
  }

  function Readings(ws: seq<Worker>, m: Meter): (xs: seq<int>)
    ensures |xs| == |ws|
    ensures forall k :: 0 <= k < |ws| ==> xs[k] == Read(m, ws[k])
  {
    seq(|ws|, k requires 0 <= k < |ws| => Read(m, ws[k]))
  }

  lemma {:induction false} TallyIsSum(ws: seq<Worker>, m: Meter)
    ensures Tally(ws, m) == Sum(Readings(ws, m))
  {
    if ws != [] {
      TallyIsSum(Front(ws), m);
      assert Front(Readings(ws, m)) == Readings(Front(ws), m);
    }
  }

  lemma {:induction false} SumAtMost(xs: seq<int>, ys: seq<int>, bound: int)
    requires |xs| == |ys| && forall k :: 0 <= k < |xs| ==> xs[k] <= ys[k] + bound
    ensures Sum(xs) <= Sum(ys) + |xs| * bound
  {
    if xs != [] {
      SumAtMost(Front(xs), Front(ys), bound);
      assert |xs| * bound == (|xs| - 1) * bound + bound;
    }
  }

  lemma {:induction false} SumAdds(xs: seq<int>, ys: seq<int>, zs: seq<int>)
    requires |xs| == |ys| == |zs| && forall k :: 0 <= k < |xs| ==> xs[k] == ys[k] + zs[k]
    ensures Sum(xs) == Sum(ys) + Sum(zs)
  {
    if xs != [] {
      SumAdds(Front(xs), Front(ys), Front(zs));
    }
  }

  lemma {:induction false} SumOfZeros(n: nat)
    ensures Sum(seq(n, _ => 0)) == 0
  {
    if n > 0 {
      assert Front(seq(n, _ => 0)) == seq(n - 1, _ => 0);
      SumOfZeros(n - 1);
    }
  }

  /** A pointwise bound is a bound of the totals. */
  lemma TallyAtMost(ws: seq<Worker>, m: Meter, bound: nat)
    requires forall k :: 0 <= k < |ws| ==> Read(m, ws[k]) <= bound
    ensures Tally(ws, m) <= |ws| * bound
  {
    TallyIsSum(ws, m);
    SumAtMost(Readings(ws, m), seq(|ws|, _ => 0), bound);
    SumOfZeros(|ws|);
  }

  lemma TallyMonotone(ws: seq<Worker>, m: Meter, n: Meter)
    requires forall k :: 0 <= k < |ws| ==> Read(m, ws[k]) <= Read(n, ws[k])
    ensures Tally(ws, m) <= Tally(ws, n)
  {
    TallyIsSum(ws, m);
    TallyIsSum(ws, n);
    SumAtMost(Readings(ws, m), Readings(ws, n), 0);
  }

  lemma TallyAdds(ws: seq<Worker>, m: Meter, a: Meter, b: Meter)
    requires forall k :: 0 <= k < |ws| ==> Read(m, ws[k]) == Read(a, ws[k]) + Read(b, ws[k])
    ensures Tally(ws, m) == Tally(ws, a) + Tally(ws, b)
  {
    TallyIsSum(ws, m);
    TallyIsSum(ws, a);
    TallyIsSum(ws, b);
    SumAdds(Readings(ws, m), Readings(ws, a), Readings(ws, b));
  }

  lemma TallyGrowth(ws: seq<Worker>, us: seq<Worker>, m: Meter, bound: nat)
    requires |ws| == |us|
    requires forall k :: 0 <= k < |ws| ==> Read(m, us[k]) <= Read(m, ws[k]) + bound
    ensures Tally(us, m) <= Tally(ws, m) + |ws| * bound
  {
    TallyIsSum(ws, m);
    TallyIsSum(us, m);
    SumAtMost(Readings(us, m), Readings(ws, m), bound);
  }

  lemma {:induction false} TallyOfIdle(n: nat, m: Meter)
    ensures Tally(seq(n, _ => IDLE), m) == 0
  {
    if n > 0 {
      assert Front(seq(n, _ => IDLE)) == seq(n - 1, _ => IDLE);
      TallyOfIdle(n - 1, m);
    }
  }

  /** How many of the first `n` tickets are within the limit. */
  function Granted(c: Config, n: nat): int {
    if c.maxDelete.None? then n else Min(n, c.maxDelete.value)
  }

  ghost predicate SumsOk(c: Config, s: State)
    requires Shape(c, s)
  {
    && (forall o {:trigger Received(o)} :: Tally(s.workers, Received(o)) == multiset(Last(s.chans).Received())[o])
    && (forall o {:trigger Forwarded(o)} :: Tally(s.workers, Forwarded(o)) == multiset(s.out.sent)[o])
    && Tally(s.workers, Drawn) == s.sh.counter
    && s.sh.counter - Tally(s.workers, Refused) == Granted(c, s.sh.counter)
    && s.sh.trips + Tally(s.workers, Tripped) <= Tally(s.workers, Refused)
    && Tally(s.workers, Answered) == s.sh.deleted + s.sh.failed
    && Tally(s.workers, Skipped) == s.sh.skips
    && (!s.sh.faulted ==> Tally(s.workers, Casualties) == 0)
  }

  /** The two failure tallies, the back end's error messages and the warning flag, in every state. */
  predicate CountsOk(sh: Shared) {
    && Completes(sh.log) == sh.deleted
    && Failures(sh.log) == sh.failed + sh.trips == sh.errors
    && (sh.warned <==> sh.errors > 0)
    && (sh.cancelled ==> sh.outside || sh.trips > 0)
    && (sh.outside ==> sh.cancelled)
  }

  lemma {:induction false} CountsAppend(a: seq<Event>, b: seq<Event>)
    ensures Completes(a + b) == Completes(a) + Completes(b)
    ensures Failures(a + b) == Failures(a) + Failures(b)
  {
    if b == [] {
      assert a + b == a;
    } else {
      assert Front(a + b) == a + Front(b);
      CountsAppend(a, Front(b));
    }
  }

  lemma {:induction false} AnnounceCounts(os: seq<S3Object>, ok: bool)
    ensures Completes(Announce(os, ok)) == if ok then |os| else 0
    ensures Failures(Announce(os, ok)) == if ok then 0 else |os|
  {
    if os != [] {
      AnnounceCounts(Front(os), ok);
      CountsAppend(Announce(Front(os), ok), [if ok then Completed(Last(os)) else Failed(Last(os))]);
      assert Front([Completed(Last(os))]) == [] && Front([Failed(Last(os))]) == [];
    }
  }

  lemma LogCounts(log: seq<Event>, e: Event)
    ensures Completes(log + [e]) == Completes(log) + if e.Completed? then 1 else 0
    ensures Failures(log + [e]) == Failures(log) + if e.Failed? then 1 else 0
  {
    assert Front(log + [e]) == log;
  }

  lemma AnswerKeepsCounts(c: Config, v: View, batch: seq<S3Object>, k: Cont, deleted: seq<S3Object>, failed: seq<S3Object>)
    requires CountsOk(v.sh)
    ensures CountsOk(AnswerStep(c, v, batch, k, deleted, failed).sh)
  {
    var done, lost := Announce(deleted, true), Announce(failed, false);
    AnnounceCounts(deleted, true);
    AnnounceCounts(failed, false);
    CountsAppend(v.sh.log, done);
    CountsAppend(v.sh.log + done, lost);
  }

  /** Nothing was deleted, nothing failed; other events were logged, and the run may have been cancelled from
      outside. */
  predicate Uneventful(sh: Shared, r: Shared, es: seq<Event>) {
    && r.deleted == sh.deleted && r.failed == sh.failed && r.trips == sh.trips
    && r.errors == sh.errors && r.warned == sh.warned
    && ((r.cancelled == sh.cancelled && r.outside == sh.outside) || (r.cancelled && r.outside))
    && r.log == sh.log + es
    && Completes(es) == Failures(es) == 0
  }

  lemma UneventfulKeepsCounts(sh: Shared, r: Shared, es: seq<Event>)
    requires CountsOk(sh) && Uneventful(sh, r, es)
    ensures CountsOk(r)
  {
    CountsAppend(sh.log, es);
  }

  lemma OneEvent(e: Event)
    requires !e.Completed? && !e.Failed?
    ensures Completes([e]) == Failures([e]) == 0
  {
    assert Front([e]) == [];
  }

  lemma TripKeepsCounts(v: View, o: S3Object)
    requires CountsOk(v.sh)
    ensures CountsOk(TripStep(v, o).sh)
  {
    LogCounts(v.sh.log, Failed(o));
  }

  /** Steps that touch none of the shared counters. */
  predicate Quiet(pc: WorkerPc) {
    pc.Select? || pc.Flush? || pc.Dispatch? || pc.Forward? || pc.CheckCancel? || pc.Done?
  }

  predicate SameCounts(v: View, r: View) {
    && r.sh == v.sh
    && r.w.drawn == v.w.drawn
    && r.w.refused == v.w.refused
    && r.w.answered == v.w.answered
    && r.w.skipped == v.w.skipped
    && r.w.lost == v.w.lost
    && r.w.broken == v.w.broken
    && Tripping(r.w.pc) == Tripping(v.w.pc)
  }

  lemma QuietStep(c: Config, v: View, outClosed: bool, ch: Choice)
    requires v.inp.taken <= |v.inp.sent|
    requires Quiet(v.w.pc)
    ensures SameCounts(v, WorkerStep(c, v, outClosed, ch))
  {
  }

  lemma ProcessKeepsCounts(c: Config, v: View, o: S3Object)
    requires CountsOk(v.sh)
    ensures CountsOk(ProcessStep(c, v, o).sh)
  {
    OneEvent(FilteredOut(o));
    UneventfulKeepsCounts(v.sh, ProcessStep(c, v, o).sh, if c.attribute(o).Filtered? && c.observed then [FilteredOut(o)] else []);
  }

  lemma WorkerKeepsCounts(c: Config, v: View, outClosed: bool, ch: Choice)
    requires CountsOk(v.sh)
    requires v.inp.taken <= |v.inp.sent|
    ensures CountsOk(WorkerStep(c, v, outClosed, ch).sh)
  {
    hide CountsOk;
    match v.w.pc
    case Process(o) =>
      ProcessKeepsCounts(c, v, o);
    case Trip(o) => TripKeepsCounts(v, o);
    case InFlight(batch, k) =>
      if ch.Answer? {
        AnswerKeepsCounts(c, v, batch, k, ch.deleted, ch.failed);
      } else {
        UneventfulKeepsCounts(v.sh, BreakStep(v, batch).sh, []);
      }
    case Admit(o) => UneventfulKeepsCounts(v.sh, AdmitStep(c, v, o).sh, []);
    case _ => QuietStep(c, v, outClosed, ch);
  }

  lemma StageIsUneventful(c: Config, f: Filter, v: StageView, ch: Choice)
    requires v.st.done <= |v.inp.sent|
    ensures Uneventful(v.sh, StageShared(c, f, v, ch), StageEvents(c, f, v, ch))
  {
    var es := StageEvents(c, f, v, ch);
    if es != [] {
      OneEvent(es[0]);
    }
  }

  lemma MainIsUneventful(c: Config, s: State)
    ensures Uneventful(s.sh, MainStep(c, s).sh, MainEvents(c, s.main, s.sh))
  {
    var es := MainEvents(c, s.main, s.sh);
    if es != [] {
      OneEvent(es[0]);
    }
  }

  lemma ActionKeepsCounts(c: Config, s: State, a: Action)
    requires Shape(c, s) && Enabled(c, s, a)
    requires CountsOk(s.sh)
    ensures CountsOk(Apply(c, s, a).sh)
  {
    match a
    case OfStage(k, ch) =>
      var v := ViewOfStage(s, k);
      StageIsUneventful(c, c.filters[k], v, ch);
      UneventfulKeepsCounts(s.sh, StageShared(c, c.filters[k], v, ch), StageEvents(c, c.filters[k], v, ch));
    case OfWorker(k, ch) => WorkerKeepsCounts(c, ViewOfWorker(s, k), s.drained, ch);
    case OfMain =>
      MainIsUneventful(c, s);
      UneventfulKeepsCounts(s.sh, MainStep(c, s).sh, MainEvents(c, s.main, s.sh));
    case OfTerminator =>
    case Supervise => UneventfulKeepsCounts(s.sh, s.sh.Cancel().(hasError := true), []);
    case Interrupt => UneventfulKeepsCounts(s.sh, s.sh.Cancel(), []);
  }

  /** A worker's step moves entries and tickets; it neither makes nor loses any. */
  ghost predicate MovesEntries(v: View, r: View) {
    && v.inp.taken <= |v.inp.sent|
    && r.inp.taken <= |r.inp.sent|
    && (forall o :: Gain(v.w.received, r.w.received, o) == Gain(v.inp.Received(), r.inp.Received(), o))
    && (forall o :: Gain(v.w.forwarded, r.w.forwarded, o) == Gain(v.out.sent, r.out.sent, o))
  }

  ghost function Gain(s: seq<S3Object>, t: seq<S3Object>, o: S3Object): int {
    var before: int, after: int := multiset(s)[o], multiset(t)[o];
    after - before
  }

  predicate MovesCounts(v: View, r: View) {
    && |r.w.drawn| - |v.w.drawn| == r.sh.counter - v.sh.counter
    && Read(Answered, r.w) - Read(Answered, v.w) == r.sh.deleted + r.sh.failed - v.sh.deleted - v.sh.failed
    && Read(Skipped, r.w) - Read(Skipped, v.w) == r.sh.skips - v.sh.skips
    && (v.sh.faulted ==> r.sh.faulted)
    && (r.sh.faulted || Read(Casualties, r.w) == Read(Casualties, v.w))
  }

  predicate MovesTickets(c: Config, v: View, r: View) {
    && |r.w.drawn| - |v.w.drawn| - (|r.w.refused| - |v.w.refused|)
       == Granted(c, r.sh.counter) - Granted(c, v.sh.counter)
    && r.sh.trips - v.sh.trips + Read(Tripped, r.w) - Read(Tripped, v.w) <= |r.w.refused| - |v.w.refused|
  }

  predicate MovesNothing(v: View, r: View) {
    r.w.received == v.w.received && r.w.forwarded == v.w.forwarded && r.inp == v.inp && r.out == v.out
  }

  lemma SelectMovesEntries(v: View, ch: Choice)
    requires v.inp.taken <= |v.inp.sent|
    ensures MovesEntries(v, SelectStep(v, ch))
  {
    var r := SelectStep(v, ch);
    if r.w.pc.Process? {
      assert r.inp.Received() == v.inp.Received() + [r.w.pc.o];
    }
  }

  lemma ForwardMovesEntries(v: View, rest: seq<S3Object>, k: Cont, outClosed: bool)
    requires v.inp.taken <= |v.inp.sent|
    ensures MovesEntries(v, ForwardStep(v, rest, k, outClosed))
  {
  }

  lemma NothingMoves(v: View, r: View)
    requires v.inp.taken <= |v.inp.sent| && MovesNothing(v, r)
    ensures MovesEntries(v, r)
  {
  }

  lemma StepMovesEntries(c: Config, v: View, outClosed: bool, ch: Choice)
    requires v.inp.taken <= |v.inp.sent|
    ensures MovesEntries(v, WorkerStep(c, v, outClosed, ch))
  {
    hide MovesEntries;
    match v.w.pc
    case Select => SelectMovesEntries(v, ch);
    case Process(o) => NothingMoves(v, ProcessStep(c, v, o));
    case Admit(o) => NothingMoves(v, AdmitStep(c, v, o));
    case InFlight(batch, k) =>
      if ch.Answer? {
        NothingMoves(v, AnswerStep(c, v, batch, k, ch.deleted, ch.failed));
      } else {
        NothingMoves(v, BreakStep(v, batch));
      }
    case Forward(rest, k) => ForwardMovesEntries(v, rest, k, outClosed);
    case _ => NothingMoves(v, WorkerStep(c, v, outClosed, ch));
  }

  lemma AnswerMovesCounts(c: Config, v: View, batch: seq<S3Object>, k: Cont, deleted: seq<S3Object>, failed: seq<S3Object>)
    requires multiset(deleted) + multiset(failed) == multiset(batch)
    ensures MovesCounts(v, AnswerStep(c, v, batch, k, deleted, failed))
  {
    assert |multiset(batch)| == |multiset(deleted)| + |multiset(failed)|;
  }

  lemma ProcessMovesCounts(c: Config, v: View, o: S3Object)
    ensures MovesCounts(v, ProcessStep(c, v, o))
  {
  }

  lemma StepMovesCounts(c: Config, v: View, outClosed: bool, ch: Choice)
    requires v.inp.taken <= |v.inp.sent|
    requires v.w.pc.InFlight? && ch.Answer? ==> multiset(ch.deleted) + multiset(ch.failed) == multiset(v.w.pc.batch)
    ensures MovesCounts(v, WorkerStep(c, v, outClosed, ch))
  {
    var r := WorkerStep(c, v, outClosed, ch);
    match v.w.pc
    case InFlight(batch, k) =>
      if ch.Answer? {
        AnswerMovesCounts(c, v, batch, k, ch.deleted, ch.failed);
      } else {
        assert MovesCounts(v, BreakStep(v, batch));
      }
    case Process(o) => ProcessMovesCounts(c, v, o);
    case Admit(o) => assert MovesCounts(v, AdmitStep(c, v, o));
    case Trip(o) => assert MovesCounts(v, TripStep(v, o));
    case _ => QuietStep(c, v, outClosed, ch);
  }

  lemma StepMovesTickets(c: Config, v: View, outClosed: bool, ch: Choice)
    requires v.inp.taken <= |v.inp.sent|
    ensures MovesTickets(c, v, WorkerStep(c, v, outClosed, ch))
  {
    var r := WorkerStep(c, v, outClosed, ch);
    match v.w.pc
    case Process(o) => assert MovesTickets(c, v, ProcessStep(c, v, o));
    case Admit(o) => assert MovesTickets(c, v, AdmitStep(c, v, o));
    case InFlight(batch, k) =>
      if ch.Answer? {
        assert MovesTickets(c, v, AnswerStep(c, v, batch, k, ch.deleted, ch.failed));
      } else {
        assert MovesTickets(c, v, BreakStep(v, batch));
      }
    case Trip(o) => assert MovesTickets(c, v, TripStep(v, o));
    case _ => QuietStep(c, v, outClosed, ch);
  }

  lemma WorkerKeepsSums(c: Config, s: State, k: nat, ch: Choice)
    requires Shape(c, s) && SumsOk(c, s)
    requires Enabled(c, s, OfWorker(k, ch))
    requires Shape(c, Apply(c, s, OfWorker(k, ch)))
    ensures SumsOk(c, Apply(c, s, OfWorker(k, ch)))
  {
    var v := ViewOfWorker(s, k);
    var r := WorkerStep(c, v, s.drained, ch);
    StepMovesEntries(c, v, s.drained, ch);
    StepMovesCounts(c, v, s.drained, ch);
    StepMovesTickets(c, v, s.drained, ch);
    SumsAfter(c, s, k, v, r);
  }

  lemma SumsAfter(c: Config, s: State, k: nat, v: View, r: View)
    requires Shape(c, s) && SumsOk(c, s)
    requires k < |s.workers| && v == ViewOfWorker(s, k)
    requires Shape(c, ApplyWorker(s, k, r))
    requires MovesEntries(v, r) && MovesCounts(v, r) && MovesTickets(c, v, r)
    ensures SumsOk(c, ApplyWorker(s, k, r))
  {
    var t := ApplyWorker(s, k, r);
    forall m ensures Tally(t.workers, m) == Tally(s.workers, m) - Read(m, v.w) + Read(m, r.w) {
      TallyUpdate(s.workers, k, r.w, m);
    }
    forall o ensures Tally(t.workers, Received(o)) == multiset(Last(t.chans).Received())[o] {
      assert Gain(v.w.received, r.w.received, o) == Gain(v.inp.Received(), r.inp.Received(), o);
      assert Tally(t.workers, Received(o)) == Tally(s.workers, Received(o)) - Read(Received(o), v.w) + Read(Received(o), r.w);
    }
    forall o ensures Tally(t.workers, Forwarded(o)) == multiset(t.out.sent)[o] {
      assert Gain(v.w.forwarded, r.w.forwarded, o) == Gain(v.out.sent, r.out.sent, o);
      assert Tally(t.workers, Forwarded(o)) == Tally(s.workers, Forwarded(o)) - Read(Forwarded(o), v.w) + Read(Forwarded(o), r.w);
    }
  }

  lemma StageKeepsSums(c: Config, s: State, k: nat, ch: Choice)
    requires c.WellFormed()
    requires StagesOk(c, s) && SumsOk(c, s)
    requires Enabled(c, s, OfStage(k, ch))
    requires Shape(c, Apply(c, s, OfStage(k, ch)))
    ensures SumsOk(c, Apply(c, s, OfStage(k, ch)))
  {
    hide StageStep, StageOk;
    var v := ViewOfStage(s, k);
    var t := ApplyStage(s, k, StageStep(c, c.filters[k], v, ReceiversGone(s, k), ch));
    StageStepOk(c, c.filters[k], v, SendersGone(s, k), ReceiversGone(s, k), ch);
    StageShares(c, c.filters[k], v, ReceiversGone(s, k), ch);
    assert Last(s.chans).sent <= Last(t.chans).sent && Last(t.chans).taken == Last(s.chans).taken;
    assert Last(t.chans).Received() == Last(s.chans).Received();
    SumsElsewhere(c, s, t);
  }

  lemma SumsElsewhere(c: Config, s: State, t: State)
    requires Shape(c, s) && SumsOk(c, s)
    requires Shape(c, t)
    requires t.workers == s.workers && Last(t.chans).Received() == Last(s.chans).Received() && t.out.sent == s.out.sent
    requires t.sh.counter == s.sh.counter && t.sh.trips == s.sh.trips && t.sh.skips == s.sh.skips
    requires t.sh.deleted == s.sh.deleted && t.sh.failed == s.sh.failed && (s.sh.faulted ==> t.sh.faulted)
    ensures SumsOk(c, t)
  {
  }

  lemma ActionKeepsSums(c: Config, s: State, a: Action)
    requires c.WellFormed()
    requires StagesOk(c, s) && SumsOk(c, s)
    requires Enabled(c, s, a)
    requires Shape(c, Apply(c, s, a))
    ensures SumsOk(c, Apply(c, s, a))
  {
    match a
    case OfStage(k, ch) => StageKeepsSums(c, s, k, ch);
    case OfWorker(k, ch) => WorkerKeepsSums(c, s, k, ch);
    case OfMain => SumsElsewhere(c, s, MainStep(c, s));
    case _ => SumsElsewhere(c, s, Apply(c, s, a));
  }

  lemma InitSums(c: Config)
    requires c.WellFormed()
    ensures SumsOk(c, Init(c)) && CountsOk(Init(c).sh)
  {
    var s := Init(c);
    forall m ensures Tally(s.workers, m) == 0 {
      TallyOfIdle(c.workers, m);
    }
    assert Last(s.chans).Received() == [];
    assert Front([Started]) == [];
  }
}
