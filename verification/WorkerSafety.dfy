/** What every action keeps about one worker: which entries it has judged, admitted, buffered and dispatched, how
    large its buffer may be, and how little it does once the run is cancelled. */
module WorkerSafety {
  import opened Objects
  import opened Network

  predicate HasCont(pc: WorkerPc) {
    pc.Flush? || pc.Dispatch? || pc.InFlight? || pc.Forward?
  }

  /** The worker drew a ticket above the limit and has not yet reported it. */
  predicate Tripping(pc: WorkerPc) {
    pc.Trip? || (HasCont(pc) && pc.k.ThenTrip?)
  }

  /** The entries whose attribute filters have been evaluated. */
  function Judged(w: Worker): seq<S3Object> {
    if w.pc.Process? && w.received != [] then Front(w.received) else w.received
  }

  function Pending(pc: WorkerPc): seq<S3Object> {
    if pc.Admit? then [pc.o] else []
  }

  /** Admitted, but not yet dispatched. */
  function Held(w: Worker): seq<S3Object> {
    if w.pc.Dispatch? then w.pc.batch else w.buffer
  }

  /** Dispatched entries that are still to be sent on: the rest of the batch in hand. */
  predicate OwedOk(w: Worker) {
    match w.pc
    case InFlight(batch, _) => w.dispatched == w.forwarded + batch
    case Forward(rest, _) => w.dispatched == w.forwarded + rest
    case _ => w.dispatched == w.forwarded
  }

  function Undecided(pc: WorkerPc): nat {
    if pc.InFlight? then |pc.batch| else 0
  }

  function InHand(pc: WorkerPc): nat {
    if pc.Process? || pc.Admit? then 1 else 0
  }

  predicate SelectionOk(c: Config, w: Worker) {
    && (w.pc.Process? ==> w.received != [] && Last(w.received) == w.pc.o)
    && w.drawn + Pending(w.pc) == Where(c.Wants, Judged(w))
    && |w.received| == w.skipped + |w.drawn| + w.lost + InHand(w.pc)
  }

  predicate AdmissionOk(cancelled: bool, w: Worker) {
    && w.drawn == w.admitted + w.refused
    && |w.refused| <= 1
    && w.admitted == w.dispatched + Held(w)
    && (w.pc.Dispatch? || w.pc.InFlight? ==> w.buffer == [])
    && (Tripping(w.pc) ==> w.refused != [])
    && (w.refused != [] ==> Tripping(w.pc) || ((w.pc.CheckCancel? || w.pc.Done?) && cancelled))
  }

  /** The buffer is never overfull, and it is never full when the worker may take another entry. */
  predicate BufferOk(c: Config, cancelled: bool, w: Worker) {
    && |w.buffer| <= c.batchSize
    && (w.pc.Select? || w.pc.Process? || w.pc.Admit? ==> |w.buffer| < c.batchSize)
    && (w.pc.CheckCancel? && !cancelled ==> |w.buffer| < c.batchSize)
    && (HasCont(w.pc) && !w.pc.k.ThenCheck? ==> |w.buffer| < c.batchSize)
    && (w.pc.Dispatch? || w.pc.InFlight? || w.pc.Forward? ==> w.buffer == [])
    && (w.pc.Dispatch? || w.pc.InFlight? ==> 1 <= |w.pc.batch| <= c.batchSize)
  }

  predicate DispatchOk(c: Config, w: Worker) {
    && |w.dispatched| == w.answered + w.broken + Undecided(w.pc)
    && w.called == (if c.dryRun then [] else w.dispatched)
  }

  predicate LateOk(c: Config, cancelled: bool, w: Worker) {
    && (!cancelled ==> w.lateReceived == w.lateCalls == w.lateObjects == 0)
    && w.lateReceived <= 1
    && w.lateCalls <= 1
    && w.lateObjects <= c.batchSize
    && (w.lateCalls == 0 ==> w.lateObjects == 0)
    && (w.lateReceived == 1 ==> !w.pc.Select?)
    && (w.lateCalls == 1 ==> w.pc.InFlight? || w.pc.Forward? || w.pc.Trip? || w.pc.CheckCancel? || w.pc.Done?)
  }

  predicate WorkerOk(c: Config, cancelled: bool, w: Worker) {
    && SelectionOk(c, w)
    && AdmissionOk(cancelled, w)
    && BufferOk(c, cancelled, w)
    && DispatchOk(c, w)
    && (!cancelled ==> OwedOk(w))
    && LateOk(c, cancelled, w)
  }

  lemma IdleOk(c: Config)
    requires c.WellFormed()
    ensures WorkerOk(c, false, IDLE)
  {
  }

  lemma CancelKeepsWorker(c: Config, w: Worker)
    requires WorkerOk(c, false, w)
    ensures WorkerOk(c, true, w)
  {
  }

  lemma SelectKeepsSelection(c: Config, v: View, ch: Choice)
    requires SelectionOk(c, v.w) && v.w.pc.Select? && v.inp.taken <= |v.inp.sent|
    ensures SelectionOk(c, SelectStep(v, ch).w)
  {
    var w := SelectStep(v, ch).w;
    if w.pc.Process? {
      assert Judged(w) == v.w.received;
    }
    assert Judged(v.w) == v.w.received;
  }

  lemma ProcessKeepsSelection(c: Config, v: View, o: S3Object)
    requires SelectionOk(c, v.w) && v.w.pc == Process(o)
    ensures SelectionOk(c, ProcessStep(c, v, o).w)
  {
    var w := ProcessStep(c, v, o).w;
    assert Where(c.Wants, w.received) == Where(c.Wants, Judged(v.w)) + if c.Wants(o) then [o] else [];
    assert v.w.drawn + [] == v.w.drawn;
  }

  lemma AdmitKeepsSelection(c: Config, v: View, o: S3Object)
    requires SelectionOk(c, v.w) && v.w.pc == Admit(o)
    ensures SelectionOk(c, AdmitStep(c, v, o).w)
  {
    assert v.w.drawn + [o] == AdmitStep(c, v, o).w.drawn + [];
  }

  lemma OtherKeepsSelection(c: Config, w: Worker, r: Worker)
    requires SelectionOk(c, w) && !w.pc.Process? && !w.pc.Admit? && !r.pc.Process? && !r.pc.Admit?
    requires r.received == w.received && r.drawn == w.drawn && r.skipped == w.skipped && r.lost == w.lost
    ensures SelectionOk(c, r)
  {
  }

  lemma KeepsSelection(c: Config, v: View, inClosed: bool, ch: Choice)
    requires SelectionOk(c, v.w)
    requires v.inp.taken <= |v.inp.sent| && WorkerEnabled(c, v, inClosed, false, ch)
    ensures SelectionOk(c, WorkerStep(c, v, false, ch).w)
  {
    hide SelectionOk;
    match v.w.pc
    case Select => SelectKeepsSelection(c, v, ch);
    case Process(o) => ProcessKeepsSelection(c, v, o);
    case Admit(o) => AdmitKeepsSelection(c, v, o);
    case Done =>
    case _ => OtherKeepsSelection(c, v.w, WorkerStep(c, v, false, ch).w);
  }

  lemma AdmitKeepsAdmission(c: Config, v: View, o: S3Object)
    requires AdmissionOk(v.sh.cancelled, v.w) && v.w.pc == Admit(o)
    ensures AdmissionOk(v.sh.cancelled, AdmitStep(c, v, o).w)
  {
    AppendAssociative(v.w.dispatched, v.w.buffer, [o]);
  }

  lemma DispatchKeepsAdmission(c: Config, v: View, batch: seq<S3Object>, k: Cont)
    requires AdmissionOk(v.sh.cancelled, v.w) && v.w.pc == Dispatch(batch, k)
    ensures AdmissionOk(v.sh.cancelled, DispatchStep(c, v, batch, k).w)
  {
    assert v.w.dispatched + batch == v.w.dispatched + batch + [];
  }

  lemma FlushKeepsAdmission(v: View, k: Cont)
    requires AdmissionOk(v.sh.cancelled, v.w) && v.w.pc == Flush(k)
    ensures AdmissionOk(v.sh.cancelled, FlushStep(v, k).w)
  {
  }

  lemma ReplyKeepsAdmission(c: Config, v: View, batch: seq<S3Object>, k: Cont, deleted: seq<S3Object>, failed: seq<S3Object>)
    requires AdmissionOk(v.sh.cancelled, v.w) && v.w.pc == InFlight(batch, k)
    ensures AdmissionOk(AnswerStep(c, v, batch, k, deleted, failed).sh.cancelled, AnswerStep(c, v, batch, k, deleted, failed).w)
    ensures AdmissionOk(true, BreakStep(v, batch).w)
  {
  }

  lemma ForwardKeepsAdmission(v: View, rest: seq<S3Object>, k: Cont)
    requires AdmissionOk(v.sh.cancelled, v.w) && v.w.pc == Forward(rest, k)
    ensures AdmissionOk(v.sh.cancelled, ForwardStep(v, rest, k, false).w)
  {
  }

  lemma OtherKeepsAdmission(c: Config, v: View, inClosed: bool, ch: Choice)
    requires AdmissionOk(v.sh.cancelled, v.w)
    requires v.inp.taken <= |v.inp.sent| && WorkerEnabled(c, v, inClosed, false, ch)
    requires v.w.pc.Select? || v.w.pc.Process? || v.w.pc.Trip? || v.w.pc.CheckCancel?
    ensures
      var r := WorkerStep(c, v, false, ch);
      AdmissionOk(r.sh.cancelled, r.w)
  {
  }

  lemma KeepsAdmission(c: Config, v: View, inClosed: bool, ch: Choice)
    requires AdmissionOk(v.sh.cancelled, v.w)
    requires v.inp.taken <= |v.inp.sent| && WorkerEnabled(c, v, inClosed, false, ch)
    ensures
      var r := WorkerStep(c, v, false, ch);
      AdmissionOk(r.sh.cancelled, r.w)
  {
    hide AdmissionOk;
    match v.w.pc
    case Admit(o) => AdmitKeepsAdmission(c, v, o);
    case Flush(k) => FlushKeepsAdmission(v, k);
    case Dispatch(batch, k) => DispatchKeepsAdmission(c, v, batch, k);
    case InFlight(batch, k) =>
      if ch.Answer? {
        ReplyKeepsAdmission(c, v, batch, k, ch.deleted, ch.failed);
      } else {
        ReplyKeepsAdmission(c, v, batch, k, [], []);
      }
    case Forward(rest, k) => ForwardKeepsAdmission(v, rest, k);
    case _ => OtherKeepsAdmission(c, v, inClosed, ch);
  }

  lemma KeepsBuffer(c: Config, v: View, inClosed: bool, ch: Choice)
    requires BufferOk(c, v.sh.cancelled, v.w) && 1 <= c.batchSize
    requires v.inp.taken <= |v.inp.sent| && WorkerEnabled(c, v, inClosed, false, ch)
    ensures
      var r := WorkerStep(c, v, false, ch);
      BufferOk(c, r.sh.cancelled, r.w)
  {
    match v.w.pc
    case Process(o) => assert BufferOk(c, ProcessStep(c, v, o).sh.cancelled, ProcessStep(c, v, o).w);
    case Admit(o) => assert BufferOk(c, v.sh.cancelled, AdmitStep(c, v, o).w);
    case Flush(k) => assert BufferOk(c, v.sh.cancelled, FlushStep(v, k).w);
    case Forward(rest, k) => assert BufferOk(c, v.sh.cancelled, ForwardStep(v, rest, k, false).w);
    case _ =>
  }

  lemma KeepsDispatch(c: Config, v: View, inClosed: bool, ch: Choice)
    requires DispatchOk(c, v.w)
    requires v.inp.taken <= |v.inp.sent| && WorkerEnabled(c, v, inClosed, false, ch)
    ensures
      var r := WorkerStep(c, v, false, ch);
      DispatchOk(c, r.w)
  {
  }

  lemma KeepsOwed(c: Config, v: View, inClosed: bool, ch: Choice)
    requires OwedOk(v.w)
    requires v.inp.taken <= |v.inp.sent| && WorkerEnabled(c, v, inClosed, false, ch)
    ensures
      var r := WorkerStep(c, v, false, ch);
      !r.sh.cancelled ==> OwedOk(r.w)
  {
    if v.w.pc.Forward? && v.w.pc.rest != [] {
      var rest := v.w.pc.rest;
      assert v.w.forwarded + rest == v.w.forwarded + [rest[0]] + rest[1..];
    }
  }

  lemma KeepsLate(c: Config, v: View, inClosed: bool, ch: Choice)
    requires v.w.pc.Dispatch? ==> |v.w.pc.batch| <= c.batchSize
    requires LateOk(c, v.sh.cancelled, v.w)
    requires v.inp.taken <= |v.inp.sent| && WorkerEnabled(c, v, inClosed, false, ch)
    ensures
      var r := WorkerStep(c, v, false, ch);
      LateOk(c, r.sh.cancelled, r.w)
  {
    match v.w.pc
    case Select =>
    case Process(o) =>
    case Admit(o) =>
    case Flush(k) => assert LateOk(c, v.sh.cancelled, FlushStep(v, k).w);
    case Dispatch(batch, k) => assert LateOk(c, v.sh.cancelled, DispatchStep(c, v, batch, k).w);
    case InFlight(batch, k) =>
    case Forward(rest, k) => assert LateOk(c, v.sh.cancelled, ForwardStep(v, rest, k, false).w);
    case Trip(o) =>
    case CheckCancel =>
    case Done =>
  }

  lemma WorkerStepOk(c: Config, v: View, inClosed: bool, ch: Choice)
    requires c.WellFormed()
    requires WorkerOk(c, v.sh.cancelled, v.w)
    requires v.inp.taken <= |v.inp.sent| && WorkerEnabled(c, v, inClosed, false, ch)
    ensures
      var r := WorkerStep(c, v, false, ch);
      WorkerOk(c, r.sh.cancelled, r.w)
  {
    KeepsSelection(c, v, inClosed, ch);
    KeepsAdmission(c, v, inClosed, ch);
    KeepsBuffer(c, v, inClosed, ch);
    KeepsDispatch(c, v, inClosed, ch);
    if v.sh.cancelled { CancelStays(c, v, false, ch); }
    if !v.sh.cancelled { KeepsOwed(c, v, inClosed, ch); }
    KeepsLate(c, v, inClosed, ch);
  }

  lemma CancelStays(c: Config, v: View, outClosed: bool, ch: Choice)
    requires v.inp.taken <= |v.inp.sent| && v.sh.cancelled
    ensures WorkerStep(c, v, outClosed, ch).sh.cancelled
  {
    match v.w.pc
    case Process(o) => assert ProcessStep(c, v, o).sh.cancelled;
    case InFlight(batch, k) =>
      if ch.Answer? {
        assert AnswerStep(c, v, batch, k, ch.deleted, ch.failed).sh.cancelled;
      }
    case _ =>
  }
}
