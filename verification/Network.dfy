/** The running pipeline as a state machine: a lister, a chain of filter stages, a pool of delete workers that
    share one queue, a terminator, the task that runs the pipeline, and the outside world. Every action is one
    stretch of a task between two points where another task may run. */
module Network {
  import opened Objects
  import opened Filters

  /** What the head-object and tagging filters of a worker say about an entry. */
  datatype Attribute = Eligible | Filtered | Missing | Fatal(cancels: bool)

  datatype Config = Config(
    listing: seq<S3Object>,
    filters: seq<Filter>,
    attribute: S3Object -> Attribute,
    queueSize: nat,
    workers: nat,
    batchSize: nat,
    maxDelete: Option<nat>,
    warnAsError: bool,
    dryRun: bool,
    observed: bool)
  {
    /** The lister heads the chain, queues hold something, and a worker's effective batch size is positive. */
    predicate WellFormed() {
      && filters != []
      && filters[0].Lister?
      && (forall k :: 1 <= k < |filters| ==> !filters[k].Lister?)
      && 1 <= queueSize
      && 1 <= batchSize
    }

    predicate Wants(o: S3Object) {
      attribute(o).Eligible?
    }

    /** The entries of the listing that every stage filter and every attribute filter lets through. */
    function Selected(): seq<S3Object> {
      Where(Wants, Chain(filters, listing))
    }

    predicate Admits(ticket: nat) {
      maxDelete.None? || ticket <= maxDelete.value
    }
  }

  /** A channel with its history: everything ever sent, and how much of that has been received. */
  datatype Chan = Chan(sent: seq<S3Object>, taken: nat)
  {
    function Waiting(): int {
      |sent| - taken
    }

    function Received(): seq<S3Object>
      requires taken <= |sent|
    {
      sent[..taken]
    }
  }

  datatype Event =
    | Started
    | Completed(o: S3Object)
    | Failed(o: S3Object)
    | FilteredOut(o: S3Object)
    | Errored
    | Cancelled
    | Ended
    | Stats(deleted: nat, failed: nat)

  /** State shared by all tasks. `outside` tells whether anything other than the quota asked to cancel;
      `faulted` whether some task ended with an error. */
  datatype Shared = Shared(
    counter: nat,
    cancelled: bool,
    outside: bool,
    warned: bool,
    faulted: bool,
    hasError: bool,
    deleted: nat,
    failed: nat,
    trips: nat,
    errors: nat,
    skips: nat,
    log: seq<Event>)
  {
    function Cancel(): Shared {
      this.(cancelled := true, outside := true)
    }

    function Log(e: Event): Shared {
      this.(log := log + [e])
    }
  }

  // Filter stages

  datatype StagePc = Check | Recv | Have(o: S3Object) | Sending(o: S3Object) | Stopped

  /** `done` counts the entries of the input that the stage has finished with. */
  datatype Stage = Stage(pc: StagePc, done: nat)

  datatype StageView = StageView(st: Stage, inp: Chan, outp: Chan, sh: Shared)

  datatype Choice = Go | Quit | Break | Answer(deleted: seq<S3Object>, failed: seq<S3Object>)

  function Top(f: Filter): StagePc {
    if f.Callback? then Recv else Check
  }

  predicate StageEnabled(c: Config, f: Filter, v: StageView, inClosed: bool, outClosed: bool, ch: Choice) {
    match v.st.pc
    case Check => ch.Go? || (ch.Break? && f.Lister?)
    case Recv =>
      || (ch.Go? && (v.inp.Waiting() > 0 || inClosed))
      || (ch.Quit? && f.Callback? && v.sh.cancelled)
      || (ch.Break? && f.Lister?)
    case Have(_) => ch.Go?
    case Sending(_) => ch.Go? && (outClosed || v.outp.Waiting() < c.queueSize)
    case Stopped => false
  }

  /** The callback of the stage fails on the entry in hand. */
  predicate Fails(f: Filter, v: StageView, ch: Choice)
    requires v.st.done <= |v.inp.sent|
  {
    ch.Go? && v.st.pc.Have? && Judge(f, v.inp.sent[..v.st.done], v.st.pc.o).Fail?
  }

  predicate Drops(f: Filter, v: StageView, ch: Choice)
    requires v.st.done <= |v.inp.sent|
  {
    ch.Go? && v.st.pc.Have? && Judge(f, v.inp.sent[..v.st.done], v.st.pc.o).Drop?
  }

  function StageEvents(c: Config, f: Filter, v: StageView, ch: Choice): seq<Event>
    requires v.st.done <= |v.inp.sent|
  {
    if !c.observed then []
    else if Fails(f, v, ch) then [Errored]
    else if Drops(f, v, ch) then [FilteredOut(v.st.pc.o)]
    else []
  }

  function StageShared(c: Config, f: Filter, v: StageView, ch: Choice): Shared
    requires v.st.done <= |v.inp.sent|
  {
    var fails := Fails(f, v, ch);
    v.sh.(
      faulted := v.sh.faulted || ch.Break? || fails,
      cancelled := v.sh.cancelled || fails,
      outside := v.sh.outside || fails,
      log := v.sh.log + StageEvents(c, f, v, ch))
  }

  function StageStep(c: Config, f: Filter, v: StageView, outClosed: bool, ch: Choice): StageView
    requires v.st.done <= v.inp.taken <= |v.inp.sent|
  {
    var u := v.(sh := StageShared(c, f, v, ch));
    var stop := u.(st := v.st.(pc := Stopped));
    if !ch.Go? then stop
    else match v.st.pc
      case Check =>
        if v.sh.cancelled then stop else u.(st := v.st.(pc := Recv))
      case Recv =>
        if v.inp.Waiting() > 0 then
          u.(st := v.st.(pc := Have(v.inp.sent[v.inp.taken])), inp := v.inp.(taken := v.inp.taken + 1))
        else
          stop
      case Have(o) =>
        (match Judge(f, v.inp.sent[..v.st.done], o)
         case Keep => u.(st := v.st.(pc := Sending(o)))
         case Drop => u.(st := Stage(Top(f), v.st.done + 1))
         case Fail => stop)
      case Sending(o) =>
        if outClosed then stop
        else u.(st := Stage(Top(f), v.st.done + 1), outp := v.outp.(sent := v.outp.sent + [o]))
      case Stopped => u
  }

  // Workers

  /** What a worker does once the flush of its buffer is over. */
  datatype Cont = ThenCheck | ThenTrip(o: S3Object) | ThenExit

  datatype WorkerPc =
    | Select
    | Process(o: S3Object)
    | Admit(o: S3Object)
    | Flush(k: Cont)
    | Dispatch(batch: seq<S3Object>, k: Cont)
    | InFlight(batch: seq<S3Object>, k: Cont)
    | Forward(rest: seq<S3Object>, k: Cont)
    | Trip(o: S3Object)
    | CheckCancel
    | Done

  /** A worker with its history. `drawn`: entries that drew a ticket; `admitted`, `refused`: those whose ticket
      was within the limit and above it; `dispatched`: entries handed to deletion; `called`: entries named in requests to the store;
      `answered`: entries the back end decided; `lost`, `broken`: entries on which the worker died;
      `late...`: what the worker did after cancellation. */
  datatype Worker = Worker(
    pc: WorkerPc,
    received: seq<S3Object>,
    drawn: seq<S3Object>,
    admitted: seq<S3Object>,
    refused: seq<S3Object>,
    buffer: seq<S3Object>,
    dispatched: seq<S3Object>,
    called: seq<S3Object>,
    forwarded: seq<S3Object>,
    skipped: nat,
    answered: nat,
    lost: nat,
    broken: nat,
    lateReceived: nat,
    lateCalls: nat,
    lateObjects: nat)

  const IDLE := Worker(Select, [], [], [], [], [], [], [], [], 0, 0, 0, 0, 0, 0, 0)

  datatype View = View(w: Worker, inp: Chan, out: Chan, sh: Shared)

  function After(k: Cont): WorkerPc {
    match k
    case ThenCheck => CheckCancel
    case ThenTrip(o) => Trip(o)
    case ThenExit => Done
  }

  function Late(sh: Shared, n: nat): nat {
    if sh.cancelled then n else 0
  }

  predicate WorkerEnabled(c: Config, v: View, inClosed: bool, outClosed: bool, ch: Choice) {
    match v.w.pc
    case Select => (ch.Go? && (v.inp.Waiting() > 0 || inClosed)) || (ch.Quit? && v.sh.cancelled)
    case InFlight(batch, _) =>
      || (ch.Break? && !c.dryRun)
      || (ch.Answer? && multiset(ch.deleted) + multiset(ch.failed) == multiset(batch) && (c.dryRun ==> ch.failed == []))
    case Forward(rest, _) => ch.Go? && (rest == [] || outClosed || v.out.Waiting() < c.queueSize)
    case Done => false
    case _ => ch.Go?
  }

  function SelectStep(v: View, ch: Choice): View
    requires v.inp.taken <= |v.inp.sent|
  {
    if ch.Quit? then v.(w := v.w.(pc := Done))
    else if v.inp.Waiting() > 0 then
      var o := v.inp.sent[v.inp.taken];
      v.(w := v.w.(pc := Process(o), received := v.w.received + [o], lateReceived := v.w.lateReceived + Late(v.sh, 1)),
         inp := v.inp.(taken := v.inp.taken + 1))
    else v.(w := v.w.(pc := Flush(ThenExit)))
  }

  function ProcessStep(c: Config, v: View, o: S3Object): View {
    var a := c.attribute(o);
    var skip := if a.Filtered? || a.Missing? then 1 else 0;
    var fatal := a.Fatal? && a.cancels;
    v.(w := v.w.(
         pc := if a.Eligible? then Admit(o) else if a.Fatal? then Done else CheckCancel,
         skipped := v.w.skipped + skip,
         lost := v.w.lost + if a.Fatal? then 1 else 0),
       sh := v.sh.(
         skips := v.sh.skips + skip,
         faulted := v.sh.faulted || a.Fatal?,
         cancelled := v.sh.cancelled || fatal,
         outside := v.sh.outside || fatal,
         log := v.sh.log + if a.Filtered? && c.observed then [FilteredOut(o)] else []))
  }

  function AdmitStep(c: Config, v: View, o: S3Object): View {
    var ticket := v.sh.counter + 1;
    var sh := v.sh.(counter := ticket);
    var w := v.w.(drawn := v.w.drawn + [o]);
    if !c.Admits(ticket) then
      v.(w := w.(pc := Flush(ThenTrip(o)), refused := w.refused + [o]), sh := sh)
    else
      var buffer := w.buffer + [o];
      v.(w := w.(pc := if |buffer| >= c.batchSize then Flush(ThenCheck) else CheckCancel, admitted := w.admitted + [o], buffer := buffer), sh := sh)
  }

  function FlushStep(v: View, k: Cont): View {
    if v.w.buffer == [] || v.sh.cancelled then v.(w := v.w.(pc := After(k)))
    else v.(w := v.w.(pc := Dispatch(v.w.buffer, k), buffer := []))
  }

  function DispatchStep(c: Config, v: View, batch: seq<S3Object>, k: Cont): View {
    v.(w := v.w.(
         pc := InFlight(batch, k),
         dispatched := v.w.dispatched + batch,
         called := if c.dryRun then v.w.called else v.w.called + batch,
         lateCalls := v.w.lateCalls + Late(v.sh, 1),
         lateObjects := v.w.lateObjects + Late(v.sh, |batch|)))
  }

  /** One event per entry, in order. */
  function Announce(os: seq<S3Object>, ok: bool): seq<Event> {
    if os == [] then [] else Announce(Front(os), ok) + [if ok then Completed(Last(os)) else Failed(Last(os))]
  }

  function BreakStep(v: View, batch: seq<S3Object>): View {
    v.(w := v.w.(pc := Done, broken := v.w.broken + |batch|), sh := v.sh.(faulted := true).Cancel())
  }

  /** With warnings promoted, a failure stops the run. */
  predicate Stops(c: Config, failed: seq<S3Object>) {
    failed != [] && c.warnAsError
  }

  /** The shared state once the outcome of a batch has been reported. */
  function Reported(c: Config, sh: Shared, deleted: seq<S3Object>, failed: seq<S3Object>): Shared {
    sh.(
      deleted := sh.deleted + |deleted|,
      failed := sh.failed + |failed|,
      errors := sh.errors + |failed|,
      warned := sh.warned || failed != [],
      cancelled := sh.cancelled || Stops(c, failed),
      outside := sh.outside || Stops(c, failed),
      log := sh.log + Announce(deleted, true) + Announce(failed, false))
  }

  function AnswerStep(c: Config, v: View, batch: seq<S3Object>, k: Cont, deleted: seq<S3Object>, failed: seq<S3Object>): View {
    v.(w := v.w.(pc := if Stops(c, failed) then After(k) else Forward(batch, k), answered := v.w.answered + |batch|),
       sh := Reported(c, v.sh, deleted, failed))
  }

  function ForwardStep(v: View, rest: seq<S3Object>, k: Cont, outClosed: bool): View {
    if rest == [] || outClosed then v.(w := v.w.(pc := After(k)))
    else v.(w := v.w.(pc := Forward(rest[1..], k), forwarded := v.w.forwarded + [rest[0]]),
            out := v.out.(sent := v.out.sent + [rest[0]]))
  }

  function TripStep(v: View, o: S3Object): View {
    v.(w := v.w.(pc := CheckCancel),
       sh := v.sh.(cancelled := true, warned := true, trips := v.sh.trips + 1, errors := v.sh.errors + 1).Log(Failed(o)))
  }

  function WorkerStep(c: Config, v: View, outClosed: bool, ch: Choice): View
    requires v.inp.taken <= |v.inp.sent|
  {
    match v.w.pc
    case Select => SelectStep(v, ch)
    case Process(o) => ProcessStep(c, v, o)
    case Admit(o) => AdmitStep(c, v, o)
    case Flush(k) => FlushStep(v, k)
    case Dispatch(batch, k) => DispatchStep(c, v, batch, k)
    case InFlight(batch, k) =>
      if ch.Answer? then AnswerStep(c, v, batch, k, ch.deleted, ch.failed) else BreakStep(v, batch)
    case Forward(rest, k) => ForwardStep(v, rest, k, outClosed)
    case Trip(o) => TripStep(v, o)
    case CheckCancel => v.(w := v.w.(pc := if v.sh.cancelled then Done else Select))
    case Done => v
  }

  // The whole network

  datatype MainPc = Await | Promote | FireError | FireCancel | FireEnd | FireStats | Finished

  /** `chans[k]` feeds stage `k`; the last one feeds the workers. `out` leads to the terminator, which has
      `drained` it when it ends. */
  datatype State = State(
    chans: seq<Chan>,
    stages: seq<Stage>,
    workers: seq<Worker>,
    out: Chan,
    drained: bool,
    main: MainPc,
    sh: Shared)

  datatype Action =
    | OfStage(stage: nat, choice: Choice)
    | OfWorker(worker: nat, choice: Choice)
    | OfTerminator
    | OfMain
    | Supervise
    | Interrupt

  function Init(c: Config): State {
    State(
      [Chan(c.listing, 0)] + seq(|c.filters|, _ => Chan([], 0)),
      seq(|c.filters|, k requires 0 <= k < |c.filters| => Stage(Top(c.filters[k]), 0)),
      seq(c.workers, _ => IDLE),
      Chan([], 0),
      false,
      Await,
      Shared(0, false, false, false, false, false, 0, 0, 0, 0, 0, [Started]))
  }

  predicate Shape(c: Config, s: State) {
    && |s.stages| == |c.filters|
    && |s.chans| == |c.filters| + 1
    && |s.workers| == c.workers
    && (forall k :: 0 <= k < |s.chans| ==> s.chans[k].taken <= |s.chans[k].sent|)
    && (forall k :: 0 <= k < |s.stages| ==> s.stages[k].done <= s.chans[k].taken)
    && s.out.taken <= |s.out.sent|
  }

  predicate AllDone(s: State) {
    forall k :: 0 <= k < |s.workers| ==> s.workers[k].pc.Done?
  }

  /** The senders of channel `k` are gone. Nobody sends into the finished listing. */
  predicate SendersGone(s: State, k: nat)
    requires k <= |s.stages|
  {
    k == 0 || s.stages[k - 1].pc.Stopped?
  }

  /** The receivers of the channel that stage `k` sends into are gone. */
  predicate ReceiversGone(s: State, k: nat)
    requires k < |s.stages|
  {
    if k + 1 < |s.stages| then s.stages[k + 1].pc.Stopped? else AllDone(s)
  }

  function ViewOfStage(s: State, k: nat): StageView
    requires k < |s.stages| && |s.chans| == |s.stages| + 1
  {
    StageView(s.stages[k], s.chans[k], s.chans[k + 1], s.sh)
  }

  function ViewOfWorker(s: State, k: nat): View
    requires k < |s.workers| && s.chans != []
  {
    View(s.workers[k], Last(s.chans), s.out, s.sh)
  }

  predicate MainEnabled(s: State) {
    if s.main.Await? then s.drained else !s.main.Finished?
  }

  predicate Enabled(c: Config, s: State, a: Action)
    requires Shape(c, s)
  {
    match a
    case OfStage(k, ch) =>
      k < |s.stages| && StageEnabled(c, c.filters[k], ViewOfStage(s, k), SendersGone(s, k), ReceiversGone(s, k), ch)
    case OfWorker(k, ch) =>
      k < |s.workers| && WorkerEnabled(c, ViewOfWorker(s, k), SendersGone(s, |s.stages|), s.drained, ch)
    case OfTerminator => !s.drained && (s.out.Waiting() > 0 || AllDone(s))
    case OfMain => MainEnabled(s)
    case Supervise => s.sh.faulted && !(s.sh.hasError && s.sh.cancelled)
    case Interrupt => !s.sh.cancelled
  }

  function ApplyStage(s: State, k: nat, v: StageView): State
    requires k < |s.stages| && |s.chans| == |s.stages| + 1
  {
    s.(stages := s.stages[k := v.st], chans := s.chans[k := v.inp][k + 1 := v.outp], sh := v.sh)
  }

  function ApplyWorker(s: State, k: nat, v: View): State
    requires k < |s.workers| && s.chans != []
  {
    s.(workers := s.workers[k := v.w], chans := s.chans[|s.chans| - 1 := v.inp], out := v.out, sh := v.sh)
  }

  function Completes(log: seq<Event>): nat {
    if log == [] then 0 else Completes(Front(log)) + if Last(log).Completed? then 1 else 0
  }

  function Failures(log: seq<Event>): nat {
    if log == [] then 0 else Failures(Front(log)) + if Last(log).Failed? then 1 else 0
  }

  function NextMain(m: MainPc): MainPc {
    match m
    case Await => Promote
    case Promote => FireError
    case FireError => FireCancel
    case FireCancel => FireEnd
    case FireEnd => FireStats
    case FireStats => Finished
    case Finished => Finished
  }

  function MainEvents(c: Config, m: MainPc, sh: Shared): seq<Event> {
    if m.FireError? && sh.hasError then [Errored]
    else if m.FireCancel? && sh.cancelled then [Cancelled]
    else if m.FireEnd? then [Ended]
    else if m.FireStats? && c.observed then [Stats(Completes(sh.log), Failures(sh.log))]
    else []
  }

  /** After the terminator: promote warnings, then fire the completion events one by one. */
  function MainStep(c: Config, s: State): State {
    var promoted := s.main.Promote? && c.warnAsError && s.sh.warned;
    s.(main := NextMain(s.main),
       sh := s.sh.(hasError := s.sh.hasError || promoted, log := s.sh.log + MainEvents(c, s.main, s.sh)))
  }

  function Apply(c: Config, s: State, a: Action): State
    requires Shape(c, s) && Enabled(c, s, a)
  {
    match a
    case OfStage(k, ch) => ApplyStage(s, k, StageStep(c, c.filters[k], ViewOfStage(s, k), ReceiversGone(s, k), ch))
    case OfWorker(k, ch) => ApplyWorker(s, k, WorkerStep(c, ViewOfWorker(s, k), s.drained, ch))
    case OfTerminator =>
      if s.out.Waiting() > 0 then s.(out := s.out.(taken := s.out.taken + 1)) else s.(drained := true)
    case OfMain => MainStep(c, s)
    case Supervise => s.(sh := s.sh.Cancel().(hasError := true))
    case Interrupt => s.(sh := s.sh.Cancel())
  }

  predicate Takes(c: Config, s: State, a: Action, t: State) {
    Shape(c, s) && Enabled(c, s, a) && t == Apply(c, s, a)
  }

  /** A run is given by its schedule: the actions taken, in order. */
  ghost predicate Run(c: Config, acts: seq<Action>, tr: seq<State>) {
    && |tr| == |acts| + 1
    && tr[0] == Init(c)
    && forall k {:trigger acts[k]} :: 0 <= k < |acts| ==> Takes(c, tr[k], acts[k], tr[k + 1])
  }

  predicate Final(s: State) {
    && (forall k :: 0 <= k < |s.stages| ==> s.stages[k].pc.Stopped?)
    && AllDone(s)
    && s.drained
    && s.main.Finished?
  }
}
