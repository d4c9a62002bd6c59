/** The event manager: it counts every event, delivers the subscribed ones to the callback, and follows the end of
    the pipeline with a report of what it has counted. */
module Events {
  import opened Objects
  import opened Network

  datatype EventType =
    | UNDEFINED
    | PIPELINE_START
    | PIPELINE_END
    | DELETE_COMPLETE
    | DELETE_FAILED
    | DELETE_FILTERED
    | PIPELINE_ERROR
    | DELETE_CANCEL
    | STATS_REPORT

  datatype PipelineStats = PipelineStats(deleted: nat, bytes: nat, failed: nat, skipped: nat, errors: nat)

  datatype EventData = EventData(kind: EventType, dryRun: bool, key: Option<string>, size: Option<nat>, stats: Option<PipelineStats>)

  const NOTHING := PipelineStats(0, 0, 0, 0, 0)

  /** How many events of a kind there are. */
  function Count(kind: EventType, es: seq<EventData>): nat {
    if es == [] then 0 else Count(kind, Front(es)) + if Last(es).kind == kind then 1 else 0
  }

  function SizeOf(e: EventData): nat {
    if e.kind.DELETE_COMPLETE? && e.size.Some? then e.size.value else 0
  }

  function Bytes(es: seq<EventData>): nat {
    if es == [] then 0 else Bytes(Front(es)) + SizeOf(Last(es))
  }

  /** The statistics that a list of events deserves. */
  function Tally(es: seq<EventData>): PipelineStats {
    PipelineStats(
      Count(DELETE_COMPLETE, es), Bytes(es), Count(DELETE_FAILED, es), Count(DELETE_FILTERED, es), Count(PIPELINE_ERROR, es))
  }

  datatype Subscription = Subscription(flags: set<EventType>, dryRun: bool)
  {
    /** A set of flags contains the empty set of flags. */
    predicate Contains(kind: EventType) {
      kind.UNDEFINED? || kind in flags
    }

    predicate Wants(e: EventData) {
      Contains(e.kind)
    }

    /** What the callback receives because of the last of these events. */
    function Delivered(es: seq<EventData>): seq<EventData>
      requires es != []
    {
      (if Contains(Last(es).kind) then [Last(es).(dryRun := dryRun)] else [])
      + if Last(es).kind.PIPELINE_END? && Contains(STATS_REPORT) then [Report(Tally(es))] else []
    }

    function Report(stats: PipelineStats): EventData {
      EventData(STATS_REPORT, dryRun, None, None, Some(stats))
    }

    function Deliveries(es: seq<EventData>): seq<EventData> {
      if es == [] then [] else Deliveries(Front(es)) + Delivered(es)
    }
  }

  /** The statistics after one more event. */
  function Counted(stats: PipelineStats, e: EventData): PipelineStats {
    match e.kind
    case DELETE_COMPLETE => stats.(deleted := stats.deleted + 1, bytes := stats.bytes + SizeOf(e))
    case DELETE_FAILED => stats.(failed := stats.failed + 1)
    case DELETE_FILTERED => stats.(skipped := stats.skipped + 1)
    case PIPELINE_ERROR => stats.(errors := stats.errors + 1)
    case _ => stats
  }

  lemma TallyStep(es: seq<EventData>, e: EventData)
    ensures Tally(es + [e]) == Counted(Tally(es), e)
  {
    assert Front(es + [e]) == es;
  }

  class EventManager {
    const callback: Option<Subscription>
    var stats: PipelineStats
    /** What the callback has received, in order. */
    var received: seq<EventData>
    ghost var triggered: seq<EventData>

    constructor (callback: Option<Subscription>)
      ensures Valid() && triggered == [] && this.callback == callback
      ensures received == [] && stats == PipelineStats(0, 0, 0, 0, 0)
    {
      this.callback := callback;
      stats, received, triggered := NOTHING, [], [];
    }

    /** The statistics are those of all events, delivered or not; the callback has received what it is due. */
    ghost predicate Valid()
      reads this
    {
      && stats == Tally(triggered)
      && received == if callback.Some? then callback.value.Deliveries(triggered) else []
    }

    method UpdatePipelineStats(e: EventData)
      modifies this`stats
      ensures stats == Counted(old(stats), e)
    {
      match e.kind
      case DELETE_COMPLETE =>
        var size := if e.size.Some? then e.size.value else 0;
        stats := stats.(deleted := stats.deleted + 1, bytes := stats.bytes + size);
      case DELETE_FAILED => stats := stats.(failed := stats.failed + 1);
      case DELETE_FILTERED => stats := stats.(skipped := stats.skipped + 1);
      case PIPELINE_ERROR => stats := stats.(errors := stats.errors + 1);
      case _ =>
    }

    /** Counts the event, delivers it if it is subscribed, and lets the report follow the end of the pipeline. */
    method TriggerEvent(e: EventData)
      requires Valid()
      modifies this
      ensures Valid() && triggered == old(triggered) + [e]
      ensures callback.Some? ==> received == callback.value.Deliveries(triggered)
      ensures stats.deleted == old(stats.deleted) + if e.kind == DELETE_COMPLETE then 1 else 0
      ensures stats.bytes == old(stats.bytes) + if e.kind == DELETE_COMPLETE && e.size.Some? then e.size.value else 0
      ensures stats.failed == old(stats.failed) + if e.kind == DELETE_FAILED then 1 else 0
      ensures stats.skipped == old(stats.skipped) + if e.kind == DELETE_FILTERED then 1 else 0
      ensures stats.errors == old(stats.errors) + if e.kind == PIPELINE_ERROR then 1 else 0
      ensures match callback
        case None => received == old(received)
        case Some(s) =>
          var event := if e.kind == UNDEFINED || e.kind in s.flags then [e.(dryRun := s.dryRun)] else [];
          var report :=
            if e.kind == PIPELINE_END && STATS_REPORT in s.flags then [EventData(STATS_REPORT, s.dryRun, None, None, Some(stats))]
            else [];
          received == old(received) + event + report
    {
      TallyStep(triggered, e);
      UpdatePipelineStats(e);
      triggered := triggered + [e];
      assert Front(triggered) == old(triggered);
      if callback.Some? {
        Deliver(callback.value, e);
      }
    }

    /** The event itself, if it is subscribed, and after the end of the pipeline the report. */
    method Deliver(s: Subscription, e: EventData)
      modifies this`received
      ensures
        var event := if e.kind == UNDEFINED || e.kind in s.flags then [e.(dryRun := s.dryRun)] else [];
        var report :=
          if e.kind == PIPELINE_END && STATS_REPORT in s.flags then [EventData(STATS_REPORT, s.dryRun, None, None, Some(stats))]
          else [];
        received == old(received) + event + report
    {
      if s.Contains(e.kind) {
        received := received + [e.(dryRun := s.dryRun)];
      }
      if e.kind.PIPELINE_END? && s.Contains(STATS_REPORT) {
        received := received + [s.Report(stats)];
      }
    }
  }

  // What the callback can rely on

  /** The callback receives only kinds it subscribed to. */
  lemma {:induction false} OnlySubscribed(s: Subscription, es: seq<EventData>, e: EventData)
    requires e in s.Deliveries(es)
    ensures s.Contains(e.kind) && e.dryRun == s.dryRun
  {
    if es != [] && e in s.Deliveries(Front(es)) {
      OnlySubscribed(s, Front(es), e);
    }
  }

  predicate Plain(e: EventData) {
    !e.kind.STATS_REPORT?
  }

  function Marked(s: Subscription, es: seq<EventData>): (r: seq<EventData>)
    ensures |r| == |es|
  {
    if es == [] then [] else Marked(s, Front(es)) + [Last(es).(dryRun := s.dryRun)]
  }

  /** Apart from reports, it receives exactly the subscribed events, each once and in the order they happened. */
  lemma {:induction false} EverySubscribedEvent(s: Subscription, es: seq<EventData>)
    requires forall e :: e in es ==> Plain(e)
    ensures Where(Plain, s.Deliveries(es))
         == Marked(s, Where(s.Wants, es))
  {
    if es != [] {
      EverySubscribedEvent(s, Front(es));
      WhereAppend(Plain, s.Deliveries(Front(es)), s.Delivered(es));
      DeliveredEvent(s, es);
      if s.Wants(Last(es)) {
        assert Front(Where(s.Wants, es)) == Where(s.Wants, Front(es));
      } else {
        assert Where(s.Wants, Front(es)) + [] == Where(s.Wants, Front(es));
      }
    }
  }

  lemma DeliveredEvent(s: Subscription, es: seq<EventData>)
    requires es != [] && Plain(Last(es))
    ensures Where(Plain, s.Delivered(es))
         == if s.Contains(Last(es).kind) then [Last(es).(dryRun := s.dryRun)] else []
  {
    var a := if s.Contains(Last(es).kind) then [Last(es).(dryRun := s.dryRun)] else [];
    var b := if Last(es).kind.PIPELINE_END? && s.Contains(STATS_REPORT) then [s.Report(Tally(es))] else [];
    WhereAppend(Plain, a, b);
    if a != [] { assert Front(a) == []; }
    if b != [] { assert Front(b) == []; }
  }

  /** A report is the tally of everything up to an end of the pipeline. */
  lemma {:induction false} ReportsAreTallies(s: Subscription, es: seq<EventData>, e: EventData)
    requires forall x :: x in es ==> Plain(x)
    requires e in s.Deliveries(es) && e.kind.STATS_REPORT?
    ensures e.key == None && e.size == None && e.dryRun == s.dryRun && e.stats.Some?
    ensures exists n ::
      && 0 < n <= |es| && es[n - 1].kind == PIPELINE_END
      && e.stats.value.deleted == Count(DELETE_COMPLETE, es[..n]) && e.stats.value.failed == Count(DELETE_FAILED, es[..n])
      && e.stats.value.skipped == Count(DELETE_FILTERED, es[..n]) && e.stats.value.errors == Count(PIPELINE_ERROR, es[..n])
      && e.stats.value.bytes == SizeOfCompleted(es[..n])
  {
    var n := ReportedAt(s, es, e);
    BytesAreSizes(es[..n]);
  }

  lemma {:induction false} ReportedAt(s: Subscription, es: seq<EventData>, e: EventData) returns (n: nat)
    requires forall x :: x in es ==> Plain(x)
    requires e in s.Deliveries(es) && e.kind.STATS_REPORT?
    ensures 0 < n <= |es| && es[n - 1].kind.PIPELINE_END? && e == s.Report(Tally(es[..n]))
  {
    if e in s.Deliveries(Front(es)) {
      n := ReportedAt(s, Front(es), e);
      assert Front(es)[..n] == es[..n];
    } else {
      n := |es|;
      assert Last(es) in es;
      assert es[..|es|] == es;
    }
  }

  /** The sizes that come with completed deletions, added up. */
  function SizeOfCompleted(es: seq<EventData>): nat {
    if es == [] then 0
    else
      var rest := SizeOfCompleted(es[1..]);
      if es[0].kind == DELETE_COMPLETE && es[0].size.Some? then es[0].size.value + rest else rest
  }

  lemma {:induction false} SizeOfCompletedLast(es: seq<EventData>, e: EventData)
    ensures SizeOfCompleted(es + [e]) ==
      SizeOfCompleted(es) + if e.kind == DELETE_COMPLETE && e.size.Some? then e.size.value else 0
  {
    if es == [] {
      assert [e][1..] == [] && [] + [e] == [e];
    } else {
      assert (es + [e])[1..] == es[1..] + [e];
      SizeOfCompletedLast(es[1..], e);
    }
  }

  lemma {:induction false} BytesAreSizes(es: seq<EventData>)
    ensures Bytes(es) == SizeOfCompleted(es)
  {
    if es != [] {
      BytesAreSizes(Front(es));
      SizeOfCompletedLast(Front(es), Last(es));
      assert es == Front(es) + [Last(es)];
    }
  }

  lemma {:induction false} CountAppend(kind: EventType, a: seq<EventData>, b: seq<EventData>)
    ensures Count(kind, a + b) == Count(kind, a) + Count(kind, b)
  {
    if b == [] {
      assert a + b == a;
    } else {
      assert Front(a + b) == a + Front(b);
      CountAppend(kind, a, Front(b));
    }
  }

  /** Every end of the pipeline brings exactly one report to a callback that has subscribed to reports, and nothing
      else does. */
  lemma {:induction false} OneReportPerEnd(s: Subscription, es: seq<EventData>)
    requires forall e :: e in es ==> Plain(e)
    ensures Count(STATS_REPORT, s.Deliveries(es)) == if STATS_REPORT in s.flags then Count(PIPELINE_END, es) else 0
  {
    if es != [] {
      var e := Last(es);
      OneReportPerEnd(s, Front(es));
      CountAppend(STATS_REPORT, s.Deliveries(Front(es)), s.Delivered(es));
      var event := if s.Contains(e.kind) then [e.(dryRun := s.dryRun)] else [];
      var report := if e.kind.PIPELINE_END? && s.Contains(STATS_REPORT) then [s.Report(Tally(es))] else [];
      CountAppend(STATS_REPORT, event, report);
      assert e in es && Plain(e);
      OneCount(e.(dryRun := s.dryRun));
      OneCount(s.Report(Tally(es)));
    }
  }

  lemma OneCount(e: EventData)
    ensures Count(STATS_REPORT, [e]) == if e.kind == STATS_REPORT then 1 else 0
  {
    assert Front([e]) == [];
  }

  // The events of a run

  function DataOf(e: Event): EventData {
    match e
    case Started => EventData(PIPELINE_START, false, None, None, None)
    case Completed(o) => EventData(DELETE_COMPLETE, false, Some(o.key), Some(o.UnsignedSize()), None)
    case Failed(o) => EventData(DELETE_FAILED, false, Some(o.key), None, None)
    case FilteredOut(o) => EventData(DELETE_FILTERED, false, Some(o.key), Some(o.UnsignedSize()), None)
    case Errored => EventData(PIPELINE_ERROR, false, None, None, None)
    case Cancelled => EventData(DELETE_CANCEL, false, None, None, None)
    case Ended => EventData(PIPELINE_END, false, None, None, None)
    case Stats(_, _) => EventData(UNDEFINED, false, None, None, None)
  }

  /** What the event manager is told: the kind of each event, and the key and unsigned size where there is an entry. */
  lemma EventsAreTranslated(e: Event)
    requires !e.Stats?
    ensures match e
      case Started => DataOf(e).kind == PIPELINE_START
      case Completed(_) => DataOf(e).kind == DELETE_COMPLETE
      case Failed(_) => DataOf(e).kind == DELETE_FAILED
      case FilteredOut(_) => DataOf(e).kind == DELETE_FILTERED
      case Errored => DataOf(e).kind == PIPELINE_ERROR
      case Cancelled => DataOf(e).kind == DELETE_CANCEL
      case Ended => DataOf(e).kind == PIPELINE_END
    ensures DataOf(e).key == if e.Completed? || e.Failed? || e.FilteredOut? then Some(e.o.key) else None
    ensures DataOf(e).size ==
      if e.Completed? || e.FilteredOut? then Some(if e.o.DeleteMarker? then 0 else e.o.bytes % 0x1_0000_0000_0000_0000) else None
    ensures DataOf(e).stats.None?
  {
  }

  /** The events that a log of a run triggers; the report is not triggered but follows from the end. */
  function Triggers(log: seq<Event>): seq<EventData> {
    if log == [] then []
    else Triggers(Front(log)) + if Last(log).Stats? then [] else [DataOf(Last(log))]
  }

  /** The counts in the statistics event of the network model are those of the event manager. */
  lemma {:induction false} StatsAgree(log: seq<Event>)
    ensures Tally(Triggers(log)).deleted == Completes(log)
    ensures Tally(Triggers(log)).failed == Failures(log)
  {
    if log != [] {
      StatsAgree(Front(log));
      if Last(log).Stats? {
        assert Triggers(log) == Triggers(Front(log));
      } else {
        assert Triggers(log) == Triggers(Front(log)) + [DataOf(Last(log))];
        TallyStep(Triggers(Front(log)), DataOf(Last(log)));
      }
    }
  }
}
