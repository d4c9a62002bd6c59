/** The pipeline object: the checks before a run, the run itself, and the events that close it. */
module Pipeline {
  import opened Objects
  import opened Network
  import opened RunSafety
  import opened Liveness

  /** The settings that the checks look at. */
  datatype Settings = Settings(keepLatestOnly: bool, deleteMarkerOnly: bool, ifMatch: bool, deleteAllVersions: bool)

  /** What the checks ask the outside for: the confirmation, and whether the bucket is versioned, which may fail. */
  datatype Answers = Answers(confirmed: bool, versioned: Option<bool>)

  /** When a run is allowed. Settings that only make sense on versions demand that versions are listed and that the
      bucket has them; deletions by version id cannot be conditional. */
  predicate Permitted(s: Settings, a: Answers) {
    && a.confirmed
    && (s.keepLatestOnly || s.deleteMarkerOnly ==> s.deleteAllVersions && a.versioned == Some(true))
    && (s.deleteAllVersions ==> !s.ifMatch && a.versioned.Some?)
  }

  /** What a successful check leaves of the settings. */
  function Checked(s: Settings, a: Answers): Settings {
    s.(deleteAllVersions := s.deleteAllVersions && a.versioned == Some(true))
  }

  /** A checked configuration passes every further check unchanged; where only noncurrent entries or only markers
      are to go, versions are listed and exist; and no deletion by version id carries a condition. */
  lemma CheckedOnceIsEnough(s: Settings, a: Answers)
    requires Permitted(s, a)
    ensures Permitted(Checked(s, a), a) && Checked(Checked(s, a), a) == Checked(s, a)
    ensures s.keepLatestOnly || s.deleteMarkerOnly ==> Checked(s, a) == s && s.deleteAllVersions
    ensures !(Checked(s, a).deleteAllVersions && s.ifMatch)
  {
  }

  /** The events that close a run: an error if one is recorded, a cancellation if there was one, always the end,
      and with a callback the statistics. */
  function Closed(c: Config, sh: Shared): Shared {
    var error := if sh.hasError then sh.Log(Errored) else sh;
    var cancel := if sh.cancelled then error.Log(Cancelled) else error;
    var end := cancel.Log(Ended);
    if c.observed then end.Log(Stats(Completes(end.log), Failures(end.log))) else end
  }

  lemma ClosedLog(c: Config, sh: Shared)
    ensures
      var log := sh.log + (if sh.hasError then [Errored] else []) + (if sh.cancelled then [Cancelled] else []) + [Ended];
      Closed(c, sh) == sh.(log := log + if c.observed then [Stats(Completes(log), Failures(log))] else [])
  {
    var error := if sh.hasError then sh.log + [Errored] else sh.log;
    assert error == sh.log + if sh.hasError then [Errored] else [];
    var cancel := if sh.cancelled then error + [Cancelled] else error;
    assert cancel == error + if sh.cancelled then [Cancelled] else [];
    assert cancel + [Ended] + [] == cancel + [Ended];
  }

  /** The state the network model reaches when the main task takes `n` steps and nobody else acts. */
  function MainSteps(c: Config, s: State, n: nat): State {
    if n == 0 then s else MainStep(c, MainSteps(c, s, n - 1))
  }

  lemma FireSteps(c: Config, s: State)
    requires s.main.FireError?
    ensures MainSteps(c, s, 2).main.FireEnd?
    ensures
      var error := if s.sh.hasError then s.sh.Log(Errored) else s.sh;
      MainSteps(c, s, 2).sh == if s.sh.cancelled then error.Log(Cancelled) else error
  {
    var t := MainStep(c, s);
    assert s.sh.log + [] == s.sh.log && t.sh.log + [] == t.sh.log;
    assert MainSteps(c, s, 1) == t by { assert MainSteps(c, s, 0) == s; }
    assert MainSteps(c, s, 2) == MainStep(c, t);
  }

  /** Closing a run is what the network model says of its main task. */
  lemma ClosingIsMain(c: Config, s: State)
    requires s.main.FireError?
    ensures MainSteps(c, s, 4).main.Finished?
    ensures MainSteps(c, s, 4).sh == Closed(c, s.sh)
  {
    FireSteps(c, s);
    var t := MainSteps(c, s, 2);
    var u := MainStep(c, t);
    assert MainSteps(c, s, 3) == u;
    assert MainSteps(c, s, 4) == MainStep(c, u);
    if !c.observed {
      assert u.sh.log + [] == u.sh.log;
    }
  }

  lemma StepsAdd(c: Config, s: State, n: nat)
    ensures MainSteps(c, s, n + 1) == MainSteps(c, MainStep(c, s), n)
  {
  }

  /** The stages have run until the terminator had drained the output, and this is what they have left behind. */
  ghost predicate Drained(c: Config, acts: seq<Action>, tr: seq<State>, outcome: Shared) {
    && c.WellFormed() && Run(c, acts, tr)
    && Last(tr).drained && Last(tr).main.Await?
    && Last(tr).sh == outcome
  }

  /** Every finished run of the network comes through such a moment. */
  lemma FinishedRunDrains(c: Config, acts: seq<Action>, tr: seq<State>) returns (n: nat)
    requires c.WellFormed() && Run(c, acts, tr) && Final(Last(tr))
    ensures n < |acts| && Drained(c, acts[..n], tr[..n + 1], tr[n].sh)
  {
    n := LeavesAwait(c, acts, tr, |acts|);
    assert Takes(c, tr[n], acts[n], tr[n + 1]);
    var bcts, ur := acts[..n], tr[..n + 1];
    forall k {:trigger bcts[k]} | 0 <= k < |bcts| ensures Takes(c, ur[k], bcts[k], ur[k + 1]) {
      assert Takes(c, tr[k], acts[k], tr[k + 1]);
    }
  }

  /** The step with which the main task stops waiting. */
  lemma {:induction false} LeavesAwait(c: Config, acts: seq<Action>, tr: seq<State>, m: nat) returns (n: nat)
    requires Run(c, acts, tr) && m < |tr| && !tr[m].main.Await?
    ensures n < m && tr[n].main.Await? && acts[n].OfMain?
  {
    assert m > 0;
    assert Takes(c, tr[m - 1], acts[m - 1], tr[m]);
    if tr[m - 1].main.Await? {
      n := m - 1;
    } else {
      n := LeavesAwait(c, acts, tr, m - 1);
    }
  }

  function PromotedBy(c: Config, sh: Shared): Shared {
    sh.(hasError := sh.hasError || (c.warnAsError && sh.warned))
  }

  /** From the end of the terminator to the end of the run. */
  lemma EndingIsMain(c: Config, s: State)
    requires s.main.Await?
    ensures MainSteps(c, s, 6).main.Finished?
    ensures MainSteps(c, s, 6).sh == Closed(c, PromotedBy(c, s.sh))
  {
    var t := MainStep(c, s);
    var u := MainStep(c, t);
    assert s.sh.log + [] == s.sh.log;
    assert u.main.FireError? && u.sh == PromotedBy(c, s.sh);
    ClosingIsMain(c, u);
    StepsAdd(c, s, 5);
    StepsAdd(c, t, 4);
  }

  lemma MainTakes(c: Config, s: State)
    requires Shape(c, s) && s.drained && !s.main.Finished?
    ensures Takes(c, s, OfMain, MainStep(c, s)) && Shape(c, MainStep(c, s)) && MainStep(c, s).drained
    ensures MainRank(MainStep(c, s).main) == MainRank(s.main) - 1
  {
  }

  /** Once the output is drained, the main task can take its steps in a row: what follows is a run, and everything
      proved of runs holds of its end. */
  lemma {:induction false} MainAlone(c: Config, acts: seq<Action>, tr: seq<State>, n: nat) returns (bcts: seq<Action>, ur: seq<State>)
    requires Run(c, acts, tr)
    requires Shape(c, Last(tr)) && Last(tr).drained && n <= MainRank(Last(tr).main)
    ensures Run(c, bcts, ur) && Last(ur) == MainSteps(c, Last(tr), n)
    ensures Shape(c, Last(ur)) && Last(ur).drained && MainRank(Last(ur).main) == MainRank(Last(tr).main) - n
  {
    if n == 0 {
      bcts, ur := acts, tr;
    } else {
      var b, u := MainAlone(c, acts, tr, n - 1);
      MainTakes(c, Last(u));
      Extend(c, b, u, OfMain, MainStep(c, Last(u)));
      bcts, ur := b + [OfMain], u + [MainStep(c, Last(u))];
    }
  }

  const NOTHING_YET := Shared(0, false, false, false, false, false, 0, 0, 0, 0, 0, [])

  class DeletionPipeline {
    const c: Config
    const answers: Answers
    var settings: Settings
    var ready: bool
    var prerequisitesChecked: bool
    var sh: Shared

    constructor (c: Config, settings: Settings, answers: Answers)
      ensures this.c == c && this.settings == settings && this.answers == answers
      ensures ready && !prerequisitesChecked && sh == NOTHING_YET
    {
      this.c, this.settings, this.answers := c, settings, answers;
      ready, prerequisitesChecked, sh := true, false, NOTHING_YET;
    }

    /** On an unversioned bucket, asking for all versions is quietly taken back. A refusal changes nothing. */
    method CheckPrerequisites() returns (ok: bool)
      modifies this`settings, this`prerequisitesChecked
      ensures !answers.confirmed ==> !ok
      ensures
        answers.confirmed && !old(settings).keepLatestOnly && !old(settings).deleteMarkerOnly && !old(settings).deleteAllVersions ==> ok
      ensures ok <==>
        && answers.confirmed
        && !(old(settings).keepLatestOnly && !old(settings).deleteAllVersions)
        && !(old(settings).deleteMarkerOnly && !old(settings).deleteAllVersions)
        && !(old(settings).ifMatch && old(settings).deleteAllVersions)
        && !(old(settings).deleteAllVersions && answers.versioned.None?)
        && !(old(settings).deleteAllVersions && answers.versioned == Some(false) && old(settings).keepLatestOnly)
        && !(old(settings).deleteAllVersions && answers.versioned == Some(false) && old(settings).deleteMarkerOnly)
      ensures ok ==>
        && prerequisitesChecked
        && settings == old(settings).(deleteAllVersions := old(settings).deleteAllVersions && answers.versioned == Some(true))
      ensures ok <==> Permitted(old(settings), answers)
      ensures ok ==> settings == Checked(old(settings), answers)
      ensures !ok ==> settings == old(settings) && prerequisitesChecked == old(prerequisitesChecked)
    {
      if !answers.confirmed {
        return false;
      }
      if settings.keepLatestOnly && !settings.deleteAllVersions {
        return false;
      }
      if settings.deleteMarkerOnly && !settings.deleteAllVersions {
        return false;
      }
      if settings.ifMatch && settings.deleteAllVersions {
        return false;
      }
      if settings.deleteAllVersions {
        if answers.versioned.None? {
          return false;
        }
        if !answers.versioned.value {
          if settings.keepLatestOnly {
            return false;
          }
          if settings.deleteMarkerOnly {
            return false;
          }
          settings := settings.(deleteAllVersions := false);
        }
      }
      prerequisitesChecked := true;
      return true;
    }

    method Fire(e: Event)
      modifies this`sh
      ensures sh == old(sh).Log(e)
    {
      sh := sh.Log(e);
    }

    method FireCompletionEvents()
      modifies this`sh
      ensures sh == Closed(c, old(sh))
      ensures
        var log := old(sh.log) + (if old(sh.hasError) then [Errored] else []) + (if old(sh.cancelled) then [Cancelled] else []) + [Ended];
        sh == old(sh).(log := log + if c.observed then [Stats(Completes(log), Failures(log))] else [])
    {
      if sh.hasError {
        Fire(Errored);
      }
      if sh.cancelled {
        Fire(Cancelled);
      }
      Fire(Ended);
      if c.observed {
        Fire(Stats(Completes(sh.log), Failures(sh.log)));
      }
      ClosedLog(c, old(sh));
    }

    /** The stages run until the terminator has drained the output; `outcome` is what they leave behind. */
    method ExecutePipeline(outcome: Shared)
      modifies this`sh
      ensures sh == PromotedBy(c, outcome)
    {
      sh := outcome;
      if c.warnAsError && sh.warned {
        sh := sh.(hasError := true);
      }
    }

    /** A pipeline runs once. If the checks refuse, no stage is ever started: the log holds the start, the error,
        perhaps a cancellation, and the end. Otherwise `outcome` is what a run of the network has left behind when
        its output is drained, and the pipeline ends as that network does when nobody interferes any more. */
    method Run(cancelled: bool, outcome: Shared, ghost acts: seq<Action>, ghost tr: seq<State>) returns (ran: bool)
      requires ready && sh == NOTHING_YET
      requires prerequisitesChecked || Permitted(settings, answers) ==> Drained(c, acts, tr, outcome)
      modifies this`settings, this`ready, this`prerequisitesChecked, this`sh
      ensures !ready
      ensures !answers.confirmed && !old(prerequisitesChecked) ==> !ran
      ensures ran <==>
        || old(prerequisitesChecked)
        || (
          && answers.confirmed
          && !(old(settings).keepLatestOnly && !old(settings).deleteAllVersions)
          && !(old(settings).deleteMarkerOnly && !old(settings).deleteAllVersions)
          && !(old(settings).ifMatch && old(settings).deleteAllVersions)
          && !(old(settings).deleteAllVersions && answers.versioned.None?)
          && !(old(settings).deleteAllVersions && answers.versioned == Some(false) && old(settings).keepLatestOnly)
          && !(old(settings).deleteAllVersions && answers.versioned == Some(false) && old(settings).deleteMarkerOnly))
      ensures ran && old(prerequisitesChecked) ==> settings == old(settings)
      ensures ran && !old(prerequisitesChecked) ==>
        settings == old(settings).(deleteAllVersions := old(settings).deleteAllVersions && answers.versioned == Some(true))
      ensures !ran ==>
        && sh.log == [Started, Errored] + (if cancelled then [Cancelled] else []) + [Ended] + (if c.observed then [Stats(0, 0)] else [])
        && sh.hasError && sh.deleted == 0 && sh.failed == 0
      ensures ran ==> sh == Closed(c, PromotedBy(c, outcome))
      ensures ran ==> tr != [] && MainSteps(c, Last(tr), 6).main.Finished? && sh == MainSteps(c, Last(tr), 6).sh
    {
      ready := false;
      Fire(Started);
      ran := true;
      if !prerequisitesChecked {
        ran := CheckPrerequisites();
      }
      if ran {
        ExecutePipeline(outcome);
        EndingIsMain(c, Last(tr));
      } else {
        sh := sh.(hasError := true, cancelled := cancelled);
        RefusedLog(c, sh);
      }
      FireCompletionEvents();
    }
  }

  lemma RefusedLog(c: Config, sh: Shared)
    requires sh.log == [Started] && sh.hasError
    ensures Closed(c, sh).log ==
      [Started, Errored] + (if sh.cancelled then [Cancelled] else []) + [Ended] + (if c.observed then [Stats(0, 0)] else [])
  {
    var log := [Started, Errored] + (if sh.cancelled then [Cancelled] else []) + [Ended];
    assert [Started] + [Errored] == [Started, Errored];
    assert Front([Started]) == [] && Front([Started, Errored]) == [Started];
    assert Completes([Started, Errored]) == 0 && Failures([Started, Errored]) == 0;
    if sh.cancelled {
      assert Front([Started, Errored] + [Cancelled]) == [Started, Errored];
    } else {
      assert [Started, Errored] + [] == [Started, Errored];
    }
    assert Front(log) == [Started, Errored] + if sh.cancelled then [Cancelled] else [];
    assert Completes(log) == 0 && Failures(log) == 0;
  }
}
