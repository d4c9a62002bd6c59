/** What every action keeps about the channels and the filter stages: each stage has sent exactly what its
    decision function lets through of the input it has finished with. */
module StageSafety {
  import opened Objects
  import opened Filters
  import opened Network

  predicate StageOk(f: Filter, st: Stage, inp: Chan, outp: Chan) {
    && st.done <= inp.taken <= |inp.sent|
    && inp.taken <= st.done + 1
    && outp.taken <= |outp.sent|
    && outp.sent == Passed(f, inp.sent[..st.done])
    && (match st.pc
        case Check => st.done == inp.taken && !f.Callback?
        case Recv => st.done == inp.taken
        case Have(o) => st.done + 1 == inp.taken && o == inp.sent[st.done]
        case Sending(o) =>
          st.done + 1 == inp.taken && o == inp.sent[st.done] && Judge(f, inp.sent[..st.done], o) == Keep
        case Stopped => true)
  }

  predicate Bounded(c: Config, ch: Chan) {
    ch.Waiting() <= c.queueSize
  }

  predicate StagesOk(c: Config, s: State) {
    && Shape(c, s)
    && s.chans[0].sent == c.listing
    && (forall k :: 0 <= k < |s.stages| ==> StageOk(c.filters[k], s.stages[k], s.chans[k], s.chans[k + 1]))
    && (forall k :: 1 <= k < |s.chans| ==> Bounded(c, s.chans[k]))
    && Bounded(c, s.out)
  }

  lemma StageStepOk(c: Config, f: Filter, v: StageView, inClosed: bool, outClosed: bool, ch: Choice)
    requires StageOk(f, v.st, v.inp, v.outp)
    requires StageEnabled(c, f, v, inClosed, outClosed, ch)
    ensures
      var r := StageStep(c, f, v, outClosed, ch);
      && StageOk(f, r.st, r.inp, r.outp)
      && r.inp.sent == v.inp.sent && v.inp.taken <= r.inp.taken
      && v.outp.sent <= r.outp.sent && r.outp.taken == v.outp.taken
      && (Bounded(c, v.outp) ==> Bounded(c, r.outp))
  {
    hide Passed;
    var r := StageStep(c, f, v, outClosed, ch);
    if r.st.done == v.st.done + 1 {
      var o := v.st.pc.o;
      assert v.inp.sent[..v.st.done + 1] == v.inp.sent[..v.st.done] + [o];
      PassedStep(f, v.inp.sent[..v.st.done], o);
    }
  }

  lemma StageShares(c: Config, f: Filter, v: StageView, outClosed: bool, ch: Choice)
    requires v.st.done <= v.inp.taken <= |v.inp.sent|
    ensures StageStep(c, f, v, outClosed, ch).sh == StageShared(c, f, v, ch)
  {
  }

  /** A stage does not notice that its input grows or that its output is drained. */
  lemma StageOkElsewhere(f: Filter, st: Stage, inp: Chan, inp': Chan, outp: Chan, outp': Chan)
    requires StageOk(f, st, inp, outp)
    requires inp.sent <= inp'.sent && inp'.taken == inp.taken
    requires outp'.sent == outp.sent && outp'.taken <= |outp'.sent|
    ensures StageOk(f, st, inp', outp')
  {
    assert inp'.sent[..st.done] == inp.sent[..st.done];
  }

  lemma InitStagesOk(c: Config)
    requires c.WellFormed()
    ensures StagesOk(c, Init(c))
  {
    var s := Init(c);
    forall k | 0 <= k < |s.stages| ensures StageOk(c.filters[k], s.stages[k], s.chans[k], s.chans[k + 1]) {
      assert s.chans[k].sent[..0] == [];
    }
  }

  /** The rest of the chain is undisturbed by a step of stage `k` with the given outcome. */
  lemma ReplaceStage(c: Config, s: State, k: nat, r: StageView)
    requires StagesOk(c, s) && k < |s.stages|
    requires StageOk(c.filters[k], r.st, r.inp, r.outp)
    requires r.inp.sent == s.chans[k].sent && s.chans[k].taken <= r.inp.taken
    requires s.chans[k + 1].sent <= r.outp.sent && r.outp.taken == s.chans[k + 1].taken
    requires Bounded(c, r.outp)
    ensures StagesOk(c, ApplyStage(s, k, r))
  {
    var t := ApplyStage(s, k, r);
    forall j | 0 <= j < |t.stages| ensures StageOk(c.filters[j], t.stages[j], t.chans[j], t.chans[j + 1]) {
      if j != k {
        StageOkElsewhere(c.filters[j], s.stages[j], s.chans[j], t.chans[j], s.chans[j + 1], t.chans[j + 1]);
      }
    }
  }

  lemma StageActionKeepsStages(c: Config, s: State, k: nat, ch: Choice)
    requires StagesOk(c, s) && Enabled(c, s, OfStage(k, ch))
    ensures StagesOk(c, Apply(c, s, OfStage(k, ch)))
  {
    StageStepOk(c, c.filters[k], ViewOfStage(s, k), SendersGone(s, k), ReceiversGone(s, k), ch);
    ReplaceStage(c, s, k, StageStep(c, c.filters[k], ViewOfStage(s, k), ReceiversGone(s, k), ch));
  }

  lemma WorkerTakesFromQueue(c: Config, v: View, outClosed: bool, ch: Choice, inClosed: bool)
    requires v.inp.taken <= |v.inp.sent| && v.out.taken <= |v.out.sent|
    requires WorkerEnabled(c, v, inClosed, outClosed, ch)
    ensures
      var r := WorkerStep(c, v, outClosed, ch);
      && r.inp.sent == v.inp.sent && v.inp.taken <= r.inp.taken <= |r.inp.sent|
      && v.out.sent <= r.out.sent && r.out.taken == v.out.taken
      && (Bounded(c, v.out) ==> Bounded(c, r.out))
  {
  }

  lemma WorkerActionKeepsStages(c: Config, s: State, k: nat, ch: Choice)
    requires c.WellFormed()
    requires StagesOk(c, s) && Enabled(c, s, OfWorker(k, ch))
    ensures StagesOk(c, Apply(c, s, OfWorker(k, ch)))
  {
    hide WorkerStep;
    var v := ViewOfWorker(s, k);
    WorkerTakesFromQueue(c, v, s.drained, ch, SendersGone(s, |s.stages|));
    var r := WorkerStep(c, v, s.drained, ch);
    var t := ApplyWorker(s, k, r);
    forall j | 0 <= j < |t.stages| ensures StageOk(c.filters[j], t.stages[j], t.chans[j], t.chans[j + 1]) {
      StageOkElsewhere(c.filters[j], s.stages[j], s.chans[j], t.chans[j], s.chans[j + 1], t.chans[j + 1]);
    }
  }

  lemma ActionKeepsStages(c: Config, s: State, a: Action)
    requires c.WellFormed()
    requires StagesOk(c, s) && Enabled(c, s, a)
    ensures StagesOk(c, Apply(c, s, a))
  {
    match a
    case OfStage(k, ch) => StageActionKeepsStages(c, s, k, ch);
    case OfWorker(k, ch) => WorkerActionKeepsStages(c, s, k, ch);
    case _ =>
  }

  /** In every state, what has entered channel `k` is a prefix of what the first `k` stages let through of the
      whole listing: neither schedule, nor queue size, nor cancellation can reorder, add or skip an entry. */
  lemma {:induction false} ChannelsArePrefixes(c: Config, s: State, k: nat)
    requires StagesOk(c, s) && k < |s.chans|
    ensures s.chans[k].sent <= Chain(c.filters[..k], c.listing)
  {
    if k > 0 {
      ChannelsArePrefixes(c, s, k - 1);
      assert StageOk(c.filters[k - 1], s.stages[k - 1], s.chans[k - 1], s.chans[k]);
      assert Front(c.filters[..k]) == c.filters[..k - 1];
      PassedMonotone(c.filters[k - 1], s.chans[k - 1].sent[..s.stages[k - 1].done], Chain(c.filters[..k - 1], c.listing));
    }
  }
}
