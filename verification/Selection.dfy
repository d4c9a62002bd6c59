/** From the filter configuration to the chain of stages, and what the chain selects. */
module Selection {
  import opened Objects
  import opened Filters
  import opened Network
  import opened AttributeRules
  import opened Guarantees

  /** A regular expression on keys; the engine may give up on a key. */
  type KeyRegex = string -> Option<bool>

  datatype FilterConfig = FilterConfig(
    deleteMarkerOnly: bool,
    beforeTime: Option<int>,
    afterTime: Option<int>,
    smallerSize: Option<nat>,
    largerSize: Option<nat>,
    includeRegex: Option<KeyRegex>,
    excludeRegex: Option<KeyRegex>,
    keepLatestOnly: bool)
  {
    // The predicates of the stages. Each rejects everything when its own setting is missing.

    predicate IsDeleteMarker(o: S3Object) {
      o.DeleteMarker?
    }

    predicate IsBefore(o: S3Object) {
      beforeTime.Some? && !(beforeTime.value <= o.modified)
    }

    predicate IsAfterOrEqual(o: S3Object) {
      afterTime.Some? && !(o.modified < afterTime.value)
    }

    /** A marker has no size, and a negative size is not trusted. */
    predicate IsSmaller(o: S3Object) {
      if o.DeleteMarker? then false
      else if smallerSize.None? then false
      else if o.Size() < 0 then false
      else o.UnsignedSize() < smallerSize.value
    }

    predicate IsLargerOrEqual(o: S3Object) {
      if o.DeleteMarker? then false
      else if largerSize.None? then false
      else if o.Size() < 0 then false
      else o.UnsignedSize() >= largerSize.value
    }

    predicate IsMatch(o: S3Object) {
      includeRegex.Some? && includeRegex.value(o.key) == Some(true)
    }

    /** A key on which the engine gives up is kept out of the deletion. */
    predicate IsNotMatch(o: S3Object) {
      excludeRegex.Some? && excludeRegex.value(o.key) == Some(false)
    }

    predicate IsNotLatest(o: S3Object) {
      !o.IsLatest()
    }

    /** What the configuration says an entry must be. Settings that are not given demand nothing. */
    predicate Matches(o: S3Object) {
      && (deleteMarkerOnly ==> o.DeleteMarker?)
      && (beforeTime.Some? ==> o.modified < beforeTime.value)
      && (afterTime.Some? ==> afterTime.value <= o.modified)
      && (smallerSize.Some? ==> !o.DeleteMarker? && 0 <= o.Size() && o.UnsignedSize() < smallerSize.value)
      && (largerSize.Some? ==> !o.DeleteMarker? && 0 <= o.Size() && largerSize.value <= o.UnsignedSize())
      && (includeRegex.Some? ==> includeRegex.value(o.key) == Some(true))
      && (excludeRegex.Some? ==> excludeRegex.value(o.key) == Some(false))
      && (keepLatestOnly ==> !o.NotVersioning? && o.latest == Some(false))
    }
  }

  function Part(wanted: bool, pass: S3Object -> bool): seq<Filter> {
    if wanted then [Simple(pass)] else []
  }

  /** The lister and the simple filters, in the order in which the pipeline chains them. */
  function SimpleStages(fc: FilterConfig): seq<Filter> {
    [Lister]
    + Part(fc.deleteMarkerOnly, fc.IsDeleteMarker)
    + Part(fc.beforeTime.Some?, fc.IsBefore)
    + Part(fc.afterTime.Some?, fc.IsAfterOrEqual)
    + Part(fc.smallerSize.Some?, fc.IsSmaller)
    + Part(fc.largerSize.Some?, fc.IsLargerOrEqual)
    + Part(fc.includeRegex.Some?, fc.IsMatch)
    + Part(fc.excludeRegex.Some?, fc.IsNotMatch)
    + Part(fc.keepLatestOnly, fc.IsNotLatest)
  }

  type Decision = (seq<S3Object>, S3Object) -> Verdict

  function CallbackStage(callback: Option<Decision>): seq<Filter> {
    if callback.Some? then [Callback(callback.value)] else []
  }

  function Stages(fc: FilterConfig, callback: Option<Decision>): seq<Filter> {
    SimpleStages(fc) + CallbackStage(callback)
  }

  /** The lister comes first and only there; the others are simple filters. */
  predicate IsSimpleChain(fs: seq<Filter>) {
    fs != [] && fs[0].Lister? && forall k :: 1 <= k < |fs| ==> fs[k].Simple?
  }

  /** Appends a stage that reads from the one before it, if its setting is given. */
  method AddStage(stages: seq<Filter>, wanted: bool, pass: S3Object -> bool) returns (r: seq<Filter>)
    ensures r == stages + Part(wanted, pass)
  {
    r := if wanted then stages + [Simple(pass)] else stages;
  }

  /** Builds the chain stage by stage. */
  method FilterObjects(fc: FilterConfig, callback: Option<Decision>) returns (stages: seq<Filter>)
    ensures stages ==
      [Lister]
      + (if fc.deleteMarkerOnly then [Simple(fc.IsDeleteMarker)] else [])
      + (if fc.beforeTime.Some? then [Simple(fc.IsBefore)] else [])
      + (if fc.afterTime.Some? then [Simple(fc.IsAfterOrEqual)] else [])
      + (if fc.smallerSize.Some? then [Simple(fc.IsSmaller)] else [])
      + (if fc.largerSize.Some? then [Simple(fc.IsLargerOrEqual)] else [])
      + (if fc.includeRegex.Some? then [Simple(fc.IsMatch)] else [])
      + (if fc.excludeRegex.Some? then [Simple(fc.IsNotMatch)] else [])
      + (if fc.keepLatestOnly then [Simple(fc.IsNotLatest)] else [])
      + (if callback.Some? then [Callback(callback.value)] else [])
    ensures stages == Stages(fc, callback)
  {
    stages := [Lister];
    stages := AddStage(stages, fc.deleteMarkerOnly, fc.IsDeleteMarker);
    stages := AddStage(stages, fc.beforeTime.Some?, fc.IsBefore);
    stages := AddStage(stages, fc.afterTime.Some?, fc.IsAfterOrEqual);
    stages := AddStage(stages, fc.smallerSize.Some?, fc.IsSmaller);
    stages := AddStage(stages, fc.largerSize.Some?, fc.IsLargerOrEqual);
    stages := AddStage(stages, fc.includeRegex.Some?, fc.IsMatch);
    stages := AddStage(stages, fc.excludeRegex.Some?, fc.IsNotMatch);
    stages := AddStage(stages, fc.keepLatestOnly, fc.IsNotLatest);
    if callback.Some? {
      stages := stages + [Callback(callback.value)];
    }
  }

  // What the chain selects

  lemma PassesAllAppend(a: seq<Filter>, b: seq<Filter>, o: S3Object)
    ensures PassesAll(a + b, o) <==> PassesAll(a, o) && PassesAll(b, o)
  {
    if PassesAll(a + b, o) {
      forall k | 0 <= k < |a| && a[k].Simple? ensures a[k].pass(o) {
        assert (a + b)[k] == a[k];
      }
      forall k | 0 <= k < |b| && b[k].Simple? ensures b[k].pass(o) {
        assert (a + b)[|a| + k] == b[k];
      }
    }
  }

  lemma PassesPart(wanted: bool, pass: S3Object -> bool, o: S3Object)
    ensures PassesAll(Part(wanted, pass), o) <==> (wanted ==> pass(o))
  {
    if wanted {
      assert Part(wanted, pass)[0].Simple?;
    }
  }

  /** Appends one part to a chain that demands `so` of the entry. */
  lemma PassesNext(fs: seq<Filter>, wanted: bool, pass: S3Object -> bool, o: S3Object)
    ensures PassesAll(fs + Part(wanted, pass), o) <==> PassesAll(fs, o) && (wanted ==> pass(o))
  {
    PassesAllAppend(fs, Part(wanted, pass), o);
    PassesPart(wanted, pass, o);
  }

  /** What the configuration demands of the listed fields. */
  lemma MatchesMeans(fc: FilterConfig, o: S3Object)
    ensures fc.Matches(o) <==>
      && (fc.deleteMarkerOnly ==> o.DeleteMarker?)
      && (fc.beforeTime.Some? ==> o.modified < fc.beforeTime.value)
      && (fc.afterTime.Some? ==> fc.afterTime.value <= o.modified)
      && (fc.smallerSize.Some? ==> !o.DeleteMarker? && 0 <= o.bytes && o.bytes % 0x1_0000_0000_0000_0000 < fc.smallerSize.value)
      && (fc.largerSize.Some? ==> !o.DeleteMarker? && 0 <= o.bytes && fc.largerSize.value <= o.bytes % 0x1_0000_0000_0000_0000)
      && (fc.includeRegex.Some? ==> fc.includeRegex.value(o.key) == Some(true))
      && (fc.excludeRegex.Some? ==> fc.excludeRegex.value(o.key) == Some(false))
      && (fc.keepLatestOnly ==> !o.NotVersioning? && o.latest == Some(false))
  {
  }

  lemma StagesAreMatches(fc: FilterConfig, o: S3Object)
    ensures PassesAll(SimpleStages(fc), o) <==> fc.Matches(o)
  {
    var a := [Lister] + Part(fc.deleteMarkerOnly, fc.IsDeleteMarker);
    PassesNext([Lister], fc.deleteMarkerOnly, fc.IsDeleteMarker, o);
    var b := a + Part(fc.beforeTime.Some?, fc.IsBefore);
    PassesNext(a, fc.beforeTime.Some?, fc.IsBefore, o);
    var d := b + Part(fc.afterTime.Some?, fc.IsAfterOrEqual);
    PassesNext(b, fc.afterTime.Some?, fc.IsAfterOrEqual, o);
    var e := d + Part(fc.smallerSize.Some?, fc.IsSmaller);
    PassesNext(d, fc.smallerSize.Some?, fc.IsSmaller, o);
    var f := e + Part(fc.largerSize.Some?, fc.IsLargerOrEqual);
    PassesNext(e, fc.largerSize.Some?, fc.IsLargerOrEqual, o);
    var g := f + Part(fc.includeRegex.Some?, fc.IsMatch);
    PassesNext(f, fc.includeRegex.Some?, fc.IsMatch, o);
    var h := g + Part(fc.excludeRegex.Some?, fc.IsNotMatch);
    PassesNext(g, fc.excludeRegex.Some?, fc.IsNotMatch, o);
    PassesNext(h, fc.keepLatestOnly, fc.IsNotLatest, o);
  }

  /** All stages together let an entry through exactly if it is what the settings demand. */
  lemma StagesMatch(fc: FilterConfig, o: S3Object)
    ensures PassesAll(SimpleStages(fc), o) <==> fc.Matches(o)
    ensures PassesAll(SimpleStages(fc), o) <==>
      && (fc.deleteMarkerOnly ==> o.DeleteMarker?)
      && (fc.beforeTime.Some? ==> o.modified < fc.beforeTime.value)
      && (fc.afterTime.Some? ==> fc.afterTime.value <= o.modified)
      && (fc.smallerSize.Some? ==> !o.DeleteMarker? && 0 <= o.bytes && o.bytes % 0x1_0000_0000_0000_0000 < fc.smallerSize.value)
      && (fc.largerSize.Some? ==> !o.DeleteMarker? && 0 <= o.bytes && fc.largerSize.value <= o.bytes % 0x1_0000_0000_0000_0000)
      && (fc.includeRegex.Some? ==> fc.includeRegex.value(o.key) == Some(true))
      && (fc.excludeRegex.Some? ==> fc.excludeRegex.value(o.key) == Some(false))
      && (fc.keepLatestOnly ==> !o.NotVersioning? && o.latest == Some(false))
  {
    hide PassesAll, SimpleStages, FilterConfig.Matches;
    StagesAreMatches(fc, o);
    MatchesMeans(fc, o);
  }

  lemma NextIsSimple(fs: seq<Filter>, wanted: bool, pass: S3Object -> bool)
    requires IsSimpleChain(fs)
    ensures IsSimpleChain(fs + Part(wanted, pass))
  {
  }

  lemma SimpleStagesAreSimple(fc: FilterConfig)
    ensures IsSimpleChain(SimpleStages(fc))
  {
    var a := [Lister] + Part(fc.deleteMarkerOnly, fc.IsDeleteMarker);
    var b := a + Part(fc.beforeTime.Some?, fc.IsBefore);
    NextIsSimple(a, fc.beforeTime.Some?, fc.IsBefore);
    var d := b + Part(fc.afterTime.Some?, fc.IsAfterOrEqual);
    NextIsSimple(b, fc.afterTime.Some?, fc.IsAfterOrEqual);
    var e := d + Part(fc.smallerSize.Some?, fc.IsSmaller);
    NextIsSimple(d, fc.smallerSize.Some?, fc.IsSmaller);
    var f := e + Part(fc.largerSize.Some?, fc.IsLargerOrEqual);
    NextIsSimple(e, fc.largerSize.Some?, fc.IsLargerOrEqual);
    var g := f + Part(fc.includeRegex.Some?, fc.IsMatch);
    NextIsSimple(f, fc.includeRegex.Some?, fc.IsMatch);
    var h := g + Part(fc.excludeRegex.Some?, fc.IsNotMatch);
    NextIsSimple(g, fc.excludeRegex.Some?, fc.IsNotMatch);
    NextIsSimple(h, fc.keepLatestOnly, fc.IsNotLatest);
  }

  /** Without a callback, the chain selects exactly the entries that the configuration describes, in the order of
      the listing: no order of the stages, no combination of settings makes a difference. */
  lemma ChainSelectsMatches(fc: FilterConfig, listing: seq<S3Object>)
    ensures Chain(Stages(fc, None), listing) == Where(fc.Matches, listing)
  {
    var fs := Stages(fc, None);
    assert fs == SimpleStages(fc);
    SimpleStagesAreSimple(fc);
    ChainIsConjunction(fs, listing);
    forall o: S3Object ensures PassesAll(fs, o) == fc.Matches(o) {
      StagesMatch(fc, o);
    }
    WhereSame((o: S3Object) => PassesAll(fs, o), fc.Matches, listing);
  }

  /** A callback comes last and sees only the entries that match. */
  lemma CallbackSeesMatches(fc: FilterConfig, decide: Decision, listing: seq<S3Object>)
    ensures Chain(Stages(fc, Some(decide)), listing) == Passed(Callback(decide), Where(fc.Matches, listing))
  {
    ChainSelectsMatches(fc, listing);
    assert Stages(fc, None) == SimpleStages(fc);
    assert Front(Stages(fc, Some(decide))) == Stages(fc, None);
  }

  // What a configured run hands to deletion

  ghost predicate Configured(c: Config, fc: FilterConfig, callback: Option<Decision>, rules: Rules) {
    && c.filters == Stages(fc, callback)
    && forall o :: c.attribute(o) == rules.AttributeOf(o)
  }

  /** The lister heads the chain and is nowhere else in it, so with a queue and a batch size of at least one the
      configuration is one that the network model covers. */
  lemma ConfiguredIsWellFormed(c: Config, fc: FilterConfig, callback: Option<Decision>, rules: Rules)
    requires Configured(c, fc, callback, rules)
    ensures c.WellFormed() <==> 1 <= c.queueSize && 1 <= c.batchSize
  {
    SimpleStagesAreSimple(fc);
  }

  /** In every state of every run, with or without a callback, cancelled or failed: whatever was handed to deletion
      was listed, matches the configuration, and is described by the attribute expressions. */
  lemma HandedIsMatched(c: Config, acts: seq<Action>, tr: seq<State>, fc: FilterConfig, callback: Option<Decision>, rules: Rules, o: S3Object)
    requires 1 <= c.queueSize && 1 <= c.batchSize
    requires Run(c, acts, tr) && Configured(c, fc, callback, rules)
    requires o in Handed(Last(tr).workers)
    ensures o in c.listing && fc.Matches(o) && rules.Describes(o)
    ensures
      && (fc.deleteMarkerOnly ==> o.DeleteMarker?)
      && (fc.beforeTime.Some? ==> o.modified < fc.beforeTime.value)
      && (fc.afterTime.Some? ==> fc.afterTime.value <= o.modified)
      && (fc.smallerSize.Some? ==> !o.DeleteMarker? && 0 <= o.bytes && o.bytes % 0x1_0000_0000_0000_0000 < fc.smallerSize.value)
      && (fc.largerSize.Some? ==> !o.DeleteMarker? && 0 <= o.bytes && fc.largerSize.value <= o.bytes % 0x1_0000_0000_0000_0000)
      && (fc.includeRegex.Some? ==> fc.includeRegex.value(o.key) == Some(true))
      && (fc.excludeRegex.Some? ==> fc.excludeRegex.value(o.key) == Some(false))
      && (fc.keepLatestOnly ==> !o.NotVersioning? && o.latest == Some(false))
  {
    MatchesMeans(fc, o);
    ConfiguredIsWellFormed(c, fc, callback, rules);
    OnlySelectedIsDeleted(c, acts, tr);
    assert c.attribute(o) == rules.AttributeOf(o);
    EligibleMeansDescribed(rules, o);
    assert PassesAll(c.filters, o);
    PassesAllAppend(SimpleStages(fc), CallbackStage(callback), o);
    StagesMatch(fc, o);
  }

  /** A filter on size, content type, metadata or tags is set. */
  predicate ScopesByAttribute(fc: FilterConfig, rules: Rules) {
    fc.smallerSize.Some? || fc.largerSize.Some? || rules.NeedsHead() || rules.NeedsTags()
  }

  lemma ScopesMeans(fc: FilterConfig, rules: Rules)
    ensures ScopesByAttribute(fc, rules) <==>
      || fc.smallerSize.Some? || fc.largerSize.Some?
      || rules.contentType.required.Some? || rules.contentType.banned.Some?
      || rules.metadata.required.Some? || rules.metadata.banned.Some?
      || rules.tags.required.Some? || rules.tags.banned.Some?
  {
  }

  /** With such a filter no delete marker is ever handed to deletion, so the run cannot bring back an object that a
      marker hides. */
  lemma NoMarkerIsHanded(c: Config, acts: seq<Action>, tr: seq<State>, fc: FilterConfig, callback: Option<Decision>, rules: Rules, o: S3Object)
    requires 1 <= c.queueSize && 1 <= c.batchSize
    requires Run(c, acts, tr) && Configured(c, fc, callback, rules)
    requires
      || fc.smallerSize.Some? || fc.largerSize.Some?
      || rules.contentType.required.Some? || rules.contentType.banned.Some?
      || rules.metadata.required.Some? || rules.metadata.banned.Some?
      || rules.tags.required.Some? || rules.tags.banned.Some?
    requires o in Handed(Last(tr).workers)
    ensures !o.DeleteMarker?
  {
    ScopesMeans(fc, rules);
    HandedIsMatched(c, acts, tr, fc, callback, rules, o);
  }

  /** Together with the marker filter it therefore selects nothing at all. */
  lemma MarkersByAttributeAreNone(c: Config, fc: FilterConfig, callback: Option<Decision>, rules: Rules)
    requires Configured(c, fc, callback, rules)
    requires fc.deleteMarkerOnly
    requires
      || fc.smallerSize.Some? || fc.largerSize.Some?
      || rules.contentType.required.Some? || rules.contentType.banned.Some?
      || rules.metadata.required.Some? || rules.metadata.banned.Some?
      || rules.tags.required.Some? || rules.tags.banned.Some?
    ensures c.Selected() == []
  {
    ScopesMeans(fc, rules);
    if c.Selected() != [] {
      var o := c.Selected()[0];
      assert o in c.Selected();
      WhereMember(c.Wants, Chain(c.filters, c.listing), o);
      ChainMember(c.filters, c.listing, o);
      assert c.attribute(o) == rules.AttributeOf(o);
      EligibleMeansDescribed(rules, o);
      assert PassesAll(c.filters, o);
      PassesAllAppend(SimpleStages(fc), CallbackStage(callback), o);
      StagesMatch(fc, o);
      assert false;
    }
  }
}
