/** The filters that need a request of their own: content type and metadata (HeadObject), tags (GetObjectTagging). */
module AttributeRules {
  import opened Objects
  import opened Network
  import opened Attributes

  /** A regular expression; the engine may give up on a text. */
  type Regex = Bytes -> Option<bool>

  datatype HeadOutput = HeadOutput(contentType: Option<Bytes>, metadata: Option<seq<Pair>>)

  datatype ApiReply<T> = Found(output: T) | NotFound | ApiError

  /** An include expression and an exclude expression for the same text. */
  datatype Both = Both(required: Option<Regex>, banned: Option<Regex>)
  {
    predicate IsSet() {
      required.Some? || banned.Some?
    }

    /** What the two expressions demand: the include expression matches a text that is there, the exclude
        expression does not match it, and the engine answers both questions. */
    predicate Accepts(text: Option<Bytes>) {
      && (required.Some? ==> text.Some? && required.value(text.value) == Some(true))
      && (banned.Some? && text.Some? ==> banned.value(text.value) == Some(false))
    }
  }

  /** Whether the entry passes one expression; nothing when the engine fails. */
  function DecideDeleteByRegex(regex: Option<Regex>, text: Option<Bytes>, isInclude: bool): Option<bool> {
    if regex.None? then Some(true)
    else if text.None? then Some(!isInclude)
    else match regex.value(text.value)
      case None => None
      case Some(m) => Some(if isInclude then m else !m)
  }

  function Verdict(decision: Option<bool>): Attribute {
    match decision
    case None => Fatal(false)
    case Some(pass) => if pass then Eligible else Filtered
  }

  function Then(a: Attribute, b: Attribute): Attribute {
    if a.Eligible? then b else a
  }

  function Decide(both: Both, text: Option<Bytes>): Attribute {
    Then(Verdict(DecideDeleteByRegex(both.required, text, true)), Verdict(DecideDeleteByRegex(both.banned, text, false)))
  }

  datatype Rules = Rules(
    contentType: Both,
    metadata: Both,
    tags: Both,
    head: Ident -> ApiReply<HeadOutput>,
    tagging: Ident -> ApiReply<seq<Pair>>)
  {
    predicate NeedsHead() {
      contentType.IsSet() || metadata.IsSet()
    }

    predicate NeedsTags() {
      tags.IsSet()
    }

    /** Absent and empty metadata are the same: no text at all. */
    function MetadataText(h: HeadOutput): Option<Bytes> {
      if h.metadata.None? || h.metadata.value == [] then None else Some(FormatMetadata(h.metadata.value))
    }

    function HeadAttribute(o: S3Object): Attribute {
      if !NeedsHead() then Eligible
      else if o.DeleteMarker? then Filtered
      else match head(o.Id())
        case NotFound => Missing
        case ApiError => Fatal(true)
        case Found(h) => Then(Decide(contentType, h.contentType), Decide(metadata, MetadataText(h)))
    }

    function TagAttribute(o: S3Object): Attribute {
      if !NeedsTags() then Eligible
      else if o.DeleteMarker? then Filtered
      else match tagging(o.Id())
        case NotFound => Missing
        case ApiError => Fatal(true)
        case Found(t) => Decide(tags, Some(FormatTags(t)))
    }

    function AttributeOf(o: S3Object): Attribute {
      Then(HeadAttribute(o), TagAttribute(o))
    }

    /** The entry is there, is no delete marker, and its texts satisfy the expressions. */
    predicate Describes(o: S3Object) {
      && (NeedsHead() ==>
           && !o.DeleteMarker?
           && head(o.Id()).Found?
           && contentType.Accepts(head(o.Id()).output.contentType)
           && metadata.Accepts(MetadataText(head(o.Id()).output)))
      && (NeedsTags() ==>
           && !o.DeleteMarker?
           && tagging(o.Id()).Found?
           && tags.Accepts(Some(FormatTags(tagging(o.Id()).output))))
    }
  }

  lemma DecideAccepts(both: Both, text: Option<Bytes>)
    ensures Decide(both, text).Eligible? <==> both.Accepts(text)
  {
  }

  /** The workers let through exactly the entries that the configured expressions describe. */
  lemma EligibleMeansDescribed(r: Rules, o: S3Object)
    ensures r.AttributeOf(o).Eligible? <==> r.Describes(o)
  {
    if r.NeedsHead() && r.head(o.Id()).Found? {
      DecideAccepts(r.contentType, r.head(o.Id()).output.contentType);
      DecideAccepts(r.metadata, r.MetadataText(r.head(o.Id()).output));
    }
    if r.NeedsTags() && r.tagging(o.Id()).Found? {
      DecideAccepts(r.tags, Some(FormatTags(r.tagging(o.Id()).output)));
    }
  }

  /** The verdict on content type and metadata, case by case: what is asked in which order, what rejects, what is a
      failure and of which kind. */
  lemma HeadVerdict(r: Rules, o: S3Object)
    ensures
      if r.contentType.required.None? && r.contentType.banned.None? && r.metadata.required.None? && r.metadata.banned.None? then r.HeadAttribute(o) == Eligible
      else if o.DeleteMarker? then r.HeadAttribute(o) == Filtered
      else match r.head(Ident(o.key, if o.NotVersioning? then None else o.versionId))
        case NotFound => r.HeadAttribute(o) == Missing
        case ApiError => r.HeadAttribute(o) == Fatal(true)
        case Found(h) =>
          var text := if h.metadata.None? || h.metadata.value == [] then None else Some(FormatMetadata(h.metadata.value));
          r.HeadAttribute(o) ==
            if r.contentType.required.Some? && (h.contentType.None? || r.contentType.required.value(h.contentType.value) == Some(false)) then Filtered
            else if r.contentType.required.Some? && r.contentType.required.value(h.contentType.value) == None then Fatal(false)
            else if r.contentType.banned.Some? && h.contentType.Some? && r.contentType.banned.value(h.contentType.value) == Some(true) then Filtered
            else if r.contentType.banned.Some? && h.contentType.Some? && r.contentType.banned.value(h.contentType.value) == None then Fatal(false)
            else if r.metadata.required.Some? && (text.None? || r.metadata.required.value(text.value) == Some(false)) then Filtered
            else if r.metadata.required.Some? && r.metadata.required.value(text.value) == None then Fatal(false)
            else if r.metadata.banned.Some? && text.Some? && r.metadata.banned.value(text.value) == Some(true) then Filtered
            else if r.metadata.banned.Some? && text.Some? && r.metadata.banned.value(text.value) == None then Fatal(false)
            else Eligible
  {
  }

  /** The same for tags. */
  lemma TagVerdict(r: Rules, o: S3Object)
    ensures
      if r.tags.required.None? && r.tags.banned.None? then r.TagAttribute(o) == Eligible
      else if o.DeleteMarker? then r.TagAttribute(o) == Filtered
      else match r.tagging(Ident(o.key, if o.NotVersioning? then None else o.versionId))
        case NotFound => r.TagAttribute(o) == Missing
        case ApiError => r.TagAttribute(o) == Fatal(true)
        case Found(t) =>
          r.TagAttribute(o) ==
            if r.tags.required.Some? && r.tags.required.value(FormatTags(t)) == Some(false) then Filtered
            else if r.tags.required.Some? && r.tags.required.value(FormatTags(t)) == None then Fatal(false)
            else if r.tags.banned.Some? && r.tags.banned.value(FormatTags(t)) == Some(true) then Filtered
            else if r.tags.banned.Some? && r.tags.banned.value(FormatTags(t)) == None then Fatal(false)
            else Eligible
  {
  }

  /** The order in which a store lists metadata or tags does not change any verdict. */
  lemma VerdictIgnoresOrder(r: Rules, q: Rules, o: S3Object)
    requires q == r.(head := q.head, tagging := q.tagging)
    requires SameHead(r.head(o.Id()), q.head(o.Id())) && SameTags(r.tagging(o.Id()), q.tagging(o.Id()))
    ensures r.AttributeOf(o) == q.AttributeOf(o)
  {
    if r.tagging(o.Id()).Found? {
      TagsAreCanonical(r.tagging(o.Id()).output);
    }
    if r.head(o.Id()).Found? && r.head(o.Id()).output.metadata.Some? {
      MetadataIsCanonical(r.head(o.Id()).output.metadata.value, q.head(o.Id()).output.metadata.value);
    }
  }

  predicate SameTags(a: ApiReply<seq<Pair>>, b: ApiReply<seq<Pair>>) {
    if a.Found? then b.Found? && OneValuePerKey(a.output) && multiset(a.output) == multiset(b.output) else a == b
  }

  predicate SameHead(a: ApiReply<HeadOutput>, b: ApiReply<HeadOutput>) {
    if a.Found? && a.output.metadata.Some? then
      && b.Found? && b.output.metadata.Some?
      && a.output.contentType == b.output.contentType
      && DistinctKeys(a.output.metadata.value)
      && multiset(a.output.metadata.value) == multiset(b.output.metadata.value)
    else
      a == b
  }
}
