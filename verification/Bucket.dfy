/** What runs do to a versioned bucket: every key has a history of object versions and delete markers, and the last
    one is what a reader sees. */
module Bucket {
  import opened Objects
  import opened Filters
  import opened Network
  import opened Guarantees
  import opened AttributeRules
  import opened Selection

  /** An object version, or a delete marker if it has no content. */
  datatype Entry = Entry(id: string, content: Option<string>)

  type Bucket = map<string, seq<Entry>>

  /** What happens to the bucket: a version is removed by its id, or a writer adds an entry on top. Overwriting an
      object and deleting it without a version id both add an entry. */
  datatype Change = Remove(key: string, id: string) | Add(key: string, entry: Entry)

  predicate Without(id: string, e: Entry) {
    e.id != id
  }

  function History(b: Bucket, key: string): seq<Entry> {
    if key in b then b[key] else []
  }

  function Do(b: Bucket, ch: Change): Bucket {
    match ch
    case Remove(key, id) => if key in b then b[key := Where((e: Entry) => Without(id, e), b[key])] else b
    case Add(key, entry) => b[key := History(b, key) + [entry]]
  }

  function DoAll(b: Bucket, h: seq<Change>): Bucket {
    if h == [] then b else Do(DoAll(b, Front(h)), Last(h))
  }

  /** What a reader sees under a key: the content of its last entry, or nothing. */
  function Visible(b: Bucket, key: string): Option<string> {
    if History(b, key) == [] then None else Last(History(b, key)).content
  }

  function IdsOf(es: seq<Entry>): set<string> {
    set k | 0 <= k < |es| :: es[k].id
  }

  predicate DistinctEntries(es: seq<Entry>) {
    forall i, j :: 0 <= i < j < |es| ==> es[i].id != es[j].id
  }

  /** No key has two entries with the same id. */
  predicate Sane(b: Bucket) {
    forall key :: key in b ==> DistinctEntries(b[key])
  }

  /** The same history without the removals. */
  function Additions(h: seq<Change>): seq<Change> {
    if h == [] then [] else Additions(Front(h)) + if Last(h).Add? then [Last(h)] else []
  }

  /** The ids that have ever been under a key. */
  function Ever(b: Bucket, h: seq<Change>, key: string): set<string> {
    if h == [] then IdsOf(History(b, key))
    else Ever(b, Front(h), key) + if Last(h).Add? && Last(h).key == key then {Last(h).entry.id} else {}
  }

  /** Writers never reuse an id. */
  predicate FreshIds(b: Bucket, h: seq<Change>) {
    h == [] || (FreshIds(b, Front(h)) && (Last(h).Add? ==> Last(h).entry.id !in Ever(b, Front(h), Last(h).key)))
  }

  /** The entry is there, with another one on top of it. */
  predicate Below(b: Bucket, key: string, id: string) {
    History(b, key) != [] && id in IdsOf(Front(History(b, key)))
  }

  /** At some moment before the k-th change the entry was below the top. */
  predicate OnceBelow(b: Bucket, h: seq<Change>, k: nat, key: string, id: string)
    requires k <= |h|
  {
    exists n :: 0 <= n <= k && Below(DoAll(b, h[..n]), key, id)
  }

  /** Under this key, an entry is removed only after it has been below the top. */
  predicate SparesTop(b: Bucket, h: seq<Change>, key: string) {
    forall k :: 0 <= k < |h| && h[k].Remove? && h[k].key == key ==> OnceBelow(b, h, k, key, h[k].id)
  }

  lemma DoNext(b: Bucket, h: seq<Change>, m: nat)
    requires m < |h|
    ensures DoAll(b, h[..m + 1]) == Do(DoAll(b, h[..m]), h[m])
  {
    assert Front(h[..m + 1]) == h[..m];
  }

  lemma EverNext(b: Bucket, h: seq<Change>, m: nat, key: string)
    requires m < |h|
    ensures Ever(b, h[..m + 1], key) == Ever(b, h[..m], key) + if h[m].Add? && h[m].key == key then {h[m].entry.id} else {}
  {
    assert Front(h[..m + 1]) == h[..m];
  }

  lemma {:induction false} FreshPrefix(b: Bucket, h: seq<Change>, m: nat)
    requires FreshIds(b, h) && m <= |h|
    ensures FreshIds(b, h[..m])
    ensures m < |h| && h[m].Add? ==> h[m].entry.id !in Ever(b, h[..m], h[m].key)
  {
    if m == |h| {
      assert h[..m] == h;
    } else if m == |h| - 1 {
      assert h[..m] == Front(h);
    } else {
      FreshPrefix(b, Front(h), m);
      assert Front(h)[..m] == h[..m];
    }
  }

  lemma {:induction false} LastSurvives(p: Entry -> bool, es: seq<Entry>)
    requires es != [] && p(Last(es))
    ensures Where(p, es) != [] && Last(Where(p, es)) == Last(es)
  {
  }

  lemma {:induction false} WhereKeepsDistinct(p: Entry -> bool, es: seq<Entry>)
    requires DistinctEntries(es)
    ensures DistinctEntries(Where(p, es)) && IdsOf(Where(p, es)) <= IdsOf(es)
  {
    if es != [] {
      var most := Front(es);
      assert forall k :: 0 <= k < |most| ==> most[k] == es[k];
      WhereKeepsDistinct(p, most);
      assert IdsOf(most) <= IdsOf(es) by { PartOfIds(most, es); }
      NoLaterId(es);
      assert es[|es| - 1] == Last(es) && Last(es).id in IdsOf(es);
      forall k | 0 <= k < |Where(p, most)| ensures Where(p, most)[k].id != Last(es).id {
        assert Where(p, most)[k].id in IdsOf(Where(p, most));
      }
    }
  }

  lemma PartOfIds(part: seq<Entry>, es: seq<Entry>)
    requires part <= es
    ensures IdsOf(part) <= IdsOf(es)
  {
    forall id | id in IdsOf(part) ensures id in IdsOf(es) {
      var k :| 0 <= k < |part| && part[k].id == id;
      assert es[k].id == id;
    }
  }

  lemma NoLaterId(es: seq<Entry>)
    requires DistinctEntries(es) && es != []
    ensures Last(es).id !in IdsOf(Front(es))
  {
  }

  /** At every moment the ids under a key are distinct and among those that have ever been there. */
  lemma {:induction false} StaysSane(b: Bucket, h: seq<Change>, m: nat, key: string)
    requires Sane(b) && FreshIds(b, h) && m <= |h|
    ensures
      var es := History(DoAll(b, h[..m]), key);
      DistinctEntries(es) && IdsOf(es) <= Ever(b, h[..m], key)
  {
    if m == 0 {
      assert h[..0] == [];
    } else {
      StaysSane(b, h, m - 1, key);
      DoNext(b, h, m - 1);
      EverNext(b, h, m - 1, key);
      FreshPrefix(b, h, m - 1);
      StepStaysSane(DoAll(b, h[..m - 1]), h[m - 1], key, Ever(b, h[..m - 1], key));
    }
  }

  lemma StepStaysSane(now: Bucket, ch: Change, key: string, ever: set<string>)
    requires DistinctEntries(History(now, key)) && IdsOf(History(now, key)) <= ever
    requires ch.Add? && ch.key == key ==> ch.entry.id !in ever
    ensures
      var es := History(Do(now, ch), key);
      DistinctEntries(es) && IdsOf(es) <= ever + if ch.Add? && ch.key == key then {ch.entry.id} else {}
  {
    var es := History(now, key);
    if ch.key == key {
      if ch.Add? {
        AddKeepsDistinct(es, ch.entry, ever);
      } else {
        WhereKeepsDistinct((e: Entry) => Without(ch.id, e), es);
      }
    }
  }

  lemma AddKeepsDistinct(es: seq<Entry>, e: Entry, ever: set<string>)
    requires DistinctEntries(es) && IdsOf(es) <= ever && e.id !in ever
    ensures DistinctEntries(es + [e]) && IdsOf(es + [e]) <= ever + {e.id}
  {
    forall k | 0 <= k < |es| ensures es[k].id != e.id {
      assert es[k].id in IdsOf(es);
    }
    forall id | id in IdsOf(es + [e]) ensures id in ever + {e.id} {
      var k :| 0 <= k < |es + [e]| && (es + [e])[k].id == id;
      if k < |es| {
        assert es[k].id in IdsOf(es);
      }
    }
  }

  lemma {:induction false} EverGrows(b: Bucket, h: seq<Change>, n: nat, m: nat, key: string)
    requires n <= m <= |h|
    ensures Ever(b, h[..n], key) <= Ever(b, h[..m], key)
  {
    if n < m {
      EverGrows(b, h, n, m - 1, key);
      EverNext(b, h, m - 1, key);
    }
  }

  lemma BelowIsNotTop(b: Bucket, h: seq<Change>, key: string, n: nat, id: string)
    requires Sane(b) && FreshIds(b, h) && n <= |h| && Below(DoAll(b, h[..n]), key, id)
    ensures
      var es := History(DoAll(b, h[..n]), key);
      es != [] && Last(es).id != id
  {
    StaysSane(b, h, n, key);
    NoLaterId(History(DoAll(b, h[..n]), key));
  }

  lemma BelowWasThere(b: Bucket, h: seq<Change>, key: string, n: nat, m: nat, id: string)
    requires Sane(b) && FreshIds(b, h) && n <= m <= |h| && Below(DoAll(b, h[..n]), key, id)
    ensures id in Ever(b, h[..m], key)
  {
    StaysSane(b, h, n, key);
    EverGrows(b, h, n, m, key);
    PartOfIds(Front(History(DoAll(b, h[..n]), key)), History(DoAll(b, h[..n]), key));
  }

  lemma StepNotOnTop(now: Bucket, ch: Change, key: string, id: string)
    requires History(now, key) != [] && Last(History(now, key)).id != id
    requires ch.key == key ==> ch.Add? && ch.entry.id != id
    ensures History(Do(now, ch), key) != [] && Last(History(Do(now, ch), key)).id != id
  {
  }

  /** What was below the top once is never on top again, as long as only such entries are removed. */
  lemma {:induction false} NeverOnTop(b: Bucket, h: seq<Change>, key: string, n: nat, m: nat, id: string)
    requires Sane(b) && FreshIds(b, h) && SparesTop(b, h, key)
    requires n <= m <= |h| && Below(DoAll(b, h[..n]), key, id)
    ensures
      var es := History(DoAll(b, h[..m]), key);
      es != [] && Last(es).id != id
    decreases m, 0
  {
    hide FreshIds, Sane, SparesTop, Do, Below, IdsOf, DistinctEntries;
    if n == m {
      BelowIsNotTop(b, h, key, n, id);
    } else {
      NeverOnTop(b, h, key, n, m - 1, id);
      DoNext(b, h, m - 1);
      FreshPrefix(b, h, m - 1);
      BelowWasThere(b, h, key, n, m - 1, id);
      if h[m - 1].Remove? && h[m - 1].key == key {
        RemovedIsNotTop(b, h, key, m - 1);
      } else {
        StepNotOnTop(DoAll(b, h[..m - 1]), h[m - 1], key, id);
      }
    }
  }

  /** A removal leaves the top where it is. */
  lemma {:induction false} RemovedIsNotTop(b: Bucket, h: seq<Change>, key: string, m: nat)
    requires Sane(b) && FreshIds(b, h) && SparesTop(b, h, key)
    requires m < |h| && h[m].Remove? && h[m].key == key
    ensures
      var es, next := History(DoAll(b, h[..m]), key), History(DoAll(b, h[..m + 1]), key);
      es != [] && next != [] && Last(next) == Last(es)
    decreases m, 1
  {
    var i :| 0 <= i <= m && Below(DoAll(b, h[..i]), key, h[m].id);
    NeverOnTop(b, h, key, i, m, h[m].id);
    DoNext(b, h, m);
    LastSurvives((e: Entry) => Without(h[m].id, e), History(DoAll(b, h[..m]), key));
  }

  /** Both histories are empty, or they end with the same entry. */
  predicate SameTop(now: seq<Entry>, alone: seq<Entry>) {
    if now == [] then alone == [] else alone != [] && Last(now) == Last(alone)
  }

  lemma AdditionsNext(h: seq<Change>, m: nat)
    requires m < |h|
    ensures Additions(h[..m + 1]) == Additions(h[..m]) + if h[m].Add? then [h[m]] else []
  {
    assert Front(h[..m + 1]) == h[..m];
  }

  /** Removing entries that have been below the top changes nothing that a reader sees: at every moment and under any
      key, the last entry is the one that the writers alone would have left there. */
  lemma TopIsUnchanged(b: Bucket, h: seq<Change>, key: string, m: nat)
    requires Sane(b) && FreshIds(b, h) && SparesTop(b, h, key) && m <= |h|
    ensures SameTop(History(DoAll(b, h[..m]), key), History(DoAll(b, Additions(h[..m])), key))
    ensures Visible(DoAll(b, h[..m]), key) == Visible(DoAll(b, Additions(h[..m])), key)
  {
    TopStays(b, h, key, m);
  }

  lemma {:induction false} TopStays(b: Bucket, h: seq<Change>, key: string, m: nat)
    requires Sane(b) && FreshIds(b, h) && SparesTop(b, h, key) && m <= |h|
    ensures SameTop(History(DoAll(b, h[..m]), key), History(DoAll(b, Additions(h[..m])), key))
  {
    hide Do, FreshIds, Sane, SparesTop;
    if m == 0 {
      assert h[..0] == [];
    } else {
      TopStays(b, h, key, m - 1);
      DoNext(b, h, m - 1);
      AdditionsNext(h, m - 1);
      if h[m - 1].Add? {
        TopAfterAdd(DoAll(b, h[..m - 1]), b, Additions(h[..m - 1]), h[m - 1], key);
      } else {
        assert Additions(h[..m]) == Additions(h[..m - 1]);
        if h[m - 1].key == key {
          RemovedIsNotTop(b, h, key, m - 1);
        } else {
          UntouchedElsewhere(DoAll(b, h[..m - 1]), h[m - 1], key);
        }
      }
    }
  }

  lemma UntouchedElsewhere(now: Bucket, ch: Change, key: string)
    requires ch.key != key
    ensures History(Do(now, ch), key) == History(now, key)
  {
  }

  lemma TopAfterAdd(now: Bucket, b: Bucket, adds: seq<Change>, ch: Change, key: string)
    requires ch.Add? && SameTop(History(now, key), History(DoAll(b, adds), key))
    ensures SameTop(History(Do(now, ch), key), History(DoAll(b, adds + [ch]), key))
  {
    assert Front(adds + [ch]) == adds;
    AddedOnTop(now, ch, key);
    AddedOnTop(DoAll(b, adds), ch, key);
  }

  lemma AddedOnTop(b: Bucket, ch: Change, key: string)
    requires ch.Add?
    ensures History(Do(b, ch), key) == if ch.key == key then History(b, key) + [ch.entry] else History(b, key)
  {
  }

  // Removals alone

  predicate OnlyRemovals(h: seq<Change>) {
    forall k :: 0 <= k < |h| ==> h[k].Remove?
  }

  predicate Kept(h: seq<Change>, key: string, e: Entry) {
    Remove(key, e.id) !in h
  }

  /** Removals take effect in any order and any number of times: what is left of a history are the entries that
      none of them names. */
  lemma {:induction false} RemovalsCommute(b: Bucket, h: seq<Change>, key: string)
    requires OnlyRemovals(h)
    ensures History(DoAll(b, h), key) == Where((e: Entry) => Remove(key, e.id) !in h, History(b, key))
    ensures History(DoAll(b, h), key) == Where((e: Entry) => Kept(h, key, e), History(b, key))
  {
    WhereSame((e: Entry) => Remove(key, e.id) !in h, (e: Entry) => Kept(h, key, e), History(b, key));
    var now := (e: Entry) => Kept(h, key, e);
    if h == [] {
      WhereAll(now, History(b, key));
    } else {
      var front, last := Front(h), Last(h);
      assert forall k :: 0 <= k < |front| ==> front[k] == h[k];
      assert h[|h| - 1] == last && h == front + [last];
      RemovalsCommute(b, front, key);
      var before := (e: Entry) => Kept(front, key, e);
      if last.key == key {
        WhereTwice(before, (e: Entry) => Without(last.id, e), now, History(b, key));
      } else {
        WhereSame(before, now, History(b, key));
      }
    }
  }

  /** Without writers, the last entry of a key is still there and still the last exactly when it was not removed. */
  lemma TopStaysUnlessRemoved(b: Bucket, h: seq<Change>, key: string)
    requires Sane(b) && OnlyRemovals(h) && History(b, key) != []
    ensures
      var now := History(DoAll(b, h), key);
      now != [] && Last(now) == Last(History(b, key)) <==> Remove(key, Last(History(b, key)).id) !in h
  {
    var kept := (e: Entry) => Kept(h, key, e);
    var es := History(b, key);
    RemovalsCommute(b, h, key);
    if Kept(h, key, Last(es)) {
      LastSurvives(kept, es);
    } else if Where(kept, es) != [] {
      assert Last(Where(kept, es)) in Where(kept, es);
      WhereMember(kept, es, Last(Where(kept, es)));
    }
  }

  /** What a writer adds is what a reader sees, whatever was there; other keys are not concerned, and nothing is lost
      below. */
  lemma AddedIsVisible(b: Bucket, key: string, e: Entry, other: string)
    ensures Visible(Do(b, Add(key, e)), key) == e.content
    ensures History(Do(b, Add(key, e)), key) == History(b, key) + [e]
    ensures other != key ==> Visible(Do(b, Add(key, e)), other) == Visible(b, other)
  {
  }

  /** Why a marker must not be removed lightly: without it, the entry below it is visible again. */
  lemma RemovedMarkerUncovers(b: Bucket, key: string, es: seq<Entry>, marker: Entry)
    requires Sane(b) && key in b && b[key] == es + [marker] && es != [] && marker.content.None?
    ensures Visible(b, key) == None && Visible(Do(b, Remove(key, marker.id)), key) == Last(es).content
  {
    var p := (e: Entry) => Without(marker.id, e);
    assert b[key][|es| - 1] == Last(es) && b[key][|es|] == marker;
    LastSurvives(p, es);
    assert Front(es + [marker]) == es;
  }

  // Runs of the pipeline

  /** The entry was listed from this bucket: with its version id, its kind, and whether it was the last. */
  predicate ListedFrom(b: Bucket, o: S3Object) {
    && !o.NotVersioning?
    && o.versionId.Some?
    && exists j :: 0 <= j < |History(b, o.key)| && Shows(History(b, o.key), j, o)
  }

  predicate Shows(es: seq<Entry>, j: nat, o: S3Object)
    requires !o.NotVersioning? && o.versionId.Some? && j < |es|
  {
    && es[j].id == o.versionId.value
    && (es[j].content.None? <==> o.DeleteMarker?)
    && o.latest == Some(j == |es| - 1)
  }

  predicate Names(o: S3Object, ch: Change) {
    ch.Remove? && o.key == ch.key && o.Version() == Some(ch.id)
  }

  /** The k-th change removes this entry, which had been listed when `n` changes had happened. */
  predicate Follows(b: Bucket, h: seq<Change>, k: nat, o: S3Object, n: nat)
    requires k < |h|
  {
    n <= k && Names(o, h[k]) && ListedFrom(DoAll(b, h[..n]), o)
  }

  /** Every removal concerns an entry that had been handed to deletion and, before that, listed. Each entry is listed
      at its own moment, while writers and the run itself change the bucket. How much of what was handed over is
      removed, how often it is tried and in which order, is left open. */
  ghost predicate RemovesOnly(b: Bucket, h: seq<Change>, handed: multiset<S3Object>) {
    forall k :: 0 <= k < |h| && h[k].Remove? ==> exists o, n :: o in handed && Follows(b, h, k, o, n)
  }

  /** Every entry of a bucket can be listed, as what it is and as the latest or not, and once it is handed to deletion a
      removal of it is one that is covered here. */
  lemma ListedCanBeRemoved(b: Bucket, key: string, j: nat, size: int, tag: Option<string>, modified: int) returns (o: S3Object)
    requires j < |History(b, key)|
    ensures o.key == key && !o.NotVersioning? && o.versionId == Some(History(b, key)[j].id)
    ensures o.DeleteMarker? <==> History(b, key)[j].content.None?
    ensures o.latest == Some(j == |History(b, key)| - 1)
    ensures ListedFrom(b, o) && RemovesOnly(b, [Remove(key, History(b, key)[j].id)], multiset{o})
  {
    var es := History(b, key);
    var latest := Some(j == |es| - 1);
    o := if es[j].content.None? then DeleteMarker(key, Some(es[j].id), latest, modified)
         else Versioning(key, Some(es[j].id), size, tag, latest, modified);
    assert Shows(es, j, o);
    var h := [Remove(key, es[j].id)];
    assert h[..0] == [];
    assert Follows(b, h, 0, o, 0);
  }

  predicate Hidden(b: Bucket, key: string) {
    History(b, key) != [] && Last(History(b, key)).content.None?
  }

  /** What is listed as not the latest, or as an object under a key that a marker hides, is below the top. */
  lemma ListedBelow(b: Bucket, o: S3Object, id: string)
    requires ListedFrom(b, o) && o.Version() == Some(id)
    requires o.latest == Some(false) || (Hidden(b, o.key) && !o.DeleteMarker?)
    ensures Below(b, o.key, id)
  {
    var es := History(b, o.key);
    var j :| 0 <= j < |es| && Shows(es, j, o);
    assert Front(es)[j].id == id;
  }

  /** Removals of entries that were listed as not the latest, whenever that was, keep the view. */
  lemma StaleRemovalsKeepTheView(b: Bucket, h: seq<Change>, handed: multiset<S3Object>, m: nat, key: string)
    requires Sane(b) && FreshIds(b, h) && RemovesOnly(b, h, handed) && m <= |h|
    requires forall o :: o in handed ==> !o.IsLatest()
    ensures Visible(DoAll(b, h[..m]), key) == Visible(DoAll(b, Additions(h[..m])), key)
    ensures OnlyRemovals(h) ==> Visible(DoAll(b, h[..m]), key) == Visible(b, key)
  {
    forall k | 0 <= k < |h| && h[k].Remove? && h[k].key == key ensures OnceBelow(b, h, k, key, h[k].id) {
      var o, n: nat :| o in handed && Follows(b, h, k, o, n);
      ListedBelow(DoAll(b, h[..n]), o, h[k].id);
    }
    TopIsUnchanged(b, h, key, m);
    NoAdditions(h[..m]);
  }

  /** Whatever is removed under this key was listed while a marker hid it. */
  ghost predicate ListedWhileHidden(b: Bucket, h: seq<Change>, handed: multiset<S3Object>, key: string) {
    forall k :: 0 <= k < |h| && h[k].Remove? && h[k].key == key ==>
      exists o, n: nat :: o in handed && Follows(b, h, k, o, n) && Hidden(DoAll(b, h[..n]), key)
  }

  /** Removals of objects that were listed under a key while a marker hid it keep what a reader sees there. */
  lemma HiddenRemovalsKeepTheView(b: Bucket, h: seq<Change>, handed: multiset<S3Object>, m: nat, key: string)
    requires Sane(b) && FreshIds(b, h) && ListedWhileHidden(b, h, handed, key) && m <= |h|
    requires forall o :: o in handed ==> !o.DeleteMarker?
    ensures SameTop(History(DoAll(b, h[..m]), key), History(DoAll(b, Additions(h[..m])), key))
    ensures Visible(DoAll(b, h[..m]), key) == Visible(DoAll(b, Additions(h[..m])), key)
  {
    forall k | 0 <= k < |h| && h[k].Remove? && h[k].key == key ensures OnceBelow(b, h, k, key, h[k].id) {
      var o, n: nat :| o in handed && Follows(b, h, k, o, n) && Hidden(DoAll(b, h[..n]), key);
      ListedBelow(DoAll(b, h[..n]), o, h[k].id);
    }
    TopIsUnchanged(b, h, key, m);
  }

  predicate NotAddedTo(h: seq<Change>, key: string) {
    forall k :: 0 <= k < |h| ==> !(h[k].Add? && h[k].key == key)
  }

  lemma NotAddedBefore(h: seq<Change>, n: nat, m: nat, key: string)
    requires n <= m <= |h| && NotAddedTo(h[..m], key)
    ensures NotAddedTo(h[..n], key)
    ensures n < m ==> !(h[n].Add? && h[n].key == key)
  {
    assert forall k :: 0 <= k < n ==> h[..n][k] == h[..m][k];
    if n < m {
      assert h[..m][n] == h[n];
    }
  }

  lemma WhoNamed(b: Bucket, h: seq<Change>, handed: multiset<S3Object>, k: nat) returns (o: S3Object, n: nat)
    requires RemovesOnly(b, h, handed) && k < |h| && h[k].Remove?
    ensures o in handed && n <= k && Follows(b, h, k, o, n)
  {
    var x, m: nat :| x in handed && Follows(b, h, k, x, m);
    o, n := x, m;
  }

  /** A change that does not concern the last entry of a key leaves it where it is. */
  lemma StepSparesTop(now: Bucket, ch: Change, key: string)
    requires History(now, key) != []
    requires ch.key == key ==> ch.Remove? && Last(History(now, key)).id != ch.id
    ensures History(Do(now, ch), key) != [] && Last(History(Do(now, ch), key)) == Last(History(now, key))
  {
    if ch.key == key {
      LastSurvives((e: Entry) => Without(ch.id, e), History(now, key));
    }
  }

  /** The marker stays on top until a writer adds to its key. */
  lemma {:induction false} MarkerStays(b: Bucket, h: seq<Change>, handed: multiset<S3Object>, m: nat, key: string)
    requires Sane(b) && FreshIds(b, h) && RemovesOnly(b, h, handed) && m <= |h|
    requires forall o :: o in handed ==> !o.DeleteMarker?
    requires Hidden(b, key) && NotAddedTo(h[..m], key)
    ensures Hidden(DoAll(b, h[..m]), key) && Last(History(DoAll(b, h[..m]), key)) == Last(History(b, key))
    decreases m
  {
    hide Do, FreshIds, Sane, RemovesOnly, Follows;
    if m == 0 {
      assert h[..0] == [];
    } else {
      NotAddedBefore(h, m - 1, m, key);
      MarkerStays(b, h, handed, m - 1, key);
      DoNext(b, h, m - 1);
      if h[m - 1].key == key {
        var o, n := WhoNamed(b, h, handed, m - 1);
        NotAddedBefore(h, n, m, key);
        MarkerStays(b, h, handed, n, key);
        MarkerIsNotNamed(b, h, m - 1, n, o, key);
      }
      StepSparesTop(DoAll(b, h[..m - 1]), h[m - 1], key);
    }
  }

  /** A listed object has another id than the marker that hides it. */
  lemma MarkerIsNotNamed(b: Bucket, h: seq<Change>, k: nat, n: nat, o: S3Object, key: string)
    requires Sane(b) && FreshIds(b, h) && k < |h| && h[k].Remove? && h[k].key == key && Follows(b, h, k, o, n)
    requires Hidden(DoAll(b, h[..n]), key) && !o.DeleteMarker?
    ensures Last(History(DoAll(b, h[..n]), key)).id != h[k].id
  {
    StaysSane(b, h, n, key);
    ListedBelow(DoAll(b, h[..n]), o, h[k].id);
    NoLaterId(History(DoAll(b, h[..n]), key));
  }

  /** With keep-latest-only, in every state of every run, whether complete, cancelled or half failed, and whatever
      writers add while it lists and deletes: at every moment and under every key a reader sees exactly what the
      writers alone would have left. */
  lemma KeepLatestKeepsTheView(c: Config, acts: seq<Action>, tr: seq<State>, fc: FilterConfig, callback: Option<Decision>, rules: Rules,
      b: Bucket, h: seq<Change>, m: nat, key: string)
    requires 1 <= c.queueSize && 1 <= c.batchSize
    requires Run(c, acts, tr) && Configured(c, fc, callback, rules) && fc.keepLatestOnly
    requires Sane(b) && FreshIds(b, h) && RemovesOnly(b, h, Handed(Last(tr).workers)) && m <= |h|
    ensures Visible(DoAll(b, h[..m]), key) == Visible(DoAll(b, Additions(h[..m])), key)
    ensures OnlyRemovals(h) ==> Visible(DoAll(b, h[..m]), key) == Visible(b, key)
  {
    var handed := Handed(Last(tr).workers);
    forall o | o in handed ensures !o.IsLatest() {
      HandedIsMatched(c, acts, tr, fc, callback, rules, o);
    }
    StaleRemovalsKeepTheView(b, h, handed, m, key);
  }

  lemma NoHandedMarker(c: Config, acts: seq<Action>, tr: seq<State>, fc: FilterConfig, callback: Option<Decision>, rules: Rules)
    requires 1 <= c.queueSize && 1 <= c.batchSize
    requires Run(c, acts, tr) && Configured(c, fc, callback, rules) && ScopesByAttribute(fc, rules)
    ensures forall o :: o in Handed(Last(tr).workers) ==> !o.DeleteMarker?
  {
    forall o | o in Handed(Last(tr).workers) ensures !o.DeleteMarker? {
      NoMarkerIsHanded(c, acts, tr, fc, callback, rules, o);
    }
  }

  /** With a filter on size, content type, metadata or tags, a run removes nothing of what a reader would see under a
      key whose entries were listed while a delete marker hid it. */
  lemma HiddenKeysAreSafe(c: Config, acts: seq<Action>, tr: seq<State>, fc: FilterConfig, callback: Option<Decision>, rules: Rules,
      b: Bucket, h: seq<Change>, m: nat, key: string)
    requires 1 <= c.queueSize && 1 <= c.batchSize
    requires Run(c, acts, tr) && Configured(c, fc, callback, rules) && ScopesByAttribute(fc, rules)
    requires Sane(b) && FreshIds(b, h) && ListedWhileHidden(b, h, Handed(Last(tr).workers), key) && m <= |h|
    ensures SameTop(History(DoAll(b, h[..m]), key), History(DoAll(b, Additions(h[..m])), key))
    ensures Visible(DoAll(b, h[..m]), key) == Visible(DoAll(b, Additions(h[..m])), key)
  {
    NoHandedMarker(c, acts, tr, fc, callback, rules);
    HiddenRemovalsKeepTheView(b, h, Handed(Last(tr).workers), m, key);
  }

  /** No resurrection: with such a filter, a key that a marker hides stays hidden, by the same marker, at every moment
      until a writer adds to it, whenever its entries are listed. */
  lemma NoResurrection(c: Config, acts: seq<Action>, tr: seq<State>, fc: FilterConfig, callback: Option<Decision>, rules: Rules,
      b: Bucket, h: seq<Change>, m: nat, key: string)
    requires 1 <= c.queueSize && 1 <= c.batchSize
    requires Run(c, acts, tr) && Configured(c, fc, callback, rules) && ScopesByAttribute(fc, rules)
    requires Sane(b) && FreshIds(b, h) && RemovesOnly(b, h, Handed(Last(tr).workers)) && m <= |h|
    requires Hidden(b, key) && NotAddedTo(h[..m], key)
    ensures Hidden(DoAll(b, h[..m]), key) && Last(History(DoAll(b, h[..m]), key)) == Last(History(b, key))
    ensures Visible(DoAll(b, h[..m]), key) == None
  {
    NoHandedMarker(c, acts, tr, fc, callback, rules);
    MarkerStays(b, h, Handed(Last(tr).workers), m, key);
  }

  lemma {:induction false} NoAdditions(h: seq<Change>)
    ensures OnlyRemovals(h) ==> Additions(h) == []
  {
    if h != [] && OnlyRemovals(h) {
      assert forall k :: 0 <= k < |h| - 1 ==> Front(h)[k] == h[k];
      assert h[|h| - 1].Remove?;
      NoAdditions(Front(h));
    }
  }
}
