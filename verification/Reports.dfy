/** From the identities in a deletion result back to the listed objects, their sizes and their events. */
module Reports {
  import opened Objects
  import opened Network
  import opened Backend
  import opened Surroundings

  predicate AllListed(batch: seq<S3Object>, ids: seq<Ident>) {
    forall k :: 0 <= k < |ids| ==> ids[k] in Lookup(batch)
  }

  /** The listed objects behind a list of identities. */
  function Resolve(batch: seq<S3Object>, ids: seq<Ident>): (os: seq<S3Object>)
    requires AllListed(batch, ids)
    ensures |os| == |ids|
  {
    if ids == [] then []
    else Resolve(batch, Front(ids)) + [Lookup(batch)[Last(ids)]]
  }

  lemma {:induction false} ResolveIds(batch: seq<S3Object>, ids: seq<Ident>)
    requires AllListed(batch, ids)
    ensures Ids(Resolve(batch, ids)) == ids
  {
    if ids != [] {
      ResolveIds(batch, Front(ids));
      LookupFinds(batch, Last(ids));
    }
  }

  function TotalSize(os: seq<S3Object>): nat {
    if os == [] then 0 else TotalSize(Front(os)) + Last(os).UnsignedSize()
  }

  lemma {:induction false} ResolveCount(batch: seq<S3Object>, ids: seq<Ident>, o: S3Object)
    requires AllListed(batch, ids) && DistinctIds(batch)
    ensures multiset(Resolve(batch, ids))[o] == if o in batch then multiset(ids)[o.Id()] else 0
  {
    if ids != [] {
      ResolveCount(batch, Front(ids), o);
      assert ids == Front(ids) + [Last(ids)];
      LookupFinds(batch, Last(ids));
      if o in batch {
        var k :| 0 <= k < |batch| && batch[k] == o;
        LookupOfDistinct(batch, k);
      }
    }
  }

  lemma PartsListed(batch: seq<S3Object>, a: seq<Ident>, b: seq<Ident>)
    requires multiset(a) + multiset(b) == multiset(Ids(batch))
    ensures AllListed(batch, a) && AllListed(batch, b)
  {
    forall k | 0 <= k < |a| ensures a[k] in Lookup(batch) {
      assert a[k] in multiset(a) && a[k] in multiset(Ids(batch));
      LookupFinds(batch, a[k]);
    }
    forall k | 0 <= k < |b| ensures b[k] in Lookup(batch) {
      assert b[k] in multiset(b) && b[k] in multiset(Ids(batch));
      LookupFinds(batch, b[k]);
    }
  }

  lemma {:induction false} DistinctObjectCount(os: seq<S3Object>, o: S3Object)
    requires DistinctIds(os)
    ensures multiset(os)[o] == if o in os then 1 else 0
  {
    if os != [] {
      DistinctObjectCount(Front(os), o);
      assert os == Front(os) + [Last(os)];
    }
  }

  /** Identities that partition a batch resolve to objects that partition it. */
  lemma ResolvePartition(batch: seq<S3Object>, deleted: seq<Ident>, failed: seq<Ident>)
    requires DistinctIds(batch)
    requires multiset(deleted) + multiset(failed) == multiset(Ids(batch))
    ensures AllListed(batch, deleted) && AllListed(batch, failed)
    ensures multiset(Resolve(batch, deleted)) + multiset(Resolve(batch, failed)) == multiset(batch)
  {
    PartsListed(batch, deleted, failed);
    var both := multiset(Resolve(batch, deleted)) + multiset(Resolve(batch, failed));
    forall o ensures both[o] == multiset(batch)[o] {
      ResolveCount(batch, deleted, o);
      ResolveCount(batch, failed, o);
      DistinctObjectCount(batch, o);
      if o in batch {
        DistinctCount(Ids(batch), o.Id());
        var k :| 0 <= k < |batch| && batch[k] == o;
        assert Ids(batch)[k] == o.Id();
        assert (multiset(deleted) + multiset(failed))[o.Id()] == multiset(Ids(batch))[o.Id()];
      }
    }
  }

  lemma ResolveStep(batch: seq<S3Object>, ids: seq<Ident>, k: nat)
    requires k < |ids| && AllListed(batch, ids)
    ensures AllListed(batch, ids[..k + 1]) && ids[k] in Lookup(batch)
    ensures Resolve(batch, ids[..k + 1]) == Resolve(batch, ids[..k]) + [Lookup(batch)[ids[k]]]
    ensures forall ok ::
      Announce(Resolve(batch, ids[..k + 1]), ok)
      == Announce(Resolve(batch, ids[..k]), ok) + [if ok then Completed(Lookup(batch)[ids[k]]) else Failed(Lookup(batch)[ids[k]])]
  {
    assert Front(ids[..k + 1]) == ids[..k];
    var before := Resolve(batch, ids[..k]);
    assert Front(before + [Lookup(batch)[ids[k]]]) == before;
  }

  function Flagged(sh: Shared, any: bool, stop: bool, messages: nat): Shared {
    sh.(errors := sh.errors + messages, warned := sh.warned || any, cancelled := sh.cancelled || stop, outside := sh.outside || stop)
  }

  predicate Counted(sh: Shared, d: seq<S3Object>, f: seq<S3Object>, a: Shared, b: Shared) {
    && a == sh.(deleted := sh.deleted + |d|, log := sh.log + Announce(d, true))
    && b == a.(failed := a.failed + |f|, log := a.log + Announce(f, false))
  }

  /** First the deleted entries, then the failed ones, then the messages and flags: together, the report. */
  lemma ReportedInSteps(c: Config, sh: Shared, d: seq<S3Object>, f: seq<S3Object>, messages: nat, any: bool, a: Shared, b: Shared)
    requires messages == |f| && any == (f != [])
    requires Counted(sh, d, f, a, b)
    ensures Flagged(b, any, any && c.warnAsError, messages) == Reported(c, sh, d, f)
  {
  }

  /** The shared state after an entry that the attribute filters do not let through. */
  function Settled(c: Config, sh: Shared, o: S3Object, a: Attribute): Shared {
    match a
    case Eligible => sh
    case Filtered => sh.(skips := sh.skips + 1, log := sh.log + if c.observed then [FilteredOut(o)] else [])
    case Missing => sh.(skips := sh.skips + 1)
    case Fatal(cancels) => sh.(faulted := true, cancelled := sh.cancelled || cancels, outside := sh.outside || cancels)
  }

  lemma SettledInStep(c: Config, v: View, o: S3Object)
    requires !c.attribute(o).Eligible?
    ensures ProcessStep(c, v, o).sh == Settled(c, v.sh, o, c.attribute(o))
  {
    var sh := ProcessStep(c, v, o).sh;
    match c.attribute(o)
    case Eligible =>
    case Filtered =>
    case Missing => assert sh.log == v.sh.log;
    case Fatal(_) => assert sh.log == v.sh.log;
  }

  lemma TotalSizeStep(os: seq<S3Object>, o: S3Object)
    ensures TotalSize(os + [o]) == TotalSize(os) + o.UnsignedSize()
  {
    assert Front(os + [o]) == os;
  }

  /** With sizes that are not negative, nothing is lost in the cast. */
  lemma {:induction false} TotalSizeIsSum(os: seq<S3Object>)
    requires forall k :: 0 <= k < |os| && !os[k].DeleteMarker? ==> 0 <= os[k].bytes < 0x1_0000_0000_0000_0000
    ensures TotalSize(os) == SumOfBytes(os)
  {
    if os != [] {
      TotalSizeIsSum(Front(os));
      var o := os[|os| - 1];
      assert !o.DeleteMarker? ==> 0 <= o.bytes < 0x1_0000_0000_0000_0000;
    }
  }

  /** The listed sizes, added up; a marker has none. */
  function SumOfBytes(os: seq<S3Object>): int {
    if os == [] then 0 else SumOfBytes(Front(os)) + if Last(os).DeleteMarker? then 0 else Last(os).bytes
  }
}
