/** The listed S3 entries that travel through the pipeline, and small sequence tools. */
module Objects {

  datatype Option<+T> = None | Some(value: T)

  const TWO_TO_THE_64 := 0x1_0000_0000_0000_0000

  /** What makes an entry unique in a bucket: its key and, when listed by version, its version id. */
  datatype Ident = Ident(key: string, version: Option<string>)

  datatype S3Object =
    | NotVersioning(key: string, bytes: int, tag: Option<string>, modified: int)
    | Versioning(key: string, versionId: Option<string>, bytes: int, tag: Option<string>, latest: Option<bool>, modified: int)
    | DeleteMarker(key: string, versionId: Option<string>, latest: Option<bool>, modified: int)
  {
    /** A signed 64-bit size in the source; a marker has size 0. */
    function Size(): int {
      if DeleteMarker? then 0 else bytes
    }

    /** The size as the deleter reports it, after its cast to an unsigned 64-bit number. */
    function UnsignedSize(): nat {
      Size() % TWO_TO_THE_64
    }

    function Version(): Option<string> {
      if NotVersioning? then None else versionId
    }

    function ETag(): Option<string> {
      if DeleteMarker? then None else tag
    }

    /** A missing flag, like an unversioned entry, counts as latest. */
    predicate IsLatest() {
      NotVersioning? || latest != Some(false)
    }

    function Id(): Ident {
      Ident(key, Version())
    }
  }

  function Ids(os: seq<S3Object>): (ids: seq<Ident>)
    ensures |ids| == |os|
    ensures forall k :: 0 <= k < |os| ==> ids[k] == os[k].Id()
  {
    seq(|os|, k requires 0 <= k < |os| => os[k].Id())
  }

  function Last<T>(s: seq<T>): T
    requires s != []
  {
    s[|s| - 1]
  }

  function Front<T>(s: seq<T>): seq<T>
    requires s != []
  {
    s[..|s| - 1]
  }

  function Min(a: int, b: int): int {
    if a <= b then a else b
  }

  lemma AppendAssociative<T>(a: seq<T>, b: seq<T>, c: seq<T>)
    ensures a + b + c == a + (b + c)
  {
  }

  /** The elements of `s` that satisfy `p`, in order. */
  function Where<T>(p: T -> bool, s: seq<T>): (r: seq<T>)
  {
    if s == [] then []
    else Where(p, Front(s)) + if p(Last(s)) then [Last(s)] else []
  }

  lemma {:induction false} WhereAppend<T>(p: T -> bool, a: seq<T>, b: seq<T>)
    ensures Where(p, a + b) == Where(p, a) + Where(p, b)
  {
    if b == [] {
      assert a + b == a;
    } else {
      assert Front(a + b) == a + Front(b);
      WhereAppend(p, a, Front(b));
    }
  }

  lemma {:induction false} WhereCount<T>(p: T -> bool, s: seq<T>, x: T)
    ensures multiset(Where(p, s))[x] == if p(x) then multiset(s)[x] else 0
  {
    if s != [] {
      WhereCount(p, Front(s), x);
      assert s == Front(s) + [Last(s)];
    }
  }

  /** Selecting does not depend on the order of arrival. */
  lemma WhereIgnoresOrder<T>(p: T -> bool, s: seq<T>, t: seq<T>)
    requires multiset(s) == multiset(t)
    ensures multiset(Where(p, s)) == multiset(Where(p, t))
  {
    var a, b := multiset(Where(p, s)), multiset(Where(p, t));
    forall x: T | x in a + b ensures a[x] == b[x] {
      WhereCount(p, s, x);
      WhereCount(p, t, x);
    }
    assert a == b;
  }

  lemma WhereMember<T>(p: T -> bool, s: seq<T>, x: T)
    ensures x in Where(p, s) <==> x in s && p(x)
  {
    WhereCount(p, s, x);
    assert x in Where(p, s) <==> multiset(Where(p, s))[x] > 0;
    assert x in s <==> multiset(s)[x] > 0;
  }
}
