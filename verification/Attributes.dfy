/** The strings that tag and metadata filters match against: sorted, percent-encoded, joined. Strings are their
    UTF-8 bytes, which is what the source compares and encodes. */
module Attributes {
  import opened Objects

  type byte = b: int | 0 <= b < 256
  type Bytes = seq<byte>

  datatype Pair = Pair(key: Bytes, value: Bytes)

  const PERCENT: byte := 37
  const AMPERSAND: byte := 38
  const COMMA: byte := 44
  const EQUALS: byte := 61

  // Percent-encoding (sections 2.1 and 2.3 of RFC 3986)

  predicate Unreserved(b: byte) {
    || 65 <= b <= 90
    || 97 <= b <= 122
    || 48 <= b <= 57
    || b == 45 || b == 46 || b == 95 || b == 126
  }

  function Hex(n: nat): byte
    requires n < 16
  {
    if n < 10 then 48 + n else 55 + n
  }

  function Unhex(b: byte): Option<nat> {
    if 48 <= b <= 57 then Some(b - 48) else if 65 <= b <= 70 then Some(b - 55) else None
  }

  function EncodeByte(b: byte): Bytes {
    if Unreserved(b) then [b] else [PERCENT, Hex(b / 16), Hex(b % 16)]
  }

  function Encode(s: Bytes): Bytes {
    if s == [] then [] else EncodeByte(s[0]) + Encode(s[1..])
  }

  function Decode(s: Bytes): Option<Bytes> {
    if s == [] then Some([])
    else if s[0] != PERCENT then
      match Decode(s[1..])
      case None => None
      case Some(rest) => Some([s[0]] + rest)
    else if |s| < 3 || Unhex(s[1]).None? || Unhex(s[2]).None? then None
    else
      match Decode(s[3..])
      case None => None
      case Some(rest) => Some([16 * Unhex(s[1]).value + Unhex(s[2]).value] + rest)
  }

  lemma {:induction false} DecodeEncode(s: Bytes)
    ensures Decode(Encode(s)) == Some(s)
  {
    if s != [] {
      var e, rest := EncodeByte(s[0]), Encode(s[1..]);
      DecodeEncode(s[1..]);
      assert (e + rest)[|e|..] == rest;
      assert [s[0]] + s[1..] == s;
      if !Unreserved(s[0]) {
        assert Unhex(Hex(s[0] / 16)) == Some(s[0] / 16) && Unhex(Hex(s[0] % 16)) == Some(s[0] % 16);
      }
    }
  }

  /** An encoding contains no separator of either format. */
  lemma {:induction false} EncodeIsSafe(s: Bytes)
    ensures forall b :: b in Encode(s) ==> Unreserved(b) || b == PERCENT
    ensures EQUALS !in Encode(s) && AMPERSAND !in Encode(s) && COMMA !in Encode(s)
  {
    if s != [] {
      EncodeIsSafe(s[1..]);
    }
  }

  /** Letters, digits and the four marks stay; every other byte becomes a percent sign and two upper-case digits. */
  lemma EncodeMeans(b: byte, rest: Bytes)
    ensures Encode([b] + rest) == Encode([b]) + Encode(rest)
    ensures
      if 'A' as int <= b <= 'Z' as int || 'a' as int <= b <= 'z' as int || '0' as int <= b <= '9' as int || b in {45, 46, 95, 126}
      then Encode([b]) == [b]
      else Encode([b]) == [37, Digit(b / 16), Digit(b % 16)]
  {
    assert ([b] + rest)[1..] == rest && [b][1..] == [];
  }

  function Digit(n: nat): byte
    requires n < 16
  {
    "0123456789ABCDEF"[n] as int
  }

  // Byte order and the stable sort by key

  predicate Le(a: Bytes, b: Bytes) {
    a == [] || (b != [] && (a[0] < b[0] || (a[0] == b[0] && Le(a[1..], b[1..]))))
  }

  lemma {:induction false} LeTotal(a: Bytes, b: Bytes)
    ensures Le(a, b) || Le(b, a)
  {
    if a != [] && b != [] {
      LeTotal(a[1..], b[1..]);
    }
  }

  lemma {:induction false} LeAntisymmetric(a: Bytes, b: Bytes)
    requires Le(a, b) && Le(b, a)
    ensures a == b
  {
    if a != [] && b != [] {
      LeAntisymmetric(a[1..], b[1..]);
      assert a == [a[0]] + a[1..] && b == [b[0]] + b[1..];
    }
  }

  lemma {:induction false} LeTransitive(a: Bytes, b: Bytes, c: Bytes)
    requires Le(a, b) && Le(b, c)
    ensures Le(a, c)
  {
    if a != [] && a[0] == b[0] == c[0] {
      LeTransitive(a[1..], b[1..], c[1..]);
    }
  }

  /** The order is that of a dictionary: a beginning comes first, and the first byte that differs decides. */
  lemma {:induction false} LeIsLexicographic(p: Bytes, x: byte, y: byte, s: Bytes, t: Bytes)
    requires x < y
    ensures Le(p, p + s) && (s != [] ==> !Le(p + s, p))
    ensures Le(p + [x] + s, p + [y] + t) && !Le(p + [y] + t, p + [x] + s)
  {
    var a, b := p + [x] + s, p + [y] + t;
    if p != [] {
      LeIsLexicographic(p[1..], x, y, s, t);
      assert a[1..] == p[1..] + [x] + s && b[1..] == p[1..] + [y] + t && (p + s)[1..] == p[1..] + s;
    }
  }

  /** Insert after every pair whose key is not greater. */
  function Insert(p: Pair, s: seq<Pair>): seq<Pair> {
    if s == [] then [p]
    else if Le(Last(s).key, p.key) then s + [p]
    else Insert(p, Front(s)) + [Last(s)]
  }

  /** The stable sort by key. */
  function Sort(ps: seq<Pair>): seq<Pair> {
    if ps == [] then [] else Insert(Last(ps), Sort(Front(ps)))
  }

  predicate Sorted(s: seq<Pair>) {
    forall i, j :: 0 <= i < j < |s| ==> Le(s[i].key, s[j].key)
  }

  function WithKey(k: Bytes, s: seq<Pair>): seq<Pair> {
    if s == [] then [] else WithKey(k, Front(s)) + if Last(s).key == k then [Last(s)] else []
  }

  lemma WithKeyStep(k: Bytes, s: seq<Pair>, p: Pair)
    ensures WithKey(k, s + [p]) == WithKey(k, s) + if p.key == k then [p] else []
  {
    assert Front(s + [p]) == s;
  }

  lemma {:induction false} WithKeyAppend(k: Bytes, s: seq<Pair>, t: seq<Pair>)
    ensures WithKey(k, s + t) == WithKey(k, s) + WithKey(k, t)
  {
    if t == [] {
      assert s + t == s;
    } else {
      assert Front(s + t) == s + Front(t);
      WithKeyAppend(k, s, Front(t));
    }
  }

  lemma {:induction false} WithKeyMember(k: Bytes, s: seq<Pair>, p: Pair)
    ensures p in WithKey(k, s) <==> p in s && p.key == k
  {
    if s != [] {
      WithKeyMember(k, Front(s), p);
    }
  }

  lemma {:induction false} InsertSorts(p: Pair, s: seq<Pair>)
    requires Sorted(s)
    ensures Sorted(Insert(p, s))
    ensures multiset(Insert(p, s)) == multiset(s) + multiset{p}
    ensures forall q :: q in Insert(p, s) ==> q == p || q in s
  {
    if s == [] {
    } else if Le(Last(s).key, p.key) {
      forall i | 0 <= i < |s| ensures Le(s[i].key, p.key) {
        if i < |s| - 1 {
          LeTransitive(s[i].key, Last(s).key, p.key);
        }
      }
    } else {
      InsertSorts(p, Front(s));
      LeTotal(p.key, Last(s).key);
      var r := Insert(p, Front(s));
      forall i | 0 <= i < |r| ensures Le(r[i].key, Last(s).key) {
        assert r[i] in r;
      }
      assert s == Front(s) + [Last(s)];
    }
  }

  /** Among pairs with the same key, an insertion comes last. */
  lemma {:induction false} InsertIsStable(p: Pair, s: seq<Pair>, k: Bytes)
    requires Sorted(s)
    ensures WithKey(k, Insert(p, s)) == WithKey(k, s + [p])
  {
    WithKeyStep(k, s, p);
    if s == [] {
      assert s + [p] == [p];
    } else if !Le(Last(s).key, p.key) {
      InsertIsStable(p, Front(s), k);
      WithKeyStep(k, Front(s), p);
      WithKeyStep(k, Insert(p, Front(s)), Last(s));
      if Last(s).key == k && p.key == k {
        LeTotal(k, k);
        assert false;
      }
    }
  }

  lemma {:induction false} SortSorts(ps: seq<Pair>)
    ensures Sorted(Sort(ps))
    ensures multiset(Sort(ps)) == multiset(ps)
    ensures |Sort(ps)| == |ps|
    ensures forall k :: WithKey(k, Sort(ps)) == WithKey(k, ps)
  {
    if ps != [] {
      SortSorts(Front(ps));
      InsertSorts(Last(ps), Sort(Front(ps)));
      assert ps == Front(ps) + [Last(ps)];
      forall k ensures WithKey(k, Sort(ps)) == WithKey(k, ps) {
        InsertIsStable(Last(ps), Sort(Front(ps)), k);
        WithKeyStep(k, Sort(Front(ps)), Last(ps));
        WithKeyStep(k, Front(ps), Last(ps));
      }
      assert |Sort(ps)| == |multiset(Sort(ps))| == |multiset(ps)| == |ps|;
    }
  }

  lemma WithKeyLast(s: seq<Pair>)
    requires s != []
    ensures WithKey(Last(s).key, s) != [] && Last(WithKey(Last(s).key, s)) == Last(s)
  {
  }

  lemma LastKeyIsGreatest(s: seq<Pair>, t: seq<Pair>)
    requires Sorted(t) && s != [] && t != []
    requires forall k :: WithKey(k, s) == WithKey(k, t)
    ensures Le(Last(s).key, Last(t).key)
  {
    var p := Last(s);
    WithKeyLast(s);
    WithKeyMember(p.key, s, p);
    WithKeyMember(p.key, t, p);
    assert p in WithKey(p.key, s);
    var i :| 0 <= i < |t| && t[i] == p;
    LeTotal(p.key, p.key);
  }

  /** A sorted list is determined by the order of its pairs within each key. */
  lemma {:induction false} SortedIsDetermined(s: seq<Pair>, t: seq<Pair>)
    requires Sorted(s) && Sorted(t)
    requires forall k :: WithKey(k, s) == WithKey(k, t)
    ensures s == t
  {
    if s == [] && t != [] {
      WithKeyLast(t);
    } else if s != [] && t == [] {
      WithKeyLast(s);
    } else if s != [] {
      LastKeyIsGreatest(s, t);
      LastKeyIsGreatest(t, s);
      LeAntisymmetric(Last(s).key, Last(t).key);
      WithKeyLast(s);
      WithKeyLast(t);
      forall k ensures WithKey(k, Front(s)) == WithKey(k, Front(t)) {
        assert WithKey(k, s) == WithKey(k, t);
        DropLast(k, s, t);
      }
      SortedIsDetermined(Front(s), Front(t));
      assert s == Front(s) + [Last(s)] && t == Front(t) + [Last(t)];
    }
  }

  lemma DropLast(k: Bytes, s: seq<Pair>, t: seq<Pair>)
    requires s != [] && t != [] && Last(s) == Last(t)
    requires WithKey(k, s) == WithKey(k, t)
    ensures WithKey(k, Front(s)) == WithKey(k, Front(t))
  {
    if Last(s).key == k {
      assert WithKey(k, Front(s)) == Front(WithKey(k, s));
      assert WithKey(k, Front(t)) == Front(WithKey(k, t));
    }
  }

  lemma SameOrderSameSort(p: seq<Pair>, q: seq<Pair>)
    requires forall k :: WithKey(k, p) == WithKey(k, q)
    ensures Sort(p) == Sort(q)
  {
    SortSorts(p);
    SortSorts(q);
    forall k ensures WithKey(k, Sort(p)) == WithKey(k, Sort(q)) {
      assert WithKey(k, p) == WithKey(k, q);
    }
    SortedIsDetermined(Sort(p), Sort(q));
  }

  lemma SameSortSameOrder(p: seq<Pair>, q: seq<Pair>, k: Bytes)
    requires Sort(p) == Sort(q)
    ensures WithKey(k, p) == WithKey(k, q)
  {
    SortSorts(p);
    SortSorts(q);
    assert WithKey(k, Sort(p)) == WithKey(k, p);
  }

  // Joining and splitting

  function Join(parts: seq<Bytes>, sep: byte): Bytes {
    if parts == [] then []
    else if |parts| == 1 then parts[0]
    else parts[0] + [sep] + Join(parts[1..], sep)
  }

  function Split(s: Bytes, sep: byte): (parts: seq<Bytes>)
    ensures parts != []
  {
    if s == [] then [[]]
    else
      var rest := Split(s[1..], sep);
      if s[0] == sep then [[]] + rest else [[s[0]] + rest[0]] + rest[1..]
  }

  lemma {:induction false} SplitOne(s: Bytes, sep: byte)
    requires sep !in s
    ensures Split(s, sep) == [s]
  {
    if s != [] {
      SplitOne(s[1..], sep);
      assert [s[0]] + s[1..] == s;
    }
  }

  lemma {:induction false} SplitFirst(a: Bytes, s: Bytes, sep: byte)
    requires sep !in a
    ensures Split(a + [sep] + s, sep) == [a] + Split(s, sep)
  {
    var t := a + [sep] + s;
    if a == [] {
      assert t[1..] == s;
    } else {
      SplitFirst(a[1..], s, sep);
      assert t[1..] == a[1..] + [sep] + s;
      assert [a[0]] + a[1..] == a;
      assert ([a[1..]] + Split(s, sep))[1..] == Split(s, sep);
    }
  }

  lemma {:induction false} SplitJoin(parts: seq<Bytes>, sep: byte)
    requires parts != []
    requires forall k :: 0 <= k < |parts| ==> sep !in parts[k]
    ensures Split(Join(parts, sep), sep) == parts
  {
    if |parts| == 1 {
      SplitOne(parts[0], sep);
    } else {
      SplitJoin(parts[1..], sep);
      SplitFirst(parts[0], Join(parts[1..], sep), sep);
    }
  }

  lemma {:induction false} SplitSize(s: Bytes, sep: byte)
    ensures |Split(s, sep)| == multiset(s)[sep] + 1
  {
    if s != [] {
      SplitSize(s[1..], sep);
      assert s == [s[0]] + s[1..];
    }
  }

  /** A join has a separator between any two parts, and those inside the parts. */
  lemma {:induction false} JoinSeparators(parts: seq<Bytes>, sep: byte, k: nat)
    requires k < |parts|
    ensures multiset(Join(parts, sep))[sep] >= |parts| - 1 + multiset(parts[k])[sep]
  {
    if |parts| > 1 {
      JoinSeparators(parts[1..], sep, if k == 0 then 0 else k - 1);
    }
  }

  /** Cut at the last equals sign. */
  function Cut(s: Bytes): Option<(Bytes, Bytes)> {
    if s == [] then None
    else if Last(s) == EQUALS then Some((Front(s), []))
    else
      match Cut(Front(s))
      case None => None
      case Some((a, b)) => Some((a, b + [Last(s)]))
  }

  lemma {:induction false} CutAtEquals(a: Bytes, b: Bytes)
    requires EQUALS !in b
    ensures Cut(a + [EQUALS] + b) == Some((a, b))
  {
    var s := a + [EQUALS] + b;
    if b == [] {
      assert Front(s) == a;
    } else {
      assert Front(s) == a + [EQUALS] + Front(b);
      CutAtEquals(a, Front(b));
      assert Front(b) + [Last(b)] == b;
    }
  }

  // The two formats

  /** Metadata keys are written as they are; tag keys are encoded. Values are always encoded. */
  datatype Format = Format(sep: byte, rawKeys: bool)

  const TAGS := Format(AMPERSAND, false)
  const METADATA := Format(COMMA, true)

  function Render(f: Format, p: Pair): Bytes {
    (if f.rawKeys then p.key else Encode(p.key)) + [EQUALS] + Encode(p.value)
  }

  function RenderAll(f: Format, ps: seq<Pair>): (parts: seq<Bytes>)
    ensures |parts| == |ps|
    ensures forall k :: 0 <= k < |ps| ==> parts[k] == Render(f, ps[k])
  {
    seq(|ps|, k requires 0 <= k < |ps| => Render(f, ps[k]))
  }

  function FormatTags(tags: seq<Pair>): Bytes {
    Join(RenderAll(TAGS, Sort(tags)), AMPERSAND)
  }

  /** The entries of the hash map, in whatever order it yields its keys. */
  function FormatMetadata(entries: seq<Pair>): Bytes {
    Join(RenderAll(METADATA, Sort(entries)), COMMA)
  }

  function ParsePair(f: Format, part: Bytes): Option<Pair> {
    match Cut(part)
    case None => None
    case Some((a, b)) =>
      var key := if f.rawKeys then Some(a) else Decode(a);
      var value := Decode(b);
      if key.None? || value.None? then None else Some(Pair(key.value, value.value))
  }

  function ParsePairs(f: Format, parts: seq<Bytes>): (r: Option<seq<Pair>>)
    ensures r.Some? ==> |r.value| == |parts|
  {
    if parts == [] then Some([])
    else
      var first, rest := ParsePair(f, parts[0]), ParsePairs(f, parts[1..]);
      if first.None? || rest.None? then None else Some([first.value] + rest.value)
  }

  function Parse(f: Format, s: Bytes): Option<seq<Pair>> {
    if s == [] then Some([]) else ParsePairs(f, Split(s, f.sep))
  }

  lemma ParseRender(f: Format, p: Pair)
    ensures ParsePair(f, Render(f, p)) == Some(p)
  {
    DecodeEncode(p.key);
    DecodeEncode(p.value);
    EncodeIsSafe(p.value);
    CutAtEquals(if f.rawKeys then p.key else Encode(p.key), Encode(p.value));
  }

  lemma {:induction false} ParseRenderAll(f: Format, ps: seq<Pair>)
    ensures ParsePairs(f, RenderAll(f, ps)) == Some(ps)
  {
    if ps != [] {
      ParseRender(f, ps[0]);
      ParseRenderAll(f, ps[1..]);
      assert RenderAll(f, ps)[0] == Render(f, ps[0]);
      assert RenderAll(f, ps)[1..] == RenderAll(f, ps[1..]);
      assert [ps[0]] + ps[1..] == ps;
    }
  }

  lemma JoinNotEmpty(f: Format, ps: seq<Pair>)
    requires ps != []
    ensures Join(RenderAll(f, ps), f.sep) != []
  {
    assert EQUALS in Render(f, ps[0]);
  }

  lemma ParseFormat(f: Format, ps: seq<Pair>)
    requires forall k :: 0 <= k < |ps| ==> f.sep !in Render(f, ps[k])
    ensures Parse(f, Join(RenderAll(f, ps), f.sep)) == Some(ps)
  {
    if ps != [] {
      JoinNotEmpty(f, ps);
      SplitJoin(RenderAll(f, ps), f.sep);
      ParseRenderAll(f, ps);
    }
  }

  /** The tag string determines the sorted tag list, for every list of tags. */
  lemma TagsRoundTrip(tags: seq<Pair>)
    ensures Parse(TAGS, FormatTags(tags)) == Some(Sort(tags))
  {
    forall k | 0 <= k < |Sort(tags)| ensures AMPERSAND !in Render(TAGS, Sort(tags)[k]) {
      EncodeIsSafe(Sort(tags)[k].key);
      EncodeIsSafe(Sort(tags)[k].value);
    }
    ParseFormat(TAGS, Sort(tags));
  }

  /** Equal keys carry equal values. */
  predicate OneValuePerKey(ps: seq<Pair>) {
    forall i, j :: 0 <= i < |ps| && 0 <= j < |ps| && ps[i].key == ps[j].key ==> ps[i] == ps[j]
  }

  lemma {:induction false} WithKeyCount(k: Bytes, s: seq<Pair>, p: Pair)
    requires p.key == k
    requires forall q :: q in s && q.key == k ==> q == p
    ensures WithKey(k, s) == seq(multiset(s)[p], _ => p)
  {
    if s != [] {
      WithKeyCount(k, Front(s), p);
      assert s == Front(s) + [Last(s)];
      assert multiset(s)[p] == multiset(Front(s))[p] + if Last(s) == p then 1 else 0;
    }
  }

  lemma OrderIsIrrelevant(p: seq<Pair>, q: seq<Pair>)
    requires OneValuePerKey(p) && multiset(p) == multiset(q)
    ensures Sort(p) == Sort(q)
  {
    forall k ensures WithKey(k, p) == WithKey(k, q) {
      forall x ensures x in p <==> x in q {
        assert x in multiset(p) <==> x in multiset(q);
      }
      if x :| x in p && x.key == k {
        WithKeyCount(k, p, x);
        WithKeyCount(k, q, x);
      } else {
        NoneWithKey(k, p);
        NoneWithKey(k, q);
      }
    }
    SameOrderSameSort(p, q);
  }

  lemma {:induction false} NoneWithKey(k: Bytes, s: seq<Pair>)
    requires forall x :: x in s ==> x.key != k
    ensures WithKey(k, s) == []
  {
    if s != [] {
      NoneWithKey(k, Front(s));
    }
  }

  /** `ps` with the pairs at `i` and `j` exchanged. */
  function Swap(ps: seq<Pair>, i: nat, j: nat): seq<Pair>
    requires i < j < |ps|
  {
    ps[..i] + [ps[j]] + ps[i + 1..j] + [ps[i]] + ps[j + 1..]
  }

  lemma SwapReorders(a: seq<Pair>, x: Pair, b: seq<Pair>, y: Pair, c: seq<Pair>)
    requires x.key == y.key && x != y
    ensures Sort(a + [x] + b + [y] + c) != Sort(a + [y] + b + [x] + c)
  {
    var p, q := a + [x] + b + [y] + c, a + [y] + b + [x] + c;
    var n := |WithKey(x.key, a)|;
    assert p == a + [x] + (b + [y] + c) && q == a + [y] + (b + [x] + c);
    WithKeyAt(x.key, a, x, b + [y] + c);
    WithKeyAt(x.key, a, y, b + [x] + c);
    assert WithKey(x.key, p)[n] != WithKey(x.key, q)[n];
    if Sort(p) == Sort(q) {
      SameSortSameOrder(p, q, x.key);
    }
  }

  lemma SwapShows(ps: seq<Pair>, i: nat, j: nat)
    requires i < j < |ps| && ps[i].key == ps[j].key && ps[i] != ps[j]
    ensures multiset(Swap(ps, i, j)) == multiset(ps)
    ensures FormatTags(Swap(ps, i, j)) != FormatTags(ps)
  {
    assert ps == ps[..i] + [ps[i]] + ps[i + 1..j] + [ps[j]] + ps[j + 1..];
    SwapReorders(ps[..i], ps[i], ps[i + 1..j], ps[j], ps[j + 1..]);
    TagsRoundTrip(ps);
    TagsRoundTrip(Swap(ps, i, j));
  }

  lemma WithKeyAt(k: Bytes, a: seq<Pair>, p: Pair, c: seq<Pair>)
    requires p.key == k
    ensures |WithKey(k, a)| < |WithKey(k, a + [p] + c)| && WithKey(k, a + [p] + c)[|WithKey(k, a)|] == p
  {
    WithKeyAppend(k, a + [p], c);
    WithKeyStep(k, a, p);
  }

  /** The tag string is the same for every order of the tags exactly when no key has two different values, as
      when all keys are distinct: the sort is by key alone, so two values of one key keep their order. */
  lemma TagsAreCanonical(tags: seq<Pair>)
    ensures (forall other :: multiset(other) == multiset(tags) ==> FormatTags(other) == FormatTags(tags))
            <==> OneValuePerKey(tags)
  {
    if OneValuePerKey(tags) {
      forall other | multiset(other) == multiset(tags) ensures FormatTags(other) == FormatTags(tags) {
        OrderIsIrrelevant(tags, other);
      }
    } else {
      var i, j :| 0 <= i < |tags| && 0 <= j < |tags| && tags[i].key == tags[j].key && tags[i] != tags[j];
      if i < j {
        SwapShows(tags, i, j);
      } else {
        SwapShows(tags, j, i);
      }
    }
  }

  predicate DistinctKeys(ps: seq<Pair>) {
    forall i, j :: 0 <= i < j < |ps| ==> ps[i].key != ps[j].key
  }

  /** The metadata string does not depend on the order in which the hash map yields its keys. */
  lemma MetadataIsCanonical(entries: seq<Pair>, other: seq<Pair>)
    requires DistinctKeys(entries) && multiset(entries) == multiset(other)
    ensures FormatMetadata(entries) == FormatMetadata(other)
  {
    OrderIsIrrelevant(entries, other);
  }

  predicate HasComma(ps: seq<Pair>) {
    exists k :: 0 <= k < |ps| && COMMA in ps[k].key
  }

  lemma CommaSurvivesSort(ps: seq<Pair>)
    ensures HasComma(Sort(ps)) <==> HasComma(ps)
  {
    SortSorts(ps);
    forall p ensures p in Sort(ps) <==> p in ps {
      assert p in multiset(Sort(ps)) <==> p in multiset(ps);
    }
    if HasComma(Sort(ps)) {
      var k :| 0 <= k < |Sort(ps)| && COMMA in Sort(ps)[k].key;
      assert Sort(ps)[k] in ps;
    }
    if HasComma(ps) {
      var k :| 0 <= k < |ps| && COMMA in ps[k].key;
      assert ps[k] in Sort(ps);
    }
  }

  lemma CommaBreaksParse(ps: seq<Pair>, k: nat)
    requires k < |ps| && COMMA in ps[k].key
    ensures Parse(METADATA, Join(RenderAll(METADATA, ps), COMMA)) != Some(ps)
  {
    var parts := RenderAll(METADATA, ps);
    JoinNotEmpty(METADATA, ps);
    JoinSeparators(parts, COMMA, k);
    assert COMMA in parts[k];
    SplitSize(Join(parts, COMMA), COMMA);
  }

  /** Metadata keys are not encoded, so the parser recovers the sorted entries exactly when no key has a comma. */
  lemma MetadataRoundTrip(entries: seq<Pair>)
    ensures Parse(METADATA, FormatMetadata(entries)) == Some(Sort(entries)) <==> !HasComma(entries)
  {
    var ps := Sort(entries);
    CommaSurvivesSort(entries);
    if HasComma(ps) {
      var k :| 0 <= k < |ps| && COMMA in ps[k].key;
      CommaBreaksParse(ps, k);
    } else {
      forall k | 0 <= k < |ps| ensures COMMA !in Render(METADATA, ps[k]) {
        EncodeIsSafe(ps[k].value);
      }
      ParseFormat(METADATA, ps);
    }
  }

  lemma {:induction false} SortedStays(s: seq<Pair>)
    requires Sorted(s)
    ensures Sort(s) == s
  {
    if s != [] {
      assert forall i :: 0 <= i < |s| - 1 ==> Front(s)[i] == s[i];
      SortedStays(Front(s));
      if |s| > 1 {
        assert Le(s[|s| - 2].key, s[|s| - 1].key);
      }
      assert s == Front(s) + [Last(s)];
    }
  }

  lemma {:induction false} JoinLast(parts: seq<Bytes>, last: Bytes, sep: byte)
    ensures Join(parts + [last], sep) == if parts == [] then last else Join(parts, sep) + [sep] + last
  {
    if |parts| > 0 {
      assert (parts + [last])[1..] == parts[1..] + [last];
      JoinLast(parts[1..], last, sep);
    }
  }

  lemma SortedFront(s: seq<Pair>, p: Pair)
    requires Sorted(s + [p])
    ensures Sorted(s)
  {
    assert forall i :: 0 <= i < |s| ==> (s + [p])[i] == s[i];
  }

  lemma NothingSpelledOut()
    ensures FormatTags([]) == [] && FormatMetadata([]) == []
  {
  }

  /** The tag string spelled out: keys and values are encoded, an equals sign between them, an ampersand between the
      tags, which stand in the order of their keys. */
  lemma TagsSpelledOut(s: seq<Pair>, p: Pair)
    requires Sorted(s + [p])
    ensures FormatTags(s + [p]) == (if s == [] then [] else FormatTags(s) + [38]) + Encode(p.key) + [61] + Encode(p.value)
  {
    hide Sort, Join, Encode, Le;
    var parts, last := RenderAll(TAGS, s), Render(TAGS, p);
    SortedFront(s, p);
    SortedStays(s);
    SortedStays(s + [p]);
    assert RenderAll(TAGS, s + [p]) == parts + [last];
    JoinLast(parts, last, AMPERSAND);
    AppendAssociative(if s == [] then [] else FormatTags(s) + [38], Encode(p.key) + [61], Encode(p.value));
    AppendAssociative(if s == [] then [] else FormatTags(s) + [38], Encode(p.key), [61]);
  }

  /** The metadata string spelled out: keys as they are, values encoded, an equals sign between them, a comma between
      the entries, which stand in the order of their keys. */
  lemma MetadataSpelledOut(s: seq<Pair>, p: Pair)
    requires Sorted(s + [p])
    ensures FormatMetadata(s + [p]) == (if s == [] then [] else FormatMetadata(s) + [44]) + p.key + [61] + Encode(p.value)
  {
    hide Sort, Join, Encode, Le;
    var parts, last := RenderAll(METADATA, s), Render(METADATA, p);
    SortedFront(s, p);
    SortedStays(s);
    SortedStays(s + [p]);
    assert RenderAll(METADATA, s + [p]) == parts + [last];
    JoinLast(parts, last, COMMA);
    AppendAssociative(if s == [] then [] else FormatMetadata(s) + [44], p.key + [61], Encode(p.value));
    AppendAssociative(if s == [] then [] else FormatMetadata(s) + [44], p.key, [61]);
  }

  lemma {:induction false} EncodePlain(s: Bytes)
    requires forall b :: b in s ==> Unreserved(b)
    ensures Encode(s) == s
  {
    if s != [] {
      EncodePlain(s[1..]);
      assert [s[0]] + s[1..] == s;
    }
  }

  lemma JoinTwo(a: Bytes, b: Bytes, sep: byte)
    ensures Join([a, b], sep) == a + [sep] + b
  {
    assert [a, b][1..] == [b];
  }

  /** Two different metadata maps with the same string: the key `a=1,b` against the keys `a` and `b`. */
  lemma CommaCollision()
    ensures FormatMetadata([Pair([97, EQUALS, 49, COMMA, 98], [50])]) == FormatMetadata([Pair([97], [49]), Pair([98], [50])])
  {
    var p, q, r := Pair([97, EQUALS, 49, COMMA, 98], [50]), Pair([97], [49]), Pair([98], [50]);
    EncodePlain([50]);
    EncodePlain([49]);
    assert Front([p]) == [] && Front([q, r]) == [q] && Front([q]) == [];
    assert Sort([p]) == [p];
    assert Sort([q]) == [q];
    assert Le(q.key, r.key);
    assert Sort([q, r]) == [q] + [r];
    assert Render(METADATA, p) == [97, EQUALS, 49, COMMA, 98, EQUALS, 50];
    assert RenderAll(METADATA, [p]) == [Render(METADATA, p)];
    assert Render(METADATA, q) == [97, EQUALS, 49] && Render(METADATA, r) == [98, EQUALS, 50];
    assert RenderAll(METADATA, [q, r]) == [Render(METADATA, q), Render(METADATA, r)];
    JoinTwo(Render(METADATA, q), Render(METADATA, r), COMMA);
    assert [q, r] == [q] + [r];
    assert FormatMetadata([p]) == Render(METADATA, p);
    assert FormatMetadata([q, r]) == Render(METADATA, q) + [COMMA] + Render(METADATA, r);
  }
}
