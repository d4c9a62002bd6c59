/** The decision functions of the filter stages and the chain they form. */
module Filters {
  import opened Objects

  datatype Verdict = Keep | Drop | Fail

  /** One single-reader, single-writer stage. The lister behaves like a filter that keeps everything it
      reads from the finished listing. A callback may remember every entry it has seen and may fail. */
  datatype Filter =
    | Lister
    | Simple(pass: S3Object -> bool)
    | Callback(decide: (seq<S3Object>, S3Object) -> Verdict)

  function Judge(f: Filter, seen: seq<S3Object>, o: S3Object): Verdict {
    match f
    case Lister => Keep
    case Simple(pass) => if pass(o) then Keep else Drop
    case Callback(decide) => decide(seen, o)
  }

  /** What a stage sends on after it has worked through `s`. */
  function Passed(f: Filter, s: seq<S3Object>): seq<S3Object> {
    if s == [] then []
    else Passed(f, Front(s)) + if Judge(f, Front(s), Last(s)) == Keep then [Last(s)] else []
  }

  /** What comes out of a chain of stages that has worked through `s`. */
  function Chain(fs: seq<Filter>, s: seq<S3Object>): seq<S3Object> {
    if fs == [] then s else Passed(Last(fs), Chain(Front(fs), s))
  }

  lemma PassedStep(f: Filter, s: seq<S3Object>, o: S3Object)
    ensures Passed(f, s + [o]) == Passed(f, s) + if Judge(f, s, o) == Keep then [o] else []
  {
    assert Front(s + [o]) == s;
  }

  /** More input never takes back an output: a stage is monotone for the prefix order. */
  lemma {:induction false} PassedMonotone(f: Filter, s: seq<S3Object>, t: seq<S3Object>)
    requires s <= t
    ensures Passed(f, s) <= Passed(f, t)
  {
    if |s| == |t| {
      assert s == t;
    } else {
      PassedMonotone(f, s, Front(t));
    }
  }

  lemma {:induction false} PassedSimple(p: S3Object -> bool, s: seq<S3Object>)
    ensures Passed(Simple(p), s) == Where(p, s)
  {
    if s != [] {
      PassedSimple(p, Front(s));
    }
  }

  lemma {:induction false} PassedLister(s: seq<S3Object>)
    ensures Passed(Lister, s) == s
  {
    if s != [] {
      PassedLister(Front(s));
      assert s == Front(s) + [Last(s)];
    }
  }

  lemma {:induction false} PassedMember(f: Filter, s: seq<S3Object>, o: S3Object)
    requires o in Passed(f, s)
    ensures o in s
    ensures f.Simple? ==> f.pass(o)
  {
    if o !in Passed(f, Front(s)) {
      assert o == Last(s);
    } else {
      PassedMember(f, Front(s), o);
    }
  }

  /** Whatever leaves the chain was listed and satisfies the predicate of every simple stage. */
  lemma {:induction false} ChainMember(fs: seq<Filter>, s: seq<S3Object>, o: S3Object)
    requires o in Chain(fs, s)
    ensures o in s
    ensures forall k :: 0 <= k < |fs| && fs[k].Simple? ==> fs[k].pass(o)
  {
    if fs != [] {
      PassedMember(Last(fs), Chain(Front(fs), s), o);
      ChainMember(Front(fs), s, o);
      forall k | 0 <= k < |fs| && fs[k].Simple? ensures fs[k].pass(o) {
        if k < |fs| - 1 {
          assert Front(fs)[k] == fs[k];
        }
      }
    }
  }

  predicate Stateless(fs: seq<Filter>) {
    forall k :: 0 <= k < |fs| ==> !fs[k].Callback?
  }

  predicate PassesAll(fs: seq<Filter>, o: S3Object) {
    forall k :: 0 <= k < |fs| && fs[k].Simple? ==> fs[k].pass(o)
  }

  /** Without a callback the chain is one filter: the conjunction of its predicates. */
  lemma {:induction false} ChainIsConjunction(fs: seq<Filter>, s: seq<S3Object>)
    requires Stateless(fs)
    ensures Chain(fs, s) == Where(o => PassesAll(fs, o), s)
  {
    if fs == [] {
      WhereAll(o => PassesAll(fs, o), s);
    } else {
      var g := Front(fs);
      ChainIsConjunction(g, s);
      var p := o => PassesAll(g, o);
      var q := o => PassesAll(fs, o);
      if Last(fs).Lister? {
        PassedLister(Where(p, s));
        forall o: S3Object ensures p(o) == q(o) {
          assert PassesAll(fs, o) ==> PassesAll(g, o) by { assert forall k :: 0 <= k < |g| ==> g[k] == fs[k]; }
          assert forall k :: 0 <= k < |g| ==> g[k] == fs[k];
        }
        WhereSame(p, q, s);
      } else {
        PassedSimple(Last(fs).pass, Where(p, s));
        forall o: S3Object ensures q(o) == (p(o) && Last(fs).pass(o)) {
          assert forall k :: 0 <= k < |g| ==> g[k] == fs[k];
          assert fs[|fs| - 1] == Last(fs);
        }
        WhereTwice(p, Last(fs).pass, q, s);
      }
    }
  }

  lemma {:induction false} WhereAll<T(!new)>(p: T -> bool, s: seq<T>)
    requires forall x :: p(x)
    ensures Where(p, s) == s
  {
    if s != [] {
      WhereAll(p, Front(s));
      assert Where(p, s) == Front(s) + [Last(s)];
      assert s == Front(s) + [Last(s)];
    }
  }

  lemma {:induction false} WhereSame<T(!new)>(p: T -> bool, q: T -> bool, s: seq<T>)
    requires forall x :: p(x) == q(x)
    ensures Where(p, s) == Where(q, s)
  {
    if s != [] {
      WhereSame(p, q, Front(s));
    }
  }

  lemma {:induction false} WhereTwice<T(!new)>(p: T -> bool, r: T -> bool, q: T -> bool, s: seq<T>)
    requires forall x :: q(x) == (p(x) && r(x))
    ensures Where(r, Where(p, s)) == Where(q, s)
  {
    if s != [] {
      WhereTwice(p, r, q, Front(s));
      WhereAppend(r, Where(p, Front(s)), if p(Last(s)) then [Last(s)] else []);
    }
  }
}
