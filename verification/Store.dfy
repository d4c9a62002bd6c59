/** The store as the deleters see it: a log of the requests it has received and of what it removed. Other clients
    may store and delete entries before any request; a request may fail as a whole or entry by entry, with or without
    having had an effect. */
module Store {
  import opened Objects

  /** What a request asks for: an entry and, optionally, the ETag it must still have. */
  datatype Target = Target(id: Ident, ifMatch: Option<string>)

  datatype KeyError = KeyError(id: Ident, code: string, message: string)

  datatype Reply = Reply(deleted: seq<Ident>, errors: seq<KeyError>)

  datatype Call =
    | BatchCall(targets: seq<Target>, reply: Option<Reply>)
    | SingleCall(target: Target, error: Option<KeyError>)

  /** An entry that the store removed, with the ETag it had at that moment. */
  datatype Removal = Removal(id: Ident, etag: string)

  function TargetIds(ts: seq<Target>): (ids: seq<Ident>)
    ensures |ids| == |ts|
    ensures forall k :: 0 <= k < |ts| ==> ids[k] == ts[k].id
  {
    seq(|ts|, k requires 0 <= k < |ts| => ts[k].id)
  }

  function ErrorIds(es: seq<KeyError>): (ids: seq<Ident>)
    ensures |ids| == |es|
    ensures forall k :: 0 <= k < |es| ==> ids[k] == es[k].id
  {
    seq(|es|, k requires 0 <= k < |es| => es[k].id)
  }

  /** The reply decides every target of the request, each once. */
  predicate Decides(reply: Reply, ts: seq<Target>) {
    multiset(reply.deleted) + multiset(ErrorIds(reply.errors)) == multiset(TargetIds(ts))
  }

  /** Compare and delete (If-Match, section 13.1.1 of RFC 9110): a conditional target is removed only while it has
      the ETag it names. */
  predicate Permits(t: Target, x: Removal) {
    t.id == x.id && (t.ifMatch.Some? ==> t.ifMatch.value == x.etag)
  }

  predicate Permitted(ts: seq<Target>, x: Removal) {
    exists k :: 0 <= k < |ts| && Permits(ts[k], x)
  }

  /** Between the two states of its log, the store removed only what these targets permit. */
  predicate RemovedOnly(ts: seq<Target>, before: seq<Removal>, after: seq<Removal>) {
    && before <= after
    && forall x :: x in after[|before|..] ==> Permitted(ts, x)
  }

  lemma RemovedThen(ts: seq<Target>, a: seq<Removal>, b: seq<Removal>, c: seq<Removal>)
    requires RemovedOnly(ts, a, b) && RemovedOnly(ts, b, c)
    ensures RemovedOnly(ts, a, c)
  {
    forall x | x in c[|a|..] ensures Permitted(ts, x) {
      assert c[|a|..] == b[|a|..] + c[|b|..];
    }
  }

  /** One more target is decided, one way or the other. */
  lemma DecidedNext(ts: seq<Target>, k: nat, deleted: seq<Ident>, errors: seq<KeyError>, err: KeyError)
    requires k < |ts| && err.id == ts[k].id
    requires multiset(deleted) + multiset(ErrorIds(errors)) == multiset(TargetIds(ts[..k]))
    ensures multiset(deleted + [ts[k].id]) + multiset(ErrorIds(errors)) == multiset(TargetIds(ts[..k + 1]))
    ensures multiset(deleted) + multiset(ErrorIds(errors + [err])) == multiset(TargetIds(ts[..k + 1]))
  {
    assert TargetIds(ts[..k + 1]) == TargetIds(ts[..k]) + [ts[k].id];
    assert ErrorIds(errors + [err]) == ErrorIds(errors) + [ts[k].id];
  }

  lemma RemovedNone(ts: seq<Target>, before: seq<Removal>)
    ensures RemovedOnly(ts, before, before)
  {
    assert before[|before|..] == [];
  }

  lemma RemovedOne(t: Target, before: seq<Removal>, x: Removal)
    requires Permits(t, x)
    ensures RemovedOnly([t], before, before + [x])
  {
    assert Permits([t][0], x) && Permitted([t], x);
    assert (before + [x])[|before|..] == [x];
  }

  // What requests do to the stored entries

  /** What another client does: it deletes some entries and stores some. */
  datatype Deed = Deed(erased: set<Ident>, stored: map<Ident, string>)

  /** What other clients do right before the n-th request. */
  type Writers = nat -> Deed

  /** The store at one moment: how many requests it has received, what is stored with which ETag, what it has removed. */
  datatype Shelf = Shelf(asked: nat, current: map<Ident, string>, removed: seq<Removal>)

  function Gone(xs: seq<Removal>): set<Ident> {
    set k | 0 <= k < |xs| :: xs[k].id
  }

  /** What was logged as removed was stored with exactly the logged ETag and was asked for under a condition that
      held, and nothing else has left the store. */
  predicate Clears(ts: seq<Target>, a: Shelf, b: Shelf) {
    && RemovedOnly(ts, a.removed, b.removed)
    && (forall x :: x in b.removed[|a.removed|..] ==> x.id in a.current && a.current[x.id] == x.etag)
    && b.current == a.current - Gone(b.removed[|a.removed|..])
  }

  /** The store when the n-th request begins to work: the other clients have been there. */
  function Written(w: Writers, a: Shelf): Shelf {
    a.(current := a.current - w(a.asked).erased + w(a.asked).stored)
  }

  lemma ClearsNothing(ts: seq<Target>, a: Shelf)
    ensures Clears(ts, a, a)
  {
    assert a.removed[|a.removed|..] == [];
    assert Gone([]) == {};
  }

  lemma ClearsOne(t: Target, a: Shelf, b: Shelf)
    requires t.id in a.current && (t.ifMatch.Some? ==> t.ifMatch.value == a.current[t.id])
    requires b.removed == a.removed + [Removal(t.id, a.current[t.id])] && b.current == a.current - {t.id}
    ensures Clears([t], a, b)
  {
    var x := Removal(t.id, a.current[t.id]);
    RemovedOne(t, a.removed, x);
    assert b.removed[|a.removed|..] == [x];
    assert Gone([x]) == {[x][0].id};
  }

  lemma GoneAppend(xs: seq<Removal>, ys: seq<Removal>)
    ensures Gone(xs + ys) == Gone(xs) + Gone(ys)
  {
    var zs := xs + ys;
    forall id | id in Gone(xs) ensures id in Gone(zs) {
      var k :| 0 <= k < |xs| && xs[k].id == id;
      assert zs[k].id == id;
    }
    forall id | id in Gone(ys) ensures id in Gone(zs) {
      var k :| 0 <= k < |ys| && ys[k].id == id;
      assert zs[|xs| + k].id == id;
    }
  }

  lemma ClearsThen(ts: seq<Target>, a: Shelf, b: Shelf, c: Shelf)
    requires Clears(ts, a, b) && Clears(ts, b, c)
    ensures Clears(ts, a, c)
  {
    var xs, ys := b.removed[|a.removed|..], c.removed[|b.removed|..];
    RemovedThen(ts, a.removed, b.removed, c.removed);
    assert c.removed[|a.removed|..] == xs + ys;
    GoneAppend(xs, ys);
  }

  // Many requests

  /** The ETag under which an entry is stored, if it is. */
  function Found(current: map<Ident, string>, id: Ident): Option<string> {
    if id in current then Some(current[id]) else None
  }

  /** What becomes of an entry through one other client. */
  function Altered(d: Deed, id: Ident, x: Option<string>): Option<string> {
    if id in d.stored then Some(d.stored[id]) else if id in d.erased then None else x
  }

  /** What the other clients alone make of an entry between two requests. */
  function Alone(w: Writers, id: Ident, x: Option<string>, m: nat, n: nat): Option<string>
    decreases n
  {
    if n <= m then x else Altered(w(n - 1), id, Alone(w, id, x, m, n - 1))
  }

  /** The entry is as the other clients alone would have left it, or it is gone and the targets permit its removal. */
  predicate LeftAs(ts: seq<Target>, id: Ident, now: Option<string>, alone: Option<string>) {
    now == alone || (now.None? && Permitted(ts, Removal(id, alone.value)))
  }

  /** What requests for these targets can have done between two moments: every entry is as the other clients alone
      would have left it, unless it is gone under a condition that held. */
  ghost predicate Evolves(w: Writers, ts: seq<Target>, a: Shelf, b: Shelf) {
    && a.asked <= b.asked
    && RemovedOnly(ts, a.removed, b.removed)
    && forall id :: LeftAs(ts, id, Found(b.current, id), Alone(w, id, Found(a.current, id), a.asked, b.asked))
  }

  /** Whoever is no longer stored was asked for, under a condition that held. */
  lemma WhoCleared(ts: seq<Target>, a: Shelf, b: Shelf, id: Ident) returns (j: nat)
    requires Clears(ts, a, b) && id in a.current && id !in b.current
    ensures j < |ts| && ts[j].id == id && (ts[j].ifMatch.Some? ==> ts[j].ifMatch.value == a.current[id])
  {
    var xs := b.removed[|a.removed|..];
    var k :| 0 <= k < |xs| && xs[k].id == id;
    assert xs[k] in xs && Permitted(ts, xs[k]);
    j :| 0 <= j < |ts| && Permits(ts[j], xs[k]);
  }

  /** One request. */
  lemma RequestEvolves(w: Writers, ts: seq<Target>, a: Shelf, b: Shelf)
    requires b.asked == a.asked + 1 && Clears(ts, Written(w, a), b)
    ensures Evolves(w, ts, a, b)
  {
    forall id ensures LeftAs(ts, id, Found(b.current, id), Alone(w, id, Found(a.current, id), a.asked, b.asked)) {
      var c := Written(w, a);
      assert Alone(w, id, Found(a.current, id), a.asked, b.asked) == Found(c.current, id);
      if id in c.current && id !in b.current {
        var j := WhoCleared(ts, c, b, id);
        assert Permits(ts[j], Removal(id, c.current[id]));
      }
    }
  }

  lemma EvolvesNot(w: Writers, ts: seq<Target>, a: Shelf)
    ensures Evolves(w, ts, a, a)
  {
    RemovedNone(ts, a.removed);
  }

  lemma {:induction false} AloneThen(w: Writers, id: Ident, x: Option<string>, l: nat, m: nat, n: nat)
    requires l <= m <= n
    ensures Alone(w, id, x, l, n) == Alone(w, id, Alone(w, id, x, l, m), m, n)
  {
    if m < n {
      AloneThen(w, id, x, l, m, n - 1);
    }
  }

  /** As soon as another client deals with an entry, it does not matter whether it had been removed before. */
  lemma {:induction false} AloneAnyway(w: Writers, id: Ident, x: Option<string>, m: nat, n: nat)
    ensures
      var without, alone := Alone(w, id, None, m, n), Alone(w, id, x, m, n);
      without == alone || (without.None? && alone == x)
  {
    if m < n {
      AloneAnyway(w, id, x, m, n - 1);
    }
  }

  lemma LeftThen(w: Writers, ts: seq<Target>, id: Ident, x: Option<string>, y: Option<string>, z: Option<string>, l: nat, m: nat, n: nat)
    requires l <= m <= n
    requires LeftAs(ts, id, y, Alone(w, id, x, l, m)) && LeftAs(ts, id, z, Alone(w, id, y, m, n))
    ensures LeftAs(ts, id, z, Alone(w, id, x, l, n))
  {
    AloneThen(w, id, x, l, m, n);
    AloneAnyway(w, id, Alone(w, id, x, l, m), m, n);
  }

  lemma EvolvesThen(w: Writers, ts: seq<Target>, a: Shelf, b: Shelf, c: Shelf)
    requires Evolves(w, ts, a, b) && Evolves(w, ts, b, c)
    ensures Evolves(w, ts, a, c)
  {
    RemovedThen(ts, a.removed, b.removed, c.removed);
    forall id ensures LeftAs(ts, id, Found(c.current, id), Alone(w, id, Found(a.current, id), a.asked, c.asked)) {
      LeftThen(w, ts, id, Found(a.current, id), Found(b.current, id), Found(c.current, id), a.asked, b.asked, c.asked);
    }
  }

  predicate Among(ts: seq<Target>, us: seq<Target>) {
    forall k :: 0 <= k < |ts| ==> ts[k] in us
  }

  lemma PermittedAmong(ts: seq<Target>, us: seq<Target>, x: Removal)
    requires Among(ts, us) && Permitted(ts, x)
    ensures Permitted(us, x)
  {
    var k :| 0 <= k < |ts| && Permits(ts[k], x);
    var j :| 0 <= j < |us| && us[j] == ts[k];
  }

  /** What few targets permit, more targets permit. */
  lemma EvolvesAmong(w: Writers, ts: seq<Target>, us: seq<Target>, a: Shelf, b: Shelf)
    requires Evolves(w, ts, a, b) && Among(ts, us)
    ensures Evolves(w, us, a, b)
  {
    forall x | x in b.removed[|a.removed|..] ensures Permitted(us, x) {
      PermittedAmong(ts, us, x);
    }
    forall id ensures LeftAs(us, id, Found(b.current, id), Alone(w, id, Found(a.current, id), a.asked, b.asked)) {
      var alone := Alone(w, id, Found(a.current, id), a.asked, b.asked);
      assert LeftAs(ts, id, Found(b.current, id), alone);
      if Found(b.current, id) != alone {
        PermittedAmong(ts, us, Removal(id, alone.value));
      }
    }
  }

  /** One target was tried: the entry was removed under a condition that held, or nothing has happened. After a
      success it is gone, and if there was a condition it had been there. */
  predicate Tried(t: Target, success: bool, a: Shelf, b: Shelf) {
    && (b == a || (t.id in a.current && Permits(t, Removal(t.id, a.current[t.id])) && b == Cleared(t.id, a)))
    && (success ==> t.id !in b.current && (t.ifMatch.Some? ==> t.id in a.current))
  }

  function Cleared(id: Ident, a: Shelf): Shelf
    requires id in a.current
  {
    a.(current := a.current - {id}, removed := a.removed + [Removal(id, a.current[id])])
  }

  lemma TriedClears(t: Target, success: bool, a: Shelf, b: Shelf)
    requires Tried(t, success, a, b)
    ensures Clears([t], a, b)
  {
    if b == a {
      ClearsNothing([t], a);
    } else {
      ClearsOne(t, a, b);
    }
  }

  class Storage {
    var calls: seq<Call>
    var removed: seq<Removal>
    var current: map<Ident, string>
    const writers: Writers
    /** Whether the n-th request fails as a whole, and how many of its targets the store has dealt with by then. */
    const outage: nat -> Option<nat>
    const fault: (nat, Target) -> Option<string>
    /** Whether an attempt that is reported as failed has removed the entry all the same. */
    const late: (nat, Target) -> bool

    constructor (current: map<Ident, string>, writers: Writers, outage: nat -> Option<nat>, fault: (nat, Target) -> Option<string>,
        late: (nat, Target) -> bool)
      ensures calls == [] && removed == [] && this.current == current
    {
      this.calls, this.removed, this.current := [], [], current;
      this.writers, this.outage, this.fault, this.late := writers, outage, fault, late;
    }

    function Now(): Shelf
      reads this
    {
      Shelf(|calls|, current, removed)
    }

    /** One target, at the moment the store gets to it. */
    method Attempt(t: Target) returns (code: Option<string>)
      modifies this`removed, this`current
      ensures Tried(t, code.None?, old(Now()), Now())
    {
      code := fault(|calls|, t);
      var holds := t.ifMatch.Some? ==> t.id in current && current[t.id] == t.ifMatch.value;
      if code.None? && !holds {
        code := Some("PreconditionFailed");
      } else if holds && t.id in current && (code.None? || late(|calls|, t)) {
        removed := removed + [Removal(t.id, current[t.id])];
        current := current - {t.id};
      }
    }

    /** The other clients have been there. */
    method BeginRequest()
      modifies this`current
      ensures Now() == Written(writers, old(Now()))
    {
      var deed := writers(|calls|);
      current := current - deed.erased + deed.stored;
    }

    /** A batch request. The reply decides every target, and what it calls deleted is gone. Whatever the reply, only
        what the targets permit has left the store. */
    method DeleteObjects(ts: seq<Target>) returns (reply: Option<Reply>)
      modifies this
      ensures calls == old(calls) + [BatchCall(ts, reply)]
      ensures reply.Some? ==> Decides(reply.value, ts) && forall id :: id in reply.value.deleted ==> id !in current
      ensures Clears(ts, Written(writers, old(Now())), Now().(asked := |old(calls)|))
      ensures Evolves(writers, ts, old(Now()), Now())
    {
      BeginRequest();
      ghost var first := Now();
      ClearsNothing(ts, first);
      var deleted: seq<Ident>, errors: seq<KeyError> := [], [];
      var cut := outage(|calls|);
      var n := if cut.Some? then Min(cut.value, |ts|) else |ts|;
      for k := 0 to n
        invariant calls == old(calls)
        invariant multiset(deleted) + multiset(ErrorIds(errors)) == multiset(TargetIds(ts[..k]))
        invariant Clears(ts, first, Now())
        invariant forall id :: id in deleted ==> id !in current
      {
        ghost var before := Now();
        var code := Attempt(ts[k]);
        TriedClears(ts[k], code.None?, before, Now());
        ClearsMore(ts, k, before, Now());
        ClearsThen(ts, first, before, Now());
        DecidedNext(ts, k, deleted, errors, KeyError(ts[k].id, if code.None? then "" else code.value, ""));
        if code.None? {
          deleted := deleted + [ts[k].id];
        } else {
          errors := errors + [KeyError(ts[k].id, code.value, "")];
        }
      }
      reply := if cut.Some? then None else Some(Reply(deleted, errors));
      assert n == |ts| ==> ts[..n] == ts;
      calls := calls + [BatchCall(ts, reply)];
      RequestEvolves(writers, ts, old(Now()), Now());
    }

    method DeleteObject(t: Target) returns (error: Option<KeyError>)
      modifies this
      ensures calls == old(calls) + [SingleCall(t, error)]
      ensures error.Some? ==> error.value.id == t.id
      ensures Tried(t, error.None?, Written(writers, old(Now())), Now().(asked := |old(calls)|))
      ensures Evolves(writers, [t], old(Now()), Now())
    {
      BeginRequest();
      ghost var first := Now();
      var code := Attempt(t);
      TriedClears(t, code.None?, first, Now());
      error := if code.None? then None else Some(KeyError(t.id, code.value, ""));
      calls := calls + [SingleCall(t, error)];
      RequestEvolves(writers, [t], old(Now()), Now());
    }
  }

  lemma ClearsMore(ts: seq<Target>, k: nat, a: Shelf, b: Shelf)
    requires k < |ts| && Clears([ts[k]], a, b)
    ensures Clears(ts, a, b)
  {
    forall x | x in b.removed[|a.removed|..] ensures Permitted(ts, x) {
      assert Permitted([ts[k]], x);
      assert Permits(ts[k], x);
    }
  }
}
