/** The loops of the single-reader, single-writer stages and of the terminator, each proved to take only steps that
    the network model gives to its task. */
module Stages {
  import opened Objects
  import opened Filters
  import opened Network
  import opened StageSafety
  import opened Surroundings

  datatype SendResult = Success | Closed

  /** One step of a stage as the network model knows it. */
  datatype Move = Move(before: StageView, inClosed: bool, outClosed: bool, choice: Choice, after: StageView)

  predicate IsStep(c: Config, f: Filter, m: Move) {
    && m.before.st.done <= m.before.inp.taken <= |m.before.inp.sent|
    && StageEnabled(c, f, m.before, m.inClosed, m.outClosed, m.choice)
    && m.after == StageStep(c, f, m.before, m.outClosed, m.choice)
  }

  /** The moves lead from the initial state of the stage to `st`; between two moves only other tasks have acted. */
  predicate Walk(c: Config, f: Filter, path: seq<Move>, st: Stage) {
    if path == [] then st == Stage(Top(f), 0)
    else
      && Walk(c, f, Front(path), Last(path).before.st)
      && IsStep(c, f, Last(path))
      && Last(path).after.st == st
  }

  lemma WalkOn(c: Config, f: Filter, path: seq<Move>, m: Move)
    requires Walk(c, f, path, m.before.st) && IsStep(c, f, m)
    ensures Walk(c, f, path + [m], m.after.st)
  {
    assert Front(path + [m]) == path;
  }

  class FilterStage {
    const c: Config
    const f: Filter
    const world: Outside
    /** The entries a callback has been asked about. */
    var seen: seq<S3Object>
    ghost var st: Stage
    ghost var path: seq<Move>

    constructor (c: Config, f: Filter, world: Outside)
      ensures this.c == c && this.f == f && this.world == world
      ensures seen == [] && st == Stage(Top(f), 0) && path == []
    {
      this.c, this.f, this.world := c, f, world;
      seen, st, path := [], Stage(Top(f), 0), [];
    }

    ghost function View(): StageView
      reads this, world
    {
      StageView(st, world.scene.inp, world.scene.out, world.scene.sh)
    }

    /** The stage is where the network model says it is, and has sent exactly what its filter lets through. */
    ghost predicate Valid()
      reads this, world
    {
      && Sound(world.limit, world.distinct, world.scene)
      && world.room == c.queueSize && 1 <= c.queueSize && !world.shared
      && Walk(c, f, path, st)
      && StageOk(f, st, world.scene.inp, world.scene.out)
    }

    /** Records a step that the code has just taken. */
    ghost method Took(m: Move)
      requires Walk(c, f, path, st) && StageOk(f, st, m.before.inp, m.before.outp)
      requires m.before.st == st && IsStep(c, f, m)
      requires world.scene.inp == m.after.inp && world.scene.out == m.after.outp && world.scene.sh == m.after.sh
      requires Sound(world.limit, world.distinct, world.scene) && world.room == c.queueSize && 1 <= c.queueSize && !world.shared
      modifies this`st, this`path
      ensures Valid() && st == m.after.st && path == old(path) + [m]
    {
      StageStepOk(c, f, m.before, m.inClosed, m.outClosed, m.choice);
      WalkOn(c, f, path, m);
      st, path := m.after.st, path + [m];
    }

    method Pause()
      requires Valid()
      modifies world
      ensures Valid() && world.Allows(old(world.scene), world.scene)
    {
      ghost var s := world.scene;
      world.Yield();
      StageOkElsewhere(f, st, s.inp, world.scene.inp, s.out, world.scene.out);
    }

    /** Sends the entry in hand, once there is room for it. */
    method Send(o: S3Object) returns (r: SendResult)
      requires Valid() && st.pc == Sending(o)
      modifies world, this`st, this`path
      ensures Valid()
      ensures r.Closed? ==> st.pc.Stopped? && world.scene.outClosed
      ensures r.Success? ==> st == Stage(Top(f), old(st).done + 1)
      ensures r.Success? ==> world.scene.out.sent == old(world.scene.out.sent) + [o]
      ensures r.Closed? ==> world.scene.out.sent == old(world.scene.out.sent)
      ensures Later(old(world.scene), world.scene)
    {
      ghost var s := world.scene;
      world.AwaitRoom();
      StageOkElsewhere(f, st, s.inp, world.scene.inp, s.out, world.scene.out);
      ghost var v := View();
      ghost var after := StageStep(c, f, v, world.scene.outClosed, Go);
      if world.scene.outClosed {
        Took(Move(v, world.scene.inClosed, true, Go, after));
        return Closed;
      }
      world.Push(o);
      Took(Move(v, world.scene.inClosed, false, Go, after));
      return Success;
    }

    /** Reports a rejected entry to the event callback, if there is one. */
    method Reject(o: S3Object)
      requires Valid() && st.pc == Have(o) && Judge(f, world.scene.inp.sent[..st.done], o).Drop?
      modifies world, this`st, this`path
      ensures Valid() && st == Stage(Top(f), old(st).done + 1)
      ensures Later(old(world.scene), world.scene)
      ensures world.scene.sh.log == old(world.scene.sh.log) + if c.observed then [FilteredOut(o)] else []
    {
      ghost var v := View();
      ghost var after := StageStep(c, f, v, world.scene.outClosed, Go);
      if c.observed {
        world.SetShared(world.scene.sh.Log(FilteredOut(o)));
      }
      assert after.sh == world.scene.sh;
      Took(Move(v, world.scene.inClosed, world.scene.outClosed, Go, after));
    }

    /** The next entry of the input, or nothing when the senders are gone. */
    method Next() returns (o: Option<S3Object>)
      requires Valid() && st.pc.Recv?
      requires world.scene.inp.Waiting() > 0 || world.scene.inClosed
      modifies world`scene, this`st, this`path
      ensures Valid() && Later(old(world.scene), world.scene)
      ensures match o
        case None => st.pc.Stopped? && st.done == |world.scene.inp.sent| && world.scene.inClosed
        case Some(x) => st == Stage(Have(x), old(st).done) && world.scene.inp.taken == old(world.scene.inp.taken) + 1
    {
      ghost var v := View();
      ghost var after := StageStep(c, f, v, world.scene.outClosed, Go);
      if world.scene.inp.Waiting() == 0 {
        Took(Move(v, world.scene.inClosed, world.scene.outClosed, Go, after));
        return None;
      }
      var x := world.Receive();
      Took(Move(v, world.scene.inClosed, world.scene.outClosed, Go, after));
      return Some(x);
    }

    /** Looks at the cancellation token before every receive. */
    method CheckToken() returns (cancelled: bool)
      requires Valid() && st.pc.Check?
      modifies world, this`st, this`path
      ensures Valid() && Later(old(world.scene), world.scene)
      ensures cancelled == world.scene.sh.cancelled
      ensures st == Stage(if cancelled then Stopped else Recv, old(st).done)
    {
      Pause();
      cancelled := world.scene.sh.cancelled;
      ghost var v := View();
      Took(Move(v, world.scene.inClosed, world.scene.outClosed, Go, StageStep(c, f, v, world.scene.outClosed, Go)));
    }

    /** The decision was to keep the entry. */
    method Keep(o: S3Object) returns (r: SendResult)
      requires Valid() && st.pc == Have(o) && Judge(f, world.scene.inp.sent[..st.done], o).Keep?
      modifies world, this`st, this`path
      ensures Valid() && Later(old(world.scene), world.scene)
      ensures r.Closed? ==> st.pc.Stopped? && world.scene.outClosed
      ensures r.Success? ==> st == Stage(Top(f), old(st).done + 1)
    {
      ghost var v := View();
      Took(Move(v, world.scene.inClosed, world.scene.outClosed, Go, StageStep(c, f, v, world.scene.outClosed, Go)));
      r := Send(o);
    }

    /** Applies the predicate of the filter to one entry. */
    method Filter(o: S3Object) returns (r: SendResult)
      requires Valid() && f.Simple? && st.pc == Have(o)
      modifies world, this`st, this`path
      ensures Valid() && Later(old(world.scene), world.scene)
      ensures r.Closed? ==> st.pc.Stopped? && world.scene.outClosed
      ensures r.Success? ==> st == Stage(Check, old(st).done + 1)
    {
      Pause();
      if f.pass(o) {
        r := Keep(o);
      } else {
        Reject(o);
        r := Success;
      }
    }

    /** The loop of every simple filter. It ends because of a cancellation, because nobody reads its output any
        more, or because it has worked through its whole input and then has sent all that the filter passes. */
    method ReceiveAndFilter()
      requires Valid() && f.Simple? && st == Stage(Check, 0)
      modifies world, this`st, this`path
      ensures Valid() && st.pc.Stopped?
      ensures world.scene.out.sent <= Where(f.pass, world.scene.inp.sent)
      ensures !world.scene.sh.cancelled && !world.scene.outClosed ==>
        world.scene.inClosed && world.scene.out.sent == Where(f.pass, world.scene.inp.sent)
    {
      while true
        invariant Valid() && st.pc.Check?
        decreases world.limit - world.scene.inp.taken
      {
        var cancelled := CheckToken();
        if cancelled {
          break;
        }
        Listen();
        var next := Next();
        if next.None? {
          break;
        }
        var r := Filter(next.value);
        if r.Closed? {
          break;
        }
      }
      HasSent();
    }

    method Listen()
      requires Valid() && st.pc.Recv?
      modifies world
      ensures Valid() && Later(old(world.scene), world.scene)
      ensures world.scene.inp.Waiting() > 0 || world.scene.inClosed
    {
      ghost var s := world.scene;
      world.AwaitInput();
      StageOkElsewhere(f, st, s.inp, world.scene.inp, s.out, world.scene.out);
    }

    /** What the stage has sent so far is the beginning of what its filter lets through of the whole input. */
    lemma HasSent()
      requires Valid()
      ensures world.scene.out.sent <= Passed(f, world.scene.inp.sent)
      ensures st.done == |world.scene.inp.sent| ==> world.scene.out.sent == Passed(f, world.scene.inp.sent)
      ensures f.Simple? ==> Passed(f, world.scene.inp.sent) == Where(f.pass, world.scene.inp.sent)
    {
      var inp := world.scene.inp;
      PassedMonotone(f, inp.sent[..st.done], inp.sent);
      if f.Simple? {
        PassedSimple(f.pass, inp.sent);
      }
      if st.done == |inp.sent| {
        assert inp.sent[..st.done] == inp.sent;
      }
    }

    method ListenOrQuit() returns (quit: bool)
      requires Valid() && st.pc.Recv? && f.Callback?
      modifies world, this`st, this`path
      ensures Valid() && Later(old(world.scene), world.scene)
      ensures world.scene.inp.taken == old(world.scene.inp.taken)
      ensures quit ==> world.scene.sh.cancelled && st.pc.Stopped?
      ensures !quit ==> st == old(st) && (world.scene.inp.Waiting() > 0 || world.scene.inClosed)
    {
      ghost var s := world.scene;
      quit := world.AwaitInputOrCancel();
      StageOkElsewhere(f, st, s.inp, world.scene.inp, s.out, world.scene.out);
      if quit {
        ghost var v := View();
        Took(Move(v, world.scene.inClosed, world.scene.outClosed, Quit, StageStep(c, f, v, world.scene.outClosed, Quit)));
      }
    }

    /** The callback failed: report it, cancel the whole pipeline and stop. */
    method Abort(o: S3Object)
      requires Valid() && st.pc == Have(o) && Judge(f, world.scene.inp.sent[..st.done], o).Fail?
      modifies world, this`st, this`path
      ensures Valid() && st.pc.Stopped?
      ensures world.scene.sh.cancelled && world.scene.sh.faulted
      ensures world.scene.sh.log == old(world.scene.sh.log) + if c.observed then [Errored] else []
      ensures Later(old(world.scene), world.scene)
    {
      ghost var v := View();
      ghost var after := StageStep(c, f, v, world.scene.outClosed, Go);
      if c.observed {
        world.SetShared(world.scene.sh.Log(Errored));
      }
      world.SetShared(world.scene.sh.Cancel().(faulted := true));
      assert after.sh == world.scene.sh;
      Took(Move(v, world.scene.inClosed, world.scene.outClosed, Go, after));
    }

    /** Asks the callback about one entry; it may answer differently the next time. */
    method Ask(o: S3Object) returns (verdict: Verdict)
      requires Valid() && f.Callback? && st.pc == Have(o) && seen == world.scene.inp.sent[..st.done]
      modifies world, this`seen
      ensures Valid() && Later(old(world.scene), world.scene)
      ensures seen == old(seen) + [o] && seen == world.scene.inp.sent[..st.done + 1]
      ensures verdict == Judge(f, world.scene.inp.sent[..st.done], o)
    {
      verdict := f.decide(seen, o);
      seen := seen + [o];
      Pause();
      assert world.scene.inp.sent[..st.done] == old(seen);
    }

    /** Treats one entry as the callback decides. */
    method Consult(o: S3Object) returns (ok: bool, r: SendResult)
      requires Valid() && f.Callback? && st.pc == Have(o) && seen == world.scene.inp.sent[..st.done]
      modifies world, this`seen, this`st, this`path
      ensures Valid() && Later(old(world.scene), world.scene)
      ensures !ok ==> st.pc.Stopped? && world.scene.sh.cancelled && world.scene.sh.faulted
      ensures ok && r.Closed? ==> st.pc.Stopped? && world.scene.outClosed
      ensures ok && r.Success? ==> st == Stage(Recv, old(st).done + 1) && seen == world.scene.inp.sent[..st.done]
    {
      var verdict := Ask(o);
      ok, r := true, Success;
      match verdict
      case Fail =>
        Abort(o);
        ok := false;
      case Drop => Reject(o);
      case Keep => r := Keep(o);
    }

    /** The loop of the callback stage. Without an error it behaves like a filter that remembers its input; after
        an error of the callback the run is cancelled and the entry goes nowhere. */
    method ReceiveAndAsk() returns (ok: bool)
      requires Valid() && f.Callback? && st == Stage(Recv, 0) && seen == []
      modifies world, this`seen, this`st, this`path
      ensures Valid() && st.pc.Stopped?
      ensures world.scene.out.sent <= Passed(f, world.scene.inp.sent)
      ensures ok && !world.scene.sh.cancelled && !world.scene.outClosed ==>
        world.scene.inClosed && world.scene.out.sent == Passed(f, world.scene.inp.sent)
      ensures !ok ==> world.scene.sh.cancelled && world.scene.sh.faulted
    {
      ok := true;
      while true
        invariant Valid() && st.pc.Recv? && ok
        invariant seen == world.scene.inp.sent[..st.done]
        decreases world.limit - world.scene.inp.taken
      {
        var quit := ListenOrQuit();
        if quit {
          break;
        }
        var next := Next();
        if next.None? {
          break;
        }
        var r;
        ok, r := Consult(next.value);
        if !ok || r.Closed? {
          break;
        }
      }
      HasSent();
    }
  }

  class Terminator {
    const world: Outside

    constructor (world: Outside)
      ensures this.world == world
    {
      this.world := world;
    }

    /** Receives until the channel is closed; by then it has received everything that was ever sent into it. */
    method Terminate()
      requires Sound(world.limit, world.distinct, world.scene) && !world.shared
      modifies world
      ensures Sound(world.limit, world.distinct, world.scene) && Later(old(world.scene), world.scene)
      ensures world.scene.inClosed && world.scene.inp.taken == |world.scene.inp.sent|
    {
      while true
        invariant Sound(world.limit, world.distinct, world.scene) && Later(old(world.scene), world.scene)
        decreases world.limit - world.scene.inp.taken
      {
        world.AwaitInput();
        if world.scene.inp.Waiting() == 0 {
          break;
        }
        var _ := world.Receive();
      }
    }
  }
}
