/** What one task of the pipeline sees of all the others: its two channels and the shared state. The others may act
    whenever the task awaits something. */
module Surroundings {
  import opened Objects
  import opened Network

  /** `inClosed`: every sender of the input is gone; `outClosed`: every receiver of the output is gone. */
  datatype Scene = Scene(inp: Chan, inClosed: bool, out: Chan, outClosed: bool, sh: Shared)

  predicate DistinctIds(os: seq<S3Object>) {
    forall i, j :: 0 <= i < j < |os| ==> os[i].Id() != os[j].Id()
  }

  /** A listing is finite and, where this matters, names no entry twice. */
  predicate Sound(limit: nat, distinct: bool, s: Scene) {
    && s.inp.taken <= |s.inp.sent| <= limit
    && s.out.taken <= |s.out.sent|
    && (distinct ==> DistinctIds(s.inp.sent))
  }

  predicate Grows(a: Chan, b: Chan) {
    a.sent <= b.sent && a.taken <= b.taken
  }

  /** Time has passed: channels only grow and never reopen, and a cancellation is never taken back. */
  predicate Later(a: Scene, b: Scene) {
    && Grows(a.inp, b.inp)
    && (a.inClosed ==> b.inClosed && b.inp.sent == a.inp.sent)
    && Grows(a.out, b.out)
    && (a.outClosed ==> b.outClosed)
    && (a.sh.cancelled ==> b.sh.cancelled)
  }

  lemma LaterTransitive(a: Scene, b: Scene, c: Scene)
    requires Later(a, b) && Later(b, c)
    ensures Later(a, c)
  {
  }

  /** The only reader of its input and the only writer of its output are the task itself. */
  predicate Untouched(a: Scene, b: Scene) {
    b.inp.taken == a.inp.taken && b.out.sent == a.out.sent
  }

  /** What other tasks can have done between two scenes. `shared`: other tasks of the same kind use the same two
      channels; `lasting`: the receiver of the output waits until the task is gone, as the terminator does. */
  predicate Possible(limit: nat, distinct: bool, shared: bool, lasting: bool, a: Scene, b: Scene) {
    && Later(a, b)
    && Sound(limit, distinct, b)
    && (shared || Untouched(a, b))
    && (lasting ==> b.outClosed == a.outClosed)
  }

  class Outside {
    const limit: nat
    /** Whether the input names no entry twice. */
    const distinct: bool
    const room: nat
    /** Whether other tasks of the same kind use the same two channels. */
    const shared: bool
    /** Whether the receiver of the output waits until the task is gone, as the terminator does. */
    const lasting: bool
    const others: nat -> Scene
    const draw: nat -> bool
    var scene: Scene
    var turn: nat

    constructor (limit: nat, distinct: bool, room: nat, shared: bool, lasting: bool, others: nat -> Scene, draw: nat -> bool, scene: Scene)
      requires Sound(limit, distinct, scene) && 1 <= room && (lasting ==> !scene.outClosed)
      ensures this.limit == limit && this.distinct == distinct && this.room == room && this.shared == shared && this.lasting == lasting
      ensures this.scene == scene
    {
      this.limit, this.distinct, this.room, this.shared, this.lasting := limit, distinct, room, shared, lasting;
      this.others, this.draw := others, draw;
      this.scene, this.turn := scene, 0;
    }

    predicate Allows(a: Scene, b: Scene) {
      Possible(limit, distinct, shared, lasting, a, b)
    }

    /** The other tasks take any number of steps. */
    method Yield()
      requires Sound(limit, distinct, scene)
      modifies this
      ensures Allows(old(scene), scene)
    {
      if Allows(scene, others(turn)) {
        scene := others(turn);
      }
      turn := turn + 1;
    }

    /** Waits until the input holds an entry or has no sender left. */
    method AwaitInput()
      requires Sound(limit, distinct, scene)
      modifies this
      ensures Allows(old(scene), scene)
      ensures scene.inp.Waiting() > 0 || scene.inClosed
    {
      Yield();
      if scene.inp.Waiting() == 0 {
        scene := scene.(inClosed := true);
      }
    }

    /** Waits for the input or for the cancellation; when both are there, either may be noticed. */
    method AwaitInputOrCancel() returns (quit: bool)
      requires Sound(limit, distinct, scene)
      modifies this
      ensures Allows(old(scene), scene)
      ensures if quit then scene.sh.cancelled else scene.inp.Waiting() > 0 || scene.inClosed
    {
      Yield();
      if scene.sh.cancelled && (!(scene.inp.Waiting() > 0 || scene.inClosed) || draw(turn)) {
        return true;
      }
      if scene.inp.Waiting() == 0 {
        scene := scene.(inClosed := true);
      }
      return false;
    }

    /** Waits until the output has room or has no receiver left. */
    method AwaitRoom()
      requires Sound(limit, distinct, scene) && 1 <= room
      modifies this
      ensures Allows(old(scene), scene)
      ensures scene.outClosed || scene.out.Waiting() < room
    {
      Yield();
      if !scene.outClosed && scene.out.Waiting() >= room {
        scene := scene.(out := scene.out.(taken := |scene.out.sent|));
      }
    }

    method Receive() returns (o: S3Object)
      requires Sound(limit, distinct, scene) && scene.inp.Waiting() > 0
      modifies this`scene
      ensures o == old(scene.inp.sent[scene.inp.taken])
      ensures scene == old(scene).(inp := old(scene.inp).(taken := old(scene.inp.taken) + 1))
      ensures Sound(limit, distinct, scene)
    {
      o := scene.inp.sent[scene.inp.taken];
      scene := scene.(inp := scene.inp.(taken := scene.inp.taken + 1));
    }

    method Push(o: S3Object)
      requires Sound(limit, distinct, scene)
      modifies this`scene
      ensures scene == old(scene).(out := old(scene.out).(sent := old(scene.out.sent) + [o]))
      ensures Sound(limit, distinct, scene)
    {
      scene := scene.(out := scene.out.(sent := scene.out.sent + [o]));
    }

    method SetShared(sh: Shared)
      modifies this`scene
      ensures scene == old(scene).(sh := sh)
    {
      scene := scene.(sh := sh);
    }
  }
}
