/** The frame loop's state (digitBodies, the engine world, lastTime and the
    canvas size) and the operations on it: fireDigit, cull and draw. */
module Simulation {
  import opened BodyList
  import opened Intake
  import opened Wrappers

  /** The largest frame delta handed to the physics step, in milliseconds. */
  const DeltaCap: real := 16.6

  /** The delta draw hands to the physics step: the time since the previous
      frame, at most DeltaCap, and exactly DeltaCap on the first frame. */
  function FrameDelta(lastTime: Option<real>, now: real): (delta: real)
    ensures delta <= DeltaCap
    ensures lastTime.None? ==> delta == DeltaCap
    ensures lastTime.Some? ==> delta <= now - lastTime.value
    ensures lastTime.Some? ==> delta == DeltaCap || delta == now - lastTime.value
  {
    match lastTime
    case None => DeltaCap
    case Some(t) => if now - t < DeltaCap then now - t else DeltaCap
  }

  /** The list after the physics step has moved each body to a new position;
      identities, characters and colours stay as they were. */
  function Moved(s: seq<Body>, stepped: seq<Point>): (r: seq<Body>)
    requires |stepped| == |s|
    ensures |r| == |s|
    ensures forall i :: 0 <= i < |s| ==>
      r[i].id == s[i].id && r[i].glyph == s[i].glyph && r[i].color == s[i].color
  {
    seq(|s|, i requires 0 <= i < |s| => s[i].(x := stepped[i].x, y := stepped[i].y))
  }

  lemma MovedIds(s: seq<Body>, stepped: seq<Point>, bound: nat)
    requires |stepped| == |s|
    ensures Distinct(s) ==> Distinct(Moved(s, stepped))
    ensures IdsBelow(s, bound) ==> IdsBelow(Moved(s, stepped), bound)
    ensures Ids(Moved(s, stepped)) == Ids(s)
  {
    var r := Moved(s, stepped);
    forall x | x in Ids(s) ensures x in Ids(r) {
      var c :| c in s && c.id == x;
      var i :| 0 <= i < |s| && s[i] == c;
      assert r[i] in r;
    }
    forall x | x in Ids(r) ensures x in Ids(s) {
      var c :| c in r && c.id == x;
      var i :| 0 <= i < |r| && r[i] == c;
      assert s[i] in s;
    }
  }

  /** The bodies one frame spawns: those for the characters popped from the
      left queue, then those for the right queue, with consecutive identities. */
  function FrameSpawned(left: seq<char>, right: seq<char>, leftRolls: seq<Roll>, rightRolls: seq<Roll>,
                        id: nat, width: real, height: real): (r: seq<Body>)
    requires ValidRolls(leftRolls) && |leftRolls| >= MaxPerFrame
    requires ValidRolls(rightRolls) && |rightRolls| >= MaxPerFrame
    ensures |r| == |Popped(left)| + |Popped(right)| <= 2 * MaxPerFrame
  {
    Spawned(Popped(left), Left, leftRolls, id, width, height)
      + Spawned(Popped(right), Right, rightRolls, id + |Popped(left)|, width, height)
  }

  /** Spawning the left side's bodies and then the right side's is spawning
      the frame's bodies in that order. */
  lemma FrameSpawnOrder(moved: seq<Body>, left: seq<char>, right: seq<char>,
                        leftRolls: seq<Roll>, rightRolls: seq<Roll>, id: nat, width: real, height: real)
    requires ValidRolls(leftRolls) && |leftRolls| >= MaxPerFrame
    requires ValidRolls(rightRolls) && |rightRolls| >= MaxPerFrame
    ensures PushAll(PushAll(moved, Spawned(Popped(left), Left, leftRolls, id, width, height)),
                    Spawned(Popped(right), Right, rightRolls, id + |Popped(left)|, width, height))
         == PushAll(moved, FrameSpawned(left, right, leftRolls, rightRolls, id, width, height))
  {
    var l := Spawned(Popped(left), Left, leftRolls, id, width, height);
    var r := Spawned(Popped(right), Right, rightRolls, id + |Popped(left)|, width, height);
    assert FrameSpawned(left, right, leftRolls, rightRolls, id, width, height) == l + r;
    PushAllConcat(moved, l, r);
  }

  /** Every body a frame spawns starts on screen. */
  lemma FrameSpawnedOnScreen(left: seq<char>, right: seq<char>, leftRolls: seq<Roll>, rightRolls: seq<Roll>,
                             id: nat, width: real, height: real)
    requires ValidRolls(leftRolls) && |leftRolls| >= MaxPerFrame
    requires ValidRolls(rightRolls) && |rightRolls| >= MaxPerFrame
    requires width >= 0.0 && height >= 0.0
    ensures forall i :: 0 <= i < |FrameSpawned(left, right, leftRolls, rightRolls, id, width, height)| ==>
      !OffScreen(FrameSpawned(left, right, leftRolls, rightRolls, id, width, height)[i], width, height)
  {
    var l := Spawned(Popped(left), Left, leftRolls, id, width, height);
    var r := Spawned(Popped(right), Right, rightRolls, id + |Popped(left)|, width, height);
    assert FrameSpawned(left, right, leftRolls, rightRolls, id, width, height) == l + r;
    SpawnedOnScreen(Popped(left), Left, leftRolls, id, width, height);
    SpawnedOnScreen(Popped(right), Right, rightRolls, id + |Popped(left)|, width, height);
    forall i | 0 <= i < |l + r| ensures !OffScreen((l + r)[i], width, height) {
      if i < |l| {
        assert (l + r)[i] == l[i];
      } else {
        assert (l + r)[i] == r[i - |l|];
      }
    }
  }

  /** t is the newest part of s. */
  predicate EndsWith(s: seq<Body>, t: seq<Body>) {
    |t| <= |s| && s[|s| - |t|..] == t
  }

  /** The list one frame of draw leaves: the moved bodies, then the frame's
      spawned bodies pushed one by one under the cap, then culled. */
  function FrameBodies(bodies: seq<Body>, stepped: seq<Point>, left: seq<char>, right: seq<char>,
                       leftRolls: seq<Roll>, rightRolls: seq<Roll>, id: nat, width: real, height: real): seq<Body>
    requires |stepped| == |bodies|
    requires ValidRolls(leftRolls) && |leftRolls| >= MaxPerFrame
    requires ValidRolls(rightRolls) && |rightRolls| >= MaxPerFrame
  {
    Culled(PushAll(Moved(bodies, stepped), FrameSpawned(left, right, leftRolls, rightRolls, id, width, height)),
      width, height)
  }

  /** Every body a frame leaves is on screen, and was on the list or was
      spawned in that frame. */
  lemma {:induction false} FrameOnScreen(bodies: seq<Body>, stepped: seq<Point>, left: seq<char>, right: seq<char>,
                       leftRolls: seq<Roll>, rightRolls: seq<Roll>, id: nat, width: real, height: real, b: Body)
    requires |stepped| == |bodies|
    requires ValidRolls(leftRolls) && |leftRolls| >= MaxPerFrame
    requires ValidRolls(rightRolls) && |rightRolls| >= MaxPerFrame
    ensures b in FrameBodies(bodies, stepped, left, right, leftRolls, rightRolls, id, width, height) ==>
      !OffScreen(b, width, height) &&
      (b in Moved(bodies, stepped) || b in FrameSpawned(left, right, leftRolls, rightRolls, id, width, height))
  {
    var moved, news := Moved(bodies, stepped), FrameSpawned(left, right, leftRolls, rightRolls, id, width, height);
    CulledMembers(PushAll(moved, news), width, height, b);
    PushAllMembers(moved, news, b);
  }

  /** A frame never loses a body it has just spawned: they are the newest
      bodies of the list it leaves, in spawn order. */
  lemma FrameKeepsSpawned(bodies: seq<Body>, stepped: seq<Point>, left: seq<char>, right: seq<char>,
                          leftRolls: seq<Roll>, rightRolls: seq<Roll>, id: nat, width: real, height: real)
    requires |stepped| == |bodies| <= MaxBodies
    requires ValidRolls(leftRolls) && |leftRolls| >= MaxPerFrame
    requires ValidRolls(rightRolls) && |rightRolls| >= MaxPerFrame
    requires width >= 0.0 && height >= 0.0
    ensures EndsWith(FrameBodies(bodies, stepped, left, right, leftRolls, rightRolls, id, width, height),
                     FrameSpawned(left, right, leftRolls, rightRolls, id, width, height))
  {
    var news := FrameSpawned(left, right, leftRolls, rightRolls, id, width, height);
    FrameSpawnedOnScreen(left, right, leftRolls, rightRolls, id, width, height);
    CullAfterPushKeepsNews(Moved(bodies, stepped), news, width, height);
  }

  class Marquee {
    /** digitBodies, oldest first. */
    var bodies: seq<Body>
    /** The identities of the bodies in the engine world. */
    var world: set<nat>
    /** The identity the engine gives the next body it creates. */
    var nextId: nat
    var lastTime: Option<real>
    var width: real
    var height: real
    const queue: DigitQueue

    /** The list stays within the cap, its identities are distinct and fresh
        ones are still available, and the world holds exactly the listed bodies. */
    ghost predicate Valid()
      reads this
    {
      |bodies| <= MaxBodies && Distinct(bodies) && IdsBelow(bodies, nextId) &&
      world == Ids(bodies) && width >= 0.0 && height >= 0.0
    }

    constructor (queue: DigitQueue, width: real, height: real)
      requires width >= 0.0 && height >= 0.0
      ensures Valid() && this.queue == queue
      ensures bodies == [] && world == {} && lastTime == None
      ensures this.width == width && this.height == height
    {
      this.queue := queue;
      bodies, world, nextId, lastTime := [], {}, 0, None;
      this.width, this.height := width, height;
    }

    /** The window was resized (the canvas itself is not modelled). */
    method Resize(width: real, height: real)
      requires Valid() && width >= 0.0 && height >= 0.0
      modifies this`width, this`height
      ensures Valid() && this.width == width && this.height == height
    {
      this.width, this.height := width, height;
    }

    /** fireDigit: drop the oldest bodies, from the list and from the world,
        while the list is at the cap, then add a body for `ch`. */
    method FireDigit(ch: char, side: Side, roll: Roll)
      requires Valid() && ValidRoll(roll)
      modifies this`bodies, this`world, this`nextId
      ensures Valid()
      ensures bodies == Fired(old(bodies), SpawnBody(ch, side, roll, old(nextId), width, height))
      ensures world == old(world) - Ids(old(bodies)[..EvictCount(|old(bodies)|)]) + {old(nextId)}
      ensures nextId == old(nextId) + 1
    {
      ghost var evicted := 0;
      while |bodies| >= MaxBodies
        invariant evicted <= EvictCount(|old(bodies)|) && nextId == old(nextId)
        invariant bodies == old(bodies)[evicted..]
        invariant world == Ids(bodies)
        decreases |bodies|
      {
        var oldest := bodies[0];
        IdsDropFirst(old(bodies), evicted);
        bodies := bodies[1..];
        world := world - {oldest.id};
        evicted := evicted + 1;
      }
      assert evicted == EvictCount(|old(bodies)|);
      var body := SpawnBody(ch, side, roll, nextId, width, height);
      FiredIds(old(bodies), body, nextId);
      world := world + {body.id};
      bodies := bodies + [body];
      nextId := nextId + 1;
    }

    /** cull: remove, from the list and the world, every body that is off
        screen; the list keeps its invariant. */
    method Cull()
      requires Valid()
      modifies this`bodies, this`world
      ensures Valid()
      ensures bodies == Culled(old(bodies), width, height)
      ensures world == old(world) - Ids(Removed(old(bodies), width, height))
    {
      CullFromBack();
      IdsCulled(old(bodies), width, height);
      CulledIdsBelow(old(bodies), width, height, nextId);
    }

    /** cull's walk from the back of the list to the front, splicing out each
        off-screen body and removing it from the world. */
    method CullFromBack()
      modifies this`bodies, this`world
      ensures bodies == Culled(old(bodies), width, height)
      ensures world == old(world) - Ids(Removed(old(bodies), width, height))
    {
      var i := |bodies|;
      while i > 0
        invariant 0 <= i <= |old(bodies)|
        invariant bodies == old(bodies)[..i] + Culled(old(bodies)[i..], width, height)
        invariant world == old(world) - Ids(Removed(old(bodies)[i..], width, height))
      {
        i := i - 1;
        ghost var s, rest := old(bodies), Culled(old(bodies)[i + 1..], width, height);
        assert s[..i + 1] == s[..i] + [s[i]];
        assert bodies == s[..i] + [s[i]] + rest;
        SpliceOut(s[..i], s[i], rest);
        CullStepAt(s, i, width, height);
        var b := bodies[i];
        if OffScreen(b, width, height) {
          ghost var gone := Ids(Removed(s[i + 1..], width, height));
          IdsAppend([s[i]], Removed(s[i + 1..], width, height));
          assert Ids([s[i]]) == {b.id};
          assert Ids(Removed(s[i..], width, height)) == {b.id} + gone;
          world := world - {b.id};
          assert world == old(world) - ({b.id} + gone);
          bodies := bodies[..i] + bodies[i + 1..];
        } else {
          assert bodies == s[..i] + ([s[i]] + rest);
        }
      }
      assert old(bodies)[0..] == old(bodies);
    }

    /** Engine.update: the physics step moves every body somewhere; which
        positions it picks is the engine's business, so they are given. */
    method StepPhysics(stepped: seq<Point>)
      requires Valid() && |stepped| == |bodies|
      modifies this`bodies
      ensures Valid()
      ensures bodies == Moved(old(bodies), stepped)
    {
      MovedIds(bodies, stepped, nextId);
      bodies := Moved(bodies, stepped);
    }

    /** One step of draw's spawn loop: shift the oldest character off a
        side's queue and fire a body for it. */
    method FireNext(side: Side, roll: Roll) returns (ch: char)
      requires Valid() && ValidRoll(roll) && queue.Of(side) != []
      modifies this`bodies, this`world, this`nextId, queue
      ensures Valid()
      ensures ch == old(queue.Of(side))[0]
      ensures queue.Of(side) == old(queue.Of(side))[1..]
      ensures queue.Of(Other(side)) == old(queue.Of(Other(side)))
      ensures bodies == Fired(old(bodies), SpawnBody(ch, side, roll, old(nextId), width, height))
      ensures nextId == old(nextId) + 1
    {
      ch := queue.Shift(side);
      FireDigit(ch, side, roll);
    }

    /** One side's part of draw: pop min(length, MaxPerFrame) characters from
        the front of its queue and fire a body for each, in queue order, the
        i-th with the i-th roll. */
    method DrainSide(side: Side, rolls: seq<Roll>)
      requires Valid() && ValidRolls(rolls) && |rolls| >= MaxPerFrame
      modifies this`bodies, this`world, this`nextId, queue
      ensures Valid()
      ensures nextId == old(nextId) + |Popped(old(queue.Of(side)))|
      ensures queue.Of(side) == Drain(old(queue.Of(side)))
      ensures queue.Of(Other(side)) == old(queue.Of(Other(side)))
      ensures bodies == PushAll(old(bodies), Spawned(Popped(old(queue.Of(side))), side, rolls, old(nextId), width, height))
    {
      ghost var q, b0, id0 := queue.Of(side), bodies, nextId;
      var n := Min(|queue.Of(side)|, MaxPerFrame);
      ghost var popped := Popped(q);
      for i := 0 to n
        invariant Valid()
        invariant queue.Of(side) == q[i..]
        invariant queue.Of(Other(side)) == old(queue.Of(Other(side)))
        invariant nextId == id0 + i
        invariant bodies == PushAll(b0, Spawned(popped[..i], side, rolls, id0, width, height))
      {
        ghost var before := bodies;
        var ch := FireNext(side, rolls[i]);
        ghost var body := SpawnBody(popped[i], side, rolls[i], id0 + i, width, height);
        assert ch == popped[i];
        assert bodies == Fired(before, body);
        PushSpawnedSnoc(b0, popped, i, side, rolls, id0, width, height);
      }
      assert popped[..n] == popped;
    }

    /** draw's spawn phase: the left queue's characters first, then the
        right queue's, at most MaxPerFrame of each. */
    method SpawnFrame(leftRolls: seq<Roll>, rightRolls: seq<Roll>)
      requires Valid()
      requires ValidRolls(leftRolls) && |leftRolls| >= MaxPerFrame
      requires ValidRolls(rightRolls) && |rightRolls| >= MaxPerFrame
      modifies this`bodies, this`world, this`nextId, queue
      ensures Valid()
      ensures queue.Of(Left) == Drain(old(queue.Of(Left)))
      ensures queue.Of(Right) == Drain(old(queue.Of(Right)))
      ensures bodies == PushAll(old(bodies),
        FrameSpawned(old(queue.Of(Left)), old(queue.Of(Right)), leftRolls, rightRolls, old(nextId), width, height))
    {
      ghost var ql, qr, id0, b0 := queue.Of(Left), queue.Of(Right), nextId, bodies;
      ghost var l := Spawned(Popped(ql), Left, leftRolls, id0, width, height);
      ghost var r := Spawned(Popped(qr), Right, rightRolls, id0 + |Popped(ql)|, width, height);
      FrameSpawnOrder(b0, ql, qr, leftRolls, rightRolls, id0, width, height);
      DrainSide(Left, leftRolls);
      ghost var b1 := bodies;
      assert b1 == PushAll(b0, l);
      assert queue.Of(Right) == qr && nextId == id0 + |Popped(ql)|;
      DrainSide(Right, rightRolls);
      assert bodies == PushAll(b1, r);
    }

    /** draw, up to rendering: clamp the delta, step the physics, spawn up to
        MaxPerFrame characters from the left queue and then from the right
        one, then cull. The random draws of the left and the right spawns are
        given separately. */
    method Draw(now: real, stepped: seq<Point>, leftRolls: seq<Roll>, rightRolls: seq<Roll>) returns (delta: real)
      requires Valid() && |stepped| == |bodies|
      requires ValidRolls(leftRolls) && |leftRolls| >= MaxPerFrame
      requires ValidRolls(rightRolls) && |rightRolls| >= MaxPerFrame
      modifies this, queue
      ensures Valid() && width == old(width) && height == old(height)
      ensures delta == FrameDelta(old(lastTime), now) && lastTime == Some(now)
      ensures queue.Of(Left) == Drain(old(queue.Of(Left)))
      ensures queue.Of(Right) == Drain(old(queue.Of(Right)))
      ensures bodies == FrameBodies(old(bodies), stepped, old(queue.Of(Left)), old(queue.Of(Right)),
                                    leftRolls, rightRolls, old(nextId), width, height)
    {
      delta := FrameDelta(lastTime, now);
      lastTime := Some(now);
      StepPhysics(stepped);
      ghost var b0, moved, ql, qr, id0 := old(bodies), bodies, queue.Of(Left), queue.Of(Right), nextId;
      assert moved == Moved(b0, stepped);
      SpawnFrame(leftRolls, rightRolls);
      ghost var spawned := bodies;
      assert spawned == PushAll(moved, FrameSpawned(ql, qr, leftRolls, rightRolls, id0, width, height));
      Cull();
      assert bodies == Culled(spawned, width, height);
    }
  }
}
