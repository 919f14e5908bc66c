/**
 * `ThreedPhysicManager`: the list of physics components of a scene, the
 * physics world holding their bodies, contact pairing and the per-frame
 * update order. A body is an id with a velocity; a component is an id with
 * the id of its body.
 */
module Physics {
  import opened Wrappers
  import opened ThreedModels

  datatype PhysicBody = PhysicBody(id: nat, velocity: Vector3)

  datatype PhysicComponent = PhysicComponent(id: nat, body: nat)

  /** A collision notification: `target` is told it touched `other` (which may be unknown). */
  datatype Collision = BeginCollision(target: nat, other: Option<nat>) | EndCollision(target: nat, other: Option<nat>)

  /** The calls of one `updatePhysics`, in order. */
  datatype PhysicStep = BeforeUpdatePhysics(component: nat) | EarthquakeForce(velocity: Vector3) | WorldStep(delta: real)
                      | UpdatePhysics(component: nat)

  /** `body.velocity.set(x, 0, z)` for the horizontal part of a force. */
  function Horizontal(f: Vector3): (v: Vector3)
    ensures v.y == 0.0 && v.x == f.x && v.z == f.z
  {
    Vector3(f.x, 0.0, f.z)
  }

  /** The physics world: its bodies, in the order they were added. */
  class World {
    var bodies: seq<PhysicBody>

    constructor()
      ensures bodies == []
    {
      bodies := [];
    }

    /** Every body gets velocity `v`; ids and order stay. */
    method SetAllVelocities(v: Vector3)
      modifies this
      ensures |bodies| == |old(bodies)|
      ensures forall i :: 0 <= i < |bodies| ==> bodies[i] == old(bodies)[i].(velocity := v)
    {
      var i := 0;
      while i < |bodies|
        invariant 0 <= i <= |bodies| && |bodies| == |old(bodies)|
        invariant forall j :: 0 <= j < |bodies| ==> bodies[j] == if j < i then old(bodies)[j].(velocity := v) else old(bodies)[j]
      {
        bodies := bodies[i := bodies[i].(velocity := v)];
        i := i + 1;
      }
    }
  }

  /**
   * The loop of the contact handlers: A is a component whose body is
   * `bodyA`; B is matched only among components whose body is not `bodyA`.
   * The scan stops once both are found.
   */
  method PairContact(cs: seq<PhysicComponent>, bodyA: nat, bodyB: nat) returns (a: Option<PhysicComponent>, b: Option<PhysicComponent>)
    ensures a.Some? ==> a.value in cs && a.value.body == bodyA
    ensures a.None? <==> forall c :: c in cs ==> c.body != bodyA
    ensures b.Some? ==> b.value in cs && b.value.body == bodyB && bodyB != bodyA
    ensures b.None? <==> forall c :: c in cs ==> c.body != bodyB || c.body == bodyA
  {
    a, b := None, None;
    var i := 0;
    while i < |cs|
      invariant 0 <= i <= |cs|
      invariant a.Some? ==> a.value in cs && a.value.body == bodyA
      invariant a.None? ==> forall j :: 0 <= j < i ==> cs[j].body != bodyA
      invariant b.Some? ==> b.value in cs && b.value.body == bodyB && bodyB != bodyA
      invariant b.None? ==> forall j :: 0 <= j < i ==> cs[j].body != bodyB || cs[j].body == bodyA
    {
      var c := cs[i];
      if bodyA == c.body {
        a := Some(c);
      } else if bodyB == c.body {
        b := Some(c);
      }
      if a.Some? && b.Some? {
        break;
      }
      i := i + 1;
    }
  }

  /** The notifications of one contact: A hears about B, then B about A. */
  function Notify(a: Option<PhysicComponent>, b: Option<PhysicComponent>, begin: bool): (r: seq<Collision>)
    ensures |r| == (if a.Some? then 1 else 0) + (if b.Some? then 1 else 0)
  {
    var other := (o: Option<PhysicComponent>) => if o.Some? then Some(o.value.id) else None;
    var mk := (t: nat, o: Option<nat>) => if begin then BeginCollision(t, o) else EndCollision(t, o);
    (if a.Some? then [mk(a.value.id, other(b))] else []) + (if b.Some? then [mk(b.value.id, other(a))] else [])
  }

  class ThreedPhysicManager {
    const world: World
    var components: seq<PhysicComponent>
    var earthquakeMagnitude: real
    var collisions: seq<Collision>
    var steps: seq<PhysicStep>

    constructor(world: World)
      ensures this.world == world && components == [] && earthquakeMagnitude == 0.0
      ensures collisions == [] && steps == []
    {
      this.world := world;
      components := [];
      earthquakeMagnitude := 0.0;
      collisions, steps := [], [];
    }

    /** `addPhysic`: append the component and add its body to the world. */
    method AddPhysic(c: PhysicComponent, body: PhysicBody)
      modifies this, world
      requires body.id == c.body
      ensures components == old(components) + [c]
      ensures world.bodies == old(world.bodies) + [body]
      ensures earthquakeMagnitude == old(earthquakeMagnitude) && collisions == old(collisions) && steps == old(steps)
    {
      components := components + [c];
      world.bodies := world.bodies + [body];
    }

    /** `removePhysic`: drop the first occurrence and its body; absent components change nothing. */
    method RemovePhysic(c: PhysicComponent)
      modifies this, world
      ensures c !in old(components) ==> components == old(components) && world.bodies == old(world.bodies)
      ensures c in old(components) ==>
                exists i :: 0 <= i < |old(components)| && old(components)[i] == c && c !in old(components)[..i] &&
                            components == old(components)[..i] + old(components)[i + 1..]
      ensures c in old(components) ==> world.bodies == RemoveBody(old(world.bodies), c.body)
      ensures earthquakeMagnitude == old(earthquakeMagnitude) && collisions == old(collisions) && steps == old(steps)
    {
      var i := 0;
      while i < |components|
        invariant 0 <= i <= |components|
        invariant c !in components[..i]
      {
        if components[i] == c {
          world.bodies := RemoveBody(world.bodies, c.body);
          components := components[..i] + components[i + 1..];
          return;
        }
        assert components[..i + 1] == components[..i] + [components[i]];
        i := i + 1;
      }
      assert components[..i] == components;
    }

    /** `onBeginContact` / `onEndContact`: ignored with at most one component; otherwise both sides are told. */
    method OnContact(bodyA: nat, bodyB: nat, begin: bool)
      modifies this
      ensures components == old(components) && steps == old(steps) && earthquakeMagnitude == old(earthquakeMagnitude)
      ensures |components| <= 1 ==> collisions == old(collisions)
      ensures |components| > 1 ==> exists a: Option<PhysicComponent>, b: Option<PhysicComponent> ::
                (a.Some? ==> a.value in components && a.value.body == bodyA) &&
                (a.None? <==> forall c :: c in components ==> c.body != bodyA) &&
                (b.Some? ==> b.value in components && b.value.body == bodyB && bodyB != bodyA) &&
                (b.None? <==> forall c :: c in components ==> c.body != bodyB || c.body == bodyA) &&
                collisions == old(collisions) + Notify(a, b, begin)
    {
      if |components| <= 1 {
        return;
      }
      var a, b := PairContact(components, bodyA, bodyB);
      collisions := collisions + Notify(a, b, begin);
    }

    /**
     * `applyEarthquakeForce`: a magnitude of at most 0 stops every body;
     * otherwise every body moves horizontally with a random force scaled by
     * the magnitude (`rx`, `rz` are the two `Math.random()` draws).
     */
    method ApplyEarthquakeForce(rx: real, rz: real) returns (velocity: Vector3)
      modifies world
      ensures earthquakeMagnitude <= 0.0 ==> velocity == VectorZero()
      ensures earthquakeMagnitude > 0.0 ==>
                velocity == Vector3((rx * 10.0 - 5.0) * earthquakeMagnitude, 0.0, (rz * 10.0 - 5.0) * earthquakeMagnitude)
      ensures |world.bodies| == |old(world.bodies)|
      ensures forall i :: 0 <= i < |world.bodies| ==> world.bodies[i] == old(world.bodies)[i].(velocity := velocity)
    {
      if earthquakeMagnitude <= 0.0 {
        velocity := VectorZero();
      } else {
        var force := Vector3((rx * 10.0 - 5.0) * earthquakeMagnitude, 0.0, (rz * 10.0 - 5.0) * earthquakeMagnitude);
        velocity := Horizontal(force);
      }
      world.SetAllVelocities(velocity);
    }

    /**
     * `updatePhysics`: before-hooks of every component, the earthquake
     * force, one world step, then every component's own update. `forced`
     * is the world as the step receives it. What the step and the
     * components' updates do to the bodies is the physics library's and the
     * components' business: `stepped` is the world they leave behind.
     */
    method UpdatePhysics(delta: real, rx: real, rz: real, stepped: seq<PhysicBody>) returns (forced: seq<PhysicBody>)
      modifies this, world
      ensures components == old(components) && collisions == old(collisions)
      ensures earthquakeMagnitude == old(earthquakeMagnitude)
      ensures steps == old(steps) + StepCalls(components, true) +
                       [EarthquakeForce(EarthquakeVelocity(earthquakeMagnitude, rx, rz)), WorldStep(delta)] +
                       StepCalls(components, false)
      ensures |forced| == |old(world.bodies)|
      ensures forall i :: 0 <= i < |forced| ==>
                forced[i] == old(world.bodies)[i].(velocity := EarthquakeVelocity(earthquakeMagnitude, rx, rz))
      ensures world.bodies == stepped
    {
      var before := StepCallsOf(components, true);
      steps := steps + before;
      var v := ApplyEarthquakeForce(rx, rz);
      forced := world.bodies;
      var after := StepCallsOf(components, false);
      steps := steps + [EarthquakeForce(v), WorldStep(delta)] + after;
      world.bodies := stepped;
    }
  }

  /**
   * The velocity the earthquake gives every body: none without a positive
   * magnitude, else the horizontal part of the random force (`rx`, `rz` are
   * the two `Math.random()` draws) scaled by the magnitude.
   */
  function EarthquakeVelocity(magnitude: real, rx: real, rz: real): Vector3
  {
    if magnitude <= 0.0 then VectorZero() else Vector3((rx * 10.0 - 5.0) * magnitude, 0.0, (rz * 10.0 - 5.0) * magnitude)
  }

  /** The world's `removeBody`: drop the first body with the given id. */
  function RemoveBody(bodies: seq<PhysicBody>, id: nat): (r: seq<PhysicBody>)
    ensures (forall b :: b in bodies ==> b.id != id) ==> r == bodies
    ensures (exists b :: b in bodies && b.id == id) ==> |r| == |bodies| - 1
    ensures forall b :: b in r ==> b in bodies
  {
    if bodies == [] then []
    else if bodies[0].id == id then bodies[1..]
    else [bodies[0]] + RemoveBody(bodies[1..], id)
  }

  /** The hook of a component: `beforeUpdatePhysics` or `updatePhysics`. */
  function Hook(id: nat, before: bool): PhysicStep
  {
    if before then BeforeUpdatePhysics(id) else UpdatePhysics(id)
  }

  /** One hook call per component, in order. */
  function StepCalls(cs: seq<PhysicComponent>, before: bool): (r: seq<PhysicStep>)
    ensures |r| == |cs|
    ensures forall i :: 0 <= i < |cs| ==> r[i] == Hook(cs[i].id, before)
  {
    seq(|cs|, i requires 0 <= i < |cs| => Hook(cs[i].id, before))
  }

  /** The `forEach` that calls a hook on every component. */
  method StepCallsOf(cs: seq<PhysicComponent>, before: bool) returns (r: seq<PhysicStep>)
    ensures r == StepCalls(cs, before)
  {
    r := [];
    var i := 0;
    while i < |cs|
      invariant 0 <= i <= |cs|
      invariant r == StepCalls(cs[..i], before)
    {
      assert cs[..i + 1] == cs[..i] + [cs[i]];
      r := r + [Hook(cs[i].id, before)];
      i := i + 1;
    }
    assert cs[..|cs|] == cs;
  }
}
