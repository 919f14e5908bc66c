/**
 * `ThreedGroupGameObjectComponent`: turns every node of a model that
 * declares a `physicShape` into a game object and a dynamic rigid body, and
 * locks together the bodies that share a `constraintLockTag`. Shapes, world
 * positions and the CANNON body options are three.js/cannon-es plumbing and
 * are not modelled; a body is known by its index among the rigid bodies.
 */
module GroupGameObject {
  import opened JsValues
  import opened SceneGraph
  import opened BaseComponents

  const PhysicShapeKey: string := "physicShape"
  const MassKey: string := "mass"
  const LockTagKey: string := "constraintLockTag"
  const DefaultMass: real := 10.0

  /** `if (o.userData.physicShape)`: only nodes with a truthy shape get a body. */
  predicate IsPhysic(n: Node)
  {
    Truthy(Get(n.userData, PhysicShapeKey))
  }

  /** `o.userData.mass ?? 10`: only a missing (undefined or null) mass takes the default; 0 is kept. */
  function MassOf(n: Node): JsValue
  {
    var m := Get(n.userData, MassKey);
    if m.Undefined? || m.Null? then Num(DefaultMass) else m
  }

  function LockTag(n: Node): JsValue
  {
    Get(n.userData, LockTagKey)
  }

  /** `constraintLockTag != undefined`, a loose comparison that also rejects null. */
  predicate HasLockTag(n: Node)
  {
    !(LockTag(n).Undefined? || LockTag(n).Null?)
  }

  /** `new CANNON.LockConstraint(pb, p)`: locks the new body to an earlier one. */
  datatype LockConstraint = LockConstraint(bodyA: nat, bodyB: nat)

  /** A `ThreedRigidbodyComponent` built here: its node, its body, the body's mass and its joints. */
  datatype Rigidbody = Rigidbody(node: Node, body: nat, mass: JsValue, joints: seq<LockConstraint>)

  datatype GameObject = GameObject(uuid: string)

  /** The `sceneManager.add(..., true)` calls, in order. */
  datatype Registration = AddedGameObject(uuid: string) | AddedRigidbody(body: nat)

  /** The physic nodes of a traversal, in order. */
  function PhysicNodes(s: seq<Node>): (r: seq<Node>)
    ensures |r| <= |s|
    ensures forall n :: n in r ==> IsPhysic(n) && n in s
  {
    if s == [] then [] else PhysicNodes(s[..|s| - 1]) + (if IsPhysic(s[|s| - 1]) then [s[|s| - 1]] else [])
  }

  lemma PhysicNodesPrefix(s: seq<Node>, i: nat)
    requires i < |s|
    ensures PhysicNodes(s[..i + 1]) == PhysicNodes(s[..i]) + (if IsPhysic(s[i]) then [s[i]] else [])
  {
    assert s[..i + 1][..i] == s[..i];
  }

  /** The bodies (numbered from `first`) among `ps` that carry lock tag `tag`, in order. */
  function IdsWithTag(ps: seq<Node>, tag: JsValue, first: nat): seq<nat>
  {
    if ps == [] then []
    else
      var last := ps[|ps| - 1];
      IdsWithTag(ps[..|ps| - 1], tag, first) + (if HasLockTag(last) && LockTag(last) == tag then [first + |ps| - 1] else [])
  }

  lemma IdsWithTagSnoc(ps: seq<Node>, o: Node, tag: JsValue, first: nat)
    ensures IdsWithTag(ps + [o], tag, first) == IdsWithTag(ps, tag, first) + (if HasLockTag(o) && LockTag(o) == tag then [first + |ps|] else [])
  {
    assert (ps + [o])[..|ps|] == ps;
  }

  lemma BodiesSnoc(ps: seq<Node>, o: Node, first: nat)
    ensures Bodies(ps + [o], first) == Bodies(ps, first) + [BodyOf(ps + [o], |ps|, first)]
    ensures Registrations(ps + [o], first) == Registrations(ps, first) + [AddedGameObject(o.uuid), AddedRigidbody(first + |ps|)]
  {
    assert (ps + [o])[..|ps|] == ps;
  }

  function Locks(body: nat, prevs: seq<nat>): (r: seq<LockConstraint>)
    ensures |r| == |prevs|
    ensures forall i :: 0 <= i < |r| ==> r[i] == LockConstraint(body, prevs[i])
  {
    seq(|prevs|, i requires 0 <= i < |prevs| => LockConstraint(body, prevs[i]))
  }

  /** A lock to body `x` is among the locks exactly when `x` is among the earlier bodies. */
  lemma LocksMembers(body: nat, prevs: seq<nat>, x: nat)
    ensures (exists c :: c in Locks(body, prevs) && c.bodyB == x) <==> x in prevs
  {
    var r := Locks(body, prevs);
    if x in prevs {
      var i :| 0 <= i < |prevs| && prevs[i] == x;
      assert r[i] in r;
    }
    if exists c :: c in r && c.bodyB == x {
      var c :| c in r && c.bodyB == x;
      var i :| 0 <= i < |r| && r[i] == c;
      assert prevs[i] == x;
    }
  }

  /** The rigid body of the `k`-th physic node: locked to every earlier body with its tag, if it has one. */
  function BodyOf(ps: seq<Node>, k: nat, first: nat): Rigidbody
    requires k < |ps|
  {
    Rigidbody(ps[k], first + k, MassOf(ps[k]),
              if HasLockTag(ps[k]) then Locks(first + k, IdsWithTag(ps[..k], LockTag(ps[k]), first)) else [])
  }

  function Bodies(ps: seq<Node>, first: nat): (r: seq<Rigidbody>)
    ensures |r| == |ps|
  {
    if ps == [] then [] else Bodies(ps[..|ps| - 1], first) + [BodyOf(ps, |ps| - 1, first)]
  }

  function Registrations(ps: seq<Node>, first: nat): seq<Registration>
  {
    if ps == [] then []
    else Registrations(ps[..|ps| - 1], first) + [AddedGameObject(ps[|ps| - 1].uuid), AddedRigidbody(first + |ps| - 1)]
  }

  /** A body id is among the ids with a tag iff it is one of these bodies and carries that tag. */
  lemma {:induction false} IdsWithTagMembers(ps: seq<Node>, tag: JsValue, first: nat, id: nat)
    ensures id in IdsWithTag(ps, tag, first) <==>
              first <= id < first + |ps| && HasLockTag(ps[id - first]) && LockTag(ps[id - first]) == tag
  {
    if ps != [] {
      var init := ps[..|ps| - 1];
      IdsWithTagMembers(init, tag, first, id);
      if first <= id < first + |init| {
        assert ps[id - first] == init[id - first];
      }
    }
  }

  /** Ids with a tag come in increasing order, so each earlier body is locked to exactly once. */
  lemma {:induction false} IdsWithTagIncreasing(ps: seq<Node>, tag: JsValue, first: nat)
    ensures forall i, j :: 0 <= i < j < |IdsWithTag(ps, tag, first)| ==>
              IdsWithTag(ps, tag, first)[i] < IdsWithTag(ps, tag, first)[j]
  {
    if ps != [] {
      var init := ps[..|ps| - 1];
      var before := IdsWithTag(init, tag, first);
      IdsWithTagIncreasing(init, tag, first);
      forall i | 0 <= i < |before|
        ensures before[i] < first + |init|
      {
        IdsWithTagMembers(init, tag, first, before[i]);
      }
    }
  }

  /**
   * The joints of a tagged body lock it to exactly the earlier bodies with
   * the same tag, each once and in order, so the body is the (joints + 1)-th
   * with its tag; an untagged body has no joints.
   */
  lemma BodyJoints(ps: seq<Node>, k: nat, first: nat)
    requires k < |ps|
    ensures var b := BodyOf(ps, k, first);
            !HasLockTag(ps[k]) ==> b.joints == []
    ensures var b := BodyOf(ps, k, first);
            HasLockTag(ps[k]) ==>
              (forall c :: c in b.joints ==> c.bodyA == first + k) &&
              (forall j :: 0 <= j < k ==>
                 ((exists c :: c in b.joints && c.bodyB == first + j) <==> HasLockTag(ps[j]) && LockTag(ps[j]) == LockTag(ps[k]))) &&
              (forall i, j :: 0 <= i < j < |b.joints| ==> b.joints[i].bodyB < b.joints[j].bodyB) &&
              |IdsWithTag(ps[..k + 1], LockTag(ps[k]), first)| == |b.joints| + 1
  {
    if HasLockTag(ps[k]) {
      JointsTargets(ps, k, first);
      JointsOrdered(ps, k, first);
      assert ps[..k + 1][..k] == ps[..k];
    }
  }

  /** A tagged body is locked to an earlier body exactly when that one has the same tag. */
  lemma JointsTargets(ps: seq<Node>, k: nat, first: nat)
    requires k < |ps| && HasLockTag(ps[k])
    ensures var b := BodyOf(ps, k, first);
            forall j :: 0 <= j < k ==>
              ((exists c :: c in b.joints && c.bodyB == first + j) <==> HasLockTag(ps[j]) && LockTag(ps[j]) == LockTag(ps[k]))
  {
    var tag := LockTag(ps[k]);
    var b := BodyOf(ps, k, first);
    var ids := IdsWithTag(ps[..k], tag, first);
    assert b.joints == Locks(first + k, ids);
    forall j | 0 <= j < k
      ensures (exists c :: c in b.joints && c.bodyB == first + j) <==> HasLockTag(ps[j]) && LockTag(ps[j]) == tag
    {
      IdsWithTagMembers(ps[..k], tag, first, first + j);
      LocksMembers(first + k, ids, first + j);
      assert ps[..k][j] == ps[j];
    }
  }

  /** A tagged body's locks go to increasing earlier bodies. */
  lemma JointsOrdered(ps: seq<Node>, k: nat, first: nat)
    requires k < |ps| && HasLockTag(ps[k])
    ensures var b := BodyOf(ps, k, first);
            forall i, j :: 0 <= i < j < |b.joints| ==> b.joints[i].bodyB < b.joints[j].bodyB
  {
    var pre, tag := ps[..k], LockTag(ps[k]);
    IdsWithTagIncreasing(pre, tag, first);
    var ids := IdsWithTag(pre, tag, first);
    var b := BodyOf(ps, k, first);
    assert b.joints == Locks(first + k, ids);
    forall i, j | 0 <= i < j < |b.joints|
      ensures b.joints[i].bodyB < b.joints[j].bodyB
    {
      assert b.joints[i].bodyB == ids[i] && b.joints[j].bodyB == ids[j];
      assert ids[i] < ids[j];
    }
  }

  class ThreedGroupGameObjectComponent {
    const base: ThreedBaseComponent
    const mesh: Node
    var gameobjects: seq<GameObject>
    var rigidbodies: seq<Rigidbody>
    var registered: seq<Registration>

    /** Game objects and rigid bodies pair up one to one, each body numbered by its place. */
    ghost predicate Valid()
      reads this
    {
      |gameobjects| == |rigidbodies| &&
      forall i :: 0 <= i < |rigidbodies| ==> rigidbodies[i].body == i && gameobjects[i].uuid == rigidbodies[i].node.uuid
    }

    constructor(base: ThreedBaseComponent, mesh: Node)
      ensures this.base == base && this.mesh == mesh
      ensures gameobjects == [] && rigidbodies == [] && registered == []
      ensures Valid()
    {
      this.base := base;
      this.mesh := mesh;
      gameobjects, rigidbodies, registered := [], [], [];
    }

    /**
     * `initialize`: walks the model in traversal order; each physic node
     * gets a game object and a body, the body locked to the earlier bodies
     * of this walk that share its tag, and both are registered with the
     * scene manager.
     */
    method Initialize(manager: nat)
      requires Valid()
      modifies this, base
      ensures Valid()
      ensures var ps := PhysicNodes(Traverse(mesh));
              rigidbodies == old(rigidbodies) + Bodies(ps, |old(rigidbodies)|)
      ensures var ps := PhysicNodes(Traverse(mesh));
              gameobjects == old(gameobjects) + GameObjects(ps)
      ensures registered == old(registered) + Registrations(PhysicNodes(Traverse(mesh)), |old(rigidbodies)|)
      ensures base.initialized
    {
      base.Initialize(manager);
      var bodies, gos, regs := BuildBodies(Traverse(mesh), |rigidbodies|);
      ghost var ps := PhysicNodes(Traverse(mesh));
      ghost var first := |rigidbodies|;
      gameobjects := gameobjects + gos;
      rigidbodies := rigidbodies + bodies;
      registered := registered + regs;
      forall i | 0 <= i < |rigidbodies|
        ensures rigidbodies[i].body == i && gameobjects[i].uuid == rigidbodies[i].node.uuid
      {
        if i >= first {
          BodiesNumbered(ps, first, i - first);
        }
      }
    }
  }

  function GameObjects(ps: seq<Node>): (r: seq<GameObject>)
    ensures |r| == |ps|
    ensures forall k :: 0 <= k < |ps| ==> r[k].uuid == ps[k].uuid
  {
    seq(|ps|, k requires 0 <= k < |ps| => GameObject(ps[k].uuid))
  }

  /** Body `k` of a walk is numbered `first + k` and built from the `k`-th physic node. */
  lemma {:induction false} BodiesNumbered(ps: seq<Node>, first: nat, k: nat)
    requires k < |ps|
    ensures Bodies(ps, first)[k] == BodyOf(ps, k, first)
    ensures Bodies(ps, first)[k].body == first + k && Bodies(ps, first)[k].node == ps[k]
  {
    var init := ps[..|ps| - 1];
    assert Bodies(ps, first) == Bodies(init, first) + [BodyOf(ps, |ps| - 1, first)];
    if k < |init| {
      BodiesNumbered(init, first, k);
      assert init[..k] == ps[..k] && init[k] == ps[k];
      assert BodyOf(init, k, first) == BodyOf(ps, k, first);
    }
  }

  /** `previousContraints.get(tag)`, or no bodies when the tag has not been seen. */
  function Previous(previous: map<JsValue, seq<nat>>, tag: JsValue): seq<nat>
  {
    if tag in previous then previous[tag] else []
  }

  /** The `previousContraints` map after a walk over `ps`: each tag's bodies, in order. */
  ghost predicate PreviousMatches(previous: map<JsValue, seq<nat>>, ps: seq<Node>, first: nat)
  {
    forall t :: Previous(previous, t) == IdsWithTag(ps, t, first)
  }

  /**
   * The traversal loop of `initialize`, with the `previousContraints` map:
   * it builds the bodies, game objects and registrations of one walk.
   */
  method BuildBodies(nodes: seq<Node>, first: nat) returns (bodies: seq<Rigidbody>, gos: seq<GameObject>, regs: seq<Registration>)
    ensures bodies == Bodies(PhysicNodes(nodes), first)
    ensures gos == GameObjects(PhysicNodes(nodes))
    ensures regs == Registrations(PhysicNodes(nodes), first)
  {
    bodies, gos, regs := [], [], [];
    var previous: map<JsValue, seq<nat>> := map[];
    var i := 0;
    while i < |nodes|
      invariant 0 <= i <= |nodes|
      invariant Walked(nodes[..i], first, bodies, gos, regs, previous)
    {
      bodies, gos, regs, previous := WalkStep(nodes, i, first, bodies, gos, regs, previous);
      i := i + 1;
    }
    assert nodes[..i] == nodes;
  }

  /** What the walk has built after the nodes `visited`: their bodies, game objects, registrations and tags seen. */
  ghost predicate Walked(visited: seq<Node>, first: nat, bodies: seq<Rigidbody>, gos: seq<GameObject>,
                         regs: seq<Registration>, previous: map<JsValue, seq<nat>>)
  {
    var ps := PhysicNodes(visited);
    bodies == Bodies(ps, first) && gos == GameObjects(ps) && regs == Registrations(ps, first) &&
    PreviousMatches(previous, ps, first)
  }

  /** One node of the walk: a physic node adds its body, any other node changes nothing. */
  method WalkStep(nodes: seq<Node>, i: nat, first: nat, bodies: seq<Rigidbody>, gos: seq<GameObject>,
                  regs: seq<Registration>, previous: map<JsValue, seq<nat>>)
    returns (bodies': seq<Rigidbody>, gos': seq<GameObject>, regs': seq<Registration>, previous': map<JsValue, seq<nat>>)
    requires i < |nodes| && Walked(nodes[..i], first, bodies, gos, regs, previous)
    ensures Walked(nodes[..i + 1], first, bodies', gos', regs', previous')
  {
    PhysicNodesPrefix(nodes, i);
    ghost var ps := PhysicNodes(nodes[..i]);
    if IsPhysic(nodes[i]) {
      assert PhysicNodes(nodes[..i + 1]) == ps + [nodes[i]];
      bodies', gos', regs', previous' := AddBody(nodes[i], ps, first, bodies, gos, regs, previous);
    } else {
      assert PhysicNodes(nodes[..i + 1]) == ps;
      bodies', gos', regs', previous' := bodies, gos, regs, previous;
    }
  }

  /** `prevs.push(pb); previousContraints.set(tag, prevs)` for a tagged body. */
  function Record(previous: map<JsValue, seq<nat>>, o: Node, body: nat): map<JsValue, seq<nat>>
  {
    if HasLockTag(o) then previous[LockTag(o) := Previous(previous, LockTag(o)) + [body]] else previous
  }

  lemma RecordMatches(previous: map<JsValue, seq<nat>>, ps: seq<Node>, o: Node, first: nat)
    requires PreviousMatches(previous, ps, first)
    ensures PreviousMatches(Record(previous, o, first + |ps|), ps + [o], first)
  {
    var previous' := Record(previous, o, first + |ps|);
    forall t
      ensures Previous(previous', t) == IdsWithTag(ps + [o], t, first)
    {
      IdsWithTagSnoc(ps, o, t, first);
      assert Previous(previous, t) == IdsWithTag(ps, t, first);
    }
  }

  /** One physic node of the walk: its body takes the next number and the bodies already seen with its tag. */
  method AddBody(o: Node, ghost ps: seq<Node>, first: nat, bodies: seq<Rigidbody>, gos: seq<GameObject>,
                 regs: seq<Registration>, previous: map<JsValue, seq<nat>>)
    returns (bodies': seq<Rigidbody>, gos': seq<GameObject>, regs': seq<Registration>, previous': map<JsValue, seq<nat>>)
    requires bodies == Bodies(ps, first) && gos == GameObjects(ps) && regs == Registrations(ps, first)
    requires PreviousMatches(previous, ps, first)
    ensures bodies' == Bodies(ps + [o], first) && gos' == GameObjects(ps + [o]) && regs' == Registrations(ps + [o], first)
    ensures PreviousMatches(previous', ps + [o], first)
  {
    BodiesSnoc(ps, o, first);
    assert (ps + [o])[..|ps|] == ps && (ps + [o])[|ps|] == o;
    var body := first + |bodies|;
    RecordMatches(previous, ps, o, first);
    var joints: seq<LockConstraint> := [];
    if HasLockTag(o) {
      assert Previous(previous, LockTag(o)) == IdsWithTag(ps, LockTag(o), first);
      joints := Locks(body, Previous(previous, LockTag(o)));
    }
    previous' := Record(previous, o, body);
    bodies' := bodies + [Rigidbody(o, body, MassOf(o), joints)];
    gos' := gos + [GameObject(o.uuid)];
    regs' := regs + [AddedGameObject(o.uuid), AddedRigidbody(body)];
  }
}
