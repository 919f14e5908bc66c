/**
 * `ThreedEarthquakeController`: shakes every body of a physics world. Each
 * cycle of `maxSteps` force steps pushes the negation of each random force
 * of its first half on a stack and pops them in its second half, so the
 * second half replays the first half negated, in reverse order. The
 * magnitude follows a three-phase tween (reach peak, hold, end).
 */
module Earthquake {
  import opened Wrappers
  import opened ThreedModels
  import opened Physics

  /** The messages of the errors thrown below. */
  const UndefinedPosition: string := "Cannot read properties of undefined (reading 'x')"

  datatype Duration = Duration(timeToReachPeak: real, peakTime: real, timeToEnd: real)

  /** The tween currently driving the magnitude. */
  datatype TweenPhase = ReachPeak | HoldPeak | ToEnd

  const DefaultMaxSteps: int := 10
  const DefaultDuration := Duration(0.2, 2.0, 1.0)

  function Neg(v: Vector3): (r: Vector3)
    ensures r.x == -v.x && r.y == -v.y && r.z == -v.z
  {
    Vector3(-v.x, -v.y, -v.z)
  }

  /** `new Vec3(rx - 0.5, 0, rz - 0.5).scale(magnitude)` for the two random draws. */
  function RandomForce(rx: real, rz: real, magnitude: real): (f: Vector3)
    ensures f.y == 0.0
  {
    Vector3((rx - 0.5) * magnitude, 0.0, (rz - 0.5) * magnitude)
  }

  /** Number of pushing steps in a cycle: the steps `s` with `s < maxSteps / 2`. */
  function PushSteps(maxSteps: int): (h: int)
    requires maxSteps >= 1
    ensures forall s: int :: 0 <= s ==> (2 * s < maxSteps <==> s < h)
    ensures maxSteps <= 2 * h && h <= maxSteps
  {
    (maxSteps + 1) / 2
  }

  /**
   * The stack discipline of one cycle after `step` force steps whose forces
   * were `cycle`: the stack holds the negated forces not yet replayed, and
   * every replayed force is the negation of its mirror in the first half.
   */
  ghost predicate CycleShape(maxSteps: int, step: int, forces: seq<Vector3>, cycle: seq<Vector3>)
    requires maxSteps >= 1
  {
    var h := PushSteps(maxSteps);
    0 <= step < maxSteps && |cycle| == step &&
    |forces| == (if step <= h then step else 2 * h - step) &&
    (forall i :: 0 <= i < |forces| ==> forces[i] == Neg(cycle[i])) &&
    (forall t :: h <= t < step ==> cycle[t] == Neg(cycle[2 * h - 1 - t]))
  }

  class ThreedEarthquakeController {
    const world: World
    const maxSteps: int
    const magnitude: real
    const duration: Duration
    var forces: seq<Vector3>
    var step: int
    var elapsedTime: real
    var currentMagnitude: real
    var started: bool
    var tween: Option<TweenPhase>
    /** The forces applied so far in the current cycle. */
    ghost var cycle: seq<Vector3>

    ghost predicate Valid()
      reads this
    {
      0 <= step && (maxSteps >= 1 ==> CycleShape(maxSteps, step, forces, cycle))
    }

    /** Options left out (`undefined`) take the defaults: 10 steps and the (0.2, 2, 1) second phases. */
    constructor(magnitude: real, world: World, maxSteps: Option<int>, duration: Option<Duration>)
      ensures Valid()
      ensures this.world == world && this.magnitude == magnitude
      ensures this.maxSteps == (if maxSteps.Some? then maxSteps.value else DefaultMaxSteps)
      ensures this.duration == (if duration.Some? then duration.value else DefaultDuration)
      ensures forces == [] && step == 0 && elapsedTime == 0.0 && currentMagnitude == 0.0 && !started && tween.None?
    {
      this.world := world;
      this.magnitude := magnitude;
      this.maxSteps := if maxSteps.Some? then maxSteps.value else DefaultMaxSteps;
      this.duration := if duration.Some? then duration.value else DefaultDuration;
      forces, step, elapsedTime, currentMagnitude := [], 0, 0.0, 0.0;
      started, tween := false, None;
      cycle := [];
    }

    /** `isInfinite`: the shaking never ends when the peak lasts no time. */
    predicate IsInfinite()
    {
      duration.peakTime <= 0.0
    }

    /** `start`: nothing if already started; otherwise the magnitude starts rising toward its peak. */
    method Start()
      modifies this
      requires Valid()
      ensures Valid()
      ensures old(started) ==> tween == old(tween)
      ensures !old(started) ==> tween == Some(ReachPeak)
      ensures started
      ensures step == old(step) && forces == old(forces) && currentMagnitude == old(currentMagnitude)
      ensures elapsedTime == old(elapsedTime) && cycle == old(cycle)
    {
      if started {
        return;
      }
      started := true;
      tween := Some(ReachPeak);
    }

    /**
     * The completion of the running tween: reaching the peak holds it (or,
     * when infinite, stays there with no further tween); holding it starts
     * the decline; the decline ends in `reset`.
     */
    method CompleteTween()
      modifies this, world
      requires Valid()
      ensures Valid()
      ensures old(tween).None? ==> tween.None? && currentMagnitude == old(currentMagnitude) && started == old(started)
      ensures old(tween) == Some(ReachPeak) ==>
                currentMagnitude == magnitude && tween == (if IsInfinite() then None else Some(HoldPeak)) && started == old(started)
      ensures old(tween) == Some(HoldPeak) ==> currentMagnitude == magnitude && tween == Some(ToEnd) && started == old(started)
      ensures old(tween) == Some(ToEnd) ==>
                tween.None? && currentMagnitude == 0.0 && !started && step == 0 && forces == [] && elapsedTime == 0.0 &&
                |world.bodies| == |old(world.bodies)| &&
                forall i :: 0 <= i < |world.bodies| ==> world.bodies[i] == old(world.bodies)[i].(velocity := VectorZero())
      ensures old(tween) != Some(ToEnd) ==> step == old(step) && forces == old(forces) && world.bodies == old(world.bodies)
    {
      match tween
      case None =>
      case Some(ReachPeak) =>
        currentMagnitude := magnitude;
        tween := if IsInfinite() then None else Some(HoldPeak);
      case Some(HoldPeak) =>
        currentMagnitude := magnitude;
        tween := Some(ToEnd);
      case Some(ToEnd) =>
        currentMagnitude := 0.0;
        tween := None;
        Reset();
    }

    /** `reset`: back to the initial state, with the tween stopped and every body at rest. */
    method Reset()
      modifies this, world
      ensures Valid()
      ensures elapsedTime == 0.0 && step == 0 && currentMagnitude == 0.0 && forces == [] && !started && tween.None?
      ensures |world.bodies| == |old(world.bodies)|
      ensures forall i :: 0 <= i < |world.bodies| ==> world.bodies[i] == old(world.bodies)[i].(velocity := VectorZero())
    {
      elapsedTime, step, currentMagnitude, forces := 0.0, 0, 0.0, [];
      cycle := [];
      started := false;
      tween := None;
      world.SetAllVelocities(VectorZero());
    }

    /** `restart`: `reset`, then `start`. */
    method Restart()
      modifies this, world
      ensures Valid()
      ensures started && tween == Some(ReachPeak) && step == 0 && forces == [] && elapsedTime == 0.0
    {
      Reset();
      Start();
    }

    /** `update`: time advances and a force step is taken only while started. */
    method Update(delta: real, rx: real, rz: real) returns (r: Result<()>)
      modifies this, world
      requires Valid()
      ensures Valid()
      ensures !old(started) ==> r.Success? && elapsedTime == old(elapsedTime) && step == old(step) &&
                                world.bodies == old(world.bodies)
      ensures old(started) ==> elapsedTime == old(elapsedTime) + delta
      ensures maxSteps >= 1 ==> r.Success?
      ensures old(started) && magnitude <= 0.0 ==>
                step == old(step) && forces == old(forces) && |world.bodies| == |old(world.bodies)| &&
                forall i :: 0 <= i < |world.bodies| ==> world.bodies[i] == old(world.bodies)[i].(velocity := VectorZero())
      ensures old(started) && magnitude > 0.0 && maxSteps >= 1 ==>
                var h := PushSteps(maxSteps);
                var f := if old(step) < h then RandomForce(rx, rz, currentMagnitude)
                         else Neg(old(cycle)[2 * h - 1 - old(step)]);
                |world.bodies| == |old(world.bodies)| &&
                (forall i :: 0 <= i < |world.bodies| ==> world.bodies[i] == old(world.bodies)[i].(velocity := Horizontal(f))) &&
                step == (if old(step) + 1 == maxSteps then 0 else old(step) + 1) &&
                (old(step) + 1 == maxSteps ==> Mirrored(maxSteps, old(cycle) + [f]))
    {
      if !started {
        return Success(());
      }
      elapsedTime := elapsedTime + delta;
      r := ApplyEarthquakeForce(rx, rz);
    }

    /**
     * `applyEarthquakeForce`: with magnitude at most 0 every body stops.
     * Otherwise steps in the first half of a cycle apply a random force and
     * push its negation; later steps pop and apply the top of the stack,
     * which is the negation of the force of the mirrored step; the last step
     * of a cycle starts a new one. A step with no force (only possible when
     * `maxSteps` < 1) throws as soon as there is a body to move.
     */
    method ApplyEarthquakeForce(rx: real, rz: real) returns (r: Result<()>)
      modifies this`forces, this`step, this`cycle, world
      requires Valid()
      ensures Valid()
      ensures magnitude <= 0.0 ==>
                r.Success? && step == old(step) && forces == old(forces) && |world.bodies| == |old(world.bodies)| &&
                forall i :: 0 <= i < |world.bodies| ==> world.bodies[i] == old(world.bodies)[i].(velocity := VectorZero())
      ensures maxSteps >= 1 ==> r.Success?
      ensures magnitude > 0.0 && maxSteps >= 1 ==>
                var h := PushSteps(maxSteps);
                var f := if old(step) < h then RandomForce(rx, rz, currentMagnitude)
                         else Neg(old(cycle)[2 * h - 1 - old(step)]);
                |world.bodies| == |old(world.bodies)| &&
                (forall i :: 0 <= i < |world.bodies| ==> world.bodies[i] == old(world.bodies)[i].(velocity := Horizontal(f))) &&
                step == (if old(step) + 1 == maxSteps then 0 else old(step) + 1) &&
                (old(step) + 1 == maxSteps ==> Mirrored(maxSteps, old(cycle) + [f]))
    {
      if magnitude <= 0.0 {
        world.SetAllVelocities(VectorZero());
        return Success(());
      }
      var f := NextForce(rx, rz);
      if f.None? {
        if |world.bodies| > 0 {
          return Failure(UndefinedPosition);
        }
        return Success(());
      }
      world.SetAllVelocities(Horizontal(f.value));
      return Success(());
    }

    /**
     * The force of the current step: a fresh random push in the first half
     * of a cycle (its opposite stacked), the top of the stack in the second
     * half, none when the stack is empty; the step advances, and the last
     * step of a cycle starts a new one.
     */
    method NextForce(rx: real, rz: real) returns (f: Option<Vector3>)
      modifies this`forces, this`step, this`cycle
      requires Valid()
      ensures Valid()
      ensures maxSteps >= 1 ==>
                var h := PushSteps(maxSteps);
                f == Some(if old(step) < h then RandomForce(rx, rz, currentMagnitude)
                          else Neg(old(cycle)[2 * h - 1 - old(step)])) &&
                step == (if old(step) + 1 == maxSteps then 0 else old(step) + 1) &&
                (old(step) + 1 == maxSteps ==> Mirrored(maxSteps, old(cycle) + [f.value]))
    {
      if 2 * step < maxSteps {
        f := Some(RandomForce(rx, rz, currentMagnitude));
        forces := forces + [Neg(f.value)];
      } else if step < maxSteps && |forces| > 0 {
        f := Some(forces[|forces| - 1]);
        forces := forces[..|forces| - 1];
      } else {
        f := None;
      }
      ghost var oldCycle := cycle;
      if f.Some? {
        cycle := cycle + [f.value];
      }
      step := step + 1;
      if step == maxSteps {
        forces := [];
        step := 0;
        cycle := [];
      }
      if maxSteps >= 1 {
        StepKeepsShape(maxSteps, old(step), old(forces), oldCycle, f.value, rx, rz, currentMagnitude);
      }
    }
  }

  /** One force step keeps the cycle shape and applies the force the stack discipline predicts. */
  lemma StepKeepsShape(maxSteps: int, step: int, forces: seq<Vector3>, cycle: seq<Vector3>, f: Vector3,
                       rx: real, rz: real, magnitude: real)
    requires maxSteps >= 1 && CycleShape(maxSteps, step, forces, cycle)
    ensures step < PushSteps(maxSteps) ==> |forces| == step
    ensures step >= PushSteps(maxSteps) ==>
              |forces| > 0 && forces[|forces| - 1] == Neg(cycle[2 * PushSteps(maxSteps) - 1 - step])
    ensures step < PushSteps(maxSteps) && step + 1 == maxSteps ==> Mirrored(maxSteps, cycle + [RandomForce(rx, rz, magnitude)])
    ensures step >= PushSteps(maxSteps) && step + 1 == maxSteps ==> Mirrored(maxSteps, cycle + [forces[|forces| - 1]])
    ensures step < PushSteps(maxSteps) && step + 1 < maxSteps ==>
              CycleShape(maxSteps, step + 1, forces + [Neg(RandomForce(rx, rz, magnitude))], cycle + [RandomForce(rx, rz, magnitude)])
    ensures step >= PushSteps(maxSteps) && step + 1 < maxSteps ==>
              CycleShape(maxSteps, step + 1, forces[..|forces| - 1], cycle + [forces[|forces| - 1]])
  {
    var h := PushSteps(maxSteps);
    if step >= h {
      var k := |forces| - 1;
      assert k == 2 * h - 1 - step;
      assert forces[k] == Neg(cycle[k]);
      var top := forces[k];
      assert Neg(Neg(cycle[k])) == cycle[k];
      var c' := cycle + [top];
      forall t | h <= t < step + 1
        ensures c'[t] == Neg(c'[2 * h - 1 - t])
      {
        if t == step {
          assert c'[2 * h - 1 - t] == cycle[k];
        }
      }
    } else {
      var g := RandomForce(rx, rz, magnitude);
      var c' := cycle + [g];
      var f' := forces + [Neg(g)];
      assert forall i :: 0 <= i < |f'| ==> f'[i] == Neg(c'[i]);
    }
  }

  /** A completed cycle of `maxSteps` forces: each force of the second half negates its mirror in the first. */
  ghost predicate Mirrored(maxSteps: int, cycle: seq<Vector3>)
    requires maxSteps >= 1
  {
    var h := PushSteps(maxSteps);
    |cycle| == maxSteps && forall t :: h <= t < maxSteps ==> cycle[t] == Neg(cycle[2 * h - 1 - t])
  }

  function Add(a: Vector3, b: Vector3): Vector3
  {
    Vector3(a.x + b.x, a.y + b.y, a.z + b.z)
  }

  lemma AddAssoc(a: Vector3, b: Vector3, c: Vector3)
    ensures Add(a, Add(b, c)) == Add(Add(a, b), c)
  {
  }

  /** The net force of a sequence of forces. */
  function Sum(s: seq<Vector3>): Vector3
  {
    if s == [] then VectorZero() else Add(s[0], Sum(s[1..]))
  }

  lemma {:induction false} SumAppend(a: seq<Vector3>, b: seq<Vector3>)
    ensures Sum(a + b) == Add(Sum(a), Sum(b))
  {
    if a == [] {
      assert a + b == b;
    } else {
      var rest := a[1..];
      assert (a + b)[0] == a[0] && (a + b)[1..] == rest + b;
      SumAppend(rest, b);
      AddAssoc(a[0], Sum(rest), Sum(b));
    }
  }

  /** The `k` pairs around the middle of a mirrored cycle cancel out. */
  lemma {:induction false} MiddleCancels(maxSteps: int, cycle: seq<Vector3>, k: int)
    requires maxSteps >= 1 && Mirrored(maxSteps, cycle)
    requires 0 <= k <= maxSteps - PushSteps(maxSteps)
    ensures Sum(cycle[PushSteps(maxSteps) - k..PushSteps(maxSteps) + k]) == VectorZero()
  {
    var h := PushSteps(maxSteps);
    if k == 0 {
      assert cycle[h..h] == [];
    } else {
      MiddleCancels(maxSteps, cycle, k - 1);
      var inner := cycle[h - (k - 1)..h + (k - 1)];
      assert Sum(inner) == VectorZero();
      var lo, hi := cycle[h - k], cycle[h + k - 1];
      assert hi == Neg(lo) by {
        assert h <= h + k - 1 < maxSteps && 2 * h - 1 - (h + k - 1) == h - k;
      }
      assert cycle[h - k..h + k] == [lo] + inner + [hi];
      SumAppend([lo] + inner, [hi]);
      SumAppend([lo], inner);
      assert Sum([hi]) == hi && Sum([lo]) == lo;
      assert Sum([lo] + inner) == Add(lo, VectorZero());
    }
  }

  /**
   * Over a completed cycle the forces cancel: exactly when `maxSteps` is
   * even; with an odd count the first force is never replayed and is the
   * net force of the cycle.
   */
  lemma CycleNetForce(maxSteps: int, cycle: seq<Vector3>)
    requires maxSteps >= 1 && Mirrored(maxSteps, cycle)
    ensures Sum(cycle) == if maxSteps % 2 == 0 then VectorZero() else cycle[0]
  {
    var h := PushSteps(maxSteps);
    if maxSteps % 2 == 0 {
      MiddleCancels(maxSteps, cycle, h);
      assert cycle[h - h..h + h] == cycle;
    } else {
      MiddleCancels(maxSteps, cycle, h - 1);
      assert cycle == [cycle[0]] + cycle[1..];
      assert cycle[h - (h - 1)..h + (h - 1)] == cycle[1..];
    }
  }
}
