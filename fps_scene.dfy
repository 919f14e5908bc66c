/**
 * `ThreedFpsScene`: a scene walked with pointer-lock (first-person)
 * controls. WASD or the arrow keys hold the move flags, Space jumps when
 * the walker stands on something, and each animation frame applies gravity
 * and keeps the walker at or above the floor height of 10.
 */
module FpsScene {
  import opened Wrappers

  const Gravity: real := 9.8
  const Mass: real := 30.0
  /** The height the walker never sinks below. */
  const FloorY: real := 10.0

  datatype Move = Forward | Backward | Left | Right

  /** The movement key codes of the key switches. */
  function MoveKey(code: string): (r: Option<Move>)
    ensures r == Some(Forward) <==> code == "ArrowUp" || code == "KeyW"
    ensures r == Some(Left) <==> code == "ArrowLeft" || code == "KeyA"
    ensures r == Some(Backward) <==> code == "ArrowDown" || code == "KeyS"
    ensures r == Some(Right) <==> code == "ArrowRight" || code == "KeyD"
  {
    if code == "ArrowUp" || code == "KeyW" then Some(Forward)
    else if code == "ArrowLeft" || code == "KeyA" then Some(Left)
    else if code == "ArrowDown" || code == "KeyS" then Some(Backward)
    else if code == "ArrowRight" || code == "KeyD" then Some(Right)
    else None
  }

  /** The four move flags. */
  datatype MoveFlags = MoveFlags(forward: bool, backward: bool, left: bool, right: bool)
  {
    function Get(m: Move): bool
    {
      match m
      case Forward => forward
      case Backward => backward
      case Left => left
      case Right => right
    }

    function Set(m: Move, value: bool): (r: MoveFlags)
      ensures r.Get(m) == value
      ensures forall n :: n != m ==> r.Get(n) == Get(n)
    {
      match m
      case Forward => this.(forward := value)
      case Backward => this.(backward := value)
      case Left => this.(left := value)
      case Right => this.(right := value)
    }
  }

  /** A key press or release on the flags: a movement key sets or clears its own flag, any other key changes nothing. */
  function KeyFlags(flags: MoveFlags, code: string, down: bool): (r: MoveFlags)
    ensures MoveKey(code).None? ==> r == flags
    ensures MoveKey(code).Some? ==> r.Get(MoveKey(code).value) == down &&
                                    forall n :: n != MoveKey(code).value ==> r.Get(n) == flags.Get(n)
  {
    if MoveKey(code).Some? then flags.Set(MoveKey(code).value, down) else flags
  }

  /** Releasing a key undoes pressing it: the flags are as before whenever the key's flag was clear. */
  lemma PressReleaseRestores(flags: MoveFlags, code: string)
    requires MoveKey(code).Some? ==> !flags.Get(MoveKey(code).value)
    ensures KeyFlags(KeyFlags(flags, code, true), code, false) == flags
  {
    if MoveKey(code).Some? {
      var m := MoveKey(code).value;
      var r := KeyFlags(KeyFlags(flags, code, true), code, false);
      assert forall n :: r.Get(n) == flags.Get(n);
      assert r.forward == flags.forward by { assert r.Get(Forward) == flags.Get(Forward); }
      assert r.backward == flags.backward by { assert r.Get(Backward) == flags.Get(Backward); }
      assert r.left == flags.left by { assert r.Get(Left) == flags.Get(Left); }
      assert r.right == flags.right by { assert r.Get(Right) == flags.Get(Right); }
    }
  }

  /** The vertical state of the walker: velocity, height and whether a jump is allowed. */
  datatype Body = Body(velocityY: real, y: real, canJump: bool)

  /** Space: a jump adds `3 * mass` to the vertical velocity only when allowed, and always uses up the permission. */
  function Jump(b: Body): (r: Body)
    ensures !r.canJump && r.y == b.y
    ensures r.velocityY == (if b.canJump then b.velocityY + 3.0 * Mass else b.velocityY)
  {
    Body(if b.canJump then b.velocityY + 3.0 * Mass else b.velocityY, b.y, false)
  }

  /** A second Space before landing adds nothing. */
  lemma NoDoubleJump(b: Body)
    ensures Jump(Jump(b)) == Jump(b)
  {
  }

  /**
   * One locked frame, vertically: gravity pulls, standing on an object
   * stops the fall and allows a jump, the height moves by the velocity, and
   * a walker below the floor is put back on it, stopped, and allowed to jump.
   */
  function Fall(b: Body, delta: real, onObject: bool): Body
  {
    var pulled := b.velocityY - Gravity * Mass * delta;
    var landed := if onObject then Body(if pulled > 0.0 then pulled else 0.0, b.y, true) else b.(velocityY := pulled);
    var moved := landed.(y := landed.y + landed.velocityY * delta);
    if moved.y < FloorY then Body(0.0, FloorY, true) else moved
  }

  /**
   * After a frame the walker is never below the floor; one that was put
   * back on the floor, or stood on an object, may jump; standing on an
   * object never leaves a downward velocity.
   */
  lemma FallKeepsFloor(b: Body, delta: real, onObject: bool)
    ensures Fall(b, delta, onObject).y >= FloorY
    ensures onObject ==> Fall(b, delta, onObject).canJump && Fall(b, delta, onObject).velocityY >= 0.0
    ensures !onObject && !Fall(b, delta, onObject).canJump ==> !b.canJump
  {
  }

  class ThreedFpsScene {
    /** The base scene's `active` flag, which the pointer lock drives. */
    var active: bool
    var pointerLocked: bool
    /** Values emitted by `onPointerLockedChanged`. */
    var lockEvents: seq<bool>
    var moveForward: bool
    var moveBackward: bool
    var moveLeft: bool
    var moveRight: bool
    var canJump: bool
    var velocityY: real
    /** Height of the controls' object (the camera). */
    var y: real
    var prevTime: real

    function Flags(): MoveFlags
      reads this
    {
      MoveFlags(moveForward, moveBackward, moveLeft, moveRight)
    }

    function BodyState(): Body
      reads this
    {
      Body(velocityY, y, canJump)
    }

    /** `initialize`: the scene starts inactive and unlocked, standing still. */
    constructor(now: real, cameraY: real)
      ensures !active && !pointerLocked && lockEvents == []
      ensures Flags() == MoveFlags(false, false, false, false) && BodyState() == Body(0.0, cameraY, false)
      ensures prevTime == now
    {
      active, pointerLocked, lockEvents := false, false, [];
      moveForward, moveBackward, moveLeft, moveRight := false, false, false, false;
      canJump, velocityY, y := false, 0.0, cameraY;
      prevTime := now;
    }

    /** The `lock` listener. */
    method OnLock()
      modifies this`pointerLocked, this`active, this`lockEvents
      ensures pointerLocked && active && lockEvents == old(lockEvents) + [true]
    {
      pointerLocked := true;
      active := true;
      lockEvents := lockEvents + [pointerLocked];
    }

    /** The `unlock` listener. */
    method OnUnlock()
      modifies this`pointerLocked, this`active, this`lockEvents
      ensures !pointerLocked && !active && lockEvents == old(lockEvents) + [false]
    {
      pointerLocked := false;
      active := false;
      lockEvents := lockEvents + [pointerLocked];
    }

    method OnKeyDown(code: string)
      modifies this`moveForward, this`moveBackward, this`moveLeft, this`moveRight, this`canJump, this`velocityY
      ensures Flags() == KeyFlags(old(Flags()), code, true)
      ensures code == "Space" ==> BodyState() == Jump(old(BodyState()))
      ensures code != "Space" ==> BodyState() == old(BodyState())
    {
      match code {
        case "ArrowUp" => moveForward := true;
        case "KeyW" => moveForward := true;
        case "ArrowLeft" => moveLeft := true;
        case "KeyA" => moveLeft := true;
        case "ArrowDown" => moveBackward := true;
        case "KeyS" => moveBackward := true;
        case "ArrowRight" => moveRight := true;
        case "KeyD" => moveRight := true;
        case "Space" =>
          if canJump {
            velocityY := velocityY + 3.0 * Mass;
          }
          canJump := false;
        case _ =>
      }
    }

    method OnKeyUp(code: string)
      modifies this`moveForward, this`moveBackward, this`moveLeft, this`moveRight
      ensures Flags() == KeyFlags(old(Flags()), code, false)
    {
      match code {
        case "ArrowUp" => moveForward := false;
        case "KeyW" => moveForward := false;
        case "ArrowLeft" => moveLeft := false;
        case "KeyA" => moveLeft := false;
        case "ArrowDown" => moveBackward := false;
        case "KeyS" => moveBackward := false;
        case "ArrowRight" => moveRight := false;
        case "KeyD" => moveRight := false;
        case _ =>
      }
    }

    /**
     * `tick` at time `now` (milliseconds), with `onObject` the result of the
     * downward raycast: only a locked scene moves the walker.
     */
    method Tick(now: real, onObject: bool)
      modifies this`velocityY, this`y, this`canJump, this`prevTime
      ensures pointerLocked ==> BodyState() == Fall(old(BodyState()), (now - old(prevTime)) / 1000.0, onObject)
      ensures !pointerLocked ==> BodyState() == old(BodyState())
      ensures prevTime == now
    {
      if pointerLocked {
        var delta := (now - prevTime) / 1000.0;
        ghost var start := BodyState();
        velocityY := velocityY - Gravity * Mass * delta;
        if onObject {
          velocityY := if velocityY > 0.0 then velocityY else 0.0;
          canJump := true;
        }
        y := y + velocityY * delta;
        if y < FloorY {
          velocityY := 0.0;
          y := FloorY;
          canJump := true;
        }
        assert BodyState() == Fall(start, delta, onObject);
      }
      prevTime := now;
    }
  }
}
