/**
 * Keyboard and mouse handling of the project main files. Key handlers set a
 * flag on keydown and clear it on keyup; once a frame the held flags are
 * turned into camera (projects B and C) or arm (project A) movements, with
 * an `else if` between the two directions of an axis. The mouse handlers
 * keep a drag state.
 */
module Controls {
  import opened Common

  /** The movement and look flags of projects B and C (`Animation.moveLeft`, ...). */
  datatype Motion = MoveLeft | MoveRight | MoveBack | MoveFwd | MoveUp | MoveDown
                  | LookUp | LookDown | LookLeft | LookRight

  /** The key code that drives each flag in projects B and C. */
  function CameraCode(f: Motion): string
  {
    match f
    case MoveLeft => "KeyA"
    case MoveRight => "KeyD"
    case MoveBack => "KeyS"
    case MoveFwd => "KeyW"
    case MoveUp => "KeyE"
    case MoveDown => "KeyQ"
    case LookUp => "ArrowUp"
    case LookDown => "ArrowDown"
    case LookLeft => "ArrowLeft"
    case LookRight => "ArrowRight"
  }

  /** The `switch` of `myKeyDown`/`myKeyUp` in projects B and C: the flag a code selects, if any. */
  function CameraBinding(code: string): Option<Motion>
  {
    if code == "KeyA" then Some(MoveLeft)
    else if code == "KeyD" then Some(MoveRight)
    else if code == "KeyS" then Some(MoveBack)
    else if code == "KeyW" then Some(MoveFwd)
    else if code == "KeyE" then Some(MoveUp)
    else if code == "KeyQ" then Some(MoveDown)
    else if code == "ArrowUp" then Some(LookUp)
    else if code == "ArrowDown" then Some(LookDown)
    else if code == "ArrowLeft" then Some(LookLeft)
    else if code == "ArrowRight" then Some(LookRight)
    else None
  }

  /** Each handled code selects exactly one flag and each flag exactly one code. */
  lemma CameraBindingRoundTrip(code: string, f: Motion)
    ensures CameraBinding(CameraCode(f)) == Some(f)
    ensures CameraBinding(code) == Some(f) ==> code == CameraCode(f)
  {
    match f
    case MoveLeft =>
    case MoveRight => assert "KeyD"[3] != "KeyA"[3];
    case MoveBack => assert "KeyS"[3] != "KeyA"[3] && "KeyS"[3] != "KeyD"[3];
    case MoveFwd => assert "KeyW"[3] != "KeyA"[3] && "KeyW"[3] != "KeyD"[3] && "KeyW"[3] != "KeyS"[3];
    case MoveUp =>
      assert "KeyE"[3] != "KeyA"[3] && "KeyE"[3] != "KeyD"[3] && "KeyE"[3] != "KeyS"[3] && "KeyE"[3] != "KeyW"[3];
    case MoveDown =>
      assert "KeyQ"[3] != "KeyA"[3] && "KeyQ"[3] != "KeyD"[3] && "KeyQ"[3] != "KeyS"[3] && "KeyQ"[3] != "KeyW"[3];
      assert "KeyQ"[3] != "KeyE"[3];
    case LookUp =>
    case LookDown =>
    case LookLeft => assert "ArrowLeft"[5] != "ArrowDown"[5];
    case LookRight =>
  }

  /** The project A arm flags (`Animation.armLeft`, ...). */
  datatype Arm = ArmLeft | ArmRight | ArmDown | ArmUp

  /** Project A binds two codes to each flag: a letter key and an arrow key. */
  function ArmCodes(f: Arm): set<string>
  {
    match f
    case ArmLeft => {"KeyA", "ArrowLeft"}
    case ArmRight => {"KeyD", "ArrowRight"}
    case ArmDown => {"KeyS", "ArrowDown"}
    case ArmUp => {"KeyW", "ArrowUp"}
  }

  /** The `switch` of `myKeyDown`/`myKeyUp` in project A, with its fall-through case pairs. */
  function ArmBinding(code: string): Option<Arm>
  {
    if code == "KeyA" || code == "ArrowLeft" then Some(ArmLeft)
    else if code == "KeyD" || code == "ArrowRight" then Some(ArmRight)
    else if code == "KeyS" || code == "ArrowDown" then Some(ArmDown)
    else if code == "KeyW" || code == "ArrowUp" then Some(ArmUp)
    else None
  }

  /** A code selects an arm flag exactly when it is one of that flag's two codes. */
  lemma ArmBindingCodes(code: string, f: Arm)
    ensures ArmBinding(code) == Some(f) <==> code in ArmCodes(f)
  {
    assert "KeyD"[3] != "KeyA"[3] && "KeyS"[3] != "KeyA"[3] && "KeyS"[3] != "KeyD"[3];
    assert "KeyW"[3] != "KeyA"[3] && "KeyW"[3] != "KeyD"[3] && "KeyW"[3] != "KeyS"[3];
    assert "ArrowLeft"[5] != "ArrowDown"[5];
  }

  /** What keydown does to the set of raised flags: raise the selected flag, if any. */
  function Press<F>(held: set<F>, selected: Option<F>): set<F>
  {
    if selected.Some? then held + {selected.value} else held
  }

  /** What keyup does: lower the selected flag, if any. */
  function Release<F>(held: set<F>, selected: Option<F>): set<F>
  {
    if selected.Some? then held - {selected.value} else held
  }

  /**
   * A key event changes at most the one flag its code selects, and a code
   * the handlers do not list changes nothing.
   */
  lemma KeyEventsTouchOneFlag<F>(held: set<F>, selected: Option<F>, g: F)
    ensures selected != Some(g) ==> (g in Press(held, selected) <==> g in held)
    ensures selected != Some(g) ==> (g in Release(held, selected) <==> g in held)
    ensures selected == Some(g) ==> g in Press(held, selected) && g !in Release(held, selected)
    ensures selected.None? ==> Press(held, selected) == held == Release(held, selected)
  {
  }

  /** Keyup after keydown of a key that was not held restores the flags; keydown twice is keydown once. */
  lemma ReleaseUndoesPress<F>(held: set<F>, selected: Option<F>)
    ensures selected.Some? && selected.value !in held ==> Release(Press(held, selected), selected) == held
    ensures Press(Press(held, selected), selected) == Press(held, selected)
    ensures Release(Release(held, selected), selected) == Release(held, selected)
  {
  }

  /** The flags of projects B and C, held on `Animation`. */
  class CameraKeys {
    var held: set<Motion>

    constructor ()
      ensures held == {}
    {
      held := {};
    }

    method KeyDown(code: string)
      modifies this
      ensures held == Press(old(held), CameraBinding(code))
    {
      held := Press(held, CameraBinding(code));
    }

    method KeyUp(code: string)
      modifies this
      ensures held == Release(old(held), CameraBinding(code))
    {
      held := Release(held, CameraBinding(code));
    }
  }

  /** The arm flags of project A, held on `Animation`. */
  class ArmKeys {
    var held: set<Arm>

    constructor ()
      ensures held == {}
    {
      held := {};
    }

    method KeyDown(code: string)
      modifies this
      ensures held == Press(old(held), ArmBinding(code))
    {
      held := Press(held, ArmBinding(code));
    }

    method KeyUp(code: string)
      modifies this
      ensures held == Release(old(held), ArmBinding(code))
    {
      held := Release(held, ArmBinding(code));
    }
  }

  /** The slot of `Camera.move(forward, right, up)` or `Camera.rotate(pitch, yaw, roll)` a call fills. */
  datatype Axis = Forward | Sideways | Vertical | Pitch | Yaw

  /**
   * One call on the controlled camera: `amount` in the slot `axis` and zero
   * in the others; `lockForward` is passed only with forward moves.
   */
  datatype CameraCall = CameraCall(camera: nat, axis: Axis, amount: real, lockForward: Option<bool>)

  /** `0.05 * elapsed / 15`, the distance moved in a frame. */
  function Speed(elapsed: real): real { 0.05 * elapsed / 15.0 }

  /** `elapsed / 15`, the degrees turned in a frame. */
  function DegPerTick(elapsed: real): real { elapsed / 15.0 }

  /**
   * `translateCamera`: the calls it makes on camera `camera` (0 in project C,
   * 1 in project B).
   */
  function TranslateCalls(held: set<Motion>, elapsed: real, lockForward: bool, camera: nat): (calls: seq<CameraCall>)
    ensures |calls| <= 3
    ensures forall c :: c in calls ==> c.camera == camera && c.axis in {Forward, Sideways, Vertical}
  {
    var speed := Speed(elapsed);
    (if MoveFwd in held then [CameraCall(camera, Forward, speed, Some(lockForward))]
     else if MoveBack in held then [CameraCall(camera, Forward, -speed, Some(lockForward))]
     else []) +
    (if MoveLeft in held then [CameraCall(camera, Sideways, -speed, None)]
     else if MoveRight in held then [CameraCall(camera, Sideways, speed, None)]
     else []) +
    (if MoveUp in held then [CameraCall(camera, Vertical, speed, None)]
     else if MoveDown in held then [CameraCall(camera, Vertical, -speed, None)]
     else [])
  }

  /** `rotateCamera`: the calls it makes on camera `camera`. */
  function RotateCalls(held: set<Motion>, elapsed: real, camera: nat): (calls: seq<CameraCall>)
    ensures |calls| <= 2
    ensures forall c :: c in calls ==> c.camera == camera && c.axis in {Pitch, Yaw} && c.lockForward.None?
  {
    var deg := DegPerTick(elapsed);
    (if LookUp in held then [CameraCall(camera, Pitch, deg / 2.0, None)]
     else if LookDown in held then [CameraCall(camera, Pitch, -deg / 2.0, None)]
     else []) +
    (if LookLeft in held then [CameraCall(camera, Yaw, deg, None)]
     else if LookRight in held then [CameraCall(camera, Yaw, -deg, None)]
     else [])
  }

  /** The calls of a frame that fill slot `a`. */
  function OnAxis(calls: seq<CameraCall>, a: Axis): seq<CameraCall>
  {
    if calls == [] then []
    else (if calls[0].axis == a then [calls[0]] else []) + OnAxis(calls[1..], a)
  }

  lemma {:induction false} OnAxisAppend(x: seq<CameraCall>, y: seq<CameraCall>, a: Axis)
    ensures OnAxis(x + y, a) == OnAxis(x, a) + OnAxis(y, a)
  {
    if x != [] {
      assert (x + y)[1..] == x[1..] + y;
      OnAxisAppend(x[1..], y, a);
    } else {
      assert x + y == y;
    }
  }

  /**
   * The direction a frame commands on an axis from the held flags: the
   * first flag of the pair wins, and an axis gets at most one command.
   */
  function Commanded<F>(held: set<F>, first: F, second: F): int
  {
    if first in held then 1 else if second in held then -1 else 0
  }

  /**
   * Per frame, each axis of `translateCamera` gets at most one call, and
   * its sign is the commanded direction: forward over back, left over
   * right, up over down.
   */
  lemma TranslatePrecedence(held: set<Motion>, elapsed: real, lockForward: bool, camera: nat)
    ensures var t := TranslateCalls(held, elapsed, lockForward, camera);
            var s := Speed(elapsed);
            OnAxis(t, Forward) == Steps(Commanded(held, MoveFwd, MoveBack), camera, Forward, s, Some(lockForward)) &&
            OnAxis(t, Sideways) == Steps(Commanded(held, MoveLeft, MoveRight), camera, Sideways, -s, None) &&
            OnAxis(t, Vertical) == Steps(Commanded(held, MoveUp, MoveDown), camera, Vertical, s, None)
  {
    var speed := Speed(elapsed);
    var f := Steps(Commanded(held, MoveFwd, MoveBack), camera, Forward, speed, Some(lockForward));
    var l := Steps(Commanded(held, MoveLeft, MoveRight), camera, Sideways, -speed, None);
    var u := Steps(Commanded(held, MoveUp, MoveDown), camera, Vertical, speed, None);
    TranslateCallsSplit(held, elapsed, lockForward, camera);
    TranslateAxis(held, speed, lockForward, camera, Forward);
    TranslateAxis(held, speed, lockForward, camera, Sideways);
    TranslateAxis(held, speed, lockForward, camera, Vertical);
  }

  lemma TranslateCallsSplit(held: set<Motion>, elapsed: real, lockForward: bool, camera: nat)
    ensures var speed := Speed(elapsed);
            TranslateCalls(held, elapsed, lockForward, camera) ==
              Steps(Commanded(held, MoveFwd, MoveBack), camera, Forward, speed, Some(lockForward)) +
              Steps(Commanded(held, MoveLeft, MoveRight), camera, Sideways, -speed, None) +
              Steps(Commanded(held, MoveUp, MoveDown), camera, Vertical, speed, None)
  {
    var speed := Speed(elapsed);
    PairSteps(held, MoveFwd, MoveBack, camera, Forward, speed, Some(lockForward));
    PairSteps(held, MoveLeft, MoveRight, camera, Sideways, -speed, None);
    PairSteps(held, MoveUp, MoveDown, camera, Vertical, speed, None);
  }

  /** One slot of `translateCamera`'s calls: the calls of the other two pairs fill other slots. */
  lemma TranslateAxis(held: set<Motion>, speed: real, lockForward: bool, camera: nat, b: Axis)
    ensures var f := Steps(Commanded(held, MoveFwd, MoveBack), camera, Forward, speed, Some(lockForward));
            var l := Steps(Commanded(held, MoveLeft, MoveRight), camera, Sideways, -speed, None);
            var u := Steps(Commanded(held, MoveUp, MoveDown), camera, Vertical, speed, None);
            OnAxis(f + l + u, b) == (if b == Forward then f else []) + (if b == Sideways then l else []) +
                                    (if b == Vertical then u else [])
  {
    var f := Steps(Commanded(held, MoveFwd, MoveBack), camera, Forward, speed, Some(lockForward));
    var l := Steps(Commanded(held, MoveLeft, MoveRight), camera, Sideways, -speed, None);
    var u := Steps(Commanded(held, MoveUp, MoveDown), camera, Vertical, speed, None);
    OnAxisAppend(f, l, b);
    OnAxisAppend(f + l, u, b);
    OnAxisSteps(Commanded(held, MoveFwd, MoveBack), camera, Forward, speed, Some(lockForward), b);
    OnAxisSteps(Commanded(held, MoveLeft, MoveRight), camera, Sideways, -speed, None, b);
    OnAxisSteps(Commanded(held, MoveUp, MoveDown), camera, Vertical, speed, None, b);
  }

  /** Per frame, pitch and yaw get at most one call each: look up over look down, look left over look right. */
  lemma RotatePrecedence(held: set<Motion>, elapsed: real, camera: nat)
    ensures var r := RotateCalls(held, elapsed, camera);
            var d := DegPerTick(elapsed);
            OnAxis(r, Pitch) == Steps(Commanded(held, LookUp, LookDown), camera, Pitch, d / 2.0, None) &&
            OnAxis(r, Yaw) == Steps(Commanded(held, LookLeft, LookRight), camera, Yaw, d, None)
  {
    var deg := DegPerTick(elapsed);
    var p := Steps(Commanded(held, LookUp, LookDown), camera, Pitch, deg / 2.0, None);
    var y := Steps(Commanded(held, LookLeft, LookRight), camera, Yaw, deg, None);
    PairSteps(held, LookUp, LookDown, camera, Pitch, deg / 2.0, None);
    PairSteps(held, LookLeft, LookRight, camera, Yaw, deg, None);
    assert RotateCalls(held, elapsed, camera) == p + y;
    OnAxisAppend(p, y, Pitch);
    OnAxisAppend(p, y, Yaw);
    OnAxisSteps(Commanded(held, LookUp, LookDown), camera, Pitch, deg / 2.0, None, Pitch);
    OnAxisSteps(Commanded(held, LookUp, LookDown), camera, Pitch, deg / 2.0, None, Yaw);
    OnAxisSteps(Commanded(held, LookLeft, LookRight), camera, Yaw, deg, None, Pitch);
    OnAxisSteps(Commanded(held, LookLeft, LookRight), camera, Yaw, deg, None, Yaw);
  }

  /** An `if`/`else if` pair of calls is the call for the commanded direction. */
  lemma PairSteps(held: set<Motion>, first: Motion, second: Motion, camera: nat, a: Axis, amount: real, lockForward: Option<bool>)
    ensures (if first in held then [CameraCall(camera, a, amount, lockForward)]
             else if second in held then [CameraCall(camera, a, -amount, lockForward)] else [])
            == Steps(Commanded(held, first, second), camera, a, amount, lockForward)
  {
  }

  /** The calls for a direction all fill their own slot. */
  lemma OnAxisSteps(direction: int, camera: nat, a: Axis, amount: real, lockForward: Option<bool>, b: Axis)
    ensures OnAxis(Steps(direction, camera, a, amount, lockForward), b)
            == if a == b then Steps(direction, camera, a, amount, lockForward) else []
  {
    var st := Steps(direction, camera, a, amount, lockForward);
    if st != [] {
      assert st[1..] == [];
    }
  }

  /** The calls for a commanded direction: none for 0, one call of `amount` signed by the direction otherwise. */
  function Steps(direction: int, camera: nat, a: Axis, amount: real, lockForward: Option<bool>): seq<CameraCall>
  {
    if direction == 0 then [] else [CameraCall(camera, a, direction as real * amount, lockForward)]
  }

  /** `Event.mouseDrag`: the last drag position and whether a drag is under way. */
  class MouseDrag {
    var x: real
    var y: real
    var dragging: bool
    /** The arguments of every `dragQuat(dx, dy)` call (projects B and C). */
    var drags: seq<(real, real)>

    /** The static initialiser `{x: 0, y: 0, currentlyDragging: false}`. */
    constructor ()
      ensures x == 0.0 && y == 0.0 && !dragging && drags == []
    {
      x, y, dragging, drags := 0.0, 0.0, false, [];
    }

    /** `main` moves the drag point to (0, -1) before the first frame. */
    method Start()
      modifies this
      ensures x == 0.0 && y == -1.0 && dragging == old(dragging) && drags == old(drags)
    {
      x, y := 0.0, -1.0;
    }

    /** `myMouseDown` with the press at canvas coordinates (cx, cy): presses outside [-1, 1]² are ignored. */
    method Down(cx: real, cy: real)
      modifies this
      ensures drags == old(drags)
      ensures InCanvas(cx, cy) ==> x == cx && y == cy && dragging
      ensures !InCanvas(cx, cy) ==> x == old(x) && y == old(y) && dragging == old(dragging)
    {
      if cx > 1.0 || cx < -1.0 || cy > 1.0 || cy < -1.0 {
        return;
      }
      x, y, dragging := cx, cy, true;
    }

    /** `myMouseMove` of projects B and C: while dragging, rotate by the offset and follow the cursor. */
    method Move(cx: real, cy: real)
      modifies this
      ensures dragging == old(dragging)
      ensures old(dragging) ==> x == cx && y == cy && drags == old(drags) + [(cx - old(x), cy - old(y))]
      ensures !old(dragging) ==> x == old(x) && y == old(y) && drags == old(drags)
    {
      if !dragging {
        return;
      }
      drags := drags + [(cx - x, cy - y)];
      x, y := cx, cy;
    }

    /** `myMouseUp` of projects B and C: a last move, then the drag ends. */
    method Up(cx: real, cy: real)
      modifies this
      ensures !dragging
      ensures old(dragging) ==> x == cx && y == cy && drags == old(drags) + [(cx - old(x), cy - old(y))]
      ensures !old(dragging) ==> x == old(x) && y == old(y) && drags == old(drags)
    {
      Move(cx, cy);
      dragging := false;
    }

    /** `myMouseMove` of project A: while dragging, only follow the cursor. */
    method MoveA(cx: real, cy: real)
      modifies this
      ensures dragging == old(dragging) && drags == old(drags)
      ensures old(dragging) ==> x == cx && y == cy
      ensures !old(dragging) ==> x == old(x) && y == old(y)
    {
      if !dragging {
        return;
      }
      x, y := cx, cy;
    }

    /** `myMouseUp` of project A: the drag ends; the position is left alone. */
    method UpA()
      modifies this
      ensures !dragging && x == old(x) && y == old(y) && drags == old(drags)
    {
      dragging := false;
    }
  }

  predicate InCanvas(cx: real, cy: real)
  {
    -1.0 <= cx <= 1.0 && -1.0 <= cy <= 1.0
  }
}
