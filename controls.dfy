/**
 * The input layer of the need_4_fruits platformer: the per-frame systems that
 * turn keyboard state into the player's movement intent (`Movement`) and into
 * a pending dash request (`Dash`), the values they share, and the default
 * state the game starts from.
 *
 * The `f32` fields of `Movement` and `DashDirection` only ever hold sums of 0
 * and +-1, so they are modelled as `int` (exact in `f32` while magnitudes stay
 * below 2^24). The cursor's world-space `f32` position is modelled as `real`.
 */
module Controls {

  //region Values

  /** The direction of a dash; it is not clamped, so it can grow across frames. */
  datatype DashDirection = DashDirection(x: int, y: int)
  {
    /** Componentwise sum of two directions. */
    function Add(toAdd: DashDirection): DashDirection
    {
      DashDirection(x + toAdd.x, y + toAdd.y)
    }

    /** A direction is empty exactly when it is the zero vector. */
    function IsEmpty(): (empty: bool)
      ensures empty <==> this == DashDirection(0, 0)
    {
      x == 0 && y == 0
    }
  }

  /** The engine's `Timer`, reduced to the two quantities its `Default` fixes (in nanoseconds). */
  datatype Timer = Timer(elapsed: nat, duration: nat)

  /** The player's movement intent. `jumped` is a `usize` counter. */
  datatype Movement = Movement(x: int, jump: bool, jumped: nat, isFastFalling: bool, lockX: bool)

  /** World-space cursor position; only its default value is part of this model. */
  datatype MouseCoordinates = MouseCoordinates(x: real, y: real)

  /** The pending and active dash. `dashed` is a `usize` counter. */
  datatype Dash = Dash(tryingToDash: bool, isDashing: bool, dashed: nat, direction: DashDirection, duration: Timer)

  /** One key binding (`KeyboardControls`) evaluated against the keyboard: one flag per direction. */
  datatype KeyFlags = KeyFlags(up: bool, down: bool, left: bool, right: bool)

  /** The engine's keyboard snapshot seen through one binding: which keys are held and which were pressed this frame. */
  datatype KeyInput = KeyInput(held: KeyFlags, justPressed: KeyFlags)

  //endregion

  //region Defaults (the initial state)

  /** No key of a binding pressed. */
  function NoKeys(): KeyFlags
  {
    KeyFlags(false, false, false, false)
  }

  /** `DashDirection::default`: the empty direction. */
  function DefaultDashDirection(): (d: DashDirection)
    ensures d.IsEmpty()
  {
    DashDirection(0, 0)
  }

  /** `Timer::default`: nothing elapsed, zero duration. */
  function DefaultTimer(): Timer
  {
    Timer(0, 0)
  }

  /** `Dash::default`: no request, not dashing, no dash used, empty direction. */
  function DefaultDash(): (d: Dash)
    ensures !d.tryingToDash && !d.isDashing && d.dashed == 0 && d.direction.IsEmpty()
    ensures d.duration == DefaultTimer()
    ensures DashConsistent(d)
  {
    Dash(false, false, 0, DashDirection(0, 0), DefaultTimer())
  }

  /** `Movement::default`: all zero and false. */
  function DefaultMovement(): (m: Movement)
    ensures m.x == 0 && !m.jump && m.jumped == 0 && !m.isFastFalling && !m.lockX
  {
    Movement(0, false, 0, false, false)
  }

  /** `MouseCoordinates::default`: the world origin. */
  function DefaultMouseCoordinates(): MouseCoordinates
  {
    MouseCoordinates(0.0, 0.0)
  }

  //endregion

  //region Direction arithmetic

  /** Reference sum of a sequence of directions (right fold from the zero vector). */
  function Sum(s: seq<DashDirection>): DashDirection
  {
    if s == [] then DashDirection(0, 0) else s[0].Add(Sum(s[1..]))
  }

  /** `Add` is commutative and associative and has the empty direction as identity. */
  lemma AddLaws(a: DashDirection, b: DashDirection, c: DashDirection)
    ensures a.Add(b) == b.Add(a)
    ensures a.Add(b).Add(c) == a.Add(b.Add(c))
    ensures a.Add(DefaultDashDirection()) == a
    ensures a.Add(b).x == a.x + b.x && a.Add(b).y == a.y + b.y
    ensures a.Add(b).IsEmpty() <==> b == DashDirection(-a.x, -a.y)
  {
  }

  lemma SumCons(a: DashDirection, s: seq<DashDirection>)
    ensures Sum([a] + s) == a.Add(Sum(s))
  {
    assert ([a] + s)[1..] == s;
  }

  /** The sum of four directions, componentwise. */
  lemma Sum4(a: DashDirection, b: DashDirection, c: DashDirection, d: DashDirection)
    ensures Sum([a, b, c, d]) == DashDirection(a.x + b.x + c.x + d.x, a.y + b.y + c.y + d.y)
  {
    SumCons(d, []);
    SumCons(c, [d]);
    SumCons(b, [c, d]);
    SumCons(a, [b, c, d]);
    assert [d] + [] == [d] && [c] + [d] == [c, d];
    assert [b] + [c, d] == [b, c, d] && [a] + [b, c, d] == [a, b, c, d];
  }

  /** The `fold` of `dash_direction_arrows`: add each direction in turn onto an accumulator. */
  function FoldAdd(acc: DashDirection, s: seq<DashDirection>): (r: DashDirection)
    ensures r == acc.Add(Sum(s))
    decreases |s|
  {
    if s == [] then acc else FoldAdd(acc.Add(s[0]), s[1..])
  }

  /** Taking one element out of a sequence and adding it back does not change its sum. */
  lemma {:induction false} SumRemove(s: seq<DashDirection>, i: nat)
    requires i < |s|
    ensures Sum(s) == s[i].Add(Sum(s[..i] + s[i + 1..]))
  {
    if i == 0 {
      assert s[..0] + s[1..] == s[1..];
    } else {
      var rest := s[..i] + s[i + 1..];
      assert rest[0] == s[0];
      assert rest[1..] == s[1..][..i - 1] + s[1..][i..];
      SumRemove(s[1..], i - 1);
    }
  }

  /** The sum of a sequence of directions depends only on its multiset of elements. */
  lemma {:induction false} SumPermutation(s: seq<DashDirection>, t: seq<DashDirection>)
    requires multiset(s) == multiset(t)
    ensures Sum(s) == Sum(t)
    decreases |s|
  {
    if s == [] {
      assert |t| == |multiset(t)| == 0;
    } else {
      assert s[0] in multiset(t);
      var i :| 0 <= i < |t| && t[i] == s[0];
      var rest := t[..i] + t[i + 1..];
      assert t == t[..i] + [t[i]] + t[i + 1..];
      assert multiset(t) == multiset(t[..i]) + multiset{t[i]} + multiset(t[i + 1..]);
      assert multiset(rest) == multiset(t[..i]) + multiset(t[i + 1..]);
      assert s == [s[0]] + s[1..];
      assert multiset(s) == multiset{s[0]} + multiset(s[1..]);
      assert multiset(s[1..]) == multiset(s) - multiset{s[0]};
      assert multiset(rest) == multiset(t) - multiset{t[i]};
      SumPermutation(s[1..], rest);
      SumRemove(t, i);
    }
  }

  /** The order in which directions are folded onto the stored one does not affect the result. */
  lemma FoldOrderIndependent(acc: DashDirection, s: seq<DashDirection>, t: seq<DashDirection>)
    requires multiset(s) == multiset(t)
    ensures FoldAdd(acc, s) == FoldAdd(acc, t)
  {
    SumPermutation(s, t);
  }

  //endregion

  //region keyboard_controls_system

  /** The `to_num` closure: 1 for a pressed key and 0 otherwise. */
  function ToNum(pressed: bool): (n: int)
    ensures 0 <= n <= 1 && (n == 1 <==> pressed)
  {
    if pressed then 1 else 0
  }

  /** The horizontal axis built from the held right and left keys. */
  function Axis(right: bool, left: bool): (x: int)
    ensures -1 <= x <= 1
    ensures x == 1 <==> right && !left
    ensures x == -1 <==> left && !right
    ensures x == 0 <==> right == left
  {
    ToNum(right) - ToNum(left)
  }

  /** The effect of one frame of `keyboard_controls_system` on `Movement`. */
  function KeyboardStep(m: Movement, keys: KeyInput): Movement
  {
    Movement(Axis(keys.held.right, keys.held.left), m.jump || keys.justPressed.up, m.jumped,
             m.isFastFalling || keys.held.down, m.lockX)
  }

  /** The horizontal axis is rebuilt each frame: it does not depend on its previous value. */
  lemma AxisReplacesPrevious(m1: Movement, m2: Movement, keys: KeyInput)
    ensures KeyboardStep(m1, keys).x == KeyboardStep(m2, keys).x
  {
  }

  /** Movement after running the keyboard system on each frame in turn. */
  function RunKeyboard(m: Movement, frames: seq<KeyInput>): Movement
    decreases |frames|
  {
    if frames == [] then m else RunKeyboard(KeyboardStep(m, frames[0]), frames[1..])
  }

  /**
   * Over any sequence of frames: the axis is the last frame's, jump is set
   * iff it was set before or up was just pressed in some frame, fast-fall is
   * set iff it was set before or down was held in some frame, and the jump
   * counter and axis lock are untouched.
   */
  lemma {:induction false} KeyboardRun(m: Movement, frames: seq<KeyInput>)
    ensures var r := RunKeyboard(m, frames);
      && r.x == (if frames == [] then m.x
                 else Axis(frames[|frames| - 1].held.right, frames[|frames| - 1].held.left))
      && (r.jump <==> m.jump || exists i :: 0 <= i < |frames| && frames[i].justPressed.up)
      && (r.isFastFalling <==> m.isFastFalling || exists i :: 0 <= i < |frames| && frames[i].held.down)
      && r.jumped == m.jumped && r.lockX == m.lockX
    decreases |frames|
  {
    if frames != [] {
      var next := KeyboardStep(m, frames[0]);
      KeyboardRun(next, frames[1..]);
      assert forall i :: 1 <= i < |frames| ==> frames[i] == frames[1..][i - 1];
      if next.jump && !m.jump {
        assert frames[0].justPressed.up;
      }
      if exists i :: 0 <= i < |frames| && frames[i].justPressed.up {
        var i :| 0 <= i < |frames| && frames[i].justPressed.up;
        if i > 0 {
          assert frames[1..][i - 1].justPressed.up;
        }
      }
      if exists i :: 0 <= i < |frames| && frames[i].held.down {
        var i :| 0 <= i < |frames| && frames[i].held.down;
        if i > 0 {
          assert frames[1..][i - 1].held.down;
        }
      }
    }
  }

  //endregion

  //region dash_direction_arrows

  /** Net arrow offset of one frame: (right - left, up - down); opposite presses cancel. */
  function Offset(justPressed: KeyFlags): (o: DashDirection)
    ensures -1 <= o.x <= 1 && -1 <= o.y <= 1
    ensures o.x == 1 <==> justPressed.right && !justPressed.left
    ensures o.x == -1 <==> justPressed.left && !justPressed.right
    ensures o.x == 0 <==> justPressed.right == justPressed.left
    ensures o.y == 1 <==> justPressed.up && !justPressed.down
    ensures o.y == -1 <==> justPressed.down && !justPressed.up
    ensures o.y == 0 <==> justPressed.up == justPressed.down
  {
    DashDirection(ToNum(justPressed.right) - ToNum(justPressed.left),
                  ToNum(justPressed.up) - ToNum(justPressed.down))
  }

  /** A pending dash always has somewhere to go. */
  ghost predicate DashConsistent(d: Dash)
  {
    d.tryingToDash ==> !d.direction.IsEmpty()
  }

  /**
   * The effect of one frame of `dash_direction_arrows` on `Dash`, in closed
   * form: the stored direction plus the frame's arrow offset is committed,
   * with a dash request, when it is non-empty; otherwise nothing changes.
   */
  function DashStep(d: Dash, keys: KeyInput): Dash
  {
    Commit(d, d.direction.Add(Offset(keys.justPressed)))
  }

  /** Store a non-empty candidate direction and raise the dash request; ignore an empty one. */
  function Commit(d: Dash, candidate: DashDirection): Dash
  {
    if candidate.IsEmpty() then d else d.(tryingToDash := true, direction := candidate)
  }

  /**
   * With D the stored direction, the candidate is D + (right - left, up - down)
   * over the arrows just pressed: a non-empty candidate becomes the direction
   * and raises the request, an empty one leaves the whole state unchanged.
   */
  lemma DashStepCandidate(d: Dash, keys: KeyInput)
    ensures var c := DashDirection(d.direction.x + ToNum(keys.justPressed.right) - ToNum(keys.justPressed.left),
                                   d.direction.y + ToNum(keys.justPressed.up) - ToNum(keys.justPressed.down));
      && (c.x == 0 && c.y == 0 ==> DashStep(d, keys) == d)
      && (c.x != 0 || c.y != 0 ==> DashStep(d, keys) == d.(tryingToDash := true, direction := c))
  {
  }

  /** The dash step never withdraws a request, never touches the active-dash fields, and keeps a request consistent. */
  lemma DashStepFrame(d: Dash, keys: KeyInput)
    ensures var r := DashStep(d, keys);
      && (d.tryingToDash ==> r.tryingToDash)
      && r.isDashing == d.isDashing && r.dashed == d.dashed && r.duration == d.duration
      && (DashConsistent(d) ==> DashConsistent(r))
      && (!d.direction.IsEmpty() ==> !r.direction.IsEmpty())
  {
  }

  /**
   * A press that exactly cancels the stored direction is ignored: the whole
   * state stays as it was, so a stored direction never returns to empty.
   */
  lemma CancellingPressIgnored(d: Dash, keys: KeyInput)
    requires Offset(keys.justPressed) == DashDirection(-d.direction.x, -d.direction.y)
    ensures DashStep(d, keys) == d
  {
  }

  /** Dash after running the dash system on each frame in turn. */
  function RunDash(d: Dash, frames: seq<KeyInput>): Dash
    decreases |frames|
  {
    if frames == [] then d else RunDash(DashStep(d, frames[0]), frames[1..])
  }

  /** No arrow key was pressed in any of the frames. */
  ghost predicate NoArrowPressed(frames: seq<KeyInput>)
  {
    forall i :: 0 <= i < |frames| ==> frames[i].justPressed == NoKeys()
  }

  /**
   * A frame without arrow presses keeps the stored direction, and raises the
   * request again whenever that direction is non-empty.
   */
  lemma IdleFrame(d: Dash, keys: KeyInput)
    requires keys.justPressed == NoKeys()
    ensures DashStep(d, keys).direction == d.direction
    ensures DashStep(d, keys).tryingToDash <==> d.tryingToDash || !d.direction.IsEmpty()
    ensures d.direction.IsEmpty() || d.tryingToDash ==> DashStep(d, keys) == d
  {
  }

  /**
   * Over any sequence of frames the dash system never clears a request, never
   * changes `is_dashing`, `dashed` or `duration`, and keeps a consistent state
   * consistent. When no arrow is ever pressed the direction stays put, and a
   * non-empty stored direction re-raises the request.
   */
  lemma {:induction false} DashRun(d: Dash, frames: seq<KeyInput>)
    ensures var r := RunDash(d, frames);
      && (d.tryingToDash ==> r.tryingToDash)
      && r.isDashing == d.isDashing && r.dashed == d.dashed && r.duration == d.duration
      && (DashConsistent(d) ==> DashConsistent(r))
      && (!d.direction.IsEmpty() ==> !r.direction.IsEmpty())
      && (NoArrowPressed(frames) ==> r.direction == d.direction)
      && (frames != [] && NoArrowPressed(frames) ==> (r.tryingToDash <==> d.tryingToDash || !d.direction.IsEmpty()))
    decreases |frames|
  {
    if frames != [] {
      var next := DashStep(d, frames[0]);
      DashStepFrame(d, frames[0]);
      DashRun(next, frames[1..]);
      if NoArrowPressed(frames) {
        IdleFrame(d, frames[0]);
        assert NoArrowPressed(frames[1..]) by {
          forall i | 0 <= i < |frames[1..]|
            ensures frames[1..][i].justPressed == NoKeys()
          {
            assert frames[1..][i] == frames[i + 1];
          }
        }
      }
    }
  }

  /** The initial state is at rest: a frame with no key held or pressed leaves it as it is. */
  lemma DefaultsAreIdle()
    ensures KeyboardStep(DefaultMovement(), KeyInput(NoKeys(), NoKeys())) == DefaultMovement()
    ensures DashStep(DefaultDash(), KeyInput(NoKeys(), NoKeys())) == DefaultDash()
  {
  }

  /**
   * Right and up pressed together on an empty stored direction (such as the
   * initial one) give the diagonal (1, 1): diagonals are not scaled down.
   */
  lemma DiagonalFromRest(d: Dash, keys: KeyInput)
    requires d.direction.IsEmpty()
    requires keys.justPressed.up && keys.justPressed.right
    requires !keys.justPressed.down && !keys.justPressed.left
    ensures DashStep(d, keys).tryingToDash && DashStep(d, keys).direction == DashDirection(1, 1)
  {
    assert Offset(keys.justPressed) == DashDirection(1, 1);
  }

  /**
   * Right pressed alone on two frames moves a stored direction with
   * non-negative x two steps right, e.g. from rest to (2, 0): the stored
   * direction is not clamped.
   */
  lemma RightTwiceAccumulates(d: Dash, right: KeyInput)
    requires right.justPressed.right && !right.justPressed.left
    requires !right.justPressed.up && !right.justPressed.down
    requires d.direction.x >= 0
    ensures RunDash(d, [right, right]).direction == DashDirection(d.direction.x + 2, d.direction.y)
    ensures RunDash(d, [right, right]).tryingToDash
  {
    var d1 := DashStep(d, right);
    assert RunDash(d1, [right]) == DashStep(d1, right) by {
      assert [right][1..] == [];
    }
    assert [right, right][1..] == [right];
  }

  /** Right pressed alone on every frame. */
  ghost predicate OnlyRightPressed(frames: seq<KeyInput>)
  {
    forall i :: 0 <= i < |frames| ==> frames[i].justPressed == KeyFlags(false, false, false, true)
  }

  /**
   * With the stored direction one step left, right pressed alone cancels it to
   * the empty direction, which is ignored: however many frames the player
   * presses right, the dash state does not change.
   */
  lemma {:induction false} LeftThenRightIsStuck(d: Dash, frames: seq<KeyInput>)
    requires d.direction == DashDirection(-1, 0)
    requires OnlyRightPressed(frames)
    ensures RunDash(d, frames) == d
    decreases |frames|
  {
    if frames != [] {
      CancellingPressIgnored(d, frames[0]);
      assert OnlyRightPressed(frames[1..]) by {
        forall i | 0 <= i < |frames[1..]|
          ensures frames[1..][i].justPressed == KeyFlags(false, false, false, true)
        {
          assert frames[1..][i] == frames[i + 1];
        }
      }
      LeftThenRightIsStuck(d, frames[1..]);
    }
  }

  //endregion

  //region Resources

  /** The engine resources this module owns, each updated in place by one system per frame. */
  class ControlsResources
  {
    var movement: Movement
    var mouse: MouseCoordinates
    var dash: Dash

    /** The resources are inserted with their default values. */
    constructor ()
      ensures movement == DefaultMovement() && mouse == DefaultMouseCoordinates() && dash == DefaultDash()
      ensures mouse.x == 0.0 && mouse.y == 0.0 && dash.duration == Timer(0, 0)
      ensures -1 <= movement.x <= 1 && DashConsistent(dash)
    {
      movement := DefaultMovement();
      mouse := DefaultMouseCoordinates();
      dash := DefaultDash();
    }

    /** `keyboard_controls_system`: jump on a fresh up, fast-fall while down is held, axis from right and left. */
    method KeyboardControlsSystem(keyboard: KeyInput)
      modifies this`movement
      ensures movement == KeyboardStep(old(movement), keyboard)
      ensures movement.x == Axis(keyboard.held.right, keyboard.held.left)
      ensures movement.jump <==> old(movement.jump) || keyboard.justPressed.up
      ensures movement.isFastFalling <==> old(movement.isFastFalling) || keyboard.held.down
      ensures movement.jumped == old(movement.jumped) && movement.lockX == old(movement.lockX)
    {
      if keyboard.justPressed.up {
        movement := movement.(jump := true);
      }
      if keyboard.held.down {
        movement := movement.(isFastFalling := true);
      }
      var sides := 0;
      if keyboard.held.right {
        sides := sides + 1;
      }
      if keyboard.held.left {
        sides := sides - 1;
      }
      movement := movement.(x := sides);
    }

    /** `dash_direction_arrows`: fold the arrow presses onto the stored direction and commit a non-empty result. */
    method DashDirectionArrows(kb: KeyInput)
      modifies this`dash
      ensures dash == DashStep(old(dash), kb)
      ensures dash.isDashing == old(dash.isDashing) && dash.dashed == old(dash.dashed)
      ensures dash.duration == old(dash.duration)
      ensures old(dash.tryingToDash) ==> dash.tryingToDash
      ensures DashConsistent(old(dash)) ==> DashConsistent(dash)
    {
      var up := DashDirection(0, ToNum(kb.justPressed.up));
      var down := DashDirection(0, -ToNum(kb.justPressed.down));
      var left := DashDirection(-ToNum(kb.justPressed.left), 0);
      var right := DashDirection(ToNum(kb.justPressed.right), 0);
      Sum4(up, down, left, right);
      var direction := FoldAdd(dash.direction, [up, down, left, right]);
      assert direction == dash.direction.Add(Offset(kb.justPressed));
      if !direction.IsEmpty() {
        dash := dash.(tryingToDash := true, direction := direction);
      }
    }
  }

  //endregion
}
