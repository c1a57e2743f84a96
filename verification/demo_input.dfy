/** The camera controls of the two demo projects (RenderProject.cpp and
    ProjectMain.cpp): the space key pauses on its rising edge, WASD and the
    arrow keys pick discrete movements, touches steer by the half of the
    screen they start in, and escape ends the renderer. The control values
    are computed here; moving the camera is left to the camera. */
module DemoInput {
  import opened Common
  import Renderer
  import RendererDesktop

  /** A key state as the input layer reports it. */
  datatype KeyState = Released | Pressed | Repeated

  /** The two demo projects differ in their movement speeds and in whether
      touch moves sideways. */
  datatype Project = RenderProject | ProjectMain

  datatype Keys = Keys(
    space: KeyState, w: KeyState, s: KeyState, a: KeyState, d: KeyState,
    leftShift: KeyState, up: KeyState, down: KeyState, left: KeyState, right: KeyState)

  /** A touch as recorded by the input layer (only start and current
      positions are read). */
  datatype Touch = Touch(startX: real, startY: real, currentX: real, currentY: real)

  /** The project fields `updateCamera` reads and writes. */
  datatype DemoState = DemoState(running: bool, lastSpace: KeyState, cursorEnabled: bool, mouseX: real, mouseY: real)

  /** What one frame asks of the camera: forward and sideward movement,
      the two look angles, and the directions of the vertical movement and
      the roll (+1, -1 or 0). */
  datatype Control = Control(forward: real, sideward: real, lookX: real, lookY: real, upward: int, roll: int)

  const NoControl: Control := Control(0.0, 0.0, 0.0, 0.0, 0, 0)

  /** The space-key handling: a change of state is remembered, and a change
      to pressed toggles running and shows the cursor exactly when paused. */
  function SpaceKey(st: DemoState, current: KeyState): (r: DemoState)
    ensures r.lastSpace == current
    ensures r.running != st.running <==> current != st.lastSpace && current == Pressed
    ensures r.running != st.running ==> r.cursorEnabled == !r.running
    ensures r.running == st.running ==> r.cursorEnabled == st.cursorEnabled
    ensures r.mouseX == st.mouseX && r.mouseY == st.mouseY
  {
    if current != st.lastSpace then
      var st' := st.(lastSpace := current);
      if current == Pressed then st'.(running := !st.running, cursorEnabled := st.running) else st'
    else st
  }

  /** The space key over successive frames. */
  function SpaceKeys(st: DemoState, ks: seq<KeyState>): DemoState
    decreases |ks|
  {
    if ks == [] then st else SpaceKeys(SpaceKey(st, ks[0]), ks[1..])
  }

  /** How often the key goes from another state to pressed. */
  function RisingEdges(previous: KeyState, ks: seq<KeyState>): nat
    decreases |ks|
  {
    if ks == [] then 0
    else (if ks[0] == Pressed && previous != Pressed then 1 else 0) + RisingEdges(ks[0], ks[1..])
  }

  /** Over any run of frames, running has flipped once per rising edge of
      the space key: holding the key down or letting it go never toggles. */
  lemma {:induction false} SpaceKeysToggleOnRisingEdges(st: DemoState, ks: seq<KeyState>)
    ensures SpaceKeys(st, ks).running == (st.running != (RisingEdges(st.lastSpace, ks) % 2 == 1))
    ensures ks != [] ==> SpaceKeys(st, ks).lastSpace == ks[|ks| - 1]
    decreases |ks|
  {
    if ks != [] {
      SpaceKeysToggleOnRisingEdges(SpaceKey(st, ks[0]), ks[1..]);
      if ks[1..] == [] {
        assert ks[|ks| - 1] == ks[0];
      } else {
        assert ks[1..][|ks[1..]| - 1] == ks[|ks| - 1];
      }
    }
  }

  /** The unit speed of a project: 1 in RenderProject, 0.5 in ProjectMain. */
  function Step(project: Project): (v: real)
    ensures v == 1.0 || v == 0.5
  {
    if project == RenderProject then 1.0 else 0.5
  }

  /** The forward speed of a frame: W forward, otherwise S backward, at the
      project's unit speed, doubled with the left shift key. */
  function ForwardSpeed(project: Project, keys: Keys): (r: real)
    ensures r > 0.0 <==> keys.w == Pressed
    ensures r < 0.0 <==> keys.w != Pressed && keys.s == Pressed
    ensures r == 0.0 || r == Step(project) || r == -Step(project)
      || r == 2.0 * Step(project) || r == -2.0 * Step(project)
    ensures r != 0.0 ==> (keys.leftShift == Pressed <==> (r == 2.0 * Step(project) || r == -2.0 * Step(project)))
  {
    var speed := if keys.leftShift == Pressed then 2.0 * Step(project) else Step(project);
    if keys.w == Pressed then speed
    else if keys.s == Pressed then -speed
    else 0.0
  }

  /** ProjectMain moves forward at exactly half the speed of RenderProject
      for every key combination. */
  lemma ForwardSpeedHalved(keys: Keys)
    ensures 2.0 * ForwardSpeed(ProjectMain, keys) == ForwardSpeed(RenderProject, keys)
  {
  }

  /** The sideward movement: A to the left, otherwise D to the right, at
      the project's unit speed. */
  function SidewardSpeed(project: Project, keys: Keys): (r: real)
    ensures r < 0.0 <==> keys.a == Pressed
    ensures r > 0.0 <==> keys.a != Pressed && keys.d == Pressed
    ensures r == 0.0 || r == Step(project) || r == -Step(project)
  {
    if keys.a == Pressed then -Step(project)
    else if keys.d == Pressed then Step(project)
    else 0.0
  }

  /** A key pair with precedence for the first: +1, -1 or 0. */
  function Direction(positive: KeyState, negative: KeyState): (r: int)
    ensures r == 1 <==> positive == Pressed
    ensures r == -1 <==> positive != Pressed && negative == Pressed
    ensures r == 0 <==> positive != Pressed && negative != Pressed
  {
    if positive == Pressed then 1 else if negative == Pressed then -1 else 0
  }

  /** The key controls of a running desktop frame. */
  function KeyControl(project: Project, keys: Keys, lookX: real, lookY: real): (c: Control)
    ensures c.forward == ForwardSpeed(project, keys) && c.sideward == SidewardSpeed(project, keys)
    ensures c.lookX == lookX && c.lookY == lookY
    ensures c.upward == Direction(keys.up, keys.down) && c.roll == Direction(keys.left, keys.right)
  {
    Control(ForwardSpeed(project, keys), SidewardSpeed(project, keys), lookX, lookY,
            Direction(keys.up, keys.down), Direction(keys.left, keys.right))
  }

  /** `getWidth() / 2` on a GL integer: C++ division truncates toward zero. */
  function HalfWidth(width: int): (h: int)
    ensures width >= 0 ==> 0 <= h && 2 * h <= width < 2 * h + 2
    ensures width < 0 ==> h <= 0 && 2 * h - 2 < width <= 2 * h
  {
    if width >= 0 then width / 2 else -((-width) / 2)
  }

  /** One touch: starting left of the middle it sets the movement (in
      RenderProject also the sideward part), otherwise the look angles. */
  function TouchStep(project: Project, c: Control, t: Touch, half: int): (r: Control)
    ensures t.startX < half as real ==>
      && r.forward == -(t.currentY - t.startY) / 100.0
      && r.lookX == c.lookX && r.lookY == c.lookY
      && r.sideward == (if project == RenderProject then (t.currentX - t.startX) / 100.0 else c.sideward)
    ensures !(t.startX < half as real) ==>
      && r.lookY == (t.currentX - t.startX) / 2000.0 && r.lookX == (t.currentY - t.startY) / 2000.0
      && r.forward == c.forward && r.sideward == c.sideward
    ensures r.upward == c.upward && r.roll == c.roll
  {
    if t.startX < half as real then
      var moved := c.(forward := -(t.currentY - t.startY) / 100.0);
      if project == RenderProject then moved.(sideward := (t.currentX - t.startX) / 100.0) else moved
    else
      c.(lookY := (t.currentX - t.startX) / 2000.0, lookX := (t.currentY - t.startY) / 2000.0)
  }

  /** The touches applied in order, later ones overriding earlier ones. */
  function Touches(project: Project, c: Control, ts: seq<Touch>, half: int): Control
    decreases |ts|
  {
    if ts == [] then c else TouchStep(project, Touches(project, c, ts[..|ts| - 1], half), ts[|ts| - 1], half)
  }

  predicate IsLeft(t: Touch, half: int) {
    t.startX < half as real
  }

  /** Touches that all start in the right half leave the movement as it
      was. */
  lemma {:induction false} RightTouchesKeepMovement(project: Project, c: Control, ts: seq<Touch>, half: int)
    requires forall i :: 0 <= i < |ts| ==> !IsLeft(ts[i], half)
    ensures Touches(project, c, ts, half).forward == c.forward
    ensures Touches(project, c, ts, half).sideward == c.sideward
    decreases |ts|
  {
    if ts != [] {
      var init := ts[..|ts| - 1];
      forall i | 0 <= i < |init| ensures !IsLeft(init[i], half) {
        assert init[i] == ts[i];
      }
      RightTouchesKeepMovement(project, c, init, half);
    }
  }

  /** The forward movement is that of the last touch that starts in the
      left half. */
  lemma {:induction false} LastLeftTouchMoves(project: Project, c: Control, ts: seq<Touch>, half: int, j: nat)
    requires j < |ts| && IsLeft(ts[j], half)
    requires forall i :: j < i < |ts| ==> !IsLeft(ts[i], half)
    ensures Touches(project, c, ts, half).forward == -(ts[j].currentY - ts[j].startY) / 100.0
    decreases |ts|
  {
    var init := ts[..|ts| - 1];
    if j < |ts| - 1 {
      assert init[j] == ts[j];
      forall i | j < i < |init| ensures !IsLeft(init[i], half) {
        assert init[i] == ts[i];
      }
      LastLeftTouchMoves(project, c, init, half, j);
    }
  }

  /** The touch loop of `updateCamera`: it counts the touches it has looked
      at and stops after the third. */
  method ProcessTouches(project: Project, ts: seq<Touch>, width: int) returns (c: Control)
    ensures c == Touches(project, NoControl, ts[..if |ts| < 3 then |ts| else 3], HalfWidth(width))
  {
    var half := HalfWidth(width);
    c := NoControl;
    var i := 0;
    var k := 0;
    while k < |ts|
      invariant 0 <= k <= |ts| && k <= 3 && i == k
      invariant c == Touches(project, NoControl, ts[..k], half)
      invariant k < |ts| ==> k < 3
    {
      c := TouchStep(project, c, ts[k], half);
      assert ts[..k + 1][..k] == ts[..k];
      k := k + 1;
      i := i + 1;
      if i > 2 {
        break;
      }
    }
    assert k == if |ts| < 3 then |ts| else 3;
  }

  /** The device a frame's input comes from, with what it reports. */
  datatype Input =
    | Desktop(keys: Keys, cursorX: real, cursorY: real)
    | TouchScreen(doubleTap: bool, touches: seq<Touch>, width: int)

  /** `updateCamera`: the new project state and, when running afterwards,
      the control handed to the camera. */
  method UpdateCamera(project: Project, st: DemoState, input: Input) returns (st': DemoState, control: Option<Control>)
    ensures control.Some? <==> st'.running
    ensures input.TouchScreen? ==>
      && st'.running == (st.running != input.doubleTap)
      && st'.lastSpace == st.lastSpace && st'.cursorEnabled == st.cursorEnabled
    ensures input.TouchScreen? && st'.running ==>
      control.value == Touches(project, NoControl, input.touches[..if |input.touches| < 3 then |input.touches| else 3], HalfWidth(input.width))
    ensures input.Desktop? ==>
      && st'.running == SpaceKey(st, input.keys.space).running
      && st'.cursorEnabled == SpaceKey(st, input.keys.space).cursorEnabled
      && st'.mouseX == input.cursorX && st'.mouseY == input.cursorY
    ensures input.Desktop? && st'.running ==>
      control.value == KeyControl(project, input.keys, (input.cursorY - st.mouseY) / 1000.0, (input.cursorX - st.mouseX) / 1000.0)
  {
    match input
    case TouchScreen(doubleTap, touches, width) =>
      st' := if doubleTap then st.(running := !st.running) else st;
      if st'.running {
        var c := ProcessTouches(project, touches, width);
        control := Some(c);
      } else {
        control := None;
      }
    case Desktop(keys, x, y) =>
      var spaced := SpaceKey(st, keys.space);
      var lookY := (x - st.mouseX) / 1000.0;
      var lookX := (y - st.mouseY) / 1000.0;
      st' := spaced.(mouseX := x, mouseY := y);
      control := if st'.running then Some(KeyControl(project, keys, lookX, lookY)) else None;
  }

  /** The end of RenderProject's loop function: escape pressed terminates
      the renderer; otherwise nothing changes. */
  function EscapeCheck(s: Renderer.State, escape: KeyState): (r: Renderer.State)
    ensures escape == Pressed ==> !r.running && !r.initialized && r.elapsedTime == 0
    ensures escape != Pressed ==> r == s
  {
    if escape == Pressed then RendererDesktop.Terminate(s) else s
  }
}
