/** The keyboard and mouse state machine of public/scripts/engine/input.js. */
module InputHandling {

  import opened Wrappers
  import opened Vectors

  /** `MOVEMENT_SPEED`, in units per second. */
  const MovementSpeed: real := 5.0

  /** `ROTATION_SPEED`, in radians per pixel of drag per second. */
  const RotationSpeed: real := 0.4

  /** The six action names the bind table maps key codes to. */
  datatype Action = Forward | Left | Backward | Right | Up | Down

  /** The key codes `initialize` binds: W, A, S, D, E and Q. */
  const DefaultBinds: map<int, Action> :=
    map[87 := Forward, 65 := Left, 83 := Backward, 68 := Right, 69 := Up, 81 := Down]

  /** The action table `initialize` writes: every action present and released. */
  const Released: map<Action, bool> :=
    map[Forward := false, Left := false, Backward := false, Right := false, Up := false, Down := false]

  /** Every action has a key bound to it, and the six keys are distinct codes. */
  lemma DefaultBindsCoverActions()
    ensures |DefaultBinds| == 6
    ensures forall a: Action :: a in DefaultBinds.Values
  {
    assert DefaultBinds.Keys == {87, 65, 83, 68, 69, 81};
    forall a: Action
      ensures a in DefaultBinds.Values
    {
      var k := match a
        case Forward => 87 case Left => 65 case Backward => 83
        case Right => 68 case Up => 69 case Down => 81;
      assert k in DefaultBinds && DefaultBinds[k] == a;
    }
  }

  /** Whatever the table held before, after `initialize` every action is present and released. */
  lemma ReleasedCoversActions(actions: map<Action, bool>)
    ensures forall a: Action :: a in actions + Released && !(actions + Released)[a]
  {
    forall a: Action
      ensures a in actions + Released && !(actions + Released)[a]
    {
      assert a in Released.Keys by {
        match a
        case Forward => case Left => case Backward => case Right => case Up => case Down =>
      }
    }
  }

  /** The six writes of `initialize` into the bind table merge `DefaultBinds` into it. */
  lemma BindsMerge(binds: map<int, Action>)
    ensures binds[87 := Forward][65 := Left][83 := Backward][68 := Right][69 := Up][81 := Down] == binds + DefaultBinds
  {
  }

  /** The six writes of `initialize` into the action table merge `Released` into it. */
  lemma ActionsMerge(actions: map<Action, bool>)
    ensures actions[Forward := false][Left := false][Backward := false][Right := false][Up := false][Down := false]
         == actions + Released
  {
  }

  /**
    * `this.actions[a]` used as a condition. An action that was never set reads as
    * `undefined`, which is falsy.
    */
  predicate IsHeld(actions: map<Action, bool>, a: Action)
  {
    a in actions && actions[a]
  }

  /** The coefficient of one basis vector: +1 for the positive action, -1 for the negative one, both cancel. */
  function Axis(actions: map<Action, bool>, positive: Action, negative: Action): real
  {
    (if IsHeld(actions, positive) then 1.0 else 0.0) - (if IsHeld(actions, negative) then 1.0 else 0.0)
  }

  /** The camera's basis, each vector weighted by its coefficient and by the step length. */
  function Weighted(forward: Vec3, right: Vec3, up: Vec3, forwardCoefficient: real, rightCoefficient: real,
                    upCoefficient: real, step: real): Vec3
  {
    Add(Add(Scale(forward, forwardCoefficient * step), Scale(right, rightCoefficient * step)),
        Scale(up, upCoefficient * step))
  }

  /**
    * The camera's position change for one `processInput` call: the weighted basis with
    * the step `MOVEMENT_SPEED * deltaSeconds`. It is never normalised, so diagonal
    * movement is faster.
    */
  function PositionDelta(actions: map<Action, bool>, forward: Vec3, right: Vec3, up: Vec3, deltaSeconds: real): Vec3
  {
    Weighted(forward, right, up, Axis(actions, Forward, Backward), Axis(actions, Right, Left), Axis(actions, Up, Down),
             MovementSpeed * deltaSeconds)
  }

  /** A drag's turn for one step length: about axes 1 and 2, negated, only while dragging with a move pending. */
  function DragTurn(pressed: bool, updated: bool, delta: (real, real), step: real): Vec3
  {
    if pressed && updated then Vec3(0.0, -delta.0 * step, -delta.1 * step) else Zero
  }

  /**
    * The camera's rotation change for one `processInput` call: the drag turn with the
    * step `ROTATION_SPEED * deltaSeconds`.
    */
  function RotationDelta(pressed: bool, updated: bool, delta: (real, real), deltaSeconds: real): Vec3
  {
    DragTurn(pressed, updated, delta, RotationSpeed * deltaSeconds)
  }

  /** The two component writes of `processInput` under its drag condition make `DragTurn`. */
  lemma DragWrites(pressed: bool, updated: bool, delta: (real, real), step: real, deltaR: Vec3)
    requires pressed && updated ==> deltaR == Zero.(y := -delta.0 * step).(z := -delta.1 * step)
    requires !(pressed && updated) ==> deltaR == Zero
    ensures deltaR == DragTurn(pressed, updated, delta, step)
  {
  }

  /** `v` when the action is held, nothing otherwise. */
  function Held(actions: map<Action, bool>, a: Action, v: Vec3): Vec3
  {
    if IsHeld(actions, a) then v else Zero
  }

  /** One conditional add of `processInput`: the vector is added exactly when its action is held. */
  lemma ConditionalAdd(actions: map<Action, bool>, a: Action, before: Vec3, after: Vec3, v: Vec3)
    requires IsHeld(actions, a) ==> after == Add(before, v)
    requires !IsHeld(actions, a) ==> after == before
    ensures after == Add(before, Held(actions, a, v))
  {
  }

  /** One axis: the positive and the negative add together are the basis vector scaled by the axis coefficient. */
  lemma AxisHeld(actions: map<Action, bool>, v: Vec3, positive: Action, negative: Action, step: real)
    ensures Add(Held(actions, positive, Scale(v, step)), Held(actions, negative, Scale(Negate(v), step)))
         == Scale(v, Axis(actions, positive, negative) * step)
  {
  }

  /** Six adds onto the zero vector, regrouped in pairs. */
  lemma RegroupSum(a: Vec3, b: Vec3, c: Vec3, d: Vec3, e: Vec3, f: Vec3)
    ensures Add(Add(Add(Add(Add(Add(Zero, a), b), c), d), e), f) == Add(Add(Add(a, b), Add(c, d)), Add(e, f))
  {
  }

  /**
    * The six conditional adds of `processInput`, made in source order onto the zero
    * vector, weight each basis vector by its axis coefficient.
    */
  lemma MovementAccumulates(actions: map<Action, bool>, forward: Vec3, right: Vec3, up: Vec3, step: real,
                            afterForward: Vec3, afterBackward: Vec3, afterRight: Vec3,
                            afterLeft: Vec3, afterUp: Vec3, afterDown: Vec3)
    requires afterForward == Add(Zero, Held(actions, Forward, Scale(forward, step)))
    requires afterBackward == Add(afterForward, Held(actions, Backward, Scale(Negate(forward), step)))
    requires afterRight == Add(afterBackward, Held(actions, Right, Scale(right, step)))
    requires afterLeft == Add(afterRight, Held(actions, Left, Scale(Negate(right), step)))
    requires afterUp == Add(afterLeft, Held(actions, Up, Scale(up, step)))
    requires afterDown == Add(afterUp, Held(actions, Down, Scale(Negate(up), step)))
    ensures afterDown == Weighted(forward, right, up, Axis(actions, Forward, Backward), Axis(actions, Right, Left),
                                  Axis(actions, Up, Down), step)
  {
    RegroupSum(Held(actions, Forward, Scale(forward, step)), Held(actions, Backward, Scale(Negate(forward), step)),
               Held(actions, Right, Scale(right, step)), Held(actions, Left, Scale(Negate(right), step)),
               Held(actions, Up, Scale(up, step)), Held(actions, Down, Scale(Negate(up), step)));
    AxisHeld(actions, forward, Forward, Backward, step);
    AxisHeld(actions, right, Right, Left, step);
    AxisHeld(actions, up, Up, Down, step);
  }

  /** With no action held the camera stays where it is. */
  lemma NoActionNoMove(actions: map<Action, bool>, forward: Vec3, right: Vec3, up: Vec3, deltaSeconds: real)
    requires forall a: Action :: !IsHeld(actions, a)
    ensures PositionDelta(actions, forward, right, up, deltaSeconds) == Zero
  {
    assert !IsHeld(actions, Forward) && !IsHeld(actions, Backward) && !IsHeld(actions, Right);
    assert !IsHeld(actions, Left) && !IsHeld(actions, Up) && !IsHeld(actions, Down);
  }

  /** Holding both actions of an axis gives it the same coefficient, zero, as holding neither. */
  lemma AxisCancels(actions: map<Action, bool>, positive: Action, negative: Action)
    requires positive != negative
    ensures Axis(actions[positive := true][negative := true], positive, negative) == 0.0
    ensures Axis(actions[positive := false][negative := false], positive, negative) == 0.0
  {
  }

  /** The position change depends on the held actions only through the three axis coefficients. */
  lemma SameAxesSameMove(a1: map<Action, bool>, a2: map<Action, bool>, forward: Vec3, right: Vec3, up: Vec3, deltaSeconds: real)
    requires Axis(a1, Forward, Backward) == Axis(a2, Forward, Backward)
    requires Axis(a1, Right, Left) == Axis(a2, Right, Left)
    requires Axis(a1, Up, Down) == Axis(a2, Up, Down)
    ensures PositionDelta(a1, forward, right, up, deltaSeconds) == PositionDelta(a2, forward, right, up, deltaSeconds)
  {
  }

  /** Holding `forward` and `backward` together moves the camera as holding neither does. */
  lemma OppositeActionsCancel(actions: map<Action, bool>, forward: Vec3, right: Vec3, up: Vec3, deltaSeconds: real)
    ensures PositionDelta(actions[Forward := true][Backward := true], forward, right, up, deltaSeconds)
         == PositionDelta(actions[Forward := false][Backward := false], forward, right, up, deltaSeconds)
  {
    var held, released := actions[Forward := true][Backward := true], actions[Forward := false][Backward := false];
    AxisCancels(actions, Forward, Backward);
    assert Axis(held, Right, Left) == Axis(released, Right, Left);
    assert Axis(held, Up, Down) == Axis(released, Up, Down);
    SameAxesSameMove(held, released, forward, right, up, deltaSeconds);
  }

  /** Holding only `forward` moves the camera `MOVEMENT_SPEED * deltaSeconds` along its forward vector. */
  lemma ForwardOnly(forward: Vec3, right: Vec3, up: Vec3, deltaSeconds: real)
    ensures PositionDelta(Released[Forward := true], forward, right, up, deltaSeconds)
         == Scale(forward, MovementSpeed * deltaSeconds)
  {
  }

  /**
    * The camera turns exactly when the button is down, a move is pending, the frame has
    * a non-zero duration and the drag moved the cursor; it never rolls about its first axis.
    */
  lemma TurnsIffDragged(pressed: bool, updated: bool, delta: (real, real), deltaSeconds: real)
    ensures RotationDelta(pressed, updated, delta, deltaSeconds) != Zero
        <==> pressed && updated && deltaSeconds != 0.0 && (delta.0 != 0.0 || delta.1 != 0.0)
    ensures RotationDelta(pressed, updated, delta, deltaSeconds).x == 0.0
  {
    var step := RotationSpeed * deltaSeconds;
    if pressed && updated && deltaSeconds != 0.0 && delta.0 != 0.0 {
      assert -delta.0 * step != 0.0;
    }
    if pressed && updated && deltaSeconds != 0.0 && delta.1 != 0.0 {
      assert -delta.1 * step != 0.0;
    }
  }

  /** The two fields of the engine's camera object that `processInput` reassigns. */
  class Camera {
    var position: Vec3
    var rotation: Vec3

    constructor (position: Vec3, rotation: Vec3)
      ensures this.position == position && this.rotation == rotation
    {
      this.position := position;
      this.rotation := rotation;
    }
  }

  class Input {
    var binds: map<int, Action>
    var actions: map<Action, bool>
    var mousePressed: bool
    var mousePositionDelta: (real, real)
    var previousMousePosition: Option<(real, real)>
    var mousePositionUpdated: bool

    constructor ()
      ensures binds == map[] && actions == map[] && !mousePressed
      ensures mousePositionDelta == (0.0, 0.0) && previousMousePosition == None && !mousePositionUpdated
    {
      binds := map[];
      actions := map[];
      mousePressed := false;
      mousePositionDelta := (0.0, 0.0);
      previousMousePosition := None;
      mousePositionUpdated := false;
    }

    /** The bind and action tables of `initialize`; the event-listener registration is not modelled. */
    method Initialize()
      modifies this`binds, this`actions
      ensures binds == old(binds) + DefaultBinds
      ensures actions == old(actions) + Released
    {
      BindsMerge(binds);
      ActionsMerge(actions);
      binds := binds[87 := Forward];
      binds := binds[65 := Left];
      binds := binds[83 := Backward];
      binds := binds[68 := Right];
      binds := binds[69 := Up];
      binds := binds[81 := Down];
      actions := actions[Forward := false];
      actions := actions[Left := false];
      actions := actions[Backward := false];
      actions := actions[Right := false];
      actions := actions[Up := false];
      actions := actions[Down := false];
    }

    /** `onKeyUp`: a bound key releases its action; any other key changes nothing. */
    method OnKeyUp(keyCode: int)
      modifies this`actions
      ensures keyCode in binds ==> actions == old(actions)[binds[keyCode] := false]
      ensures keyCode !in binds ==> actions == old(actions)
    {
      if keyCode in binds {
        var action := binds[keyCode];
        actions := actions[action := false];
      }
    }

    /** `onKeyDown`: a bound key holds its action; any other key changes nothing. */
    method OnKeyDown(keyCode: int)
      modifies this`actions
      ensures keyCode in binds ==> actions == old(actions)[binds[keyCode] := true]
      ensures keyCode !in binds ==> actions == old(actions)
    {
      if keyCode in binds {
        var action := binds[keyCode];
        actions := actions[action := true];
      }
    }

    method OnMouseUp()
      modifies this`mousePressed
      ensures !mousePressed
    {
      mousePressed := false;
    }

    method OnMouseDown()
      modifies this`mousePressed
      ensures mousePressed
    {
      mousePressed := true;
    }

    /**
      * `onMouseMove` at offset (x, y). The first move seeds the previous position with
      * the current one, so its delta is zero; every move leaves a pending delta.
      */
    method OnMouseMove(x: real, y: real)
      modifies this`mousePositionDelta, this`previousMousePosition, this`mousePositionUpdated
      ensures old(previousMousePosition).None? ==> mousePositionDelta == (0.0, 0.0)
      ensures old(previousMousePosition).Some? ==>
        mousePositionDelta == (x - old(previousMousePosition).value.0, y - old(previousMousePosition).value.1)
      ensures previousMousePosition == Some((x, y)) && mousePositionUpdated
    {
      if previousMousePosition.None? {
        previousMousePosition := Some((x, y));
      }
      var previous := previousMousePosition.value;
      mousePositionDelta := (x - previous.0, y - previous.1);
      previousMousePosition := Some((x, y));
      mousePositionUpdated := true;
    }

    /**
      * `processInput`. The camera's forward, right and up vectors come in as parameters.
      * The held actions move the camera, a pending drag turns it, and the pending flag is
      * consumed whether or not the button is down.
      */
    method ProcessInput(camera: Camera, deltaSeconds: real, forward: Vec3, up: Vec3, right: Vec3)
      modifies camera, this`mousePositionUpdated
      ensures camera.position == Add(old(camera.position), PositionDelta(actions, forward, right, up, deltaSeconds))
      ensures camera.rotation
           == Add(old(camera.rotation), RotationDelta(mousePressed, old(mousePositionUpdated), mousePositionDelta, deltaSeconds))
      ensures !mousePositionUpdated
    {
      MoveCamera(camera, deltaSeconds, forward, up, right);
      TurnCamera(camera, deltaSeconds);
    }

    /** The first half of `processInput`: the held actions move the camera. */
    method MoveCamera(camera: Camera, deltaSeconds: real, forward: Vec3, up: Vec3, right: Vec3)
      modifies camera`position
      ensures camera.position == Add(old(camera.position), PositionDelta(actions, forward, right, up, deltaSeconds))
    {
      var movementDelta := MovementSpeed * deltaSeconds;
      var deltaP := Zero;
      if IsHeld(actions, Forward) {
        deltaP := Add(deltaP, Scale(forward, movementDelta));
      }
      ConditionalAdd(actions, Forward, Zero, deltaP, Scale(forward, movementDelta));
      ghost var afterForward := deltaP;
      if IsHeld(actions, Backward) {
        deltaP := Add(deltaP, Scale(Negate(forward), movementDelta));
      }
      ConditionalAdd(actions, Backward, afterForward, deltaP, Scale(Negate(forward), movementDelta));
      ghost var afterBackward := deltaP;
      if IsHeld(actions, Right) {
        deltaP := Add(deltaP, Scale(right, movementDelta));
      }
      ConditionalAdd(actions, Right, afterBackward, deltaP, Scale(right, movementDelta));
      ghost var afterRight := deltaP;
      if IsHeld(actions, Left) {
        deltaP := Add(deltaP, Scale(Negate(right), movementDelta));
      }
      ConditionalAdd(actions, Left, afterRight, deltaP, Scale(Negate(right), movementDelta));
      ghost var afterLeft := deltaP;
      if IsHeld(actions, Up) {
        deltaP := Add(deltaP, Scale(up, movementDelta));
      }
      ConditionalAdd(actions, Up, afterLeft, deltaP, Scale(up, movementDelta));
      ghost var afterUp := deltaP;
      if IsHeld(actions, Down) {
        deltaP := Add(deltaP, Scale(Negate(up), movementDelta));
      }
      ConditionalAdd(actions, Down, afterUp, deltaP, Scale(Negate(up), movementDelta));
      MovementAccumulates(actions, forward, right, up, movementDelta,
                          afterForward, afterBackward, afterRight, afterLeft, afterUp, deltaP);
      camera.position := Add(camera.position, deltaP);
    }

    /** The second half of `processInput`: a pending drag turns the camera, and the pending flag is consumed. */
    method TurnCamera(camera: Camera, deltaSeconds: real)
      modifies camera`rotation, this`mousePositionUpdated
      ensures camera.rotation
           == Add(old(camera.rotation), RotationDelta(mousePressed, old(mousePositionUpdated), mousePositionDelta, deltaSeconds))
      ensures !mousePositionUpdated
    {
      var rotationDelta := RotationSpeed * deltaSeconds;
      var deltaR := Zero;
      if mousePressed && mousePositionUpdated {
        deltaR := deltaR.(y := -mousePositionDelta.0 * rotationDelta);
        deltaR := deltaR.(z := -mousePositionDelta.1 * rotationDelta);
      }
      DragWrites(mousePressed, mousePositionUpdated, mousePositionDelta, rotationDelta, deltaR);
      mousePositionUpdated := false;

      camera.rotation := Add(camera.rotation, deltaR);
    }
  }

  /**
    * A page that creates its input handler, initializes it and sees one key press: a
    * bound key holds exactly its action, any other key holds nothing.
    */
  method PressAfterInitialize(keyCode: int) returns (input: Input)
    ensures keyCode in DefaultBinds ==> IsHeld(input.actions, DefaultBinds[keyCode])
    ensures forall a: Action :: IsHeld(input.actions, a) ==> keyCode in DefaultBinds && a == DefaultBinds[keyCode]
  {
    input := new Input();
    input.Initialize();
    ReleasedCoversActions(map[]);
    input.OnKeyDown(keyCode);
  }

  /**
    * Two frames with no mouse move between them: only the first turns the camera, since
    * the first `processInput` consumes the pending move.
    */
  method ProcessTwice(input: Input, camera: Camera, firstSeconds: real, secondSeconds: real,
                      forward: Vec3, up: Vec3, right: Vec3)
    modifies input, camera
    ensures camera.rotation == Add(old(camera.rotation),
      RotationDelta(old(input.mousePressed), old(input.mousePositionUpdated), old(input.mousePositionDelta), firstSeconds))
    ensures !input.mousePositionUpdated
  {
    input.ProcessInput(camera, firstSeconds, forward, up, right);
    input.ProcessInput(camera, secondSeconds, forward, up, right);
  }
}
