/*
 * GameControllerDeviceImp and the gamepad driver's slot search.
 *
 * A controller is built from the capability record the controller API
 * reports for its slot: every capability flag that is set contributes one
 * descriptor, in a fixed order, and bumps the matching counter. Axes and
 * buttons are all polled; every poll first refreshes the cached pad state,
 * keeping the old state when the new one reports a disconnection.
 *
 * The capability record and the pad states are the controller API's
 * answers, given as parameters.
 */
module GameController {
  import opened Descriptors
  import opened Selection

  // Stick axis ids: the values of the ControllerAxis enumeration.
  const AxisLeftX := 0
  const AxisLeftY := 1
  const AxisRightX := 2
  const AxisRightY := 3
  // Bounding axis ids (placeholder values, distinct from the stick axes).
  const AxisMinX := 100
  const AxisMaxX := 101
  const AxisMinY := 102
  const AxisMaxY := 103

  // Button ids: A, B, X, Y, Start, Back and Home keep their ControllerButton
  // values; the others are placeholder values distinct from all of them.
  const ButtonA := 0
  const ButtonB := 1
  const ButtonX := 5
  const ButtonY := 6
  const ButtonStart := 11
  const ButtonBack := 12
  const ButtonHome := 13
  const ButtonDPadUp := 100
  const ButtonDPadDown := 101
  const ButtonDPadLeft := 102
  const ButtonDPadRight := 103
  const ButtonLStick := 104
  const ButtonRStick := 105
  const ButtonLShoulder := 106
  const ButtonLTrigger := 107
  const ButtonRShoulder := 108
  const ButtonRTrigger := 109

  const MaxNumberGameControllers := 4

  /** The controller API's capability report for one slot. */
  datatype Capabilities = Capabilities(
    isConnected: bool,
    hasLeftXThumbStick: bool, hasLeftYThumbStick: bool,
    hasRightXThumbStick: bool, hasRightYThumbStick: bool,
    hasDPadUpButton: bool, hasDPadDownButton: bool, hasDPadLeftButton: bool, hasDPadRightButton: bool,
    hasAButton: bool, hasBButton: bool, hasXButton: bool, hasYButton: bool,
    hasLeftStickButton: bool, hasRightStickButton: bool,
    hasLeftShoulderButton: bool, hasLeftTrigger: bool,
    hasRightShoulderButton: bool, hasRightTrigger: bool,
    hasBackButton: bool, hasStartButton: bool, hasBigButton: bool)

  datatype Vector = Vector(x: real, y: real)
  datatype ThumbSticks = ThumbSticks(left: Vector, right: Vector)
  datatype Triggers = Triggers(left: real, right: real)
  /** Button states; true stands for "pressed". */
  datatype PadButtons = PadButtons(
    a: bool, b: bool, x: bool, y: bool,
    leftStick: bool, rightStick: bool, leftShoulder: bool, rightShoulder: bool,
    start: bool, back: bool, bigButton: bool)
  datatype DPad = DPad(up: bool, down: bool, left: bool, right: bool)

  /** The controller API's state report for one slot. */
  datatype PadState = PadState(
    isConnected: bool, thumbSticks: ThumbSticks, triggers: Triggers, buttons: PadButtons, dPad: DPad)

  /** An axis descriptor carrying every given field, its bounds naming other axes. */
  function CreateAxisImpDescription(name: string, id: int, direction: AxisDirection, nature: AxisNature,
                                    boundedType: AxisBoundedType, minAxis: int, maxAxis: int, poll: bool): (r: AxisImpDescription)
    ensures r.axisDesc.name == name && r.axisDesc.id == id && r.axisDesc.direction == direction
    ensures r.axisDesc.nature == nature && r.axisDesc.bounded == boundedType && r.pollAxis == poll
    ensures r.axisDesc.minValueOrAxis.AxisRef? && r.axisDesc.minValueOrAxis.axisId == minAxis
    ensures r.axisDesc.maxValueOrAxis.AxisRef? && r.axisDesc.maxValueOrAxis.axisId == maxAxis
  {
    AxisImpDescription(AxisDescription(name, id, direction, nature, boundedType, AxisRef(minAxis), AxisRef(maxAxis)), poll)
  }

  /** Every axis a controller can have, in the order they are added. */
  const AxisTable: seq<AxisImpDescription> := [
    CreateAxisImpDescription("LeftX", AxisLeftX, X, Position, OtherAxis, AxisMinX, AxisMaxX, true),
    CreateAxisImpDescription("LeftY", AxisLeftY, Y, Position, OtherAxis, AxisMinY, AxisMaxY, true),
    CreateAxisImpDescription("RightX", AxisRightX, X, Position, OtherAxis, AxisMinX, AxisMaxX, true),
    CreateAxisImpDescription("RightY", AxisRightY, Y, Position, OtherAxis, AxisMinY, AxisMaxY, true)]

  /** The capability flag guarding each AxisTable entry. */
  function AxisFlags(c: Capabilities): seq<bool>
  {
    [c.hasLeftXThumbStick, c.hasLeftYThumbStick, c.hasRightXThumbStick, c.hasRightYThumbStick]
  }

  function PolledButton(name: string, id: int): ButtonImpDescription
  {
    ButtonImpDescription(ButtonDescription(name, id), true)
  }

  /** Every button a controller can have, in the order they are added. */
  const ButtonTable: seq<ButtonImpDescription> := [
    PolledButton("DPadUp", ButtonDPadUp),
    PolledButton("DPadDown", ButtonDPadDown),
    PolledButton("DPadLeft", ButtonDPadLeft),
    PolledButton("DPadRight", ButtonDPadRight),
    PolledButton("A", ButtonA),
    PolledButton("B", ButtonB),
    PolledButton("X", ButtonX),
    PolledButton("Y", ButtonY),
    PolledButton("LStickButton", ButtonLStick),
    PolledButton("RStickButton", ButtonRStick),
    PolledButton("LShoulderButton", ButtonLShoulder),
    PolledButton("LTrigger", ButtonLTrigger),
    PolledButton("RShoulderButton", ButtonRShoulder),
    PolledButton("RTrigger", ButtonRTrigger),
    PolledButton("Back", ButtonBack),
    PolledButton("Start", ButtonStart),
    PolledButton("Home", ButtonHome)]

  /** The capability flag guarding each ButtonTable entry. */
  function ButtonFlags(c: Capabilities): seq<bool>
  {
    [c.hasDPadUpButton, c.hasDPadDownButton, c.hasDPadLeftButton, c.hasDPadRightButton,
     c.hasAButton, c.hasBButton, c.hasXButton, c.hasYButton,
     c.hasLeftStickButton, c.hasRightStickButton,
     c.hasLeftShoulderButton, c.hasLeftTrigger, c.hasRightShoulderButton, c.hasRightTrigger,
     c.hasBackButton, c.hasStartButton, c.hasBigButton]
  }

  /** The axis descriptors a controller with capabilities `c` advertises. */
  function SelectedAxes(c: Capabilities): seq<AxisImpDescription>
  {
    Select(AxisFlags(c), AxisTable)
  }

  /** The button descriptors a controller with capabilities `c` advertises. */
  function SelectedButtons(c: Capabilities): seq<ButtonImpDescription>
  {
    Select(ButtonFlags(c), ButtonTable)
  }

  /**
   * The advertised axes are the capability-selected entries of LeftX, LeftY,
   * RightX, RightY in that order, each listed once; all are polled, position
   * axes bounded by other axes: X axes by MinX/MaxX, Y axes by MinY/MaxY.
   */
  lemma SelectedAxesSpec(c: Capabilities)
    ensures |SelectedAxes(c)| == |Indices(AxisFlags(c))|
    ensures forall k :: 0 <= k < |SelectedAxes(c)| ==> SelectedAxes(c)[k] == AxisTable[Indices(AxisFlags(c))[k]]
    ensures Ascending(Indices(AxisFlags(c)))
    ensures forall i :: 0 <= i < |AxisTable| ==> (AxisTable[i] in SelectedAxes(c) <==> AxisFlags(c)[i])
    ensures Distinct(AxisIds(SelectedAxes(c)))
    ensures forall d :: d in SelectedAxes(c) ==>
              d.pollAxis && d.axisDesc.nature == Position && d.axisDesc.bounded == OtherAxis &&
              (d.axisDesc.direction == X ==>
                 d.axisDesc.minValueOrAxis == AxisRef(AxisMinX) && d.axisDesc.maxValueOrAxis == AxisRef(AxisMaxX)) &&
              (d.axisDesc.direction == Y ==>
                 d.axisDesc.minValueOrAxis == AxisRef(AxisMinY) && d.axisDesc.maxValueOrAxis == AxisRef(AxisMaxY))
  {
    var flags := AxisFlags(c);
    SelectByIndices(flags, AxisTable);
    IndicesSpec(flags);
    forall i | 0 <= i < |AxisTable| ensures AxisTable[i] in SelectedAxes(c) <==> flags[i] {
      SelectMembership(flags, AxisTable, AxisTable[i]);
    }
    forall d | d in SelectedAxes(c) ensures d in AxisTable {
      SelectMembership(flags, AxisTable, d);
    }
    SelectKeepsKeysDistinct(flags, AxisTable, (d: AxisImpDescription) => d.axisDesc.id);
  }

  /** The seventeen table buttons carry pairwise distinct ids, all polled. */
  lemma ButtonTableWellFormed()
    ensures forall i, j :: 0 <= i < j < |ButtonTable| ==> ButtonTable[i].buttonDesc.id != ButtonTable[j].buttonDesc.id
    ensures forall b :: b in ButtonTable ==> b.pollButton
  {
    var ids := [ButtonDPadUp, ButtonDPadDown, ButtonDPadLeft, ButtonDPadRight, ButtonA, ButtonB, ButtonX, ButtonY,
                ButtonLStick, ButtonRStick, ButtonLShoulder, ButtonLTrigger, ButtonRShoulder, ButtonRTrigger,
                ButtonBack, ButtonStart, ButtonHome];
    assert ButtonIds(ButtonTable) == ids;
    assert Distinct(ids);
  }

  /**
   * The advertised buttons are the capability-selected entries of the
   * seventeen buttons DPadUp ... Home in table order, each listed once, and
   * all of them are polled.
   */
  lemma SelectedButtonsSpec(c: Capabilities)
    ensures |SelectedButtons(c)| == |Indices(ButtonFlags(c))|
    ensures forall k :: 0 <= k < |SelectedButtons(c)| ==> SelectedButtons(c)[k] == ButtonTable[Indices(ButtonFlags(c))[k]]
    ensures Ascending(Indices(ButtonFlags(c)))
    ensures forall i :: 0 <= i < |ButtonTable| ==> (ButtonTable[i] in SelectedButtons(c) <==> ButtonFlags(c)[i])
    ensures Distinct(ButtonIds(SelectedButtons(c)))
    ensures forall b :: b in SelectedButtons(c) ==> b.pollButton
  {
    var flags := ButtonFlags(c);
    SelectByIndices(flags, ButtonTable);
    IndicesSpec(flags);
    ButtonTableWellFormed();
    forall i | 0 <= i < |ButtonTable| ensures ButtonTable[i] in SelectedButtons(c) <==> flags[i] {
      SelectKeepsExactlyFlagged(flags, ButtonTable, (b: ButtonImpDescription) => b.buttonDesc.id, i);
    }
    forall b | b in SelectedButtons(c) ensures b.pollButton {
      SelectMembership(flags, ButtonTable, b);
    }
    SelectKeepsKeysDistinct(flags, ButtonTable, (b: ButtonImpDescription) => b.buttonDesc.id);
  }

  /** The state a poll leaves cached: a disconnected report never replaces it. */
  function NextState(current: PadState, polled: PadState): (s: PadState)
    ensures s == (if polled.isConnected then polled else current)
  {
    if !polled.isConnected then current
    else if current != polled then polled
    else current
  }

  /** Reads one stick axis of the cached state; only the four stick axes are answered. */
  function AxisValue(s: PadState, axisId: int): (r: Result<real>)
    ensures r.Success? <==> axisId in AxisIds(AxisTable)
    ensures r.Failure? ==> r.error == UnsupportedAxis(axisId)
  {
    assert AxisIds(AxisTable) == [AxisLeftX, AxisLeftY, AxisRightX, AxisRightY];
    if axisId == AxisLeftX then Success(s.thumbSticks.left.x)
    else if axisId == AxisLeftY then Success(s.thumbSticks.left.y)
    else if axisId == AxisRightX then Success(s.thumbSticks.right.x)
    else if axisId == AxisRightY then Success(s.thumbSticks.right.y)
    else Failure(UnsupportedAxis(axisId))
  }

  /**
   * Reads one button of the cached state; only the seventeen table buttons
   * are answered. Both trigger buttons read the left trigger.
   */
  function ButtonValue(s: PadState, buttonId: int): (r: Result<bool>)
    ensures r.Success? <==> buttonId in ButtonIds(ButtonTable)
    ensures r.Failure? ==> r.error == UnsupportedButton(buttonId)
  {
    assert ButtonIds(ButtonTable) == [
      ButtonDPadUp, ButtonDPadDown, ButtonDPadLeft, ButtonDPadRight, ButtonA, ButtonB, ButtonX, ButtonY,
      ButtonLStick, ButtonRStick, ButtonLShoulder, ButtonLTrigger, ButtonRShoulder, ButtonRTrigger,
      ButtonBack, ButtonStart, ButtonHome];
    if buttonId == ButtonA then Success(s.buttons.a)
    else if buttonId == ButtonB then Success(s.buttons.b)
    else if buttonId == ButtonX then Success(s.buttons.x)
    else if buttonId == ButtonY then Success(s.buttons.y)
    else if buttonId == ButtonDPadUp then Success(s.dPad.up)
    else if buttonId == ButtonDPadDown then Success(s.dPad.down)
    else if buttonId == ButtonDPadLeft then Success(s.dPad.left)
    else if buttonId == ButtonDPadRight then Success(s.dPad.right)
    else if buttonId == ButtonLStick then Success(s.buttons.leftStick)
    else if buttonId == ButtonRStick then Success(s.buttons.rightStick)
    else if buttonId == ButtonRShoulder then Success(s.buttons.rightShoulder)
    else if buttonId == ButtonRTrigger then Success(s.triggers.left >= 0.5)
    else if buttonId == ButtonLShoulder then Success(s.buttons.leftShoulder)
    else if buttonId == ButtonLTrigger then Success(s.triggers.left >= 0.5)
    else if buttonId == ButtonStart then Success(s.buttons.start)
    else if buttonId == ButtonBack then Success(s.buttons.back)
    else if buttonId == ButtonHome then Success(s.buttons.bigButton)
    else Failure(UnsupportedButton(buttonId))
  }

  /**
   * The right trigger button reads the left trigger: it always agrees with
   * the left trigger button, and changing only the right trigger never
   * changes it.
   */
  lemma RightTriggerReadsLeftTrigger(s: PadState, rightTrigger: real)
    ensures ButtonValue(s, ButtonRTrigger) == ButtonValue(s, ButtonLTrigger)
    ensures ButtonValue(s.(triggers := s.triggers.(right := rightTrigger)), ButtonRTrigger) == ButtonValue(s, ButtonRTrigger)
  {
  }

  /** The getters answer by table, not by capability: an advertised id is always answered. */
  lemma AdvertisedIdsAreAnswered(c: Capabilities, s: PadState)
    ensures forall d :: d in SelectedAxes(c) ==> AxisValue(s, d.axisDesc.id).Success?
    ensures forall b :: b in SelectedButtons(c) ==> ButtonValue(s, b.buttonDesc.id).Success?
  {
    forall d | d in SelectedAxes(c) ensures d.axisDesc.id in AxisIds(AxisTable) {
      SelectMembership(AxisFlags(c), AxisTable, d);
      var i :| 0 <= i < |AxisTable| && AxisTable[i] == d;
      assert AxisIds(AxisTable)[i] == d.axisDesc.id;
    }
    forall b | b in SelectedButtons(c) ensures b.buttonDesc.id in ButtonIds(ButtonTable) {
      SelectMembership(ButtonFlags(c), ButtonTable, b);
      var i :| 0 <= i < |ButtonTable| && ButtonTable[i] == b;
      assert ButtonIds(ButtonTable)[i] == b.buttonDesc.id;
    }
  }

  class GameControllerDeviceImp {
    const gamepadIndex: int
    var state: PadState
    var axisCount: int
    var axisImpDescriptions: seq<AxisImpDescription>
    var buttonCount: int
    var buttonImpDescriptions: seq<ButtonImpDescription>

    /** Each counter equals the length of its descriptor list. */
    ghost predicate Valid()
      reads this
    {
      axisCount == |axisImpDescriptions| && buttonCount == |buttonImpDescriptions|
    }

    /** The constructor past its connection check (see TryCreate). */
    constructor (index: int, caps: Capabilities, initialState: PadState)
      requires caps.isConnected
      ensures Valid()
      ensures gamepadIndex == index && state == initialState
      ensures axisImpDescriptions == SelectedAxes(caps)
      ensures buttonImpDescriptions == SelectedButtons(caps)
    {
      gamepadIndex := index;
      state := initialState;
      axisCount := 0;
      axisImpDescriptions := [];
      buttonCount := 0;
      buttonImpDescriptions := [];
      new;
      SetAxisImpDescriptions(caps);
      SetButtonImpDescriptions(caps);
    }

    /**
     * Builds a controller for slot `index`, refusing when the capability
     * report says the controller is not connected.
     */
    static method TryCreate(index: int, caps: Capabilities, initialState: PadState)
      returns (r: Result<GameControllerDeviceImp>)
      ensures r.Failure? <==> !caps.isConnected
      ensures r.Failure? ==> r.error == NotConnected(index)
      ensures r.Success? ==> fresh(r.value) && r.value.Valid() && r.value.gamepadIndex == index
      ensures r.Success? ==> r.value.state == initialState
      ensures r.Success? ==> r.value.axisImpDescriptions == SelectedAxes(caps)
      ensures r.Success? ==> r.value.buttonImpDescriptions == SelectedButtons(caps)
    {
      if !caps.isConnected {
        return Failure(NotConnected(index));
      }
      var controller := new GameControllerDeviceImp(index, caps, initialState);
      r := Success(controller);
    }

    /**
     * Appends the descriptor of every stick axis the capabilities report, in
     * table order, counting each. Called on the fresh, empty list.
     */
    method SetAxisImpDescriptions(c: Capabilities)
      requires axisImpDescriptions == [] && axisCount == 0
      modifies this`axisCount, this`axisImpDescriptions
      ensures axisImpDescriptions == SelectedAxes(c)
      ensures axisCount == |SelectedAxes(c)|
    {
      if c.hasLeftXThumbStick {
        axisCount := axisCount + 1;
        axisImpDescriptions := axisImpDescriptions +
          [CreateAxisImpDescription("LeftX", AxisLeftX, X, Position, OtherAxis, AxisMinX, AxisMaxX, true)];
      }
      assert axisImpDescriptions == SelectFirst(AxisFlags(c), AxisTable, 1);
      if c.hasLeftYThumbStick {
        axisCount := axisCount + 1;
        axisImpDescriptions := axisImpDescriptions +
          [CreateAxisImpDescription("LeftY", AxisLeftY, Y, Position, OtherAxis, AxisMinY, AxisMaxY, true)];
      }
      assert axisImpDescriptions == SelectFirst(AxisFlags(c), AxisTable, 2);
      if c.hasRightXThumbStick {
        axisCount := axisCount + 1;
        axisImpDescriptions := axisImpDescriptions +
          [CreateAxisImpDescription("RightX", AxisRightX, X, Position, OtherAxis, AxisMinX, AxisMaxX, true)];
      }
      assert axisImpDescriptions == SelectFirst(AxisFlags(c), AxisTable, 3);
      if c.hasRightYThumbStick {
        axisCount := axisCount + 1;
        axisImpDescriptions := axisImpDescriptions +
          [CreateAxisImpDescription("RightY", AxisRightY, Y, Position, OtherAxis, AxisMinY, AxisMaxY, true)];
      }
    }

    /**
     * Appends the descriptor of every button the capabilities report, in
     * table order, counting each. Called on the fresh, empty list. The
     * seventeen guarded appends run in five consecutive groups.
     */
    method SetButtonImpDescriptions(c: Capabilities)
      requires buttonImpDescriptions == [] && buttonCount == 0
      modifies this`buttonCount, this`buttonImpDescriptions
      ensures buttonImpDescriptions == SelectedButtons(c)
      ensures buttonCount == |SelectedButtons(c)|
    {
      SetDPadButtons(c);
      SetFaceButtons(c);
      SetStickButtons(c);
      SetShoulderButtons(c);
      SetSystemButtons(c);
    }

    /** Appends the four directional-pad buttons the capabilities report. */
    method SetDPadButtons(c: Capabilities)
      requires buttonImpDescriptions == SelectFirst(ButtonFlags(c), ButtonTable, 0)
      requires buttonCount == |buttonImpDescriptions|
      modifies this`buttonCount, this`buttonImpDescriptions
      ensures buttonImpDescriptions == SelectFirst(ButtonFlags(c), ButtonTable, 4)
      ensures buttonCount == |buttonImpDescriptions|
    {
      if c.hasDPadUpButton { CreateButtonImpDescription("DPadUp", ButtonDPadUp, true); }
      assert buttonImpDescriptions == SelectFirst(ButtonFlags(c), ButtonTable, 1);
      if c.hasDPadDownButton { CreateButtonImpDescription("DPadDown", ButtonDPadDown, true); }
      assert buttonImpDescriptions == SelectFirst(ButtonFlags(c), ButtonTable, 2);
      if c.hasDPadLeftButton { CreateButtonImpDescription("DPadLeft", ButtonDPadLeft, true); }
      assert buttonImpDescriptions == SelectFirst(ButtonFlags(c), ButtonTable, 3);
      if c.hasDPadRightButton { CreateButtonImpDescription("DPadRight", ButtonDPadRight, true); }
    }

    /** Appends the A, B, X and Y buttons the capabilities report. */
    method SetFaceButtons(c: Capabilities)
      requires buttonImpDescriptions == SelectFirst(ButtonFlags(c), ButtonTable, 4)
      requires buttonCount == |buttonImpDescriptions|
      modifies this`buttonCount, this`buttonImpDescriptions
      ensures buttonImpDescriptions == SelectFirst(ButtonFlags(c), ButtonTable, 8)
      ensures buttonCount == |buttonImpDescriptions|
    {
      if c.hasAButton { CreateButtonImpDescription("A", ButtonA, true); }
      assert buttonImpDescriptions == SelectFirst(ButtonFlags(c), ButtonTable, 5);
      if c.hasBButton { CreateButtonImpDescription("B", ButtonB, true); }
      assert buttonImpDescriptions == SelectFirst(ButtonFlags(c), ButtonTable, 6);
      if c.hasXButton { CreateButtonImpDescription("X", ButtonX, true); }
      assert buttonImpDescriptions == SelectFirst(ButtonFlags(c), ButtonTable, 7);
      if c.hasYButton { CreateButtonImpDescription("Y", ButtonY, true); }
    }

    /** Appends the two stick buttons the capabilities report. */
    method SetStickButtons(c: Capabilities)
      requires buttonImpDescriptions == SelectFirst(ButtonFlags(c), ButtonTable, 8)
      requires buttonCount == |buttonImpDescriptions|
      modifies this`buttonCount, this`buttonImpDescriptions
      ensures buttonImpDescriptions == SelectFirst(ButtonFlags(c), ButtonTable, 10)
      ensures buttonCount == |buttonImpDescriptions|
    {
      if c.hasLeftStickButton { CreateButtonImpDescription("LStickButton", ButtonLStick, true); }
      assert buttonImpDescriptions == SelectFirst(ButtonFlags(c), ButtonTable, 9);
      if c.hasRightStickButton { CreateButtonImpDescription("RStickButton", ButtonRStick, true); }
    }

    /** Appends the shoulder buttons and triggers the capabilities report. */
    method SetShoulderButtons(c: Capabilities)
      requires buttonImpDescriptions == SelectFirst(ButtonFlags(c), ButtonTable, 10)
      requires buttonCount == |buttonImpDescriptions|
      modifies this`buttonCount, this`buttonImpDescriptions
      ensures buttonImpDescriptions == SelectFirst(ButtonFlags(c), ButtonTable, 14)
      ensures buttonCount == |buttonImpDescriptions|
    {
      if c.hasLeftShoulderButton { CreateButtonImpDescription("LShoulderButton", ButtonLShoulder, true); }
      assert buttonImpDescriptions == SelectFirst(ButtonFlags(c), ButtonTable, 11);
      if c.hasLeftTrigger { CreateButtonImpDescription("LTrigger", ButtonLTrigger, true); }
      assert buttonImpDescriptions == SelectFirst(ButtonFlags(c), ButtonTable, 12);
      if c.hasRightShoulderButton { CreateButtonImpDescription("RShoulderButton", ButtonRShoulder, true); }
      assert buttonImpDescriptions == SelectFirst(ButtonFlags(c), ButtonTable, 13);
      if c.hasRightTrigger { CreateButtonImpDescription("RTrigger", ButtonRTrigger, true); }
    }

    /** Appends the Back, Start and Home buttons the capabilities report. */
    method SetSystemButtons(c: Capabilities)
      requires buttonImpDescriptions == SelectFirst(ButtonFlags(c), ButtonTable, 14)
      requires buttonCount == |buttonImpDescriptions|
      modifies this`buttonCount, this`buttonImpDescriptions
      ensures buttonImpDescriptions == SelectFirst(ButtonFlags(c), ButtonTable, 17)
      ensures buttonCount == |buttonImpDescriptions|
    {
      if c.hasBackButton { CreateButtonImpDescription("Back", ButtonBack, true); }
      assert buttonImpDescriptions == SelectFirst(ButtonFlags(c), ButtonTable, 15);
      if c.hasStartButton { CreateButtonImpDescription("Start", ButtonStart, true); }
      assert buttonImpDescriptions == SelectFirst(ButtonFlags(c), ButtonTable, 16);
      if c.hasBigButton { CreateButtonImpDescription("Home", ButtonHome, true); }
    }

    /** Appends one polled-or-pushed button descriptor and counts it. */
    method CreateButtonImpDescription(name: string, id: int, poll: bool)
      modifies this`buttonCount, this`buttonImpDescriptions
      ensures buttonImpDescriptions == old(buttonImpDescriptions) + [ButtonImpDescription(ButtonDescription(name, id), poll)]
      ensures buttonCount == old(buttonCount) + 1
    {
      buttonCount := buttonCount + 1;
      buttonImpDescriptions := buttonImpDescriptions + [ButtonImpDescription(ButtonDescription(name, id), poll)];
    }

    /** The axis counter, which a valid controller keeps equal to its list's length. */
    function AxesCount(): (n: int)
      reads this
      ensures Valid() ==> n == |axisImpDescriptions|
    {
      axisCount
    }

    /** The button counter, which a valid controller keeps equal to its list's length. */
    function ButtonCount(): (n: int)
      reads this
      ensures Valid() ==> n == |buttonImpDescriptions|
    {
      buttonCount
    }

    /** The controller as a device: its two lists, whose lengths are the counters. */
    function Info(): (d: DeviceImpInfo)
      reads this
      ensures d.category == GameController
      ensures d.axisImpDesc == axisImpDescriptions && d.buttonImpDesc == buttonImpDescriptions
      ensures Valid() ==> |d.axisImpDesc| == AxesCount() && |d.buttonImpDesc| == ButtonCount()
    {
      DeviceImpInfo(GameController, axisImpDescriptions, buttonImpDescriptions)
    }

    /** Refreshes the cached state from a new report, ignoring disconnected reports. */
    method UpdateState(polled: PadState)
      modifies this`state
      ensures state == (if polled.isConnected then polled else old(state))
    {
      if !polled.isConnected {
      } else if state != polled {
        state := polled;
      }
    }

    /** Refreshes the state, then reads a stick axis; unknown axis ids fail. */
    method GetAxis(axisId: int, polled: PadState) returns (r: Result<real>)
      modifies this`state
      ensures state == NextState(old(state), polled)
      ensures r == AxisValue(state, axisId)
    {
      UpdateState(polled);
      r := AxisValue(state, axisId);
    }

    /** Refreshes the state, then reads a button; unknown button ids fail. */
    method GetButton(buttonId: int, polled: PadState) returns (r: Result<bool>)
      modifies this`state
      ensures state == NextState(old(state), polled)
      ensures r == ButtonValue(state, buttonId)
    {
      UpdateState(polled);
      r := ButtonValue(state, buttonId);
    }

    /**
     * Looks a native button id up in the advertised list: true and the first
     * descriptor with that id, or false and a default descriptor.
     */
    method ButtonExistsOnDevice(buttonId: int) returns (found: bool, btnDesc: ButtonDescription)
      ensures found <==> exists i :: 0 <= i < |buttonImpDescriptions| && buttonImpDescriptions[i].buttonDesc.id == buttonId
      ensures found ==> exists i :: 0 <= i < |buttonImpDescriptions| && buttonImpDescriptions[i].buttonDesc == btnDesc &&
                          btnDesc.id == buttonId &&
                          forall j :: 0 <= j < i ==> buttonImpDescriptions[j].buttonDesc.id != buttonId
      ensures !found ==> btnDesc == DefaultButtonDescription
    {
      var i := 0;
      while i < |buttonImpDescriptions|
        invariant 0 <= i <= |buttonImpDescriptions|
        invariant forall j :: 0 <= j < i ==> buttonImpDescriptions[j].buttonDesc.id != buttonId
      {
        if buttonImpDescriptions[i].buttonDesc.id == buttonId {
          return true, buttonImpDescriptions[i].buttonDesc;
        }
        i := i + 1;
      }
      return false, DefaultButtonDescription;
    }

    /**
     * Re-raises a button event for a button this controller advertises,
     * naming the first advertised descriptor with that id, always as a release; raises nothing without a listener or for an
     * unknown button.
     */
    method OnButtonValueChanged(hasListener: bool, args: ButtonValueChangedArgs) returns (event: Option<ButtonValueChangedArgs>)
      ensures event.Some? <==> hasListener && args.button.id in ButtonIds(buttonImpDescriptions)
      ensures event.Some? ==> !event.value.pressed && event.value.button.id == args.button.id &&
                              event.value.button in Buttons()
      ensures event.Some? ==> exists i :: 0 <= i < |buttonImpDescriptions| &&
                                buttonImpDescriptions[i].buttonDesc == event.value.button &&
                                forall j :: 0 <= j < i ==> buttonImpDescriptions[j].buttonDesc.id != args.button.id
    {
      event := None;
      if hasListener {
        var found, btnDesc := ButtonExistsOnDevice(args.button.id);
        if found {
          event := Some(ButtonValueChangedArgs(false, btnDesc));
          ghost var i :| 0 <= i < |buttonImpDescriptions| && buttonImpDescriptions[i].buttonDesc == btnDesc;
          assert Buttons()[i] == btnDesc;
        }
        ghost var ids := ButtonIds(buttonImpDescriptions);
        if args.button.id in ids {
          ghost var k :| 0 <= k < |ids| && ids[k] == args.button.id;
          assert buttonImpDescriptions[k].buttonDesc.id == args.button.id;
        }
      }
    }

    /** The advertised button descriptors. */
    function Buttons(): seq<ButtonDescription>
      reads this
    {
      var descs := buttonImpDescriptions;
      seq(|descs|, i requires 0 <= i < |descs| => descs[i].buttonDesc)
    }
  }

  /** The connected slots among 0 .. MaxNumberGameControllers - 1, ascending. */
  function ConnectedSlots(capabilities: int -> Capabilities): seq<nat>
  {
    Indices(SlotFlags(capabilities))
  }

  function SlotFlags(capabilities: int -> Capabilities): (flags: seq<bool>)
    ensures |flags| == MaxNumberGameControllers
    ensures forall i :: 0 <= i < MaxNumberGameControllers ==> flags[i] == capabilities(i).isConnected
  {
    seq(MaxNumberGameControllers, i => capabilities(i).isConnected)
  }

  /** The slots kept are exactly the connected ones below the slot limit, ascending. */
  lemma ConnectedSlotsSpec(capabilities: int -> Capabilities)
    ensures Ascending(ConnectedSlots(capabilities))
    ensures forall i :: i in ConnectedSlots(capabilities) <==>
              0 <= i < MaxNumberGameControllers && capabilities(i).isConnected
  {
    IndicesSpec(SlotFlags(capabilities));
  }

  /**
   * The driver's slot search: one controller per connected slot, in slot
   * order, each built from its slot's capability and state reports.
   */
  method SearchGameControllers(capabilities: int -> Capabilities, states: int -> PadState)
    returns (controllers: seq<GameControllerDeviceImp>)
    ensures |controllers| == |ConnectedSlots(capabilities)|
    ensures forall k :: 0 <= k < |controllers| ==>
              var slot := ConnectedSlots(capabilities)[k];
              fresh(controllers[k]) && controllers[k].Valid() && controllers[k].gamepadIndex == slot &&
              controllers[k].state == states(slot) &&
              controllers[k].axisImpDescriptions == SelectedAxes(capabilities(slot)) &&
              controllers[k].buttonImpDescriptions == SelectedButtons(capabilities(slot))
  {
    ghost var flags := SlotFlags(capabilities);
    controllers := [];
    var i := 0;
    while i < MaxNumberGameControllers
      invariant 0 <= i <= MaxNumberGameControllers
      invariant |controllers| == |IndicesFirst(flags, i)|
      invariant forall k :: 0 <= k < |controllers| ==>
                  var slot := IndicesFirst(flags, i)[k];
                  fresh(controllers[k]) && controllers[k].Valid() && controllers[k].gamepadIndex == slot &&
                  controllers[k].state == states(slot) &&
                  controllers[k].axisImpDescriptions == SelectedAxes(capabilities(slot)) &&
                  controllers[k].buttonImpDescriptions == SelectedButtons(capabilities(slot))
    {
      var caps := capabilities(i);
      if caps.isConnected {
        var controller := new GameControllerDeviceImp(i, caps, states(i));
        controllers := controllers + [controller];
      }
      i := i + 1;
    }
  }
}
