/*
 * MouseDeviceImp: a mouse with seven polled axes (position, wheel and the
 * four window bounds) and three push-driven buttons. Its descriptor lists
 * are fixed; the window's cursor position, wheel and size, which the source
 * reads from the game window, are a snapshot given as a parameter.
 */
module Mouse {
  import opened Descriptors

  // Native axis ids: the MouseAxes enumeration.
  const AxisUnknown := 0
  const AxisX := 1
  const AxisY := 2
  const AxisWheel := 3
  const AxisMinX := 4
  const AxisMaxX := 5
  const AxisMinY := 6
  const AxisMaxY := 7

  // Native button ids: the MouseButtons enumeration.
  const ButtonLeft := 1
  const ButtonRight := 2
  const ButtonMiddle := 4

  const AxesCount := 7
  const ButtonCount := 3

  /** What the game window reports when an axis is polled. */
  datatype WindowSnapshot = WindowSnapshot(mouseX: int, mouseY: int, wheelPrecise: real, width: int, height: int)

  /** The button pressed in a window mouse event (OpenTK's MouseButton). */
  datatype NativeMouseButton = Left | Middle | Right | OtherButton(code: int)

  /** A polled, position-natured axis descriptor. */
  function PolledAxis(name: string, id: int, direction: AxisDirection, bounded: AxisBoundedType,
                      min: Bound, max: Bound): AxisImpDescription
  {
    AxisImpDescription(AxisDescription(name, id, direction, Position, bounded, min, max), true)
  }

  /** The seven axes, in the order the device enumerates them. */
  function AxisImpDesc(): seq<AxisImpDescription>
  {
    [ PolledAxis("X", AxisX, X, OtherAxis, AxisRef(AxisMinX), AxisRef(AxisMaxX)),
      PolledAxis("Y", AxisY, Y, OtherAxis, AxisRef(AxisMinY), AxisRef(AxisMaxY)),
      PolledAxis("Wheel", AxisWheel, Z, Unbound, NaN, NaN),
      PolledAxis("MinX", AxisMinX, X, Unbound, NaN, NaN),
      PolledAxis("MaxX", AxisMaxX, X, Unbound, NaN, NaN),
      PolledAxis("MinY", AxisMinY, Y, Unbound, NaN, NaN),
      PolledAxis("MaxY", AxisMaxY, Y, Unbound, NaN, NaN) ]
  }

  function LeftDesc(): ButtonImpDescription { ButtonImpDescription(ButtonDescription("Left", ButtonLeft), false) }
  function MiddleDesc(): ButtonImpDescription { ButtonImpDescription(ButtonDescription("Middle", ButtonMiddle), false) }
  function RightDesc(): ButtonImpDescription { ButtonImpDescription(ButtonDescription("Right", ButtonRight), false) }

  /** The three buttons, in the order the device enumerates them. */
  function ButtonImpDesc(): seq<ButtonImpDescription>
  {
    [LeftDesc(), MiddleDesc(), RightDesc()]
  }

  function Info(): DeviceImpInfo
  {
    DeviceImpInfo(Mouse, AxisImpDesc(), ButtonImpDesc())
  }

  /**
   * The advertised axis list: seven polled axes in the order X, Y, Wheel,
   * MinX, MaxX, MinY, MaxY; only X and Y are bounded by other axes, X by
   * MinX/MaxX and Y by MinY/MaxY; the counter agrees with the list.
   */
  lemma AxisDescriptors()
    ensures |AxisImpDesc()| == AxesCount
    ensures AxisIds(AxisImpDesc()) == [AxisX, AxisY, AxisWheel, AxisMinX, AxisMaxX, AxisMinY, AxisMaxY]
    ensures forall d :: d in AxisImpDesc() ==> d.pollAxis && d.axisDesc.nature == Position
    ensures forall d :: d in AxisImpDesc() ==>
              (d.axisDesc.bounded == OtherAxis <==> d.axisDesc.id in {AxisX, AxisY})
    ensures AxisImpDesc()[0].axisDesc.minValueOrAxis == AxisRef(AxisMinX)
    ensures AxisImpDesc()[0].axisDesc.maxValueOrAxis == AxisRef(AxisMaxX)
    ensures AxisImpDesc()[1].axisDesc.minValueOrAxis == AxisRef(AxisMinY)
    ensures AxisImpDesc()[1].axisDesc.maxValueOrAxis == AxisRef(AxisMaxY)
    ensures Distinct(AxisIds(AxisImpDesc()))
  {
  }

  /**
   * The advertised button list: Left, Middle, Right, none of them polled
   * (they change only through push events); the counter agrees.
   */
  lemma ButtonDescriptors()
    ensures |ButtonImpDesc()| == ButtonCount
    ensures ButtonIds(ButtonImpDesc()) == [ButtonLeft, ButtonMiddle, ButtonRight]
    ensures forall b :: b in ButtonImpDesc() ==> !b.pollButton
    ensures Distinct(ButtonIds(ButtonImpDesc()))
  {
  }

  /**
   * Polls one axis: position and wheel come from the window, the lower
   * bounds are 0 and the upper bounds the window size. Any other id, the
   * Unknown axis 0 among them, is refused.
   */
  function GetAxis(w: WindowSnapshot, axisId: int): (r: Result<real>)
    ensures r.Success? <==> AxisX <= axisId <= AxisMaxY
    ensures r.Failure? ==> r.error == UnsupportedAxis(axisId)
  {
    if axisId == AxisX then Success(w.mouseX as real)
    else if axisId == AxisY then Success(w.mouseY as real)
    else if axisId == AxisWheel then Success(w.wheelPrecise)
    else if axisId == AxisMinX then Success(0.0)
    else if axisId == AxisMaxX then Success(w.width as real)
    else if axisId == AxisMinY then Success(0.0)
    else if axisId == AxisMaxY then Success(w.height as real)
    else Failure(UnsupportedAxis(axisId))
  }

  /**
   * The getter answers exactly the advertised axes, and the bounding axes
   * named by X and Y read as the window's extent: [0, width] for X and
   * [0, height] for Y.
   */
  lemma GetAxisAnswersAdvertisedAxes(w: WindowSnapshot, axisId: int)
    ensures GetAxis(w, axisId).Success? <==> axisId in AxisIds(AxisImpDesc())
    ensures GetAxis(w, AxisImpDesc()[0].axisDesc.minValueOrAxis.axisId) == Success(0.0)
    ensures GetAxis(w, AxisImpDesc()[0].axisDesc.maxValueOrAxis.axisId) == Success(w.width as real)
    ensures GetAxis(w, AxisImpDesc()[1].axisDesc.minValueOrAxis.axisId) == Success(0.0)
    ensures GetAxis(w, AxisImpDesc()[1].axisDesc.maxValueOrAxis.axisId) == Success(w.height as real)
  {
    AxisDescriptors();
  }

  /** Mouse buttons are push-driven only: polling any of them is refused. */
  function GetButton(buttonId: int): (r: Result<bool>)
    ensures r == Failure(UnsupportedButton(buttonId))
  {
    Failure(UnsupportedButton(buttonId))
  }

  /**
   * The event raised for a window mouse button event: Left, Middle and Right
   * map to their descriptors, any other button raises nothing, and nothing is
   * raised while no listener is attached.
   */
  function ButtonEvent(hasListener: bool, button: NativeMouseButton, pressed: bool): (r: Option<ButtonValueChangedArgs>)
    ensures r.Some? <==> hasListener && !button.OtherButton?
    ensures r.Some? ==> r.value.pressed == pressed
    ensures r.Some? ==> exists b :: b in ButtonImpDesc() && b.buttonDesc == r.value.button
    ensures r.Some? && button.Left? ==> r.value.button == LeftDesc().buttonDesc && r.value.button.id == ButtonLeft
    ensures r.Some? && button.Middle? ==> r.value.button == MiddleDesc().buttonDesc && r.value.button.id == ButtonMiddle
    ensures r.Some? && button.Right? ==> r.value.button == RightDesc().buttonDesc && r.value.button.id == ButtonRight
  {
    if !hasListener then None
    else
      match button
      case Left => Some(ButtonValueChangedArgs(pressed, LeftDesc().buttonDesc))
      case Middle => Some(ButtonValueChangedArgs(pressed, MiddleDesc().buttonDesc))
      case Right => Some(ButtonValueChangedArgs(pressed, RightDesc().buttonDesc))
      case OtherButton(_) => None
  }

  /** Window "button down": a pressed event. */
  function OnMouseDown(hasListener: bool, button: NativeMouseButton): Option<ButtonValueChangedArgs>
  {
    ButtonEvent(hasListener, button, true)
  }

  /** Window "button up": a released event. */
  function OnMouseUp(hasListener: bool, button: NativeMouseButton): Option<ButtonValueChangedArgs>
  {
    ButtonEvent(hasListener, button, false)
  }

  /**
   * Down and up events name the same descriptor for the same native button
   * and differ only in the pressed flag; each advertised button is the
   * target of exactly one native button.
   */
  lemma DownUpEventsPair(hasListener: bool, button: NativeMouseButton)
    ensures OnMouseDown(hasListener, button).Some? == OnMouseUp(hasListener, button).Some?
    ensures OnMouseDown(hasListener, button).Some? ==>
              OnMouseDown(hasListener, button).value.pressed && !OnMouseUp(hasListener, button).value.pressed &&
              OnMouseDown(hasListener, button).value.button == OnMouseUp(hasListener, button).value.button
    ensures OnMouseDown(true, Left).value.button.id == ButtonLeft
    ensures OnMouseDown(true, Middle).value.button.id == ButtonMiddle
    ensures OnMouseDown(true, Right).value.button.id == ButtonRight
  {
  }
}
