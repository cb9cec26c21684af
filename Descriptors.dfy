/*
 * Value records shared by every input device implementation: the axis and
 * button descriptors a device advertises, the "is this polled or pushed" flag
 * that wraps them, the argument of a button push event, and the uniform
 * surface (category plus the two ordered descriptor lists) that a logical
 * device reads from a device implementation.
 */
module Descriptors {

  /** The failures the input layer raises instead of returning a value. */
  datatype Error =
    | UnsupportedAxis(axisId: int)        // a getter asked for an axis the device does not answer
    | UnsupportedButton(buttonId: int)    // a getter asked for a button the device does not answer
    | NotConnected(index: int)            // a controller was constructed for an unplugged slot
    | DuplicateKey(key: int)              // a native id was added twice to an id map

  datatype Result<T> = Success(value: T) | Failure(error: Error)

  datatype Option<T> = None | Some(value: T)

  datatype AxisDirection = X | Y | Z | Other

  datatype AxisNature = Position | Speed | Unspecified

  datatype AxisBoundedType = Unbound | Bounded | OtherAxis

  /**
   * The value stored in MinValueOrAxis / MaxValueOrAxis. For an axis bounded
   * by other axes it holds the id of the bounding axis; the unbounded mouse
   * axes store a NaN there.
   */
  datatype Bound = AxisRef(axisId: int) | NaN

  datatype AxisDescription = AxisDescription(
    name: string,
    id: int,
    direction: AxisDirection,
    nature: AxisNature,
    bounded: AxisBoundedType,
    minValueOrAxis: Bound,
    maxValueOrAxis: Bound)

  datatype ButtonDescription = ButtonDescription(name: string, id: int)

  /**
   * What `new ButtonDescription()` yields: id 0 and no name. The missing
   * (null) name is modelled as the empty string.
   */
  const DefaultButtonDescription := ButtonDescription("", 0)

  /** An axis descriptor plus "the consumer must poll this axis". */
  datatype AxisImpDescription = AxisImpDescription(axisDesc: AxisDescription, pollAxis: bool)

  /** A button descriptor plus "the consumer must poll this button". */
  datatype ButtonImpDescription = ButtonImpDescription(buttonDesc: ButtonDescription, pollButton: bool)

  /** Payload of a ButtonValueChanged push event. */
  datatype ButtonValueChangedArgs = ButtonValueChangedArgs(pressed: bool, button: ButtonDescription)

  datatype DeviceCategory = Keyboard | Mouse | GameController

  /** The part of a device implementation a logical device consumes. */
  datatype DeviceImpInfo = DeviceImpInfo(
    category: DeviceCategory,
    axisImpDesc: seq<AxisImpDescription>,
    buttonImpDesc: seq<ButtonImpDescription>)

  /** The native ids of an axis descriptor list, in list order. */
  function AxisIds(descs: seq<AxisImpDescription>): (ids: seq<int>)
    ensures |ids| == |descs|
    ensures forall i :: 0 <= i < |descs| ==> ids[i] == descs[i].axisDesc.id
  {
    seq(|descs|, i requires 0 <= i < |descs| => descs[i].axisDesc.id)
  }

  /** The native ids of a button descriptor list, in list order. */
  function ButtonIds(descs: seq<ButtonImpDescription>): (ids: seq<int>)
    ensures |ids| == |descs|
    ensures forall i :: 0 <= i < |descs| ==> ids[i] == descs[i].buttonDesc.id
  {
    seq(|descs|, i requires 0 <= i < |descs| => descs[i].buttonDesc.id)
  }

  /** No value occurs twice. */
  predicate Distinct(s: seq<int>)
  {
    forall i, j :: 0 <= i < j < |s| ==> s[i] != s[j]
  }
}
