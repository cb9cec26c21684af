/*
 * GamepadDevice: the logical gamepad built on top of a device
 * implementation. Construction walks the implementation's axis descriptors,
 * then its button descriptors, registers each with the logical device's id
 * allocator and records native id -> registered id in the Axes and Buttons
 * dictionaries. Dictionary.Add refuses a key that is already present, which
 * aborts the construction.
 *
 * The allocator belongs to the InputDevice base class, which is not part of
 * this model: it is assumed to hand out consecutive ids from a counter.
 */
module Gamepad {
  import opened Descriptors
  import GameController

  /** One call into the base class's allocator. */
  datatype RegisterCall = VelocityAxis(nativeId: int) | SingleButtonAxis(nativeId: int)

  /** The two dictionaries of a constructed gamepad. */
  datatype IdMaps = IdMaps(axes: map<int, int>, buttons: map<int, int>)

  /**
   * Adding ids[0], ..., ids[k - 1] in turn to an empty dictionary, the i-th
   * mapped to first + i: the dictionary, or the first key added twice.
   */
  function RegisterFirst(ids: seq<int>, first: int, k: nat): (r: Result<map<int, int>>)
    requires k <= |ids|
  {
    if k == 0 then Success(map[])
    else
      match RegisterFirst(ids, first, k - 1)
      case Failure(e) => Failure(e)
      case Success(m) =>
        if ids[k - 1] in m then Failure(DuplicateKey(ids[k - 1]))
        else Success(m[ids[k - 1] := first + k - 1])
  }

  /** Adding every id of `ids` in turn, the i-th mapped to first + i. */
  function Register(ids: seq<int>, first: int): Result<map<int, int>>
  {
    RegisterFirst(ids, first, |ids|)
  }

  /** No id occurs twice among the first k. */
  predicate DistinctFirst(ids: seq<int>, k: nat)
    requires k <= |ids|
  {
    forall i, j :: 0 <= i < j < k ==> ids[i] != ids[j]
  }

  /**
   * The first k additions succeed exactly when those k ids are distinct; the
   * dictionary then holds exactly those ids, one entry each, the i-th mapped
   * to first + i. A failure names the first id that repeats an earlier one.
   */
  lemma {:induction false} RegisterFirstSpec(ids: seq<int>, first: int, k: nat)
    requires k <= |ids|
    ensures RegisterFirst(ids, first, k).Success? <==> DistinctFirst(ids, k)
    ensures RegisterFirst(ids, first, k).Success? ==>
              var m := RegisterFirst(ids, first, k).value;
              |m| == k &&
              (forall x :: x in m <==> exists i :: 0 <= i < k && ids[i] == x) &&
              (forall i :: 0 <= i < k ==> m[ids[i]] == first + i)
    ensures RegisterFirst(ids, first, k).Failure? ==>
              exists i, j :: 0 <= i < j < k && ids[i] == ids[j] && DistinctFirst(ids, j) &&
                             RegisterFirst(ids, first, k).error == DuplicateKey(ids[j])
  {
    if k > 0 {
      RegisterFirstSpec(ids, first, k - 1);
      var prev := RegisterFirst(ids, first, k - 1);
      var x := ids[k - 1];
      if prev.Success? {
        var m := prev.value;
        if x in m {
          var i :| 0 <= i < k - 1 && ids[i] == x;
          assert ids[i] == ids[k - 1] && DistinctFirst(ids, k - 1);
        } else {
          forall i | 0 <= i < k - 1 ensures ids[i] != ids[k - 1] {
            assert ids[i] in m;
          }
          var m' := m[x := first + k - 1];
          forall i | 0 <= i < k ensures m'[ids[i]] == first + i {
            if i < k - 1 {
              assert ids[i] != x;
            }
          }
        }
      } else {
        var i, j :| 0 <= i < j < k - 1 && ids[i] == ids[j] && DistinctFirst(ids, j) &&
                    prev.error == DuplicateKey(ids[j]);
        assert !DistinctFirst(ids, k);
      }
    }
  }

  /**
   * Registering a whole list succeeds exactly when its ids are distinct. The
   * dictionary then has one entry per id, maps the i-th id to first + i, is
   * injective and takes its values in [first, first + |ids|).
   */
  lemma RegisterSpec(ids: seq<int>, first: int)
    ensures Register(ids, first).Success? <==> Distinct(ids)
    ensures Register(ids, first).Success? ==>
              var m := Register(ids, first).value;
              |m| == |ids| && (forall x :: x in m <==> x in ids) &&
              (forall i :: 0 <= i < |ids| ==> m[ids[i]] == first + i) &&
              (forall x, y :: x in m && y in m && x != y ==> m[x] != m[y]) &&
              (forall x :: x in m ==> first <= m[x] < first + |ids|)
    ensures Register(ids, first).Failure? ==>
              exists i, j :: 0 <= i < j < |ids| && ids[i] == ids[j] && DistinctFirst(ids, j) &&
                             Register(ids, first).error == DuplicateKey(ids[j])
  {
    RegisterFirstSpec(ids, first, |ids|);
    if Register(ids, first).Success? {
      var m := Register(ids, first).value;
      forall x | x in m ensures exists i :: 0 <= i < |ids| && ids[i] == x && m[x] == first + i {
        var i :| 0 <= i < |ids| && ids[i] == x;
      }
    }
  }

  /** Once an addition has failed, later ones keep the same failure. */
  lemma {:induction false} RegisterFailurePersists(ids: seq<int>, first: int, k: nat, n: nat)
    requires k <= n <= |ids|
    requires RegisterFirst(ids, first, k).Failure?
    ensures RegisterFirst(ids, first, n) == RegisterFirst(ids, first, k)
    decreases n - k
  {
    if k < n {
      RegisterFailurePersists(ids, first, k, n - 1);
    }
  }

  /**
   * What constructing a gamepad over `info` yields when the allocator starts
   * at firstId: the axis dictionary, filled first, then the button
   * dictionary, whose ids continue where the axes stopped.
   */
  function Registration(info: DeviceImpInfo, firstId: int): Result<IdMaps>
  {
    match Register(AxisIds(info.axisImpDesc), firstId)
    case Failure(e) => Failure(e)
    case Success(axes) =>
      match Register(ButtonIds(info.buttonImpDesc), firstId + |info.axisImpDesc|)
      case Failure(e) => Failure(e)
      case Success(buttons) => Success(IdMaps(axes, buttons))
  }

  /**
   * Construction succeeds exactly when the axis ids are distinct and the
   * button ids are distinct. The axis dictionary's keys are the axis ids,
   * the button dictionary's keys the button ids; every axis is registered
   * before every button, so no axis value equals a button value.
   */
  lemma RegistrationSpec(info: DeviceImpInfo, firstId: int)
    ensures Registration(info, firstId).Success? <==>
              Distinct(AxisIds(info.axisImpDesc)) && Distinct(ButtonIds(info.buttonImpDesc))
    ensures Registration(info, firstId).Success? ==>
              var maps := Registration(info, firstId).value;
              |maps.axes| == |info.axisImpDesc| && |maps.buttons| == |info.buttonImpDesc| &&
              (forall x :: x in maps.axes <==> x in AxisIds(info.axisImpDesc)) &&
              (forall x :: x in maps.buttons <==> x in ButtonIds(info.buttonImpDesc)) &&
              (forall i :: 0 <= i < |info.axisImpDesc| ==>
                 maps.axes[info.axisImpDesc[i].axisDesc.id] == firstId + i) &&
              (forall i :: 0 <= i < |info.buttonImpDesc| ==>
                 maps.buttons[info.buttonImpDesc[i].buttonDesc.id] == firstId + |info.axisImpDesc| + i) &&
              (forall a, b :: a in maps.axes && b in maps.buttons ==> maps.axes[a] != maps.buttons[b])
  {
    var axisIds, buttonIds := AxisIds(info.axisImpDesc), ButtonIds(info.buttonImpDesc);
    RegisterSpec(axisIds, firstId);
    RegisterSpec(buttonIds, firstId + |info.axisImpDesc|);
  }

  /** The allocator calls a construction makes: one per axis, then one per button, in list order. */
  function RegisterCalls(info: DeviceImpInfo): (calls: seq<RegisterCall>)
    ensures |calls| == |info.axisImpDesc| + |info.buttonImpDesc|
    ensures forall i :: 0 <= i < |info.axisImpDesc| ==> calls[i] == VelocityAxis(info.axisImpDesc[i].axisDesc.id)
    ensures forall i :: 0 <= i < |info.buttonImpDesc| ==>
              calls[|info.axisImpDesc| + i] == SingleButtonAxis(info.buttonImpDesc[i].buttonDesc.id)
  {
    AxisCalls(info.axisImpDesc, |info.axisImpDesc|) + ButtonCalls(info.buttonImpDesc, |info.buttonImpDesc|)
  }

  function AxisCalls(descs: seq<AxisImpDescription>, k: nat): (calls: seq<RegisterCall>)
    requires k <= |descs|
    ensures |calls| == k
    ensures forall i :: 0 <= i < k ==> calls[i] == VelocityAxis(descs[i].axisDesc.id)
  {
    if k == 0 then [] else AxisCalls(descs, k - 1) + [VelocityAxis(descs[k - 1].axisDesc.id)]
  }

  function ButtonCalls(descs: seq<ButtonImpDescription>, k: nat): (calls: seq<RegisterCall>)
    requires k <= |descs|
    ensures |calls| == k
    ensures forall i :: 0 <= i < k ==> calls[i] == SingleButtonAxis(descs[i].buttonDesc.id)
  {
    if k == 0 then [] else ButtonCalls(descs, k - 1) + [SingleButtonAxis(descs[k - 1].buttonDesc.id)]
  }

  class GamepadDevice {
    /** Native axis id -> registered id. */
    var axes: map<int, int>
    /** Native button id -> registered id. */
    var buttons: map<int, int>
    /** The base class's allocator: the id the next registration returns. */
    var nextId: int
    /** The registrations made so far. */
    ghost var calls: seq<RegisterCall>

    /** Empty dictionaries over an allocator starting at firstId. */
    constructor (firstId: int)
      ensures axes == map[] && buttons == map[] && nextId == firstId && calls == []
    {
      axes := map[];
      buttons := map[];
      nextId := firstId;
      calls := [];
    }

    /** Registers a velocity axis for a native axis id and returns its fresh id. */
    method RegisterVelocityAxis(nativeId: int) returns (id: int)
      modifies this`nextId, this`calls
      ensures id == old(nextId) && nextId == old(nextId) + 1
      ensures calls == old(calls) + [VelocityAxis(nativeId)]
    {
      id := nextId;
      nextId := nextId + 1;
      calls := calls + [VelocityAxis(nativeId)];
    }

    /** Registers a single-button axis for a native button id and returns its fresh id. */
    method RegisterSingleButtonAxis(nativeId: int) returns (id: int)
      modifies this`nextId, this`calls
      ensures id == old(nextId) && nextId == old(nextId) + 1
      ensures calls == old(calls) + [SingleButtonAxis(nativeId)]
    {
      id := nextId;
      nextId := nextId + 1;
      calls := calls + [SingleButtonAxis(nativeId)];
    }

    /** Dictionary.Add on Axes: refused (false) when the key is already present. */
    method AddAxis(orgId: int, regId: int) returns (added: bool)
      modifies this`axes
      ensures added <==> orgId !in old(axes)
      ensures axes == if added then old(axes)[orgId := regId] else old(axes)
    {
      added := orgId !in axes;
      if added {
        axes := axes[orgId := regId];
      }
    }

    /** Dictionary.Add on Buttons: refused (false) when the key is already present. */
    method AddButton(orgId: int, regId: int) returns (added: bool)
      modifies this`buttons
      ensures added <==> orgId !in old(buttons)
      ensures buttons == if added then old(buttons)[orgId := regId] else old(buttons)
    {
      added := orgId !in buttons;
      if added {
        buttons := buttons[orgId := regId];
      }
    }

    /**
     * The axis loop: registers and records every axis of the implementation
     * on the empty Axes dictionary, in list order; an id met twice stops it.
     */
    method RegisterAxes(descs: seq<AxisImpDescription>) returns (ok: bool, duplicate: int)
      requires axes == map[] && calls == []
      modifies this`axes, this`nextId, this`calls
      ensures ok <==> Register(AxisIds(descs), old(nextId)).Success?
      ensures !ok ==> Register(AxisIds(descs), old(nextId)) == Failure(DuplicateKey(duplicate))
      ensures ok ==> Register(AxisIds(descs), old(nextId)) == Success(axes) &&
                     nextId == old(nextId) + |descs| && calls == AxisCalls(descs, |descs|)
    {
      ghost var ids := AxisIds(descs);
      ghost var first := nextId;
      var i := 0;
      while i < |descs|
        invariant 0 <= i <= |descs|
        invariant RegisterFirst(ids, first, i) == Success(axes)
        invariant nextId == first + i && calls == AxisCalls(descs, i)
      {
        var orgId := descs[i].axisDesc.id;
        var regId := RegisterVelocityAxis(orgId);
        var added := AddAxis(orgId, regId);
        if !added {
          RegisterFailurePersists(ids, first, i + 1, |ids|);
          return false, orgId;
        }
        i := i + 1;
      }
      return true, 0;
    }

    /**
     * The button loop: registers and records every button of the
     * implementation on the empty Buttons dictionary, in list order; an id
     * met twice stops it.
     */
    method RegisterButtons(descs: seq<ButtonImpDescription>) returns (ok: bool, duplicate: int)
      requires buttons == map[]
      modifies this`buttons, this`nextId, this`calls
      ensures ok <==> Register(ButtonIds(descs), old(nextId)).Success?
      ensures !ok ==> Register(ButtonIds(descs), old(nextId)) == Failure(DuplicateKey(duplicate))
      ensures ok ==> Register(ButtonIds(descs), old(nextId)) == Success(buttons) &&
                     nextId == old(nextId) + |descs| && calls == old(calls) + ButtonCalls(descs, |descs|)
    {
      ghost var ids := ButtonIds(descs);
      ghost var first := nextId;
      var j := 0;
      while j < |descs|
        invariant 0 <= j <= |descs|
        invariant RegisterFirst(ids, first, j) == Success(buttons)
        invariant nextId == first + j && calls == old(calls) + ButtonCalls(descs, j)
      {
        var orgId := descs[j].buttonDesc.id;
        var regId := RegisterSingleButtonAxis(orgId);
        var added := AddButton(orgId, regId);
        if !added {
          RegisterFailurePersists(ids, first, j + 1, |ids|);
          return false, orgId;
        }
        j := j + 1;
      }
      return true, 0;
    }

    /**
     * The constructor: registers and records every axis, then every button,
     * of the device implementation; a native id met twice in one list makes
     * it fail with that id.
     */
    static method New(info: DeviceImpInfo, firstId: int) returns (r: Result<GamepadDevice>)
      ensures r.Failure? <==> Registration(info, firstId).Failure?
      ensures r.Failure? ==> r.error == Registration(info, firstId).error
      ensures r.Success? ==> fresh(r.value) && IdMaps(r.value.axes, r.value.buttons) == Registration(info, firstId).value
      ensures r.Success? ==> r.value.nextId == firstId + |info.axisImpDesc| + |info.buttonImpDesc|
      ensures r.Success? ==> r.value.calls == RegisterCalls(info)
    {
      var d := new GamepadDevice(firstId);
      var ok, duplicate := d.RegisterAxes(info.axisImpDesc);
      if !ok {
        return Failure(DuplicateKey(duplicate));
      }
      ok, duplicate := d.RegisterButtons(info.buttonImpDesc);
      if !ok {
        return Failure(DuplicateKey(duplicate));
      }
      r := Success(d);
    }
  }

  /** A game controller's descriptor lists always register without a clash. */
  lemma ControllerRegistrationSucceeds(c: GameController.Capabilities, firstId: int)
    ensures Registration(DeviceImpInfo(GameController, GameController.SelectedAxes(c),
                                       GameController.SelectedButtons(c)), firstId).Success?
  {
    GameController.SelectedAxesSpec(c);
    GameController.SelectedButtonsSpec(c);
    RegistrationSpec(DeviceImpInfo(GameController, GameController.SelectedAxes(c),
                                   GameController.SelectedButtons(c)), firstId);
  }

  /** The ControllerAxis enumeration. */
  datatype ControllerAxis = LeftX | LeftY | RightX | RightY | Z

  /** The ControllerButton enumeration. */
  datatype ControllerButton = A | B | C | D | E | X | Y | R1 | R2 | L1 | L2 | Start | Back | Home | FirstUserButton

  /** `(int) axis`: the enumeration's underlying value. */
  function AxisCode(a: ControllerAxis): int
  {
    match a
    case LeftX => 0
    case LeftY => 1
    case RightX => 2
    case RightY => 3
    case Z => 4
  }

  /** `(int) button`: the enumeration's underlying value. */
  function ButtonCode(b: ControllerButton): int
  {
    match b
    case A => 0
    case B => 1
    case C => 2
    case D => 3
    case E => 4
    case X => 5
    case Y => 6
    case R1 => 7
    case R2 => 8
    case L1 => 9
    case L2 => 10
    case Start => 11
    case Back => 12
    case Home => 13
    case FirstUserButton => 14
  }

  /**
   * The base class's integer-id queries, which the typed accessors forward
   * to; the base class is not part of this model.
   */
  datatype IdQueries = IdQueries(
    getAxis: int -> real, getButton: int -> bool, isButtonDown: int -> bool, isButtonUp: int -> bool)

  function GetAxis(q: IdQueries, a: ControllerAxis): real { q.getAxis(AxisCode(a)) }
  function GetButton(q: IdQueries, b: ControllerButton): bool { q.getButton(ButtonCode(b)) }
  function IsButtonDown(q: IdQueries, b: ControllerButton): bool { q.isButtonDown(ButtonCode(b)) }
  function IsButtonUp(q: IdQueries, b: ControllerButton): bool { q.isButtonUp(ButtonCode(b)) }

  /**
   * The casts are one-to-one, so distinct enumeration members never reach
   * the same integer query; the typed accessors read nothing but the query
   * at the member's code (the Axes and Buttons dictionaries play no part).
   */
  lemma TypedAccessorsAreCasts(q: IdQueries, a1: ControllerAxis, a2: ControllerAxis,
                               b1: ControllerButton, b2: ControllerButton)
    ensures AxisCode(a1) == AxisCode(a2) <==> a1 == a2
    ensures ButtonCode(b1) == ButtonCode(b2) <==> b1 == b2
    ensures 0 <= AxisCode(a1) <= 4 && 0 <= ButtonCode(b1) <= 14
    ensures GetAxis(q, a1) == q.getAxis(AxisCode(a1)) && GetButton(q, b1) == q.getButton(ButtonCode(b1))
    ensures IsButtonDown(q, b1) == q.isButtonDown(ButtonCode(b1)) && IsButtonUp(q, b1) == q.isButtonUp(ButtonCode(b1))
  {
  }

  /**
   * Which cast codes are ids a game controller implementation knows: the
   * codes of LeftX .. RightY are exactly its axis ids, and of the shown
   * button members exactly A, B, X, Y, Start, Back and Home have codes
   * that are its button ids (the others' codes fall outside its table,
   * given the placeholder ids of the members the enumeration lacks).
   */
  lemma CastCodesAsControllerIds(a: ControllerAxis, b: ControllerButton)
    ensures AxisCode(a) in AxisIds(GameController.AxisTable) <==> a != ControllerAxis.Z
    ensures ButtonCode(b) in ButtonIds(GameController.ButtonTable) <==>
              b in {A, B, ControllerButton.X, ControllerButton.Y, Start, Back, Home}
  {
    assert AxisIds(GameController.AxisTable) == [0, 1, 2, 3];
    GameController.ButtonTableWellFormed();
    assert ButtonIds(GameController.ButtonTable) ==
           [100, 101, 102, 103, 0, 1, 5, 6, 104, 105, 106, 107, 108, 109, 12, 11, 13];
  }
}
