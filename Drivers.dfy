/*
 * The two input drivers and the devices they enumerate: the render-canvas
 * driver offers one mouse and one keyboard, the gamepad driver one game
 * controller per connected slot found when it is created.
 */
module Drivers {
  import opened Descriptors
  import Mouse
  import Keyboard
  import GameController

  /** The render-canvas driver's devices: the mouse, then the keyboard. */
  function CanvasDevices(keymap: seq<Keyboard.KeymapEntry>): seq<DeviceImpInfo>
  {
    [Mouse.Info(), Keyboard.Info(keymap)]
  }

  /**
   * The render-canvas driver enumerates exactly two devices, a mouse with
   * seven axes and three buttons first, then a keyboard without axes and
   * with one button per keymapper entry.
   */
  lemma CanvasDevicesSpec(keymap: seq<Keyboard.KeymapEntry>)
    ensures |CanvasDevices(keymap)| == 2
    ensures CanvasDevices(keymap)[0].category == DeviceCategory.Mouse
    ensures |CanvasDevices(keymap)[0].axisImpDesc| == Mouse.AxesCount
    ensures |CanvasDevices(keymap)[0].buttonImpDesc| == Mouse.ButtonCount
    ensures CanvasDevices(keymap)[1].category == DeviceCategory.Keyboard
    ensures CanvasDevices(keymap)[1].axisImpDesc == []
    ensures |CanvasDevices(keymap)[1].buttonImpDesc| == |keymap|
  {
    Mouse.AxisDescriptors();
    Mouse.ButtonDescriptors();
    Keyboard.ButtonImpDescSpec(keymap);
  }

  /** The gamepad driver: the controllers found when it was created. */
  class GamepadInputDriver {
    var controllers: seq<GameController.GameControllerDeviceImp>

    /** Searches the controller slots once, as the driver's constructor does. */
    constructor (capabilities: int -> GameController.Capabilities, states: int -> GameController.PadState)
      ensures |controllers| == |GameController.ConnectedSlots(capabilities)|
      ensures forall k :: 0 <= k < |controllers| ==>
                var slot := GameController.ConnectedSlots(capabilities)[k];
                fresh(controllers[k]) && controllers[k].Valid() && controllers[k].gamepadIndex == slot &&
                controllers[k].state == states(slot) &&
                controllers[k].axisImpDescriptions == GameController.SelectedAxes(capabilities(slot)) &&
                controllers[k].buttonImpDescriptions == GameController.SelectedButtons(capabilities(slot))
    {
      var found := GameController.SearchGameControllers(capabilities, states);
      controllers := found;
    }

    /** The driver's devices: its controllers, in slot order, as game-controller devices. */
    function Devices(): (devices: seq<DeviceImpInfo>)
      reads this, set c | c in controllers
      ensures |devices| == |controllers|
      ensures forall k :: 0 <= k < |devices| ==>
                devices[k].category == DeviceCategory.GameController &&
                devices[k].axisImpDesc == controllers[k].axisImpDescriptions &&
                devices[k].buttonImpDesc == controllers[k].buttonImpDescriptions
    {
      var cs := controllers;
      seq(|cs|, k reads set c | c in cs requires 0 <= k < |cs| => cs[k].Info())
    }
  }
}
