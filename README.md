# Fusee desktop input devices — a Dafny model

This project models the desktop input layer of the Fusee engine.

**Device implementations.** Each one advertises two ordered descriptor lists, one for axes and one for buttons. Every descriptor carries a "poll me" flag. A device also answers integer-id getters and raises button events.

- The mouse has seven polled axes and three push-driven buttons. Its getter reads the window and refuses unknown ids.
- The keyboard has no axes and one push-driven button per keymapper entry, ordered by id. Its reported button count is the number of key-code names, independent of the buttons it enumerates. Its getters always refuse.
- A game controller builds its two lists from the capability report of its slot:
  - every capability flag that is set adds one descriptor, in a fixed order, and bumps a counter;
  - construction is refused when the report says the slot is not connected;
  - its getters first refresh the cached pad state, then answer through fixed dispatch tables;
  - a state report that says "disconnected" never replaces the cached state.

**Drivers.** The render-canvas driver offers the mouse and then the keyboard. The gamepad driver checks slots 0–3 once and keeps one controller per connected slot, in slot order.

**The logical gamepad.** `GamepadDevice` is built on top of a device implementation:
- it registers every axis, then every button, with an id allocator;
- it records native id → registered id in two dictionaries;
- `Dictionary.Add` refuses a repeated key, which aborts construction.

Its typed accessors are casts of the controller enumerations to their integer values. What the base-class query answers for a cast code is not part of this model; `Gamepad.CastCodesAsControllerIds` only says which codes a controller implementation knows.

## Modules
- `Descriptors` holds the shared records: axis and button descriptors, events, `Result`/`Option` and the error kinds.
- `Selection` keeps the table entries whose flag is set, in table order. Both the controller's descriptor lists and the driver's slot search are built this way.
- `Mouse` models `MouseDeviceImp` and `Keyboard` models `KeyboardDeviceImp`. Both are pure functions.
- `GameController` models `GameControllerDeviceImp` as a class whose methods update its fields in place, plus the slot search as a loop.
- `Gamepad` holds the pure specification of the id registration and the class `GamepadDevice`, whose factory runs the two registration loops. It also holds the typed casts.
- `Drivers` models the two drivers' device enumerations.

Some source values are not part of the shown enumerations. The `ControllerButton`/`ControllerAxis` enumerations shown lack the directional pad, stick, shoulder, trigger and Min/Max members that the controller code uses, so their ids are placeholder integers (100 and up). They are distinct from each other and from the shown members. Every proof uses only that distinctness. The stick axes and the A, B, X, Y, Start, Back and Home buttons keep their shown values.

Two quirks of the controller are modelled as written:
- the right-trigger button reads the left trigger;
- the re-raised button event always reports "released".

## Model

| member | source | states |
|---|---|---|
| `Mouse.AxisDescriptors` | src/Engine/Imp/Graphics/Desktop/InputImp.cs:357-465 | seven polled position axes in the order X, Y, Wheel, MinX, MaxX, MinY, MaxY with distinct ids; the count is 7; exactly X and Y are bounded by other axes, X by MinX/MaxX and Y by MinY/MaxY |
| `Mouse.ButtonDescriptors` | src/Engine/Imp/Graphics/Desktop/InputImp.cs:325-483 | three push-driven buttons in the order Left, Middle, Right, with the MouseButtons ids; the count is 3 |
| `Mouse.GetAxis` | src/Engine/Imp/Graphics/Desktop/InputImp.cs:518-538 | succeeds exactly for ids X..MaxY (1..7); every other id, Unknown = 0 included, fails with that id |
| `Mouse.GetAxisAnswersAdvertisedAxes` | src/Engine/Imp/Graphics/Desktop/InputImp.cs:518-538 | the getter answers exactly the advertised axis ids; the bounding axes named by X read 0 and the window width, those named by Y read 0 and the window height |
| `Mouse.GetButton` | src/Engine/Imp/Graphics/Desktop/InputImp.cs:546-550 | every button poll fails with that id |
| `Mouse.ButtonEvent` | src/Engine/Imp/Graphics/Desktop/InputImp.cs:557-616 | an event is raised iff a listener is attached and the button is Left, Middle or Right; it carries the given pressed flag and the advertised descriptor of that button: Left (id 1), Middle (id 4) or Right (id 2) |
| `Mouse.DownUpEventsPair` | src/Engine/Imp/Graphics/Desktop/InputImp.cs:557-616 | down and up raise events for the same buttons and name the same descriptor; down says pressed and up says released; Left, Middle and Right map to ids 1, 4 and 2 |
| `Keyboard.NoAxes` | src/Engine/Imp/Graphics/Desktop/InputImp.cs:160-177 | the axis count is 0 and the axis enumeration is empty |
| `Keyboard.ButtonCountIgnoresKeymap` | src/Engine/Imp/Graphics/Desktop/InputImp.cs:182-188 | `ButtonCount` reports the number of key-code names (193) whatever the keymapper holds; it equals the number of enumerated buttons exactly when the keymapper has 193 entries |
| `Keyboard.InsertById` | src/Engine/Imp/Graphics/Desktop/InputImp.cs:197 | inserting a descriptor into a list adds exactly that descriptor (multiset) |
| `Keyboard.OrderByIdSpec` | src/Engine/Imp/Graphics/Desktop/InputImp.cs:197 | ordering by id yields a permutation that is sorted by id |
| `Keyboard.ButtonImpDescSpec` | src/Engine/Imp/Graphics/Desktop/InputImp.cs:193-199 | one unpolled button per keymapper entry, holding exactly the keymapper's descriptors, in ascending id order |
| `Keyboard.TryGetValue` | src/Engine/Imp/Graphics/Desktop/InputImp.cs:257 | finds a descriptor iff some keymapper entry has the key; the descriptor found is the one the first entry for that key holds |
| `Keyboard.KeyEvent` | src/Engine/Imp/Graphics/Desktop/InputImp.cs:254-283 | an event is raised iff a listener is attached and the keymapper knows the key; it carries the given pressed flag and the descriptor the keymapper holds for that key |
| `Keyboard.GetAxis` | src/Engine/Imp/Graphics/Desktop/InputImp.cs:290-293 | every axis poll fails with that id |
| `Keyboard.GetButton` | src/Engine/Imp/Graphics/Desktop/InputImp.cs:301-304 | every button poll fails with that id |
| `GameController.CreateAxisImpDescription` | src/Engine/Imp/Graphics/Desktop/InputImp.cs:788-803 | the descriptor carries the given name, id, direction, nature, bound type and poll flag, and its two bounds name the given axes |
| `GameController.SelectedAxesSpec` | src/Engine/Imp/Graphics/Desktop/InputImp.cs:753-786 | the advertised axes are exactly the capability-selected entries of LeftX, LeftY, RightX, RightY, in that order; the ids are distinct; every axis is a polled, OtherAxis-bounded position axis, X axes bounded by MinX/MaxX and Y axes by MinY/MaxY |
| `GameController.ButtonTableWellFormed` | src/Engine/Imp/Graphics/Desktop/InputImp.cs:805-891 | the seventeen buttons the controller can add have pairwise distinct ids and are all polled |
| `GameController.SelectedButtonsSpec` | src/Engine/Imp/Graphics/Desktop/InputImp.cs:805-891 | the advertised buttons are exactly the capability-selected entries of the seventeen buttons DPadUp … Home, in that order; the ids are distinct and every button is polled |
| `GameController.NextState` | src/Engine/Imp/Graphics/Desktop/InputImp.cs:922-933 | a disconnected report keeps the cached state; a connected one becomes the state |
| `GameController.AxisValue` | src/Engine/Imp/Graphics/Desktop/InputImp.cs:935-956 | answers exactly the four stick axis ids; any other id fails with that id |
| `GameController.ButtonValue` | src/Engine/Imp/Graphics/Desktop/InputImp.cs:958-1001 | answers exactly the seventeen table button ids; any other id fails with that id |
| `GameController.RightTriggerReadsLeftTrigger` | src/Engine/Imp/Graphics/Desktop/InputImp.cs:984-991 | the right-trigger button always equals the left-trigger button, and changing only the right trigger never changes it |
| `GameController.AdvertisedIdsAreAnswered` | src/Engine/Imp/Graphics/Desktop/InputImp.cs:935-1001 | every advertised axis and button id is answered by the getters, whatever the capabilities |
| `GameController.GameControllerDeviceImp.constructor` | src/Engine/Imp/Graphics/Desktop/InputImp.cs:734-751 | for a connected report: keeps the index and initial state, builds the capability-selected lists, and each counter equals its list's length |
| `GameController.GameControllerDeviceImp.TryCreate` | src/Engine/Imp/Graphics/Desktop/InputImp.cs:734-751 | fails with NotConnected(index) iff the report says not connected, so no descriptors exist then; otherwise it yields a fresh controller as the constructor describes |
| `GameController.GameControllerDeviceImp.SetAxisImpDescriptions` | src/Engine/Imp/Graphics/Desktop/InputImp.cs:753-786 | starting from the empty list, the list becomes the capability-selected axes and the counter its length |
| `GameController.GameControllerDeviceImp.SetButtonImpDescriptions` | src/Engine/Imp/Graphics/Desktop/InputImp.cs:805-891 | starting from the empty list, the list becomes the capability-selected buttons and the counter its length |
| `GameController.GameControllerDeviceImp.SetDPadButtons` | src/Engine/Imp/Graphics/Desktop/InputImp.cs:807-825 | extends the selection from the first 0 to the first 4 table buttons, counting each |
| `GameController.GameControllerDeviceImp.SetFaceButtons` | src/Engine/Imp/Graphics/Desktop/InputImp.cs:827-845 | extends the selection from the first 4 to the first 8 table buttons, counting each |
| `GameController.GameControllerDeviceImp.SetStickButtons` | src/Engine/Imp/Graphics/Desktop/InputImp.cs:847-855 | extends the selection from the first 8 to the first 10 table buttons, counting each |
| `GameController.GameControllerDeviceImp.SetShoulderButtons` | src/Engine/Imp/Graphics/Desktop/InputImp.cs:857-875 | extends the selection from the first 10 to the first 14 table buttons, counting each |
| `GameController.GameControllerDeviceImp.SetSystemButtons` | src/Engine/Imp/Graphics/Desktop/InputImp.cs:877-890 | extends the selection from the first 14 to all 17 table buttons, counting each |
| `GameController.GameControllerDeviceImp.CreateButtonImpDescription` | src/Engine/Imp/Graphics/Desktop/InputImp.cs:893-905 | appends exactly one descriptor with the given name, id and poll flag, and increments the counter |
| `GameController.GameControllerDeviceImp.AxesCount` | src/Engine/Imp/Graphics/Desktop/InputImp.cs:1007 | reports the axis counter, which on a valid controller is the length of the axis list |
| `GameController.GameControllerDeviceImp.ButtonCount` | src/Engine/Imp/Graphics/Desktop/InputImp.cs:1009 | reports the button counter, which on a valid controller is the length of the button list |
| `GameController.GameControllerDeviceImp.Info` | src/Engine/Imp/Graphics/Desktop/InputImp.cs:1011-1013 | the controller as a game-controller device enumerating its own two lists, whose lengths are the reported counts on a valid controller |
| `GameController.GameControllerDeviceImp.UpdateState` | src/Engine/Imp/Graphics/Desktop/InputImp.cs:922-933 | the state becomes the report if it is connected and otherwise stays unchanged |
| `GameController.GameControllerDeviceImp.GetAxis` | src/Engine/Imp/Graphics/Desktop/InputImp.cs:935-956 | refreshes the state first, then answers the stick axis from the refreshed state or fails for an unknown id |
| `GameController.GameControllerDeviceImp.GetButton` | src/Engine/Imp/Graphics/Desktop/InputImp.cs:958-1001 | refreshes the state first, then answers the button from the refreshed state or fails for an unknown id |
| `GameController.GameControllerDeviceImp.ButtonExistsOnDevice` | src/Engine/Imp/Graphics/Desktop/InputImp.cs:1043-1056 | true iff some advertised button has the id, together with the first such descriptor; otherwise false and the default descriptor |
| `GameController.GameControllerDeviceImp.OnButtonValueChanged` | src/Engine/Imp/Graphics/Desktop/InputImp.cs:1030-1041 | re-raises iff a listener is attached and the id is advertised; the event names the first advertised descriptor with that id, as the lookup returns it, and always says released |
| `GameController.ConnectedSlotsSpec` | src/Engine/Imp/Graphics/Desktop/InputImp.cs:635-646 | the kept slots are exactly the connected slots below 4, each once, ascending |
| `GameController.SearchGameControllers` | src/Engine/Imp/Graphics/Desktop/InputImp.cs:635-646 | returns one fresh controller per connected slot in ascending slot order; each has its slot's index and state and the lists that slot's capabilities select |
| `Gamepad.RegisterFirstSpec` | src/Engine/Core/GamepadDevice.cs:23-37 | the first k additions succeed iff those ids are distinct; the dictionary then holds exactly them, one entry each, the i-th mapped to first + i; a failure names the first repeated id |
| `Gamepad.RegisterSpec` | src/Engine/Core/GamepadDevice.cs:23-37 | registering a list succeeds iff its ids are distinct; the keys are exactly the ids, the map is injective and its values lie in [first, first + n) |
| `Gamepad.RegisterFailurePersists` | src/Engine/Core/GamepadDevice.cs:28 | once an Add has failed, the construction's outcome is that failure |
| `Gamepad.RegistrationSpec` | src/Engine/Core/GamepadDevice.cs:19-38 | construction succeeds iff the axis ids are distinct and the button ids are distinct; Axes is keyed by the axis ids and Buttons by the button ids; axis values come before button values, so no axis and button share a registered id |
| `Gamepad.RegisterCalls` | src/Engine/Core/GamepadDevice.cs:23-37 | one velocity-axis registration per axis, then one single-button registration per button, in list order |
| `Gamepad.GamepadDevice.constructor` | src/Engine/Core/GamepadDevice.cs:21-22 | both dictionaries start empty |
| `Gamepad.GamepadDevice.RegisterVelocityAxis` | src/Engine/Core/GamepadDevice.cs:26 | returns a fresh id (the allocator's next value) and logs the registration |
| `Gamepad.GamepadDevice.RegisterSingleButtonAxis` | src/Engine/Core/GamepadDevice.cs:34 | returns a fresh id (the allocator's next value) and logs the registration |
| `Gamepad.GamepadDevice.AddAxis` | src/Engine/Core/GamepadDevice.cs:28 | adds the entry iff the key is absent; a present key leaves Axes unchanged and reports the refusal |
| `Gamepad.GamepadDevice.AddButton` | src/Engine/Core/GamepadDevice.cs:36 | adds the entry iff the key is absent; a present key leaves Buttons unchanged and reports the refusal |
| `Gamepad.GamepadDevice.RegisterAxes` | src/Engine/Core/GamepadDevice.cs:23-29 | the axis loop over an empty Axes: succeeds iff the axis ids are distinct; on success Axes is the registration specification's dictionary, the allocator advanced by one per axis and one velocity-axis registration logged per axis; on failure it reports the first repeated id |
| `Gamepad.GamepadDevice.RegisterButtons` | src/Engine/Core/GamepadDevice.cs:31-37 | the button loop over an empty Buttons: succeeds iff the button ids are distinct; on success Buttons is the registration specification's dictionary, continuing from the allocator's current value, with one single-button registration logged per button; on failure it reports the first repeated id |
| `Gamepad.GamepadDevice.New` | src/Engine/Core/GamepadDevice.cs:19-38 | fails exactly when, and with the error, the registration specification says; on success the dictionaries, the allocator and the registration log are as specified |
| `Gamepad.ControllerRegistrationSucceeds` | src/Engine/Core/GamepadDevice.cs:19-38 | a game controller's descriptor lists always register without a duplicate key |
| `Gamepad.TypedAccessorsAreCasts` | src/Engine/Core/GamepadDevice.cs:40-46 | the typed accessors query the integer accessors at the member's enumeration value; the casts are one-to-one, so distinct members never reach the same id |
| `Gamepad.CastCodesAsControllerIds` | src/Engine/Core/GamepadDevice.cs:40-42 | a fact about ids, not about the base-class query: the cast codes of LeftX..RightY are exactly the controller implementation's axis ids (InputImp.cs lines 935-956), and of the shown ControllerButton members exactly A, B, X, Y, Start, Back and Home have codes that are its button ids (lines 958-1001), given the placeholder ids of the members the shown enumeration lacks |
| `Drivers.CanvasDevicesSpec` | src/Engine/Imp/Graphics/Desktop/InputImp.cs:44-51 | exactly two devices, the mouse (7 axes, 3 buttons) and then the keyboard (no axes, one button per keymapper entry) |
| `Drivers.GamepadInputDriver.constructor` | src/Engine/Imp/Graphics/Desktop/InputImp.cs:630-646 | the driver holds one controller per connected slot, in slot order, built from that slot's reports |
| `Drivers.GamepadInputDriver.Devices` | src/Engine/Imp/Graphics/Desktop/InputImp.cs:648 | enumerates the controllers in order, each as a game-controller device with its own lists |

## Left out
- OpenTK's `GamePad.GetCapabilities`/`GetState` and the game window's mouse position, wheel and size are inputs to the model: capability and state records, a window snapshot, and functions from slot to report.
- The controller constructor queries its slot again when it is created. The model passes it the report that the slot search saw.
- `GetAxis` and `GetButton` read a new state from OpenTK. The model passes that state as a parameter.
- Floating-point values are modelled as reals: stick and trigger readings, the wheel, and the 0.5 trigger threshold. `float.NaN` bounds are a `NaN` marker.
- Integer conversions of the window size are also modelled as reals.
- Event subscription and handler plumbing are left out. An event is modelled as the value it would carry, or nothing, with "a listener is attached" as a flag.
- Also left out: the Dispose pattern, `Debug.WriteLine`, the platform-dependent description strings, and the `Id`, `Desc` and `DriverDesc` strings.
- The keymapper's contents are not part of this model. It is a list of (key, descriptor) entries in enumeration order, and the keyboard's button count is the number of names in the `KeyCodes` enumeration (193).
- `Keyboard.OrderByIdSpec`: LINQ `orderby` is stable. The model's insertion sort keeps equal ids in enumeration order, but stability is not stated as a property.
- The `InputDevice` base class is not part of this model. Its id allocator is assumed to hand out consecutive ids from a counter. Its edge-triggered `IsButtonDown`/`IsButtonUp` and its integer accessors are uninterpreted query functions that the typed accessors forward to.
- `GameController.GameControllerDeviceImp.SetAxisImpDescriptions` and `GameController.GameControllerDeviceImp.SetButtonImpDescriptions` require empty lists and zero counters on entry, because the constructor is their only caller.
- The seventeen guarded appends of `SetButtonImpDescriptions` run as five consecutive groups, so that each proof stays small. Order and effect are the same as in the single source method.
- The controller id enumerations are abstract integers. Only their distinctness is modelled; see above.
- The two `foreach` loops of the `GamepadDevice` constructor are the methods `RegisterAxes` and `RegisterButtons`, which `New` calls in turn. `New` stands for the constructor, which in the source throws on a duplicate key instead of returning an error.
- The controller's axis count is documented as five, including a trigger Z axis, but the code adds only the four stick axes. The model follows the code.
