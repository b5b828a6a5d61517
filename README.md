# Smart-home controller, modelled in Dafny

A model of a small smart-home kata (`smart_home.h`). Seven kinds of mock
device (switchable, dimmable and networkable lights, an air conditioner, a
coffee maker, blinds and a vacuum cleaner) each implement a fixed subset of
seven capability interfaces and answer every capability call with a status
string. A `SmartHomeController` keeps an ordered registry of devices. It can
switch every switchable device on or off, and it runs a "quick breakfast"
scene that opens a named blinds device and runs a named coffee maker.

Modules:

- `Wrappers` (`wrappers.dfy`): the `Option` type. It stands for a null
  pointer or a failed `dynamic_pointer_cast`.
- `Decimal` (`decimal.dfy`): `std::to_string` on integers (`IntToDecimal`).
  Its strict inverse `ParseInt` is the partner it is proved against.
- `Devices` (`devices.dfy`): the device `Kind`s and `Device` records.
  - Capability predicates replace the downcasts (`IsSwitchable`, ...).
  - Each capability operation is a function of the kind and its arguments
    only, because no device keeps state.
  - Every status that embeds an argument has a read-back partner
    (`DimLevel`, `NetworkOf`, `TemperatureOf`, `BeverageOf`).
- `SmartHome` (`smart_home.dfy`):
  - Specification functions on a registry value: `IndexOf`, `Lookup`,
    `TurnOnAllOf`, `TurnOffAllOf`, `QuickBreakfastOf`.
  - Lemmas about those functions.
  - The `Controller` class. Its `devices: seq<Device>` field is reassigned
    by `AddDevice`. `TurnOnAll`, `TurnOffAll` and `FindDevice` are loops
    proved to compute the specification functions.

How the downcasts are modelled:

- `dynamic_pointer_cast<Switchable>` is `IsSwitchable(kind)`.
- The scene casts to the concrete classes `Blinds` and `CoffeeMaker`, not
  to the `ShadeControl` / `BeverageMaker` interfaces. The model therefore
  compares the kind tag with `Blinds` / `CoffeeMaker`. In this catalogue
  each of those interfaces has exactly one implementer, so both readings
  agree.

The C++ `int` parameters of `dim` and `set_temperature` are modelled as
`Int32`. No range check is made on them, so any value in that range is
accepted.

## Model

| member | source | states |
|---|---|---|
| `Decimal.NatToDecimal` | smart_home.h:82 | the digits of a magnitude are non-empty decimal digits with no leading zero (except "0" itself) |
| `Decimal.IntToDecimal` | smart_home.h:108 | the rendering is non-empty, starts with '-' exactly for negative values, and is otherwise all digits |
| `Decimal.RenderThenParse` | smart_home.h:82 | every rendering parses back to the integer it renders |
| `Decimal.ParseThenRender` | smart_home.h:108 | a string that parses to n is exactly the rendering of n |
| `Decimal.IntToDecimalParse` | smart_home.h:82 | rendering and strict parsing are inverse in both directions: a string parses to n exactly when it is n's rendering |
| `Decimal.IntToDecimalInjective` | smart_home.h:108 | distinct integers render to distinct strings |
| `Decimal.FiftyExample` | test_smart_home.cpp:38 | 50 renders as "50" |
| `Devices.EveryKindHasACapability` | smart_home.h:65-139 | every kind implements Switchable, ShadeControl or CleaningAppliance; every kind with Dimmable, Networkable, TemperatureAdjustable or BeverageMaker is also Switchable |
| `Devices.SwitchStatusesIdentifyKind` | smart_home.h:69-117 | turn_on statuses are pairwise distinct across kinds, and so are turn_off statuses; no turn_on status equals any turn_off status |
| `Devices.OpposedStatusesDiffer` | smart_home.h:69-138 | open and close, start and stop cleaning, and on and off each give different statuses |
| `Devices.DimReadBack` | smart_home.h:80-83 | `dim` embeds any level verbatim in decimal between the fixed prefix and "%": the level reads back from the status, and only that level's status reads back as it |
| `Devices.DimLevelOfDim` | smart_home.h:80-83 | any level, negative or above 100 included, reads back from its `dim` status |
| `Devices.DimOfDimLevel` | smart_home.h:80-83 | a string that reads back as a level is exactly that level's `dim` status |
| `Devices.DimFiftyExample` | test_smart_home.cpp:36-41 | dim(50) is "Dimmable light dimmed to 50%" |
| `Devices.ConnectToNetworkReadBack` | smart_home.h:93-96 | the network name follows the fixed prefix verbatim and reads back; only that name's status reads back as it |
| `Devices.HomeNetworkExample` | test_smart_home.cpp:43-48 | connecting to "Home Network" gives "Networkable light connected to Home Network" |
| `Devices.SetTemperatureReadBack` | smart_home.h:106-109 | any temperature follows "Set temperature to " in decimal and reads back; only that temperature's status reads back as it |
| `Devices.TemperatureOfSetTemperature` | smart_home.h:106-109 | any temperature reads back from its `set_temperature` status |
| `Devices.SetTemperatureOfTemperature` | smart_home.h:106-109 | a string that reads back as a temperature is exactly that temperature's status |
| `Devices.BrewReadBack` | smart_home.h:119-122 | the coffee type sits verbatim between "Brewing " and " coffee" and reads back; only that type's status reads back as it |
| `SmartHome.IndexOf` | smart_home.h:190-196 | the result is the position of the first device with that name, or none exactly when no device has that name |
| `SmartHome.LookupIsFirstMatch` | smart_home.h:190-196 | lookup yields a device exactly when it is the earliest registered device with that name |
| `SmartHome.LookupAfterAdd` | smart_home.h:144 | after appending a device, a name already present still finds its old device, so a later duplicate is never returned; a new name finds the new device; other names still find nothing |
| `SmartHome.SwitchableIndices` | smart_home.h:150 | the selected positions are strictly increasing, each holds a switchable device, and every switchable device's position is selected |
| `SmartHome.TurnOnAllSelectsSwitchables` | smart_home.h:146-155 | turn_on_all gives one turn_on status per switchable device, exactly those devices, in registry order; other devices are skipped |
| `SmartHome.TurnOffAllSelectsSwitchables` | smart_home.h:157-166 | turn_off_all gives one turn_off status per switchable device, exactly those devices, in registry order; other devices are skipped |
| `SmartHome.SwitchAllAppend` | smart_home.h:146-166 | bulk switching distributes over concatenation of registries: adding devices appends their statuses and never reorders earlier output |
| `SmartHome.HouseholdTurnOn` | test_smart_home.cpp:16-22 | for two switchable lights, a networkable light, a dimmable light, a coffee maker and an AC (any names), turn_on_all gives the six strings the test lists |
| `SmartHome.HouseholdTurnOff` | test_smart_home.cpp:27-33 | for the same household, turn_off_all gives the six strings the test lists |
| `SmartHome.QuickBreakfastShape` | smart_home.h:168-187 | "Blinds opened" appears, and comes first, exactly when the first device with the blinds name is a Blinds. The on/brew/off triple ends the result exactly when the first device with the coffee-maker name is a CoffeeMaker. The length is 0, 1, 3 or 4 accordingly |
| `SmartHome.Controller.constructor` | smart_home.h:198 | a new controller has an empty registry |
| `SmartHome.Controller.AddDevice` | smart_home.h:144 | the registry becomes the old registry with the device appended; there is no duplicate-name check |
| `SmartHome.Controller.TurnOnAll` | smart_home.h:146-155 | the loop returns TurnOnAllOf of the registry |
| `SmartHome.Controller.TurnOffAll` | smart_home.h:157-166 | the loop returns TurnOffAllOf of the registry |
| `SmartHome.Controller.FindDevice` | smart_home.h:190-196 | the scan returns the first device with that name, or none |
| `SmartHome.Controller.MakeQuickBreakfast` | smart_home.h:168-187 | the scene returns QuickBreakfastOf of the registry and its arguments |
| `SmartHome.RepeatedCallsAgree` | smart_home.h:146-187 | turn_on_all, turn_off_all and make_quick_breakfast leave the registry unchanged, and calling each twice gives identical results |
| `SmartHome.HouseholdScenario` | test_smart_home.cpp:14-34 | registering the six-device household through the controller gives the test's turn_on_all and turn_off_all lists |
| `SmartHome.BreakfastScenario` | smart_home.h:168-187 | with Blinds "Bedroom Blinds" and CoffeeMaker "Coffee Maker", the scene for "Colombian" gives the four strings in order |

## Left out

- Memory and ownership are not modelled: `std::shared_ptr`, virtual destructors and the mechanics of `dynamic_pointer_cast`. Devices are values. They have no mutable state, so sharing a device between callers is not observable.
- There is no night-cleaning flag and no `schedule_night_cleaning` operation, and `turn_off_all` appends no cleaning status. Other revisions of the kata have such a scene, but `smart_home.h` has none (smart_home.h:157-166), so the model follows the code.
- The gmock fixture in `test_smart_home.cpp` is not modelled:
  - It registers no devices, yet expects six strings. Against this header, `turn_on_all` on an empty controller returns an empty list.
  - It reads `dimmable_light` and `networkable_light` members that the controller does not have.
  - Only its expected strings are used, in `HouseholdTurnOn`, `HouseholdTurnOff`, `DimFiftyExample` and `HomeNetworkExample`.
- `FindDevice` is private in the source. It is modelled as a method of the class all the same, because the scene uses it.
- Strings are sequences of characters, while `std::string` holds bytes. Every literal here is ASCII, so nothing changes.
- `Decimal.IntToDecimal` is defined on all integers. The `Int32` parameter type of `Dim` and `SetTemperature` carries the width of C++ `int`.
- Allocation failure in `push_back` is not modelled.
- The `<iostream>` include is unused and is not modelled.
