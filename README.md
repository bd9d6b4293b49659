# Smart home device model

This is a Dafny model of the device and home classes of a small smart-home panel (`main.py`).

The devices are:
- a smart plug, with a name, an on/off switch and a power consumption;
- a smart light, which is a plug with a brightness;
- a smart fridge, which is a plug with a temperature.

Toggling any device flips its switch and sets its consumption: 150 W when on, 0 W when off. The light's setter ignores a brightness outside 0..100. The fridge's setter ignores a temperature outside -10..10.

The home keeps an ordered list of devices. It has three operations:
- append a device;
- remove every device with a given name;
- toggle the first device with a given name and return it, or nothing when there is none.

Two files:
- `devices.dfy` (module `Devices`): the three device kinds as one class, `Device`, with a constant kind tag.
  - `Status` is the device's mutable fields as a value.
  - The pure functions `Toggled`, `WithBrightness` and `WithTemperature` say what each operation does to a `Status`.
  - Each method's postcondition ties the device's new `Snapshot()` to the matching function of the old one.
  - The object invariant `Valid()` is the coupling `consumption == (isOn ? 150 : 0)`. It also requires a setting the kind lacks to stay 0.
- `home.dfy` (module `Home`): the `SmartHome` class.
  - Its `devices` field is a `seq<Device>`.
  - `Filter` specifies removal by name.
  - `FirstIndex` specifies the first-match lookup of `ToggleDevice`.

Facts about `main.py` that the model keeps:
- The home has no capacity limit (main.py:48-49).
- Removal is by name and removes every match (main.py:52).
- Out-of-range setter values are ignored (main.py:25, 37).
- Constructor arguments are stored unchecked (main.py:22, 34).
- Toggling rewrites the consumption (main.py:13).

`Home.DuplicateNames` is a usage example with a duplicated name. Toggling by that name reaches only the first match, and removing by that name drops both matches.

## Model

| member | source | states |
|---|---|---|
| `Devices.Device.NewPlug` | main.py:6-9 | a new plug has the given name and is off, with consumption 0; the invariant holds |
| `Devices.Device.NewLight` | main.py:20-22 | a new light is off with consumption 0 (the inherited constructor) and stores the given brightness unchecked, 50 by default |
| `Devices.Device.NewFridge` | main.py:32-34 | a new fridge is off with consumption 0 and stores the given temperature unchecked, 4 by default |
| `Devices.Initial` | main.py:6-9 | a new device is off with consumption 0, so the coupling holds; brightness and temperature are the given values |
| `Devices.Toggled` | main.py:11-13 | toggling negates the switch, makes the consumption agree with the new state, and keeps brightness and temperature |
| `Devices.Device.Toggle` | main.py:11-13 | the device's new status is `Toggled` of its old status; name and kind are constants; the invariant is preserved for every kind |
| `Devices.ToggleTwiceRestores` | main.py:8-13 | from any coupled status, two toggles restore both the switch and the consumption |
| `Devices.WithBrightness` | main.py:24-26 | the level is stored exactly when 0 <= level <= 100; otherwise the status is unchanged; switch, consumption and temperature are never touched |
| `Devices.Device.SetBrightness` | main.py:24-26 | only on a light; the new status is `WithBrightness` of the old one; the invariant is preserved |
| `Devices.WithTemperature` | main.py:36-38 | the temperature is stored exactly when -10 <= temp <= 10; otherwise the status is unchanged; switch, consumption and brightness are never touched |
| `Devices.Device.SetTemperature` | main.py:36-38 | only on a fridge; the new status is `WithTemperature` of the old one; the invariant is preserved |
| `Devices.SettersKeepCoupling` | main.py:24-38 | neither setter can break the coupling between switch and consumption |
| `Home.SmartHome.constructor` | main.py:45-46 | a new home has an empty device list |
| `Home.SmartHome.AddDevice` | main.py:48-49 | the new list is the old list with the device appended, with no length bound; no device's status changes |
| `Home.Filter` | main.py:52 | the result holds only devices drawn from the input whose name differs, and keeps every such device with its full multiplicity |
| `Home.FilterAppend` | main.py:52 | filtering distributes over concatenation, so the kept devices stay in their original relative order |
| `Home.FilterAbsent` | main.py:52 | a list with no device of that name is returned unchanged |
| `Home.FilterIdempotent` | main.py:51-52 | removing by the same name twice equals removing once |
| `Home.SmartHome.RemoveDevice` | main.py:51-52 | the new list is the filtered old list: no device of that name remains, every other device is kept with its multiplicity, and the invariant is preserved |
| `Home.FirstIndex` | main.py:55-56 | returns the least index whose device has that name, or nothing exactly when no device has it |
| `Home.SmartHome.ToggleDevice` | main.py:54-59 | with a match, returns the first matching device, whose status becomes `Toggled` of its old status, and leaves every other device unchanged; with no match, returns null and changes nothing; the list itself is never changed |

## Left out

- The graphical application (`SmartHomeApp`, main.py:62-109) and the program entry point (main.py:111-114): window widgets, message boxes and the event loop are UI and I/O.
- The `__str__` methods (main.py:15-16, 28-29, 40-41): display text only.
- The GUI recovers a device's name from its display text by splitting on `" - "`. That breaks for names containing `" - "`. The model takes names directly, so it assumes no such name reaches the home through the GUI.
- The GUI's automatic naming (`"SmartLight"` plus the list length plus one) can repeat a name after a removal. The model permits duplicate names and states the behaviour of every operation for them.
- Setter and constructor arguments (`level`, `temp`, `brightness`, `temperature`) are modelled as integers. Python also accepts floats, for example `set_brightness(50.5)`, and stores them.
- Names in the source can be any value; the model uses strings. Names are constants, because no code path reassigns them.
- Python lets any code assign a device's fields directly. The model only changes them through the constructors and methods above.
- A plug has no brightness or temperature attribute, and a light has no temperature. The model keeps those fields at 0; `Valid()` states this.
- Calling `set_brightness` on a non-light fails in Python because the method is missing. The model makes the matching kind a precondition of `SetBrightness`, and likewise for `SetTemperature`.
