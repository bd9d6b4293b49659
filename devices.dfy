/** The three device classes of the smart-home panel: a plug, and a light and a
    fridge that inherit the plug's on/off switch and add one setting each.

    The source expresses the variants by inheritance (a light and a fridge are
    plugs); here they are one class with a fixed kind tag. The shared `Toggle`
    is available on every kind, each setter only on the kind that declares it. */
module Devices {

  datatype Kind = Plug | Light | Fridge

  /** Watts reported by a device that is switched on; a device that is off reports 0. */
  const OnConsumption: int := 150

  /** Initial settings of a new light and a new fridge (not range-checked). */
  const DefaultBrightness: int := 50
  const DefaultTemperature: int := 4

  /** The consumption that goes with an on/off state. */
  function ConsumptionWhen(on: bool): int {
    if on then OnConsumption else 0
  }

  /** Levels `set_brightness` stores; any other level is ignored. */
  predicate BrightnessAccepted(level: int) {
    0 <= level <= 100
  }

  /** Temperatures `set_temperature` stores; any other temperature is ignored. */
  predicate TemperatureAccepted(temp: int) {
    -10 <= temp <= 10
  }

  /** The mutable part of a device, as a value. A plug has neither a brightness
      nor a temperature; for it (and for the kind that lacks one) the field is 0. */
  datatype Status = Status(isOn: bool, consumption: int, brightness: int, temperature: int)

  /** The coupling the source maintains: consumption follows the switch. */
  predicate Coupled(s: Status) {
    s.consumption == ConsumptionWhen(s.isOn)
  }

  /** The status of a device that was just created: off, drawing nothing. */
  function Initial(brightness: int, temperature: int): (s: Status)
    ensures !s.isOn && s.consumption == 0 && Coupled(s)
    ensures s.brightness == brightness && s.temperature == temperature
  {
    Status(false, 0, brightness, temperature)
  }

  /** The status after `toggle`: the switch flips, the consumption follows the
      new state, and the kind-specific setting is untouched. */
  function Toggled(s: Status): (r: Status)
    ensures r.isOn == !s.isOn
    ensures Coupled(r)
    ensures r.brightness == s.brightness && r.temperature == s.temperature
  {
    s.(isOn := !s.isOn, consumption := ConsumptionWhen(!s.isOn))
  }

  /** The status after `set_brightness(level)`: the level is stored exactly when
      it is accepted; nothing else changes. */
  function WithBrightness(s: Status, level: int): (r: Status)
    ensures BrightnessAccepted(level) ==> r.brightness == level
    ensures !BrightnessAccepted(level) ==> r == s
    ensures r.isOn == s.isOn && r.consumption == s.consumption && r.temperature == s.temperature
  {
    if BrightnessAccepted(level) then s.(brightness := level) else s
  }

  /** The status after `set_temperature(temp)`: the temperature is stored exactly
      when it is accepted; nothing else changes. */
  function WithTemperature(s: Status, temp: int): (r: Status)
    ensures TemperatureAccepted(temp) ==> r.temperature == temp
    ensures !TemperatureAccepted(temp) ==> r == s
    ensures r.isOn == s.isOn && r.consumption == s.consumption && r.brightness == s.brightness
  {
    if TemperatureAccepted(temp) then s.(temperature := temp) else s
  }

  /** Toggling twice restores a coupled status completely. */
  lemma ToggleTwiceRestores(s: Status)
    requires Coupled(s)
    ensures Toggled(Toggled(s)) == s
  {
  }

  /** Neither setter can break the coupling between switch and consumption. */
  lemma SettersKeepCoupling(s: Status, level: int, temp: int)
    requires Coupled(s)
    ensures Coupled(WithBrightness(s, level))
    ensures Coupled(WithTemperature(s, temp))
  {
  }

  class Device {
    const kind: Kind
    const name: string
    var isOn: bool
    var consumption: int
    var brightness: int
    var temperature: int

    function Snapshot(): Status
      reads this
    {
      Status(isOn, consumption, brightness, temperature)
    }

    /** Object invariant: consumption follows the switch, and a setting the
        kind does not have stays at 0. */
    ghost predicate Valid()
      reads this
    {
      Coupled(Snapshot()) &&
      (kind != Light ==> brightness == 0) &&
      (kind != Fridge ==> temperature == 0)
    }

    /** `SmartPlug(name)`. */
    constructor NewPlug(name: string)
      ensures kind == Plug && this.name == name
      ensures Snapshot() == Initial(0, 0) && Valid()
    {
      kind, this.name := Plug, name;
      isOn, consumption := false, 0;
      brightness, temperature := 0, 0;
    }

    /** `SmartLight(name, brightness=50)`: the initial brightness is stored as
        given, without the range check of `set_brightness`. */
    constructor NewLight(name: string, brightness: int := DefaultBrightness)
      ensures kind == Light && this.name == name
      ensures Snapshot() == Initial(brightness, 0) && Valid()
    {
      kind, this.name := Light, name;
      isOn, consumption := false, 0;
      this.brightness, temperature := brightness, 0;
    }

    /** `SmartFridge(name, temperature=4)`: the initial temperature is stored as
        given, without the range check of `set_temperature`. */
    constructor NewFridge(name: string, temperature: int := DefaultTemperature)
      ensures kind == Fridge && this.name == name
      ensures Snapshot() == Initial(0, temperature) && Valid()
    {
      kind, this.name := Fridge, name;
      isOn, consumption := false, 0;
      brightness, this.temperature := 0, temperature;
    }

    /** `toggle`, shared by all kinds. */
    method Toggle()
      modifies this
      ensures Snapshot() == Toggled(old(Snapshot()))
      ensures old(Valid()) ==> Valid()
    {
      isOn := !isOn;
      consumption := if !isOn then 0 else OnConsumption;
    }

    /** `SmartLight.set_brightness`. */
    method SetBrightness(level: int)
      requires kind == Light
      modifies this
      ensures Snapshot() == WithBrightness(old(Snapshot()), level)
      ensures old(Valid()) ==> Valid()
    {
      if 0 <= level <= 100 {
        brightness := level;
      }
    }

    /** `SmartFridge.set_temperature`. */
    method SetTemperature(temp: int)
      requires kind == Fridge
      modifies this
      ensures Snapshot() == WithTemperature(old(Snapshot()), temp)
      ensures old(Valid()) ==> Valid()
    {
      if -10 <= temp <= 10 {
        temperature := temp;
      }
    }
  }
}
