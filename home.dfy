/** The smart home: an ordered, unbounded list of devices with append,
    remove-by-name and toggle-by-name. Names are not required to be unique, and
    the same device object may be added more than once. */
module Home {

  import opened Devices

  datatype Option<T> = None | Some(value: T)

  /** The devices of `s` whose name differs from `name`, in their original order.
      A device's name never changes, so this depends on no mutable state. */
  function Filter(s: seq<Device>, name: string): (r: seq<Device>)
    ensures forall d :: d in r ==> d in s && d.name != name
    ensures forall d :: d in s && d.name != name ==> multiset(r)[d] == multiset(s)[d]
    ensures |r| <= |s|
  {
    if s == [] then []
    else
      assert s == [s[0]] + s[1..];
      if s[0].name == name then Filter(s[1..], name)
      else [s[0]] + Filter(s[1..], name)
  }

  /** Filtering keeps the relative order: it distributes over concatenation. */
  lemma {:induction false} FilterAppend(a: seq<Device>, b: seq<Device>, name: string)
    ensures Filter(a + b, name) == Filter(a, name) + Filter(b, name)
  {
    if a == [] {
      assert a + b == b;
    } else {
      assert (a + b)[1..] == a[1..] + b;
      FilterAppend(a[1..], b, name);
    }
  }

  /** A list with no device of that name is left exactly as it is. */
  lemma {:induction false} FilterAbsent(s: seq<Device>, name: string)
    requires forall d :: d in s ==> d.name != name
    ensures Filter(s, name) == s
  {
    if s != [] {
      FilterAbsent(s[1..], name);
    }
  }

  /** Removing by name twice is the same as removing once. */
  lemma FilterIdempotent(s: seq<Device>, name: string)
    ensures Filter(Filter(s, name), name) == Filter(s, name)
  {
    FilterAbsent(Filter(s, name), name);
  }

  /** The index of the first device of `s` named `name`, if there is one. */
  function FirstIndex(s: seq<Device>, name: string): (r: Option<nat>)
    ensures r.Some? ==> r.value < |s| && s[r.value].name == name
    ensures r.Some? ==> forall j :: 0 <= j < r.value ==> s[j].name != name
    ensures r.None? <==> forall j :: 0 <= j < |s| ==> s[j].name != name
  {
    if s == [] then None
    else if s[0].name == name then Some(0)
    else match FirstIndex(s[1..], name)
      case None => None
      case Some(k) => Some(k + 1)
  }

  class SmartHome {
    var devices: seq<Device>

    /** Every device held satisfies the device invariant. */
    ghost predicate Valid()
      reads this, devices
    {
      forall d :: d in devices ==> d.Valid()
    }

    /** `SmartHome()`: an empty home. */
    constructor ()
      ensures devices == [] && Valid()
    {
      devices := [];
    }

    /** `add_device`: append at the end, with no bound on the length. */
    method AddDevice(device: Device)
      modifies this
      ensures devices == old(devices) + [device]
      ensures forall d :: d in old(devices) ==> d.Snapshot() == old(d.Snapshot())
      ensures old(Valid()) && device.Valid() ==> Valid()
    {
      devices := devices + [device];
    }

    /** `remove_device`: drop every device with the given name. */
    method RemoveDevice(name: string)
      modifies this
      ensures devices == Filter(old(devices), name)
      ensures forall d :: d in devices ==> d.name != name
      ensures forall d :: d in old(devices) && d.name != name ==> multiset(devices)[d] == multiset(old(devices))[d]
      ensures old(Valid()) ==> Valid()
    {
      devices := Filter(devices, name);
    }

    /** `toggle_device`: toggle the first device with the given name and return
        it, or return null when no device has that name. The list itself and
        every other device are left unchanged. */
    method ToggleDevice(name: string) returns (toggled: Device?)
      modifies devices
      ensures devices == old(devices)
      ensures FirstIndex(devices, name).None? ==>
        toggled == null &&
        forall d :: d in devices ==> d.Snapshot() == old(d.Snapshot())
      ensures FirstIndex(devices, name).Some? ==>
        toggled == devices[FirstIndex(devices, name).value] &&
        toggled.Snapshot() == Toggled(old(toggled.Snapshot())) &&
        forall d :: d in devices && d != toggled ==> d.Snapshot() == old(d.Snapshot())
      ensures old(Valid()) ==> Valid()
    {
      var i := 0;
      while i < |devices|
        invariant 0 <= i <= |devices|
        invariant forall j :: 0 <= j < i ==> devices[j].name != name
        invariant forall d :: d in devices ==> d.Snapshot() == old(d.Snapshot())
      {
        if devices[i].name == name {
          devices[i].Toggle();
          return devices[i];
        }
        i := i + 1;
      }
      return null;
    }
  }

  /** A client of the home: two lights share a name; removing by that name
      drops both, and toggling by a name reaches the first match only. */
  method DuplicateNames()
  {
    var home := new SmartHome();
    var a := new Device.NewLight("Lamp");
    var b := new Device.NewPlug("Kettle");
    var c := new Device.NewLight("Lamp", 80);
    home.AddDevice(a);
    home.AddDevice(b);
    home.AddDevice(c);
    assert home.devices == [a, b, c];

    var t := home.ToggleDevice("Lamp");
    assert t == a && a.isOn && a.consumption == 150;
    assert c in home.devices && c != t;
    assert !c.isOn && c.brightness == 80;

    t := home.ToggleDevice("Fan");
    assert t == null;

    assert Filter([a, b, c], "Lamp") == [b] by {
      assert [a, b, c] == [a] + ([b] + [c]);
      FilterAppend([a], [b] + [c], "Lamp");
      FilterAppend([b], [c], "Lamp");
    }
    home.RemoveDevice("Lamp");
    assert home.devices == [b];
  }
}
