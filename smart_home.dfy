/**
 * The smart-home controller: an ordered registry of devices that grows only
 * by appending, a first-match lookup by name, the two capability-filtered
 * bulk operations and the quick-breakfast scene.
 *
 * The functions below specify the controller's operations on a registry
 * value; the `Controller` class holds the registry as a mutable field and its
 * methods are proved to compute those functions.
 */
module SmartHome {
  import opened Wrappers
  import opened Devices

  // ---------------------------------------------------------------------
  // Lookup by name
  // ---------------------------------------------------------------------

  /** The position of the first device named `name`, if there is one. */
  function IndexOf(ds: seq<Device>, name: string): (r: Option<nat>)
    ensures r.Some? ==> r.value < |ds| && ds[r.value].name == name
    ensures r.Some? ==> forall j :: 0 <= j < r.value ==> ds[j].name != name
    ensures r.None? ==> forall j :: 0 <= j < |ds| ==> ds[j].name != name
  {
    if ds == [] then None
    else if ds[0].name == name then Some(0)
    else match IndexOf(ds[1..], name)
      case None => None
      case Some(i) => Some(i + 1)
  }

  /** The first device named `name` in registration order, if there is one. */
  function Lookup(ds: seq<Device>, name: string): Option<Device> {
    match IndexOf(ds, name)
    case None => None
    case Some(i) => Some(ds[i])
  }

  /** Lookup finds a device exactly when it is the earliest registered device with that name. */
  lemma LookupIsFirstMatch(ds: seq<Device>, name: string, d: Device)
    ensures Lookup(ds, name) == Some(d) <==>
            exists i :: 0 <= i < |ds| && ds[i] == d && d.name == name &&
                        forall j :: 0 <= j < i ==> ds[j].name != name
  {
  }

  /**
   * Registering a device never changes which device an already-present name
   * finds: a later duplicate is never returned. A new name finds the new device.
   */
  lemma LookupAfterAdd(ds: seq<Device>, d: Device, name: string)
    ensures Lookup(ds + [d], name) ==
            if Lookup(ds, name).Some? then Lookup(ds, name)
            else if d.name == name then Some(d)
            else None
  {
    var ds' := ds + [d];
    match IndexOf(ds, name)
    case Some(i) =>
      assert ds'[i] == ds[i];
      assert IndexOf(ds', name) == Some(i);
    case None =>
      if d.name == name {
        assert ds'[|ds|] == d;
        assert IndexOf(ds', name) == Some(|ds|);
      } else {
        assert forall j :: 0 <= j < |ds'| ==> ds'[j].name != name by {
          forall j | 0 <= j < |ds'| ensures ds'[j].name != name {
            if j < |ds| { assert ds'[j] == ds[j]; }
          }
        }
      }
  }

  // ---------------------------------------------------------------------
  // Bulk switching
  // ---------------------------------------------------------------------

  /** What `turn_on_all` returns for a registry. */
  function TurnOnAllOf(ds: seq<Device>): seq<string> {
    if ds == [] then []
    else
      var last := ds[|ds| - 1];
      TurnOnAllOf(ds[..|ds| - 1]) + (if IsSwitchable(last.kind) then [TurnOn(last.kind)] else [])
  }

  /** What `turn_off_all` returns for a registry. */
  function TurnOffAllOf(ds: seq<Device>): seq<string> {
    if ds == [] then []
    else
      var last := ds[|ds| - 1];
      TurnOffAllOf(ds[..|ds| - 1]) + (if IsSwitchable(last.kind) then [TurnOff(last.kind)] else [])
  }

  /** The positions of the switchable devices of a registry, in increasing order. */
  function SwitchableIndices(ds: seq<Device>): (idx: seq<nat>)
    ensures forall j :: 0 <= j < |idx| ==> idx[j] < |ds| && IsSwitchable(ds[idx[j]].kind)
    ensures forall j, k :: 0 <= j < k < |idx| ==> idx[j] < idx[k]
    ensures forall i :: 0 <= i < |ds| && IsSwitchable(ds[i].kind) ==> i in idx
  {
    if ds == [] then []
    else
      var n := |ds| - 1;
      SwitchableIndices(ds[..n]) + (if IsSwitchable(ds[n].kind) then [n] else [])
  }

  /**
   * `turn_on_all` reports the `turn_on` status of exactly the switchable
   * devices, one each, in registration order; all other devices are skipped.
   */
  lemma {:induction false} TurnOnAllSelectsSwitchables(ds: seq<Device>)
    ensures |TurnOnAllOf(ds)| == |SwitchableIndices(ds)|
    ensures forall j :: 0 <= j < |SwitchableIndices(ds)| ==>
              TurnOnAllOf(ds)[j] == TurnOn(ds[SwitchableIndices(ds)[j]].kind)
  {
    if ds != [] {
      var n := |ds| - 1;
      TurnOnAllSelectsSwitchables(ds[..n]);
      var idx, idx' := SwitchableIndices(ds), SwitchableIndices(ds[..n]);
      forall j | 0 <= j < |idx'| ensures ds[idx[j]] == ds[..n][idx'[j]] {
        assert idx[j] == idx'[j];
      }
    }
  }

  /**
   * `turn_off_all` reports the `turn_off` status of exactly the switchable
   * devices, one each, in registration order; all other devices are skipped.
   */
  lemma {:induction false} TurnOffAllSelectsSwitchables(ds: seq<Device>)
    ensures |TurnOffAllOf(ds)| == |SwitchableIndices(ds)|
    ensures forall j :: 0 <= j < |SwitchableIndices(ds)| ==>
              TurnOffAllOf(ds)[j] == TurnOff(ds[SwitchableIndices(ds)[j]].kind)
  {
    if ds != [] {
      var n := |ds| - 1;
      TurnOffAllSelectsSwitchables(ds[..n]);
      var idx, idx' := SwitchableIndices(ds), SwitchableIndices(ds[..n]);
      forall j | 0 <= j < |idx'| ensures ds[idx[j]] == ds[..n][idx'[j]] {
        assert idx[j] == idx'[j];
      }
    }
  }

  /**
   * Bulk switching is compositional over the registry: the statuses for a
   * registry extended by further devices are the old statuses followed by
   * those of the new devices, so registering never reorders earlier output.
   */
  lemma {:induction false} SwitchAllAppend(a: seq<Device>, b: seq<Device>)
    ensures TurnOnAllOf(a + b) == TurnOnAllOf(a) + TurnOnAllOf(b)
    ensures TurnOffAllOf(a + b) == TurnOffAllOf(a) + TurnOffAllOf(b)
  {
    if b == [] {
      assert a + b == a;
    } else {
      var n := |b| - 1;
      assert (a + b)[..|a + b| - 1] == a + b[..n];
      SwitchAllAppend(a, b[..n]);
    }
  }

  // ---------------------------------------------------------------------
  // Quick breakfast scene
  // ---------------------------------------------------------------------

  /** What `make_quick_breakfast` returns for a registry. */
  function QuickBreakfastOf(ds: seq<Device>, blindsName: string, coffeeMakerName: string, coffeeType: string): seq<string> {
    var blinds := Lookup(ds, blindsName);
    var coffeeMaker := Lookup(ds, coffeeMakerName);
    (if blinds.Some? && blinds.value.kind == Blinds then [Open(Blinds)] else [])
    + (if coffeeMaker.Some? && coffeeMaker.value.kind == CoffeeMaker
       then [TurnOn(CoffeeMaker), Brew(CoffeeMaker, coffeeType), TurnOff(CoffeeMaker)]
       else [])
  }

  /**
   * The scene opens the blinds only when the first device named `blindsName`
   * is a Blinds, and runs the coffee maker (on, brew, off) only when the first
   * device named `coffeeMakerName` is a CoffeeMaker; the blinds come first and
   * anything else contributes nothing.
   */
  lemma QuickBreakfastShape(ds: seq<Device>, blindsName: string, coffeeMakerName: string, coffeeType: string)
    ensures var r := QuickBreakfastOf(ds, blindsName, coffeeMakerName, coffeeType);
            var opens := exists i :: 0 <= i < |ds| && ds[i].name == blindsName && ds[i].kind == Blinds &&
                                     forall j :: 0 <= j < i ==> ds[j].name != blindsName;
            var brews := exists i :: 0 <= i < |ds| && ds[i].name == coffeeMakerName && ds[i].kind == CoffeeMaker &&
                                     forall j :: 0 <= j < i ==> ds[j].name != coffeeMakerName;
            && |r| == (if opens then 1 else 0) + (if brews then 3 else 0)
            && (opens ==> r[0] == "Blinds opened")
            && (brews ==> r[|r| - 3..] == ["Coffee maker turned on", "Brewing " + coffeeType + " coffee", "Coffee maker turned off"])
  {
    var b := Lookup(ds, blindsName);
    var c := Lookup(ds, coffeeMakerName);
    if b.Some? { LookupIsFirstMatch(ds, blindsName, b.value); }
    if c.Some? { LookupIsFirstMatch(ds, coffeeMakerName, c.value); }
    if exists i :: 0 <= i < |ds| && ds[i].name == blindsName && ds[i].kind == Blinds &&
                   forall j :: 0 <= j < i ==> ds[j].name != blindsName {
      var i :| 0 <= i < |ds| && ds[i].name == blindsName && ds[i].kind == Blinds &&
               forall j :: 0 <= j < i ==> ds[j].name != blindsName;
      LookupIsFirstMatch(ds, blindsName, ds[i]);
    }
    if exists i :: 0 <= i < |ds| && ds[i].name == coffeeMakerName && ds[i].kind == CoffeeMaker &&
                   forall j :: 0 <= j < i ==> ds[j].name != coffeeMakerName {
      var i :| 0 <= i < |ds| && ds[i].name == coffeeMakerName && ds[i].kind == CoffeeMaker &&
               forall j :: 0 <= j < i ==> ds[j].name != coffeeMakerName;
      LookupIsFirstMatch(ds, coffeeMakerName, ds[i]);
    }
  }

  // ---------------------------------------------------------------------
  // The controller object
  // ---------------------------------------------------------------------

  class Controller {
    /** The registered devices, in registration order. */
    var devices: seq<Device>

    constructor ()
      ensures devices == []
    {
      devices := [];
    }

    /** Appends the device; earlier devices keep their positions and no name check is made. */
    method AddDevice(device: Device)
      modifies this
      ensures devices == old(devices) + [device]
    {
      devices := devices + [device];
    }

    /** The statuses of switching every switchable device on, in registration order. */
    method TurnOnAll() returns (result: seq<string>)
      ensures result == TurnOnAllOf(devices)
    {
      result := [];
      for i := 0 to |devices|
        invariant result == TurnOnAllOf(devices[..i])
      {
        var device := devices[i];
        if IsSwitchable(device.kind) {
          result := result + [TurnOn(device.kind)];
        }
        assert devices[..i + 1][..i] == devices[..i];
      }
      assert devices[..|devices|] == devices;
    }

    /** The statuses of switching every switchable device off, in registration order. */
    method TurnOffAll() returns (result: seq<string>)
      ensures result == TurnOffAllOf(devices)
    {
      result := [];
      for i := 0 to |devices|
        invariant result == TurnOffAllOf(devices[..i])
      {
        var device := devices[i];
        if IsSwitchable(device.kind) {
          result := result + [TurnOff(device.kind)];
        }
        assert devices[..i + 1][..i] == devices[..i];
      }
      assert devices[..|devices|] == devices;
    }

    /** The first registered device named `name`, or nothing. */
    method FindDevice(name: string) returns (found: Option<Device>)
      ensures found == Lookup(devices, name)
    {
      var i := 0;
      while i < |devices|
        invariant 0 <= i <= |devices|
        invariant forall j :: 0 <= j < i ==> devices[j].name != name
      {
        if devices[i].name == name {
          return Some(devices[i]);
        }
        i := i + 1;
      }
      return None;
    }

    /** Opens the named blinds, then runs the named coffee maker, skipping what is absent. */
    method MakeQuickBreakfast(blindsName: string, coffeeMakerName: string, coffeeType: string)
      returns (result: seq<string>)
      ensures result == QuickBreakfastOf(devices, blindsName, coffeeMakerName, coffeeType)
    {
      result := [];
      var blinds := FindDevice(blindsName);
      if blinds.Some? && blinds.value.kind == Blinds {
        result := result + [Open(blinds.value.kind)];
      }
      var coffeeMaker := FindDevice(coffeeMakerName);
      if coffeeMaker.Some? && coffeeMaker.value.kind == CoffeeMaker {
        var k := coffeeMaker.value.kind;
        result := result + [TurnOn(k)];
        result := result + [Brew(k, coffeeType)];
        result := result + [TurnOff(k)];
      }
    }
  }

  /**
   * The bulk operations and the scene only read the registry, so calling any
   * of them twice in a row gives identical results.
   */
  method RepeatedCallsAgree(c: Controller, blindsName: string, coffeeMakerName: string, coffeeType: string)
    returns (on1: seq<string>, on2: seq<string>, off1: seq<string>, off2: seq<string>,
             breakfast1: seq<string>, breakfast2: seq<string>)
    ensures on1 == on2 && off1 == off2 && breakfast1 == breakfast2
    ensures c.devices == old(c.devices)
  {
    on1 := c.TurnOnAll();
    on2 := c.TurnOnAll();
    off1 := c.TurnOffAll();
    off2 := c.TurnOffAll();
    breakfast1 := c.MakeQuickBreakfast(blindsName, coffeeMakerName, coffeeType);
    breakfast2 := c.MakeQuickBreakfast(blindsName, coffeeMakerName, coffeeType);
  }

  /** Two switchable lights, a networkable light, a dimmable light, a coffee maker and an AC. */
  function Household(living: string, dining: string, kitchen: string, bedroom: string, coffee: string, ac: string): seq<Device> {
    [Device(living, SwitchableLight), Device(dining, SwitchableLight), Device(kitchen, NetworkableLight),
     Device(bedroom, DimmableLight), Device(coffee, CoffeeMaker), Device(ac, AirConditioner)]
  }

  /** Every device of the household is switchable, so each reports its turn_on status, in order. */
  lemma HouseholdTurnOn(living: string, dining: string, kitchen: string, bedroom: string, coffee: string, ac: string)
    ensures TurnOnAllOf(Household(living, dining, kitchen, bedroom, coffee, ac)) ==
            ["Switchable light turned on", "Switchable light turned on",
             "Networkable light turned on", "Dimmable light turned on at full brightness",
             "Coffee maker turned on", "AC turned on"]
  {
    var d0 := Device(living, SwitchableLight);
    var d1 := Device(dining, SwitchableLight);
    var d2 := Device(kitchen, NetworkableLight);
    var d3 := Device(bedroom, DimmableLight);
    var d4 := Device(coffee, CoffeeMaker);
    var d5 := Device(ac, AirConditioner);
    assert [d0][..0] == [];
    assert TurnOnAllOf([d0]) == TurnOnAllOf([]) + ["Switchable light turned on"];
    assert [d0, d1][..1] == [d0];
    assert TurnOnAllOf([d0, d1]) == TurnOnAllOf([d0]) + ["Switchable light turned on"];
    assert [d0, d1, d2][..2] == [d0, d1];
    assert TurnOnAllOf([d0, d1, d2]) == TurnOnAllOf([d0, d1]) + ["Networkable light turned on"];
    assert [d0, d1, d2, d3][..3] == [d0, d1, d2];
    assert TurnOnAllOf([d0, d1, d2, d3]) == TurnOnAllOf([d0, d1, d2]) + ["Dimmable light turned on at full brightness"];
    assert [d0, d1, d2, d3, d4][..4] == [d0, d1, d2, d3];
    assert TurnOnAllOf([d0, d1, d2, d3, d4]) == TurnOnAllOf([d0, d1, d2, d3]) + ["Coffee maker turned on"];
    assert [d0, d1, d2, d3, d4, d5][..5] == [d0, d1, d2, d3, d4];
  }

  /** Every device of the household is switchable, so each reports its turn_off status, in order. */
  lemma HouseholdTurnOff(living: string, dining: string, kitchen: string, bedroom: string, coffee: string, ac: string)
    ensures TurnOffAllOf(Household(living, dining, kitchen, bedroom, coffee, ac)) ==
            ["Switchable light turned off", "Switchable light turned off",
             "Networkable light turned off", "Dimmable light turned off",
             "Coffee maker turned off", "AC turned off"]
  {
    var d0 := Device(living, SwitchableLight);
    var d1 := Device(dining, SwitchableLight);
    var d2 := Device(kitchen, NetworkableLight);
    var d3 := Device(bedroom, DimmableLight);
    var d4 := Device(coffee, CoffeeMaker);
    var d5 := Device(ac, AirConditioner);
    assert [d0][..0] == [];
    assert TurnOffAllOf([d0]) == TurnOffAllOf([]) + ["Switchable light turned off"];
    assert [d0, d1][..1] == [d0];
    assert TurnOffAllOf([d0, d1]) == TurnOffAllOf([d0]) + ["Switchable light turned off"];
    assert [d0, d1, d2][..2] == [d0, d1];
    assert TurnOffAllOf([d0, d1, d2]) == TurnOffAllOf([d0, d1]) + ["Networkable light turned off"];
    assert [d0, d1, d2, d3][..3] == [d0, d1, d2];
    assert TurnOffAllOf([d0, d1, d2, d3]) == TurnOffAllOf([d0, d1, d2]) + ["Dimmable light turned off"];
    assert [d0, d1, d2, d3, d4][..4] == [d0, d1, d2, d3];
    assert TurnOffAllOf([d0, d1, d2, d3, d4]) == TurnOffAllOf([d0, d1, d2, d3]) + ["Coffee maker turned off"];
    assert [d0, d1, d2, d3, d4, d5][..5] == [d0, d1, d2, d3, d4];
  }

  /** A household of six devices: every one is switchable, so every one reports. */
  method HouseholdScenario() returns (on: seq<string>, off: seq<string>)
    ensures on == ["Switchable light turned on", "Switchable light turned on",
                   "Networkable light turned on", "Dimmable light turned on at full brightness",
                   "Coffee maker turned on", "AC turned on"]
    ensures off == ["Switchable light turned off", "Switchable light turned off",
                    "Networkable light turned off", "Dimmable light turned off",
                    "Coffee maker turned off", "AC turned off"]
  {
    var c := new Controller();
    c.AddDevice(Device("Living Room Light", SwitchableLight));
    c.AddDevice(Device("Dining Room Light", SwitchableLight));
    c.AddDevice(Device("Kitchen Light", NetworkableLight));
    c.AddDevice(Device("Bedroom Light", DimmableLight));
    c.AddDevice(Device("Coffee Maker", CoffeeMaker));
    c.AddDevice(Device("AC", AirConditioner));
    assert c.devices == Household("Living Room Light", "Dining Room Light", "Kitchen Light", "Bedroom Light", "Coffee Maker", "AC");
    HouseholdTurnOn("Living Room Light", "Dining Room Light", "Kitchen Light", "Bedroom Light", "Coffee Maker", "AC");
    HouseholdTurnOff("Living Room Light", "Dining Room Light", "Kitchen Light", "Bedroom Light", "Coffee Maker", "AC");
    on := c.TurnOnAll();
    off := c.TurnOffAll();
  }

  /** Blinds and a coffee maker registered under the names the scene is given. */
  method BreakfastScenario() returns (r: seq<string>)
    ensures r == ["Blinds opened", "Coffee maker turned on", "Brewing Colombian coffee", "Coffee maker turned off"]
  {
    var c := new Controller();
    c.AddDevice(Device("Bedroom Blinds", Blinds));
    c.AddDevice(Device("Coffee Maker", CoffeeMaker));
    assert c.devices[1..][0].name == "Coffee Maker";
    assert IndexOf(c.devices, "Coffee Maker") == Some(1);
    assert Brew(CoffeeMaker, "Colombian") == "Brewing Colombian coffee";
    r := c.MakeQuickBreakfast("Bedroom Blinds", "Coffee Maker", "Colombian");
  }
}
