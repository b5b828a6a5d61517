/**
 * The device catalogue: seven concrete device kinds, the capabilities each
 * one implements, and the status string every capability operation returns.
 * A device is its name and its kind; no operation keeps any state, so every
 * status is a function of the kind and the operation's arguments only.
 */
module Devices {
  import opened Wrappers
  import Decimal

  /** The range of the C++ `int` parameters of `dim` and `set_temperature`. */
  type Int32 = x: int | -0x8000_0000 <= x < 0x8000_0000

  datatype Kind =
    | SwitchableLight
    | DimmableLight
    | NetworkableLight
    | AirConditioner
    | CoffeeMaker
    | Blinds
    | VacuumCleaner

  datatype Device = Device(name: string, kind: Kind)

  // Which capability interfaces each concrete kind implements.

  predicate IsSwitchable(k: Kind) {
    k.SwitchableLight? || k.DimmableLight? || k.NetworkableLight? || k.AirConditioner? || k.CoffeeMaker?
  }

  predicate IsDimmable(k: Kind) {
    k.DimmableLight?
  }

  predicate IsNetworkable(k: Kind) {
    k.NetworkableLight?
  }

  predicate IsTemperatureAdjustable(k: Kind) {
    k.AirConditioner?
  }

  predicate IsBeverageMaker(k: Kind) {
    k.CoffeeMaker?
  }

  predicate IsShadeControl(k: Kind) {
    k.Blinds?
  }

  predicate IsCleaningAppliance(k: Kind) {
    k.VacuumCleaner?
  }

  /** Every kind implements at least one capability, so no registered device is inert. */
  lemma EveryKindHasACapability(k: Kind)
    ensures IsSwitchable(k) || IsShadeControl(k) || IsCleaningAppliance(k)
    ensures IsDimmable(k) || IsNetworkable(k) || IsTemperatureAdjustable(k) || IsBeverageMaker(k) ==> IsSwitchable(k)
  {
  }

  // Switchable

  function TurnOn(k: Kind): string
    requires IsSwitchable(k)
  {
    match k
    case SwitchableLight => "Switchable light turned on"
    case DimmableLight => "Dimmable light turned on at full brightness"
    case NetworkableLight => "Networkable light turned on"
    case AirConditioner => "AC turned on"
    case CoffeeMaker => "Coffee maker turned on"
  }

  function TurnOff(k: Kind): string
    requires IsSwitchable(k)
  {
    match k
    case SwitchableLight => "Switchable light turned off"
    case DimmableLight => "Dimmable light turned off"
    case NetworkableLight => "Networkable light turned off"
    case AirConditioner => "AC turned off"
    case CoffeeMaker => "Coffee maker turned off"
  }

  /**
   * The on and off statuses of a switchable device differ, and each one
   * names the kind that produced it: no two kinds share a status.
   */
  lemma SwitchStatusesIdentifyKind(a: Kind, b: Kind)
    requires IsSwitchable(a) && IsSwitchable(b)
    ensures TurnOn(a) == TurnOn(b) <==> a == b
    ensures TurnOff(a) == TurnOff(b) <==> a == b
    ensures TurnOn(a) != TurnOff(b)
  {
  }

  // Dimmable

  const DimPrefix: string := "Dimmable light dimmed to "

  function Dim(k: Kind, levelInPercent: Int32): string
    requires IsDimmable(k)
  {
    DimPrefix + Decimal.IntToDecimal(levelInPercent) + "%"
  }

  /** The level a `Dim` status reports, if the string is one. */
  function DimLevel(s: string): Option<int> {
    if |s| > |DimPrefix| && s[..|DimPrefix|] == DimPrefix && s[|s| - 1] == '%'
    then Decimal.ParseInt(s[|DimPrefix|..|s| - 1])
    else None
  }

  lemma DimLevelOfDim(k: Kind, level: Int32)
    requires IsDimmable(k)
    ensures DimLevel(Dim(k, level)) == Some(level as int)
  {
    var s, digits := Dim(k, level), Decimal.IntToDecimal(level);
    assert s[..|DimPrefix|] == DimPrefix;
    assert s[|DimPrefix|..|s| - 1] == digits;
    Decimal.RenderThenParse(level);
  }

  lemma DimOfDimLevel(k: Kind, s: string, level: Int32)
    requires IsDimmable(k)
    requires DimLevel(s) == Some(level as int)
    ensures s == Dim(k, level)
  {
    var mid := s[|DimPrefix|..|s| - 1];
    Decimal.ParseThenRender(mid, level);
    assert s == s[..|DimPrefix|] + mid + [s[|s| - 1]];
  }

  /**
   * `dim` passes any level through verbatim, with no range check: the level
   * can be read back from the status, and only that level's status reads back as it.
   */
  lemma DimReadBack(k: Kind, s: string, level: Int32)
    requires IsDimmable(k)
    ensures DimLevel(s) == Some(level as int) <==> s == Dim(k, level)
  {
    if s == Dim(k, level) {
      DimLevelOfDim(k, level);
    }
    if DimLevel(s) == Some(level as int) {
      DimOfDimLevel(k, s, level);
    }
  }

  lemma DimFiftyExample()
    ensures Dim(DimmableLight, 50) == "Dimmable light dimmed to 50%"
  {
  }

  // Networkable

  const NetworkPrefix: string := "Networkable light connected to "

  function ConnectToNetwork(k: Kind, networkName: string): string
    requires IsNetworkable(k)
  {
    NetworkPrefix + networkName
  }

  /** The network a `ConnectToNetwork` status names, if the string is one. */
  function NetworkOf(s: string): Option<string> {
    if |s| >= |NetworkPrefix| && s[..|NetworkPrefix|] == NetworkPrefix
    then Some(s[|NetworkPrefix|..])
    else None
  }

  /** The network name appears in the status verbatim and can be read back. */
  lemma ConnectToNetworkReadBack(k: Kind, s: string, networkName: string)
    requires IsNetworkable(k)
    ensures NetworkOf(s) == Some(networkName) <==> s == ConnectToNetwork(k, networkName)
  {
  }

  lemma HomeNetworkExample()
    ensures ConnectToNetwork(NetworkableLight, "Home Network") == "Networkable light connected to Home Network"
  {
  }

  // TemperatureAdjustable

  const TemperaturePrefix: string := "Set temperature to "

  function SetTemperature(k: Kind, temperatureInCelsius: Int32): string
    requires IsTemperatureAdjustable(k)
  {
    TemperaturePrefix + Decimal.IntToDecimal(temperatureInCelsius)
  }

  /** The temperature a `SetTemperature` status reports, if the string is one. */
  function TemperatureOf(s: string): Option<int> {
    if |s| >= |TemperaturePrefix| && s[..|TemperaturePrefix|] == TemperaturePrefix
    then Decimal.ParseInt(s[|TemperaturePrefix|..])
    else None
  }

  lemma TemperatureOfSetTemperature(k: Kind, celsius: Int32)
    requires IsTemperatureAdjustable(k)
    ensures TemperatureOf(SetTemperature(k, celsius)) == Some(celsius as int)
  {
    var s := SetTemperature(k, celsius);
    assert s[..|TemperaturePrefix|] == TemperaturePrefix;
    assert s[|TemperaturePrefix|..] == Decimal.IntToDecimal(celsius);
    Decimal.RenderThenParse(celsius);
  }

  lemma SetTemperatureOfTemperature(k: Kind, s: string, celsius: Int32)
    requires IsTemperatureAdjustable(k)
    requires TemperatureOf(s) == Some(celsius as int)
    ensures s == SetTemperature(k, celsius)
  {
    var rest := s[|TemperaturePrefix|..];
    Decimal.ParseThenRender(rest, celsius);
    assert s == s[..|TemperaturePrefix|] + rest;
  }

  /** Any temperature is passed through verbatim in decimal and can be read back. */
  lemma SetTemperatureReadBack(k: Kind, s: string, celsius: Int32)
    requires IsTemperatureAdjustable(k)
    ensures TemperatureOf(s) == Some(celsius as int) <==> s == SetTemperature(k, celsius)
  {
    if s == SetTemperature(k, celsius) {
      TemperatureOfSetTemperature(k, celsius);
    }
    if TemperatureOf(s) == Some(celsius as int) {
      SetTemperatureOfTemperature(k, s, celsius);
    }
  }

  // BeverageMaker

  const BrewPrefix: string := "Brewing "
  const BrewSuffix: string := " coffee"

  function Brew(k: Kind, coffeeType: string): string
    requires IsBeverageMaker(k)
  {
    BrewPrefix + coffeeType + BrewSuffix
  }

  /** The beverage a `Brew` status names, if the string is one. */
  function BeverageOf(s: string): Option<string> {
    if |s| >= |BrewPrefix| + |BrewSuffix|
       && s[..|BrewPrefix|] == BrewPrefix
       && s[|s| - |BrewSuffix|..] == BrewSuffix
    then Some(s[|BrewPrefix|..|s| - |BrewSuffix|])
    else None
  }

  /** The coffee type appears in the status verbatim and can be read back. */
  lemma BrewReadBack(k: Kind, s: string, coffeeType: string)
    requires IsBeverageMaker(k)
    ensures BeverageOf(s) == Some(coffeeType) <==> s == Brew(k, coffeeType)
  {
  }

  // ShadeControl

  function Open(k: Kind): string
    requires IsShadeControl(k)
  {
    "Blinds opened"
  }

  function Close(k: Kind): string
    requires IsShadeControl(k)
  {
    "Blinds closed"
  }

  // CleaningAppliance

  function StartCleaning(k: Kind): string
    requires IsCleaningAppliance(k)
  {
    "Vacuum cleaner started cleaning"
  }

  function StopCleaning(k: Kind): string
    requires IsCleaningAppliance(k)
  {
    "Vacuum cleaner stopped cleaning"
  }

  /** Each two-way capability reports its two directions with different statuses. */
  lemma OpposedStatusesDiffer(k: Kind)
    ensures IsShadeControl(k) ==> Open(k) != Close(k)
    ensures IsCleaningAppliance(k) ==> StartCleaning(k) != StopCleaning(k)
    ensures IsSwitchable(k) ==> TurnOn(k) != TurnOff(k)
  {
  }
}
