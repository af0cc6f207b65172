/**
 * The change dispatcher: the handler of the sensor proxy's
 * "g-properties-changed" signal (`properties_changed`, main.c:48-132).
 *
 * A batch names the properties that changed; the handler then reads the
 * current values from the proxy's property cache. Both are inputs here: the
 * batch as the set of changed property names, the cache as a `Properties`
 * snapshot. The curve of the brightness model is the parameter `curve`.
 */
module Dispatcher {
  import opened Wrappers
  import opened CStrings
  import opened Brightness
  import opened Matrix
  import opened Orientation
  import opened Actions

  const HasAccelerometerKey: string := "HasAccelerometer"
  const OrientationKey: string := "AccelerometerOrientation"
  const HasAmbientLightKey: string := "HasAmbientLight"
  const LightLevelKey: string := "LightLevel"

  /** The cached properties of the sensor service the handler reads. */
  datatype Properties = Properties(
    hasAccelerometer: bool,
    accelerometerOrientation: string,
    hasAmbientLight: bool,
    lightLevel: real,
    lightLevelUnit: string)

  /** The input devices that follow the display's rotation, in the order they are updated. */
  const TransDevices: seq<string> := ["Atmel", "Wacom ISDv4 12C Pen stylus", "Wacom ISDv4 12C Pen eraser"]

  /** One matrix command per device, all with the same matrix. */
  function MatrixActions(coords: string): seq<Action> {
    seq(|TransDevices|, i requires 0 <= i < |TransDevices| => SetMatrix(TransDevices[i], coords))
  }

  /** What an orientation change does: the rotation and the device matrices, or a diagnostic. */
  function OrientationActions(name: string): seq<Action> {
    match OrientationFor(name)
    case Some(m) => [Rotate(m.rotation)] + MatrixActions(m.coords)
    case None => [Log(UnknownCommand)]
  }

  /** What a light-level change does: the unit diagnostic, the echoed command and the backlight command. */
  function LightActions(level: real, unit: string, curve: real -> real): seq<Action> {
    var x := BacklightSetpoint(level, unit, curve);
    (if UnitAccepted(unit) then [] else [Log(UnknownUnit(unit))]) + [Log(BacklightCommand(x)), SetBacklight(x)]
  }

  /** The presence checks only log: one line saying whether the sensor is now present. */
  function PresenceActions(key: string, changed: set<string>, present: bool, appeared: Message, disappeared: Message): seq<Action> {
    if key in changed then [Log(if present then appeared else disappeared)] else []
  }

  /** The four checks on a batch, each independent of the others, in the handler's order. */
  function Dispatch(changed: set<string>, p: Properties, curve: real -> real): seq<Action> {
    PresenceActions(HasAccelerometerKey, changed, p.hasAccelerometer, AccelerometerAppeared, AccelerometerDisappeared)
    + (if OrientationKey in changed then OrientationActions(p.accelerometerOrientation) else [])
    + PresenceActions(HasAmbientLightKey, changed, p.hasAmbientLight, LightAppeared, LightDisappeared)
    + (if LightLevelKey in changed then LightActions(p.lightLevel, p.lightLevelUnit, curve) else [])
  }

  /** The loop over `transdevices`: one matrix command per device, appended in table order. */
  method AppendMatrices(out0: seq<Action>, coords: string) returns (out: seq<Action>)
    ensures out == out0 + MatrixActions(coords)
  {
    out := out0;
    for i := 0 to |TransDevices|
      invariant out == out0 + MatrixActions(coords)[..i]
    {
      out := out + [SetMatrix(TransDevices[i], coords)];
    }
  }

  /** The orientation branch of the handler: the `strcmp` chain and its four loops. */
  method AppendOrientation(out0: seq<Action>, name: string) returns (out: seq<Action>)
    ensures out == out0 + OrientationActions(name)
  {
    if StrCmpZero(name, "normal") {
      out := AppendMatrices(out0 + [Rotate(Normal)], NormalCoords);
    } else if StrCmpZero(name, "left-up") {
      out := AppendMatrices(out0 + [Rotate(Left)], LeftCoords);
    } else if StrCmpZero(name, "right-up") {
      out := AppendMatrices(out0 + [Rotate(Right)], RightCoords);
    } else if StrCmpZero(name, "bottom-up") {
      out := AppendMatrices(out0 + [Rotate(Inverted)], InvertCoords);
    } else {
      out := out0 + [Log(UnknownCommand)];
    }
  }

  /** The light-level branch: the unit diagnostic of `calculate_brightness`, the echo and the command. */
  method AppendLightLevel(out0: seq<Action>, level: real, unit: string, curve: real -> real) returns (out: seq<Action>)
    ensures out == out0 + LightActions(level, unit, curve)
  {
    out := out0;
    if !UnitAccepted(unit) {
      out := out + [Log(UnknownUnit(unit))];
    }
    var x := Setpoint(CalculateBrightness(level, unit, curve));
    out := out + [Log(BacklightCommand(x))];
    out := out + [SetBacklight(x)];
  }

  /** `properties_changed`: the actions one batch produces, in order. */
  method PropertiesChanged(changed: set<string>, p: Properties, curve: real -> real) returns (out: seq<Action>)
    ensures out == Dispatch(changed, p, curve)
  {
    out := [];
    if HasAccelerometerKey in changed {
      if p.hasAccelerometer {
        out := out + [Log(AccelerometerAppeared)];
      } else {
        out := out + [Log(AccelerometerDisappeared)];
      }
    }
    assert out == PresenceActions(HasAccelerometerKey, changed, p.hasAccelerometer, AccelerometerAppeared, AccelerometerDisappeared);
    ghost var before := out;
    if OrientationKey in changed {
      out := AppendOrientation(out, p.accelerometerOrientation);
    }
    assert out == before + (if OrientationKey in changed then OrientationActions(p.accelerometerOrientation) else []);
    before := out;
    if HasAmbientLightKey in changed {
      if p.hasAmbientLight {
        out := out + [Log(LightAppeared)];
      } else {
        out := out + [Log(LightDisappeared)];
      }
    }
    assert out == before + PresenceActions(HasAmbientLightKey, changed, p.hasAmbientLight, LightAppeared, LightDisappeared);
    before := out;
    if LightLevelKey in changed {
      out := AppendLightLevel(out, p.lightLevel, p.lightLevelUnit, curve);
    }
    assert out == before + (if LightLevelKey in changed then LightActions(p.lightLevel, p.lightLevelUnit, curve) else []);
  }

  /** The backlight command a batch runs: one exactly when the light level changed. */
  function BacklightCommands(changed: set<string>, p: Properties, curve: real -> real): seq<Action> {
    if LightLevelKey in changed then [SetBacklight(BacklightSetpoint(p.lightLevel, p.lightLevelUnit, curve))] else []
  }

  lemma MatrixActionsAreCommands(coords: string)
    ensures Commands(MatrixActions(coords)) == MatrixActions(coords)
  {
    CommandsOfCommands(MatrixActions(coords));
  }

  /** The light branch runs exactly one command: the backlight setpoint. */
  lemma LightActionsCommands(level: real, unit: string, curve: real -> real)
    ensures Commands(LightActions(level, unit, curve)) == [SetBacklight(BacklightSetpoint(level, unit, curve))]
  {
    var x := BacklightSetpoint(level, unit, curve);
    var diag: seq<Action> := if UnitAccepted(unit) then [] else [Log(UnknownUnit(unit))];
    assert LightActions(level, unit, curve) == (diag + [Log(BacklightCommand(x))]) + [SetBacklight(x)];
    CommandsAppend(diag + [Log(BacklightCommand(x))], [SetBacklight(x)]);
    CommandsAppend(diag, [Log(BacklightCommand(x))]);
    CommandsOfNone(diag);
  }

  /** The commands of a batch: those of the orientation branch, then those of the light branch. */
  lemma {:induction false} DispatchCommandsSplit(changed: set<string>, p: Properties, curve: real -> real)
    ensures Commands(Dispatch(changed, p, curve))
      == (if OrientationKey in changed then Commands(OrientationActions(p.accelerometerOrientation)) else [])
      + BacklightCommands(changed, p, curve)
  {
    var a := PresenceActions(HasAccelerometerKey, changed, p.hasAccelerometer, AccelerometerAppeared, AccelerometerDisappeared);
    var o := if OrientationKey in changed then OrientationActions(p.accelerometerOrientation) else [];
    var h := PresenceActions(HasAmbientLightKey, changed, p.hasAmbientLight, LightAppeared, LightDisappeared);
    var l := if LightLevelKey in changed then LightActions(p.lightLevel, p.lightLevelUnit, curve) else [];
    assert Dispatch(changed, p, curve) == a + o + h + l;
    CommandsBetweenLogs(a, o, h, l);
    if LightLevelKey in changed {
      LightActionsCommands(p.lightLevel, p.lightLevelUnit, curve);
    }
  }

  /**
   * A batch with a recognised orientation runs exactly one rotation, then one
   * matrix command per device with that orientation's matrix, then at most
   * one backlight command; the presence keys add no command.
   */
  lemma RecognisedOrientationCommands(changed: set<string>, p: Properties, curve: real -> real, rot: Rotation)
    requires OrientationKey in changed && CView(p.accelerometerOrientation) == SensorName(rot)
    ensures Commands(Dispatch(changed, p, curve))
      == [Rotate(rot)] + MatrixActions(Coords(rot)) + BacklightCommands(changed, p, curve)
  {
    DispatchCommandsSplit(changed, p, curve);
    OrientationForMeaning(p.accelerometerOrientation, rot);
    CommandsAppend([Rotate(rot)], MatrixActions(Coords(rot)));
    MatrixActionsAreCommands(Coords(rot));
  }

  /** Without a recognised orientation change, the only command a batch can run is the backlight one. */
  lemma UnrecognisedOrientationCommands(changed: set<string>, p: Properties, curve: real -> real)
    requires OrientationKey !in changed || forall rot :: CView(p.accelerometerOrientation) != SensorName(rot)
    ensures Commands(Dispatch(changed, p, curve)) == BacklightCommands(changed, p, curve)
  {
    DispatchCommandsSplit(changed, p, curve);
  }

  /** An empty batch does nothing at all. */
  lemma EmptyBatch(p: Properties, curve: real -> real)
    ensures Dispatch({}, p, curve) == []
  {
  }

  /** Presence changes are only logged: one log line each, and no command. */
  lemma PresenceOnlyLogs(changed: set<string>, p: Properties, curve: real -> real)
    requires changed <= {HasAccelerometerKey, HasAmbientLightKey}
    ensures |Dispatch(changed, p, curve)| == |changed|
    ensures forall i :: 0 <= i < |Dispatch(changed, p, curve)| ==> Dispatch(changed, p, curve)[i].Log?
  {
    assert OrientationKey !in changed && LightLevelKey !in changed;
    if changed == {HasAccelerometerKey, HasAmbientLightKey} {
      assert |changed| == 2;
    } else if changed == {HasAccelerometerKey} || changed == {HasAmbientLightKey} {
      assert |changed| == 1;
    } else {
      assert changed == {};
    }
  }

  /** A batch holding only a recognised orientation: the rotation, then each device in table order. */
  lemma OrientationOnlyBatch(p: Properties, curve: real -> real, rot: Rotation)
    requires CView(p.accelerometerOrientation) == SensorName(rot)
    ensures var d := Dispatch({OrientationKey}, p, curve);
      |d| == 1 + |TransDevices| && d[0] == Rotate(rot)
      && forall i :: 0 <= i < |TransDevices| ==> d[1 + i] == SetMatrix(TransDevices[i], Coords(rot))
  {
    OrientationForMeaning(p.accelerometerOrientation, rot);
  }

  /** A batch holding only an unrecognised orientation prints "Unknown command" and does nothing else. */
  lemma UnknownOrientationBatch(p: Properties, curve: real -> real)
    requires forall rot :: CView(p.accelerometerOrientation) != SensorName(rot)
    ensures Dispatch({OrientationKey}, p, curve) == [Log(UnknownCommand)]
  {
  }

  /** A light reading in any unit but lux is reported and sets the backlight to LowerBacklight. */
  lemma ForeignUnitBatch(changed: set<string>, p: Properties, curve: real -> real)
    requires LightLevelKey in changed && CView(p.lightLevelUnit) != Lux
    ensures Log(UnknownUnit(p.lightLevelUnit)) in Dispatch(changed, p, curve)
    ensures SetBacklight(LowerBacklight as real) in Dispatch(changed, p, curve)
  {
    UnitAcceptedMeaning(p.lightLevelUnit);
    var l := LightActions(p.lightLevel, p.lightLevelUnit, curve);
    assert l[0] == Log(UnknownUnit(p.lightLevelUnit)) && l[2] == SetBacklight(LowerBacklight as real);
    var d := Dispatch(changed, p, curve);
    assert d[|d| - 3] == l[0] && d[|d| - 1] == l[2];
  }

  /**
   * "right-up" together with a lux reading the curve maps to 0.2: the
   * rotation, the matrix command for each device, then a backlight of 8.
   */
  lemma RightUpWithLightScenario(changed: set<string>, p: Properties, curve: real -> real)
    requires changed == {OrientationKey, LightLevelKey}
    requires p.accelerometerOrientation == "right-up" && p.lightLevelUnit == "lux" && curve(p.lightLevel) == 0.2
    ensures Commands(Dispatch(changed, p, curve)) == [Rotate(Right)] + MatrixActions(RightCoords) + [SetBacklight(8.0)]
  {
    LuxSetpoint(p.lightLevel, curve);
    CViewOfPlain(SensorName(Right));
    RecognisedOrientationCommands(changed, p, curve, Right);
  }

  /** Every matrix command line fits the handler's 256-byte buffer with its terminator. */
  lemma MatrixCommandFitsBuffer(i: nat, rot: Rotation)
    requires i < |TransDevices|
    ensures |TransDevices[i]| < 64
    ensures ShellCommand(SetMatrix(TransDevices[i], Coords(rot))).Some?
    ensures |ShellCommand(SetMatrix(TransDevices[i], Coords(rot))).value| < 256
  {
  }
}
