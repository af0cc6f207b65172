/**
 * Everything the daemon does that can be observed from outside: the shell
 * commands it runs through `system()`, the D-Bus claim calls it makes, quitting
 * its main loop, and the lines it prints.
 */
module Actions {
  import opened Wrappers
  import opened Orientation

  datatype Capability = Accelerometer | AmbientLight

  /** The lines the daemon prints, one constructor per distinct message. */
  datatype Message =
    | AccelerometerAppeared
    | AccelerometerDisappeared
    | LightAppeared
    | LightDisappeared
    | UnknownCommand
    | UnknownUnit(unit: string)
    | BacklightCommand(setpoint: real)
    | ServiceAppeared
    | ClaimWarning(capability: Capability, reason: string)
    | InitialValues
    | ServiceVanished

  datatype Action =
    | Rotate(rotation: Rotation)
    | SetMatrix(device: string, coords: string)
    | SetBacklight(setpoint: real)
    | Claim(capability: Capability)
    | QuitLoop
    | Log(message: Message)

  /** The display output that is rotated. */
  const OutputName: string := "eDP1"

  /** The input-device property that receives the matrix. */
  const MatrixProperty: string := "Coordinate Transformation Matrix"

  /** An action that runs an external command. */
  predicate IsCommand(a: Action) {
    a.Rotate? || a.SetMatrix? || a.SetBacklight?
  }

  /**
   * The command line of a rotation or matrix action. The backlight command
   * formats a double with `%lf` and has no text in this model.
   */
  function ShellCommand(a: Action): (r: Option<string>)
    ensures r.Some? <==> a.Rotate? || a.SetMatrix?
    ensures a.Rotate? ==> r.Some? && |r.value| > |XrandrName(a.rotation)| && r.value[|r.value| - |XrandrName(a.rotation)|..] == XrandrName(a.rotation)
    ensures a.SetMatrix? ==> r.Some? && |r.value| > |a.coords| && r.value[|r.value| - |a.coords|..] == a.coords
  {
    match a
    case Rotate(r) => Some("xrandr --output " + OutputName + " --rotate " + XrandrName(r))
    case SetMatrix(device, coords) => Some("xinput set-prop '" + device + "' '" + MatrixProperty + "' " + coords)
    case _ => None
  }

  /** The rotation command line names its rotation unambiguously. */
  lemma RotateCommandDetermines(r1: Rotation, r2: Rotation)
    ensures ShellCommand(Rotate(r1)) == ShellCommand(Rotate(r2)) <==> r1 == r2
  {
    var prefix := "xrandr --output " + OutputName + " --rotate ";
    var c1, c2 := prefix + XrandrName(r1), prefix + XrandrName(r2);
    if c1 == c2 {
      assert c1[|prefix|..] == XrandrName(r1);
      assert c2[|prefix|..] == XrandrName(r2);
    }
  }

  /** The commands of a trace, in order, without the claims, the quit and the log lines. */
  function Commands(t: seq<Action>): seq<Action> {
    if t == [] then []
    else if IsCommand(t[0]) then [t[0]] + Commands(t[1..])
    else Commands(t[1..])
  }

  lemma {:induction false} CommandsAppend(t: seq<Action>, u: seq<Action>)
    ensures Commands(t + u) == Commands(t) + Commands(u)
    decreases |t|
  {
    if t == [] {
      assert t + u == u;
    } else {
      assert (t + u)[1..] == t[1..] + u;
      CommandsAppend(t[1..], u);
    }
  }

  /** A trace of commands only is its own command list. */
  lemma {:induction false} CommandsOfCommands(t: seq<Action>)
    requires forall i :: 0 <= i < |t| ==> IsCommand(t[i])
    ensures Commands(t) == t
    decreases |t|
  {
    if t != [] {
      CommandsOfCommands(t[1..]);
    }
  }

  /** Commands between two stretches without commands are those of the two stretches in between. */
  lemma CommandsBetweenLogs(a: seq<Action>, o: seq<Action>, h: seq<Action>, l: seq<Action>)
    requires forall i :: 0 <= i < |a| ==> !IsCommand(a[i])
    requires forall i :: 0 <= i < |h| ==> !IsCommand(h[i])
    ensures Commands(a + o + h + l) == Commands(o) + Commands(l)
  {
    CommandsOfNone(a);
    CommandsOfNone(h);
    CommandsAppend(a, o);
    assert Commands(a + o) == Commands(o);
    CommandsAppend(a + o, h);
    assert Commands(a + o + h) == Commands(o);
    CommandsAppend(a + o + h, l);
  }

  /** A trace without commands (log lines, claims, the quit) has an empty command list. */
  lemma {:induction false} CommandsOfNone(t: seq<Action>)
    requires forall i :: 0 <= i < |t| ==> !IsCommand(t[i])
    ensures Commands(t) == []
    decreases |t|
  {
    if t != [] {
      CommandsOfNone(t[1..]);
    }
  }
}
