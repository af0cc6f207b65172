# iio-display: sensor events to display actions

`iio-display` is a small daemon (`main.c`) that watches the `net.hadess.SensorProxy`
service on the system bus. When the accelerometer reports a new orientation, it rotates
the `eDP1` output with `xrandr`. It then sets the matching coordinate-transformation
matrix on three hard-coded input devices with `xinput`. When the ambient-light sensor
reports a new level, it sets the backlight with `xbacklight`.

This project models the daemon's decision logic in Dafny and proves properties of it:

- `CStrings`: the `strcmp`/`strncmp` comparisons the daemon relies on, and what they mean.
- `Brightness`: `calculate_brightness` and the backlight setpoint. The `log10` curve is a parameter.
- `Matrix`: the four matrix constants, both as the source's text and as 3x3 integer matrices. A parser shows the text is nine entries.
- `Orientation`: the mapping from orientation name to rotation and matrix.
- `Actions`: what the daemon does outwardly. This covers commands, claim calls, quitting the loop and printed lines.
- `Dispatcher`: `properties_changed`. It is an imperative method, proved equal to the spec function `Dispatch`.
- `Session`: `appeared_cb`/`vanished_cb`. They are a class holding the proxy, the main-loop flag and the trace of actions.

## Model

| member | source | states |
|---|---|---|
| CStrings.StrCmpZero | main.c:79-97 | `strcmp(a, b) == 0`: compares character by character up to the first difference or terminator. A string always compares equal to itself |
| CStrings.StrNCmpZero | main.c:39 | `strncmp(a, b, n) == 0`: the same comparison, stopping after `n` characters. A string always compares equal to itself |
| CStrings.StrCmpMeaning | main.c:79-97 | `strcmp(a, b) == 0` holds exactly when the two C strings (up to their first NUL) are equal |
| CStrings.StrNCmpMeaning | main.c:39 | `strncmp` with a bound longer than `b` compares the terminator too. It holds exactly when the C strings are equal |
| Brightness.UnitAccepted | main.c:39 | the guard `strncmp(unit, "lux", 4) == 0`. A unit it accepts is exactly the C string "lux" |
| Brightness.UnitAcceptedMeaning | main.c:39-42 | the unit guard `strncmp(unit, "lux", 4)` accepts exactly the C string "lux" |
| Brightness.LongerUnitRejected | main.c:39 | "luxx" and "lu" fail the guard and "lux" passes it |
| Brightness.CalculateBrightness | main.c:38-46 | brightness is the curve's value for a "lux" reading and 0 for any other unit |
| Brightness.Setpoint | main.c:124 | the setpoint is brightness*10 + 6. It lies in [6, 16] for brightness in [0, 1] and is at most 6 for brightness <= 0. It exceeds UPPER_BACKLIGHT for brightness above 9.4 |
| Brightness.ForeignUnitSetpoint | main.c:124 | a reading in any unit other than "lux" gives a setpoint of exactly LOWER_BACKLIGHT = 6 |
| Brightness.SetpointUnclamped | main.c:124 | no clamp: a lux reading that the curve maps above 9.4 gives a setpoint above UPPER_BACKLIGHT = 100 |
| Matrix.ParseFormat | main.c:29-32 | parsing the space-separated text of a matrix gives back its entries |
| Matrix.NormalFormatted | main.c:29 | NORMAL_COORDS is the row-major text of the identity matrix |
| Matrix.InvertFormatted | main.c:30 | INVERT_COORDS is the row-major text of the half-turn matrix |
| Matrix.LeftFormatted | main.c:31 | LEFT_COORDS is the row-major text of the left quarter-turn matrix |
| Matrix.RightFormatted | main.c:32 | RIGHT_COORDS is the row-major text of the right quarter-turn matrix |
| Matrix.NormalIsLeftIdentity | main.c:29 | the "normal" matrix leaves any matrix unchanged when it multiplies from the left |
| Matrix.NormalIsRightIdentity | main.c:29 | the "normal" matrix leaves any matrix unchanged when it multiplies from the right |
| Orientation.SensorNameInjective | main.c:79-97 | the four orientation literals are distinct |
| Orientation.OrientationFor | main.c:79-105 | a recognised name equals that rotation's literal and selects that rotation's matrix. An unrecognised name matches none of the four literals |
| Orientation.OrientationForMeaning | main.c:79-105 | a name selects rotation r with r's matrix if and only if the name is r's literal: normal/left-up/right-up/bottom-up map to normal/left/right/inverted |
| Orientation.OrientationForSensorName | main.c:79-102 | each of the four literals selects its own rotation and matrix |
| Orientation.OrientationCaseSensitive | main.c:79-97 | the match is case-sensitive: a name starting with an upper-case letter is not recognised |
| Orientation.CoordsFormatted | main.c:29-32 | each rotation's matrix text is the formatting of that rotation's matrix |
| Orientation.CoordsShape | main.c:29-32 | each matrix text is exactly nine space-separated entries, and its last row is `0 0 1` |
| Orientation.OppositeUndoes | main.c:29-32 | each matrix times the opposite rotation's matrix is the identity (left and right undo each other; inverted undoes itself) |
| Orientation.QuarterTurnsCompose | main.c:29-32 | two left (or two right) quarter-turn matrices multiply to the half-turn matrix |
| Actions.RotateCommandDetermines | main.c:80-98 | two `xrandr` command lines are equal exactly when their rotations are equal |
| Actions.ShellCommand | main.c:80-100 | the `xrandr`/`xinput` command lines. Only rotations and matrix settings have one. A rotation command ends with the `xrandr` rotation name, and a matrix command ends with the matrix text verbatim |
| Dispatcher.AppendMatrices | main.c:81-84 | the loop over `transdevices` appends one matrix command per device, in table order, all with the same matrix |
| Dispatcher.AppendOrientation | main.c:79-105 | the orientation branch appends one rotation and the device matrices for a recognised name, or "Unknown command" otherwise |
| Dispatcher.AppendLightLevel | main.c:116-130 | the light branch appends the unit diagnostic (for a unit other than "lux"), then the printed command, then the backlight command |
| Dispatcher.PropertiesChanged | main.c:48-132 | the handler's output is exactly `Dispatch`: the four key checks, each independent, in the order HasAccelerometer, AccelerometerOrientation, HasAmbientLight, LightLevel |
| Dispatcher.LightActionsCommands | main.c:116-130 | a light-level change runs exactly one command, the backlight setpoint |
| Dispatcher.DispatchCommandsSplit | main.c:67-130 | a batch's commands are the orientation branch's, then the light branch's. The presence keys add none |
| Dispatcher.RecognisedOrientationCommands | main.c:75-130 | with a recognised orientation, the commands are one rotation, then one matrix command per device with that matrix. A backlight command follows only if the light level changed |
| Dispatcher.UnrecognisedOrientationCommands | main.c:67-130 | without a recognised orientation change, the only command a batch can run is the backlight one |
| Dispatcher.EmptyBatch | main.c:67-130 | an empty batch produces nothing |
| Dispatcher.PresenceOnlyLogs | main.c:67-115 | a batch of presence keys only produces one log line per key, and nothing else |
| Dispatcher.OrientationOnlyBatch | main.c:75-107 | a recognised orientation alone gives four actions: the rotation, then SetMatrix for "Atmel", "...Pen stylus" and "...Pen eraser" in that order, each with that rotation's matrix |
| Dispatcher.UnknownOrientationBatch | main.c:103-105 | an unrecognised orientation alone gives only "Unknown command" |
| Dispatcher.ForeignUnitBatch | main.c:116-126 | a light level in a unit other than "lux" prints "Unknown unit" and sets the backlight to LOWER_BACKLIGHT |
| Dispatcher.RightUpWithLightScenario | main.c:91-126 | "right-up" with a lux reading that the curve maps to 0.2 gives the right rotation, then the right-up matrix on each device, then a backlight of 8 |
| Dispatcher.MatrixCommandFitsBuffer | main.c:58-63 | every device name fits its 64-byte slot, and every matrix command line fits the 256-byte buffer |
| Session.SensorSession.constructor | main.c:245 | the loop starts running, with no proxy and nothing done |
| Session.SensorSession.Appeared | main.c:169-222 | creates a fresh proxy and appends the appearance actions. The loop keeps running only if both claims are granted |
| Session.SensorSession.Vanished | main.c:224-233 | clears the proxy and prints the notice only if a proxy was set. A second vanish does nothing |
| Session.SensorSession.Changed | main.c:188-189 | a change batch on the live proxy appends exactly the dispatcher's actions |
| Session.AppearActions | main.c:178-221 | what one appearance does. It starts with the appearance line and the ClaimAccelerometer call. It ends with the initial values when both claims were granted, and with QuitLoop otherwise |
| Session.ClaimOrder | main.c:191-219 | ClaimAccelerometer is always the first claim. ClaimLight is attempted, right after it, exactly when the accelerometer claim was granted |
| Session.QuitUnlessBothGranted | main.c:198-221 | the loop is told to quit exactly when a claim is not granted. The initial values are printed exactly when both claims are granted |
| Session.WarningOnlyForFailure | main.c:198-218 | a claim warning is printed exactly for a claim that was attempted and failed. A cancelled claim is silent |
| Session.AppearRunsNoCommand | main.c:169-222 | handling an appearance runs no display command |
| Session.RecoveryCycle | main.c:180-232 | appear, vanish, vanish again, appear: the claim sequence runs again in full on a second proxy distinct from the first, and the loop keeps running |
| Session.FailedFirstClaim | main.c:192-203 | a failed accelerometer claim warns and quits without attempting ClaimLight |

## Left out

- The brightness curve `log10(value + 1) / 5.0` (main.c:45) works on doubles. It is the parameter `curve`, so the model says nothing about its values (monotonicity, `level = 0` giving 0). Doubles are `real`s, without rounding.
- `system()` is not executed. The `sprintf` text of the backlight command (`%lf`) is not modelled: `SetBacklight` carries the setpoint as a number. The rotation and matrix command lines are modelled as text (`Actions.ShellCommand`).
- GDBus plumbing is left out. This covers proxy creation (assumed to succeed), signal wiring, `GVariant` reference counting and the `invalidated_properties` list, which the handler ignores too. A batch is the set of changed property names, and the values come from a `Properties` snapshot of the proxy's cache. A changed property missing from the cache is not modelled.
- `print_initial_values` (main.c:134-167) only prints. It appears as the single log line `InitialValues`.
- `main`, `g_bus_watch_name` and running the main loop (main.c:235-249) are left out. Callbacks are method calls that require the loop to be running. Appear and vanish are assumed to alternate, as the bus-name watcher delivers them.
- The unused `MIN`/`MAX` macros and `iio_proxy_compass` are not modelled.
- The printed text of log lines is kept only where it carries data (the unit, the claim error message, the setpoint).
- Two points follow the source. First, the four key checks run in a fixed order (HasAccelerometer, AccelerometerOrientation, HasAmbientLight, LightLevel). Second, UPPER_BACKLIGHT is never applied, so no clamp is modelled.
