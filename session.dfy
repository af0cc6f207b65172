/**
 * The sensor session: what the daemon does when the sensor service appears
 * on the system bus and when it vanishes (`appeared_cb`, `vanished_cb`,
 * main.c:169-233), and how change batches reach the dispatcher through the
 * proxy the session holds.
 *
 * The results of the two blocking claim calls are inputs.
 */
module Session {
  import opened Orientation
  import opened Actions
  import opened Dispatcher

  /** How a synchronous claim call returned. */
  datatype ClaimOutcome = Granted | Cancelled | Failed(message: string)

  /** A failed claim: a warning unless the call was cancelled, then the main loop is told to quit. */
  function ClaimFailure(c: Capability, outcome: ClaimOutcome): seq<Action> {
    (if outcome.Failed? then [Log(ClaimWarning(c, outcome.message))] else []) + [QuitLoop]
  }

  /**
   * What one appearance of the service does: announce it, claim the
   * accelerometer, then, only if that was granted, claim the light sensor,
   * then, only if that was granted too, print the initial values.
   */
  function AppearActions(accel: ClaimOutcome, light: ClaimOutcome): (r: seq<Action>)
    ensures |r| >= 3 && r[0] == Log(ServiceAppeared) && r[1] == Claim(Accelerometer)
    ensures r[|r| - 1] == if accel.Granted? && light.Granted? then Log(InitialValues) else QuitLoop
  {
    var onAccelGranted :=
      if !light.Granted? then ClaimFailure(AmbientLight, light) else [Log(InitialValues)];
    [Log(ServiceAppeared), Claim(Accelerometer)]
    + (if !accel.Granted? then ClaimFailure(Accelerometer, accel) else [Claim(AmbientLight)] + onAccelGranted)
  }

  /** The D-Bus proxy for the sensor service. */
  class Proxy {
    constructor ()
    {
    }
  }

  class SensorSession {
    /** The proxy, null while the service is absent (the global `iio_proxy`). */
    var proxy: Proxy?
    /** Whether the main loop is still running. */
    var running: bool
    /** Everything the daemon has done, in order. */
    var trace: seq<Action>
    /** The lux-to-brightness curve. */
    const curve: real -> real

    /** The state `main` starts the loop in: no proxy yet, the loop running, nothing done. */
    constructor (curve: real -> real)
      ensures proxy == null && running && trace == [] && this.curve == curve
    {
      proxy := null;
      running := true;
      trace := [];
      this.curve := curve;
    }

    /** `appeared_cb`: create a fresh proxy, then run the claim sequence. */
    method Appeared(accel: ClaimOutcome, light: ClaimOutcome)
      requires running
      modifies this
      ensures proxy != null && fresh(proxy)
      ensures running == (accel.Granted? && light.Granted?)
      ensures trace == old(trace) + AppearActions(accel, light)
    {
      trace := trace + [Log(ServiceAppeared)];
      proxy := new Proxy();

      trace := trace + [Claim(Accelerometer)];
      if !accel.Granted? {
        if !accel.Cancelled? {
          trace := trace + [Log(ClaimWarning(Accelerometer, accel.message))];
        }
        trace := trace + [QuitLoop];
        running := false;
        return;
      }

      trace := trace + [Claim(AmbientLight)];
      if !light.Granted? {
        if !light.Cancelled? {
          trace := trace + [Log(ClaimWarning(AmbientLight, light.message))];
        }
        trace := trace + [QuitLoop];
        running := false;
        return;
      }

      trace := trace + [Log(InitialValues)];
    }

    /** `vanished_cb`: drop the proxy if there is one, and say so. */
    method Vanished()
      requires running
      modifies this
      ensures proxy == null && running
      ensures trace == old(trace) + (if old(proxy) != null then [Log(ServiceVanished)] else [])
    {
      if proxy != null {
        proxy := null;
        trace := trace + [Log(ServiceVanished)];
      }
    }

    /** A change batch delivered through the live proxy runs the dispatcher. */
    method Changed(changed: set<string>, p: Properties)
      requires running && proxy != null
      modifies this`trace
      ensures trace == old(trace) + Dispatch(changed, p, curve)
    {
      var out := PropertiesChanged(changed, p, curve);
      trace := trace + out;
    }
  }

  /** The light sensor is claimed exactly when the accelerometer claim was granted, and after it. */
  lemma ClaimOrder(accel: ClaimOutcome, light: ClaimOutcome)
    ensures AppearActions(accel, light)[1] == Claim(Accelerometer)
    ensures Claim(AmbientLight) in AppearActions(accel, light) <==> accel.Granted?
    ensures accel.Granted? ==> AppearActions(accel, light)[2] == Claim(AmbientLight)
  {
  }

  /** The loop is told to quit exactly when a claim was not granted, and the initial values are printed otherwise. */
  lemma QuitUnlessBothGranted(accel: ClaimOutcome, light: ClaimOutcome)
    ensures QuitLoop in AppearActions(accel, light) <==> !(accel.Granted? && light.Granted?)
    ensures Log(InitialValues) in AppearActions(accel, light) <==> accel.Granted? && light.Granted?
  {
  }

  /** A warning is printed for a claim exactly when that claim was attempted and failed; a cancellation is silent. */
  lemma WarningOnlyForFailure(accel: ClaimOutcome, light: ClaimOutcome, c: Capability, reason: string)
    ensures Log(ClaimWarning(c, reason)) in AppearActions(accel, light) <==>
      (c == Accelerometer && accel == Failed(reason))
      || (c == AmbientLight && accel.Granted? && light == Failed(reason))
  {
  }

  /** The appearance actions run no display command. */
  lemma AppearRunsNoCommand(accel: ClaimOutcome, light: ClaimOutcome)
    ensures Commands(AppearActions(accel, light)) == []
  {
    CommandsOfNone(AppearActions(accel, light));
  }

  /**
   * The recovery cycle: the service appears and both claims are granted, it
   * vanishes (a second vanish does nothing), and it appears again; the claim
   * sequence runs again in full on a new proxy, and the loop keeps running.
   */
  method RecoveryCycle(curve: real -> real) returns (t: seq<Action>, running: bool, first: Proxy?, second: Proxy?)
    ensures running
    ensures t == AppearActions(Granted, Granted) + [Log(ServiceVanished)] + AppearActions(Granted, Granted)
    ensures first != null && second != null && second != first
  {
    var s := new SensorSession(curve);
    s.Appeared(Granted, Granted);
    first := s.proxy;
    s.Vanished();
    s.Vanished();
    s.Appeared(Granted, Granted);
    second := s.proxy;
    t, running := s.trace, s.running;
  }

  /** A failed accelerometer claim ends the session run before the light sensor is claimed. */
  method FailedFirstClaim(curve: real -> real, reason: string) returns (t: seq<Action>, running: bool)
    ensures !running
    ensures t == [Log(ServiceAppeared), Claim(Accelerometer), Log(ClaimWarning(Accelerometer, reason)), QuitLoop]
  {
    var s := new SensorSession(curve);
    s.Appeared(Failed(reason), Granted);
    t, running := s.trace, s.running;
  }
}
