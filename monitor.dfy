/**
  The `PostureMonitor` component as an object: its state fields are
  updated in place by the socket message handler and the SET button
  (app/page.js:9-16, 32-70, 123-126).
 */
module Monitor {
  import opened Telemetry
  import opened Smoothing
  import opened RollingLog
  import Posture

  class PostureMonitor {
    var pitch: real
    var roll: real
    var yaw: real
    var gnss: Position
    var target: Posture.Target
    var log: seq<Posture.LogEntry>

    /** The fields as one value. */
    function State(): Posture.State
      reads this
    {
      Posture.State(pitch, roll, yaw, gnss, target, log)
    }

    /** The log stays within its bound. */
    ghost predicate Valid()
      reads this
    {
      Posture.Bounded(State())
    }

    /** The `useState` initial values. */
    constructor ()
      ensures Valid()
      ensures State() == Posture.Initial
    {
      pitch, roll, yaw := 0.0, 0.0, 0.0;
      gnss := Position(Some(0.0), Some(0.0), Some(0.0));
      target := Posture.Target(0.0, 0.0);
      log := [];
    }

    /** `ws.onmessage`; `logIt` is the outcome of the `Math.random() < 0.1` draw. */
    method OnMessage(m: Inbound, logIt: bool)
      requires Valid()
      modifies this
      ensures Valid()
      ensures State() == Posture.Receive(old(State()), m, logIt)
    {
      match m
      case Malformed =>
      case Parsed(data) =>
        if data.imu.Some? {
          var b := data.imu.value;
          var p := Sample(b.pitch);
          var r := Sample(b.roll);
          var y := Sample(b.yaw);
          pitch := Smooth(pitch, p);
          roll := Smooth(roll, r);
          yaw := Smooth(yaw, y);
          if logIt {
            log := Push(log, Posture.LogEntry(p, r, y));
          }
        }
        if data.gnss.Some? {
          gnss := data.gnss.value;
        }
    }

    /**
      `handleSetTarget`: the target becomes the current pitch and roll, and
      the returned report is the one `handleSaveToFile` is meant to write.
     */
    method SetTarget() returns (report: Posture.Report)
      requires Valid()
      modifies this`target
      ensures Valid()
      ensures State() == Posture.SetTarget(old(State())).state
      ensures report == Posture.SetTarget(old(State())).report
    {
      target := Posture.Target(pitch, roll);
      report := Posture.ReportOf(State());
    }
  }
}
