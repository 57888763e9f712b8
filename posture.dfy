/**
  The state of the posture monitor and its two handlers as functions of
  that state: the socket message handler (app/page.js:32-70) and the SET
  button (app/page.js:123-126), plus the offsets the bars are drawn from
  (app/page.js:76-77, 87-89).
 */
module Posture {
  import opened Numeric
  import opened Telemetry
  import opened Smoothing
  import opened RollingLog
  import opened Indicator

  /** The reference attitude set by the operator. */
  datatype Target = Target(pitch: real, roll: real)

  /**
    A log row: the raw samples of the frame that was logged (the source
    formats them with `toFixed(2)` and adds the wall-clock time).
   */
  datatype LogEntry = LogEntry(pitch: real, roll: real, yaw: real)

  /** The component's state fields that the handlers update. */
  datatype State = State(
    pitch: real, roll: real, yaw: real,
    gnss: Position,
    target: Target,
    log: seq<LogEntry>)

  /** The initial values of the state fields (app/page.js:9-16). */
  const Initial: State := State(
    0.0, 0.0, 0.0,
    Position(Some(0.0), Some(0.0), Some(0.0)),
    Target(0.0, 0.0),
    [])

  predicate Bounded(s: State) {
    |s.log| <= Capacity
  }

  /** The `imu` branch: smooth every axis toward its sample and, when `logIt`, log the samples. */
  function ReceiveImu(s: State, b: ImuBlock, logIt: bool): State {
    var p, r, y := Sample(b.pitch), Sample(b.roll), Sample(b.yaw);
    s.(pitch := Smooth(s.pitch, p),
       roll := Smooth(s.roll, r),
       yaw := Smooth(s.yaw, y),
       log := if logIt then Push(s.log, LogEntry(p, r, y)) else s.log)
  }

  /**
    The message handler. `logIt` stands for the `Math.random() < 0.1`
    draw made for a frame with an `imu` block.
   */
  function Receive(s: State, m: Inbound, logIt: bool): (t: State)
    // a rejected frame changes nothing
    ensures m.Malformed? ==> t == s
    // no frame touches the target
    ensures t.target == s.target
    // without an imu block the attitude and the log stay as they were
    ensures m.Parsed? && m.data.imu.None? ==>
      t.pitch == s.pitch && t.roll == s.roll && t.yaw == s.yaw && t.log == s.log
    // with one, each axis moves a tenth of the way to its sample, 0 standing for a missing field
    ensures m.Parsed? && m.data.imu.Some? ==>
      var b := m.data.imu.value;
      t.pitch == s.pitch + (Sample(b.pitch) - s.pitch) / 10.0 &&
      t.roll == s.roll + (Sample(b.roll) - s.roll) / 10.0 &&
      t.yaw == s.yaw + (Sample(b.yaw) - s.yaw) / 10.0
    // the log changes only for a logged imu frame, and then gains the raw samples as its last entry
    ensures !(m.Parsed? && m.data.imu.Some? && logIt) ==> t.log == s.log
    ensures m.Parsed? && m.data.imu.Some? && logIt ==>
      var b := m.data.imu.value;
      t.log == Push(s.log, LogEntry(Sample(b.pitch), Sample(b.roll), Sample(b.yaw)))
    // a gnss block replaces the position wholesale; without one it stays
    ensures m.Parsed? && m.data.gnss.Some? ==> t.gnss == m.data.gnss.value
    ensures !(m.Parsed? && m.data.gnss.Some?) ==> t.gnss == s.gnss
    // the log never grows past its bound
    ensures Bounded(s) ==> Bounded(t)
  {
    match m
    case Malformed => s
    case Parsed(data) =>
      var s1 := if data.imu.Some? then ReceiveImu(s, data.imu.value, logIt) else s;
      if data.gnss.Some? then s1.(gnss := data.gnss.value) else s1
  }

  /** One frame as delivered, with the outcome of its log draw. */
  datatype Delivery = Delivery(msg: Inbound, logIt: bool)

  /** The state after a series of frames, the last one handled last. */
  function ReceiveAll(s: State, ds: seq<Delivery>): State {
    if ds == [] then s
    else
      var last := ds[|ds| - 1];
      Receive(ReceiveAll(s, ds[..|ds| - 1]), last.msg, last.logIt)
  }

  /** The entry one delivery logs, if any. */
  function LoggedBy(d: Delivery): seq<LogEntry> {
    match d.msg
    case Parsed(Envelope(Some(b), _)) =>
      if d.logIt then [LogEntry(Sample(b.pitch), Sample(b.roll), Sample(b.yaw))] else []
    case _ => []
  }

  /** The entries a series of frames logs, oldest first. */
  function Logged(ds: seq<Delivery>): seq<LogEntry> {
    if ds == [] then [] else Logged(ds[..|ds| - 1]) + LoggedBy(ds[|ds| - 1])
  }

  /** One delivery keeps the log the newest 51 entries of everything logged so far. */
  lemma WindowStep(t: State, d: Delivery, x: seq<LogEntry>)
    requires t.log == LastN(x, Capacity)
    ensures Receive(t, d.msg, d.logIt).log == LastN(x + LoggedBy(d), Capacity)
  {
    if LoggedBy(d) == [] {
      assert x + LoggedBy(d) == x;
    } else {
      var e := LoggedBy(d)[0];
      assert LoggedBy(d) == [e];
      assert Receive(t, d.msg, d.logIt).log == Push(t.log, e);
      PushIsWindow(t.log, e);
      WindowOfWindow(x, e);
    }
  }

  /**
    After any series of frames the log holds exactly the newest 51 of all
    entries ever logged, oldest first: it never exceeds its bound and
    evicts first in, first out.
   */
  lemma {:induction false} LogIsNewestEntries(s: State, ds: seq<Delivery>)
    requires Bounded(s)
    ensures ReceiveAll(s, ds).log == LastN(s.log + Logged(ds), Capacity)
    ensures Bounded(ReceiveAll(s, ds))
  {
    if ds == [] {
      assert s.log + Logged(ds) == s.log;
    } else {
      var init, last := ds[..|ds| - 1], ds[|ds| - 1];
      LogIsNewestEntries(s, init);
      WindowStep(ReceiveAll(s, init), last, s.log + Logged(init));
      assert s.log + Logged(ds) == (s.log + Logged(init)) + LoggedBy(last);
    }
  }

  /** From the initial state, the log length is the number of logged frames, capped at 51. */
  lemma LogLengthFromStart(ds: seq<Delivery>)
    ensures |ReceiveAll(Initial, ds).log| == if |Logged(ds)| <= Capacity then |Logged(ds)| else Capacity
  {
    LogIsNewestEntries(Initial, ds);
    assert Initial.log + Logged(ds) == Logged(ds);
  }

  /** A missing or non-numeric imu field makes that axis decay toward 0. */
  lemma MissingFieldSmoothsToZero(s: State, b: ImuBlock, gnss: Option<Position>, logIt: bool)
    ensures var t := Receive(s, Parsed(Envelope(Some(b), gnss)), logIt);
      b.pitch.None? ==> t.pitch == 0.9 * s.pitch && Abs(t.pitch) <= Abs(s.pitch)
    ensures var t := Receive(s, Parsed(Envelope(Some(b), gnss)), logIt);
      b.roll.None? ==> t.roll == 0.9 * s.roll && Abs(t.roll) <= Abs(s.roll)
    ensures var t := Receive(s, Parsed(Envelope(Some(b), gnss)), logIt);
      b.yaw.None? ==> t.yaw == 0.9 * s.yaw && Abs(t.yaw) <= Abs(s.yaw)
  {
  }

  /** A first frame with samples (5, -2, 1) gives the readouts (0.5, -0.2, 0.1). */
  lemma FirstFrameScenario()
    ensures var t := Receive(Initial, Parsed(Envelope(Some(ImuBlock(Some(5.0), Some(-2.0), Some(1.0))), None)), false);
      t.pitch == 0.5 && t.roll == -0.2 && t.yaw == 0.1 && t.log == [] && t.gnss == Initial.gnss
  {
  }

  /** The roll bar's offset `clamp(rollError / 3 * 100, -100, 100)`. */
  function XOffset(s: State): real {
    Offset(s.roll - s.target.roll)
  }

  /** The pitch bar's offset `clamp(pitchError / 3 * 100, -100, 100)`. */
  function YOffset(s: State): real {
    Offset(s.pitch - s.target.pitch)
  }

  /** Both offsets stay in [-100, 100] and saturate for any error beyond 3 degrees. */
  lemma OffsetsSaturate(s: State)
    ensures -100.0 <= XOffset(s) <= 100.0 && -100.0 <= YOffset(s) <= 100.0
    ensures s.roll - s.target.roll >= 3.0 ==> XOffset(s) == 100.0
    ensures s.roll - s.target.roll <= -3.0 ==> XOffset(s) == -100.0
    ensures s.pitch - s.target.pitch >= 3.0 ==> YOffset(s) == 100.0
    ensures s.pitch - s.target.pitch <= -3.0 ==> YOffset(s) == -100.0
  {
  }

  /** The numbers `handleSaveToFile` writes into the downloaded report. */
  datatype Report = Report(pitch: real, roll: real, yaw: real, gnss: Position, target: Target)

  function ReportOf(s: State): Report {
    Report(s.pitch, s.roll, s.yaw, s.gnss, s.target)
  }

  /** The state after the SET button, and the report it saves. */
  datatype Saved = Saved(state: State, report: Report)

  /**
    The SET button as written: the target becomes the current attitude, but
    the report is built by the same render's closure, whose `target` is
    still the previous one.
   */
  function SetTargetAsWritten(s: State): (r: Saved)
    ensures r.state == s.(target := Target(s.pitch, s.roll))
    ensures r.report == ReportOf(s)
  {
    Saved(s.(target := Target(s.pitch, s.roll)), ReportOf(s))
  }

  /** As written, the report shows the new target only when it equals the old one. */
  lemma AsWrittenReportIsStale(s: State)
    ensures SetTargetAsWritten(s).report.target == SetTargetAsWritten(s).state.target
      <==> s.target == Target(s.pitch, s.roll)
  {
  }

  /** Attitude (3.2, -1.1, 0) with the initial target: the new target is (3.2, -1.1), the report says (0, 0). */
  lemma StaleTargetReport()
    ensures var s := Initial.(pitch := 3.2, roll := -1.1);
      SetTargetAsWritten(s).state.target == Target(3.2, -1.1) &&
      SetTargetAsWritten(s).report.target == Target(0.0, 0.0)
  {
  }

  /**
    The SET button as intended: the target becomes the current pitch and
    roll, nothing else changes, and the saved report shows the new state.
   */
  function SetTarget(s: State): (r: Saved)
    ensures r.state.target == Target(s.pitch, s.roll)
    ensures r.state.pitch == s.pitch && r.state.roll == s.roll && r.state.yaw == s.yaw
    ensures r.state.gnss == s.gnss && r.state.log == s.log
    ensures r.report == ReportOf(r.state)
    ensures r.report.target == Target(s.pitch, s.roll)
  {
    var t := s.(target := Target(s.pitch, s.roll));
    Saved(t, ReportOf(t))
  }

  /** Right after SET both bars are centred and empty, and both show the good class. */
  lemma SetTargetCentresBars(s: State)
    ensures XOffset(SetTarget(s).state) == 0.0 && YOffset(SetTarget(s).state) == 0.0
    ensures HorizontalFill(XOffset(SetTarget(s).state)) == Fill(50.0, 0.0)
    ensures VerticalFill(YOffset(SetTarget(s).state)) == Fill(50.0, 0.0)
    ensures ErrorClass(SetTarget(s).state.roll - SetTarget(s).state.target.roll) == Good
    ensures ErrorClass(SetTarget(s).state.pitch - SetTarget(s).state.target.pitch) == Good
  {
  }

  /** SET with attitude (3.2, -1.1, 0) makes the target and the report's target (3.2, -1.1). */
  lemma SetTargetScenario()
    ensures var r := SetTarget(Initial.(pitch := 3.2, roll := -1.1));
      r.state.target == Target(3.2, -1.1) && r.report.target == Target(3.2, -1.1)
  {
  }
}
