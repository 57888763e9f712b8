/**
  The inbound telemetry frames as the message handler sees them once
  `JSON.parse` has run (app/page.js:32-38, 60-66).
 */
module Telemetry {

  datatype Option<T> = None | Some(value: T)

  /**
    An `imu` block. A sub-field is None when it is missing or when
    `parseFloat` gives NaN for it; otherwise it is the parsed finite number.
   */
  datatype ImuBlock = ImuBlock(pitch: Option<real>, roll: Option<real>, yaw: Option<real>)

  /**
    A position fix. The handler copies the three fields of a `gnss` block
    as they are, so a field the block lacks is None (undefined in the source).
   */
  datatype Position = Position(latitude: Option<real>, longitude: Option<real>, altitude: Option<real>)

  /** A parsed frame: each block is present or absent on its own. */
  datatype Envelope = Envelope(imu: Option<ImuBlock>, gnss: Option<Position>)

  /**
    What one frame turns into: a parsed envelope, or a frame the handler
    rejects in its `catch` (a JSON syntax error, or a `null` payload whose
    `.imu` lookup throws).
   */
  datatype Inbound = Parsed(data: Envelope) | Malformed

  /** `parseFloat(field) || 0`: a missing or non-numeric field reads as 0. */
  function Sample(field: Option<real>): real {
    match field
    case None => 0.0
    case Some(v) => v
  }
}
