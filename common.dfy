/** Types shared by the models of the two flight scripts and the autopilot. */
module Common {

  /** An optional value; `None` plays the role of Python's `None`. */
  datatype Option<T> = None | Some(value: T)

  /** The configured command magnitudes `speed_xy`, `speed_z` and `speed_yaw`. */
  datatype Speeds = Speeds(xy: int, z: int, yaw: int)

  /**
    Four stick values in the order `send_rc_control` takes them: left/right,
    forward/back, up/down and yaw.
   */
  datatype Axes = Axes(lr: int, fb: int, ud: int, yaw: int)

  /** The limit of every stick value the drone accepts. */
  const StickLimit: int := 100
}
