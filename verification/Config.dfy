// main/config.h: the limits every flight-side component is compiled with.

module Config {
  const PWM_MIN_US := 1000
  const PWM_MAX_US := 1600
  const FLIGHT_MAX_US := 1300
  const ARM_US := 1000
  const SPIN_US := 1200

  const THROTTLE_ACCEL_MAX := 2.0
  const THROTTLE_ACCEL_MIN := 1.0

  const PID_PITCH_GAINS := (2.0, 0.1, 0.0)
  const PID_ROLL_GAINS := (2.0, 0.1, 0.0)
  const PID_YAW_GAINS := (0.0, 0.0, 0.0)
  const PID_OUTPUT_LIMIT := 100.0
  const PID_INTEGRAL_LIMIT := 0.0
  const ANGLE_LIMIT_DEG := 45.0

  const STICK_MAX := 512.0
  const STICK_DEADBAND := 20
  const ANGLE_SETPOINT_MAX := 20.0
  const YAW_RATE_MAX := 90.0
}
