// main/main.c: the attitude that imu_task publishes and flight_ctrl_task reads under imu_mutex.

module Globals {
  datatype Attitude = Attitude(pitch: real, roll: real, yawRate: real)
}
