/** Value types shared by the firmware and the visualizer models. */
module Common {

  /** `Result<T, ()>` of the firmware: a value, or a failure that carries nothing. */
  datatype Result<T> = Ok(value: T) | Err

  /** A shared slot that may not have been filled yet. */
  datatype Option<T> = None | Some(value: T)

  /** A three-axis reading (accelerometer, gyroscope, gyro bias). */
  datatype Vec3 = Vec3(x: real, y: real, z: real)

  const Zero3: Vec3 := Vec3(0.0, 0.0, 0.0)

  function Add3(a: Vec3, b: Vec3): Vec3 {
    Vec3(a.x + b.x, a.y + b.y, a.z + b.z)
  }

  function Sub3(a: Vec3, b: Vec3): Vec3 {
    Vec3(a.x - b.x, a.y - b.y, a.z - b.z)
  }

  function Scale3(k: real, a: Vec3): Vec3 {
    Vec3(k * a.x, k * a.y, k * a.z)
  }

  function Dot3(a: Vec3, b: Vec3): real {
    a.x * b.x + a.y * b.y + a.z * b.z
  }
}
