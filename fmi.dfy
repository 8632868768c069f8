/** Types of the FMI 2.0 C interface that the component exchanges with its host. */
module Fmi {

  /** `fmi2Integer` is a C `int`: a signed 32-bit integer. */
  type Int32 = x: int | -0x8000_0000 <= x < 0x8000_0000

  /** `fmi2Status`, the status code every host-facing call returns. */
  datatype Status = OK | Warning | Discard | Error | Fatal | Pending

  /** `fmi2True` / `fmi2False`: an `fmi2Boolean` is an `int`, true when non-zero. */
  const False: Int32 := 0
  const True: Int32 := 1
}
