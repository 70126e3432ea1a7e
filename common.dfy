/** Value types shared by the VM model: optional values, results, and the
    fixed-width identifiers and integers of the `vms` table. */
module Common {

  datatype Option<+T> = None | Some(value: T)

  datatype Result<+T, +E> = Ok(value: T) | Err(error: E)

  /** A 128-bit unique identifier (the `Uuid` columns `id`, `host_id`, `kernel`). */
  newtype Uuid = x: int | 0 <= x < 0x1_0000_0000_0000_0000_0000_0000_0000_0000

  /** A signed 32-bit integer (the `i32` columns `status`, `vcpu`, `memory`). */
  newtype Int32 = x: int | -0x8000_0000 <= x < 0x8000_0000
}
