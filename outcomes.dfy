/** Values shared by the two mock contracts: principals, error codes and the
    tagged results their operations return. */
module Outcomes {

  /** An opaque principal identifier (an address). */
  type Principal = string

  /** The principal that holds the admin role when a contract's state is
      created or reset; both contracts start from the same address. */
  const DefaultAdmin: Principal := "ST1PQHQKV0RJXZFY1DGX8MNSNYVE3VGZJSRTPGZGM"

  /** Error code returned when the sender is not the admin. */
  const Unauthorized: int := 403

  /** Error code returned when a referenced id is absent. */
  const NotFound: int := 404

  /** A lookup that may find nothing (the source returns `null`). */
  datatype Option<+T> = None | Some(value: T)

  /** `{ ok: value }` or `{ err: code }`. */
  datatype Result<+T> = Ok(value: T) | Err(code: int)
}
