/** Result shapes shared by every service: an optional value, and the outcome
    of an HTTP handler (a value, or an HTTPException with status code and detail). */
module Wrappers {

  datatype Option<+T> = None | Some(value: T) {
    function GetOr(default: T): T {
      if Some? then value else default
    }
  }

  /** What a route handler produces: `Ok(v)` is a 200 response carrying `v`;
      `Err(code, detail)` is a raised HTTPException. */
  datatype Reply<+T> = Ok(value: T) | Err(code: int, detail: string)

  /** The JSON `{"message": ..., "id": ...}` bodies the SOC routes return. */
  datatype Message = Message(message: string, id: string)
}
