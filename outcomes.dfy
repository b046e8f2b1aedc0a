/** Values shared by the mungers: optional values, outcomes, bytes, and the
    errors a munger hands back to the proxy's dispatcher. */
module Outcomes {

  datatype Option<+T> = None | Some(value: T)

  datatype Result<+T, +E> = Success(value: T) | Failure(error: E)

  /** One octet of an HTTP message body. */
  newtype byte = x: int | 0 <= x < 256

  /** An error reported by a collaborator outside this model (the body
      stream, the JSON library, the path translator). The mungers only wrap
      it, so its identity is all that matters. */
  type Cause = string

  /** Which HTTP message a body belongs to. The request and the response
      readers differ in nothing else. */
  datatype Role = Request | Response

  /** The wrapped errors the mungers return; each keeps the cause it wraps. */
  datatype Error =
    | ReadBodyError(role: Role, cause: Cause)              // "could not read <role> body"
    | UnmarshalBodyError(role: Role, cause: Cause)         // "could not unmarshal <role> body"
    | TranslateMountPathError(path: string, cause: Cause)  // "could not translate mount path <path>"
    | RemarshalError(cause: Cause)                         // "could not re-marshel parameters"
}
