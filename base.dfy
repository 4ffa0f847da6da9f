/** Small value types shared by every module of the model. */
module Base {

  /** Swift's `Optional`. */
  datatype Option<+T> = None | Some(value: T)

  /** Swift's `Result<Success, Failure>`. */
  datatype Result<+T, +E> = Success(value: T) | Failure(error: E)

  /** An opaque error value (Alamofire's `AFError`, a stream error).
      Only its identity matters to the client: it is passed on, never inspected. */
  datatype Error = Error(code: int, description: string)

  /** An opaque resource location, as produced by the application bundle. */
  datatype Url = Url(raw: string)

  /** `s` begins with `p`, as Swift's `hasPrefix`. */
  predicate HasPrefix(s: string, p: string)
  {
    |p| <= |s| && s[..|p|] == p
  }

  /** `p` occurs in `s` starting at position `i`. */
  predicate OccursAt(s: string, p: string, i: nat)
  {
    i + |p| <= |s| && s[i..i + |p|] == p
  }

  /** `s` contains at least one occurrence of the (non-empty) pattern `p`. */
  predicate Contains(s: string, p: string)
  {
    exists i: nat | i <= |s| :: OccursAt(s, p, i)
  }
}
