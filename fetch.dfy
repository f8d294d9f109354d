/**
 * The page components' view of the network: every `await fetch(...)`
 * followed by `res.json()` comes to one of three outcomes, supplied to the
 * model from outside.
 */
module Fetch {

  /** A field of a parsed JSON body: present, or missing (absent, null or another falsy value). */
  datatype Option<T> = None | Some(value: T) {
    /** `field || fallback` for a field whose present values are all truthy. */
    function GetOr(fallback: T): (r: T)
      ensures Some? ==> r == value
      ensures None? ==> r == fallback
    {
      match this
      case Some(v) => v
      case None => fallback
    }
  }

  /**
   * `Ok(body)`: the response had `res.ok` and its body parsed as `body`;
   * `NotOk`: a non-2xx response; `Throws`: the fetch or `res.json()` threw.
   */
  datatype Outcome<T> = Ok(body: T) | NotOk | Throws
}
