/** Values shared by the four provisioning scripts: replies of the REST API
    taken as inputs, the calls a script issues, and what a script raises. */
module Common {

  datatype Option<+T> = None | Some(value: T)

  /** The exceptions the scripts raise. */
  datatype Error =
    | HttpStatus(status: int)   // an `Exception` quoting an unexpected status code
    | KeyMissing(key: string)   // a `KeyError` from subscripting a parsed JSON body
    | NotFound(kind: string, name: string)  // an `Exception` for a user, group or service principal not found

  /** A value returned normally, or an exception that propagates. */
  datatype Outcome<+T> = Ok(value: T) | Raised(error: Error)

  /** One reply of the platform: a status code and the parsed body. */
  datatype Response<+B> = Response(status: int, body: B)

  datatype Verb = GET | POST | PATCH | PUT

  /** One HTTP request: verb, target (URL without host) and JSON body, if any. */
  datatype Call<+E, +P> = Call(verb: Verb, endpoint: E, body: Option<P>)

  /** The calls a script made, in order, and how it ended. */
  datatype Run<+C, +T> = Run(calls: seq<C>, outcome: Outcome<T>)

  /** Python truthiness of a string identifier read from JSON: present and non-empty. */
  predicate NonEmpty(id: Option<string>)
  {
    id.Some? && id.value != ""
  }

  /** Python truthiness of an integer identifier read from JSON: present and non-zero. */
  predicate NonZero(id: Option<int>)
  {
    id.Some? && id.value != 0
  }

  /** The elements of a list, as Python's `set(...)` of it. */
  function Elems<T>(s: seq<T>): set<T>
  {
    set x | x in s
  }

  predicate Distinct<T(==)>(s: seq<T>)
  {
    forall i, j :: 0 <= i < j < |s| ==> s[i] != s[j]
  }
}
