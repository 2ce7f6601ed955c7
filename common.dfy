/** Small value types shared by the public wizard and the admin console. */
module Common {

  /** A value that may be absent: an `undefined` or `null` in the client's records. */
  datatype Option<T> = None | Some(value: T)

  /** How one awaited request to the back-end API settled: resolved with a
      response body, or rejected (network error or non-2xx status). The
      transport itself is not modelled. */
  datatype Reply<T> = Ok(body: T) | Failed

  /** JavaScript truthiness of `string | null`: present and non-empty. */
  predicate Truthy(v: Option<string>) {
    v.Some? && v.value != ""
  }

  /** A branch record as the API returns it; complaints refer to branches by `name`. */
  datatype Branch = Branch(id: string, name: string)
}
