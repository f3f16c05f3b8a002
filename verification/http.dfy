/**
 The browser side of the HTTP boundary: the build-time backend base URL,
 what one `fetch` can produce, and the shape of one handler step.
 */
module Http {

  datatype Option<+T> = None | Some(value: T)

  /** JavaScript truthiness of NEXT_PUBLIC_API_BASE_URL: an unset variable
      and an empty one are both treated as "not configured". */
  predicate Configured(url: Option<string>) {
    url.Some? && url.value != ""
  }

  /** The outcome of one awaited `fetch`: either the server answered with a
      status and a body that decodes as `T` (or does not, in which case
      `.json()` throws), or `fetch` itself threw. */
  datatype Reply<+T> = Responded(status: int, body: Option<T>) | Thrown(error: string) {

    /** `response.ok`: the status is in 200..299. */
    predicate Ok() {
      Responded? && 200 <= status <= 299
    }

    /** The payload a handler goes on with: present only for an ok response
        whose body decodes; every other outcome lands in the handler's
        `catch`. */
    function Payload(): Option<T> {
      if Ok() then body else None
    }
  }

  /** One synchronous step of a handler: the state it leaves behind and the
      request it issues, if any. */
  datatype Step<+S, +Q> = Step(next: S, request: Option<Q>)
}
