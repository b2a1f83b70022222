/** Types shared by the four Lambda handlers: optional values and the answer of one
    read from the cloud gateway (the value, or the exception the call raised). */
module Common {

  datatype Option<T> = None | Some(value: T) {

    /** The value, or `default` when there is none (Python's `dict.get(key, default)`). */
    function GetOr(default: T): T {
      if Some? then value else default
    }
  }

  /** One gateway read: `Got` carries the response, `ReadFailed` stands for any
      exception the call raised (including an index into an empty response list). */
  datatype Read<T> = Got(value: T) | ReadFailed

  /** Python truthiness of an optional string: present and not empty. */
  predicate Truthy(s: Option<string>) {
    s.Some? && s.value != ""
  }
}
