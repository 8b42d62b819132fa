/**
 * The exceptions that end a client call chain. In the client every continuation that
 * touches a faulted task, a missing key or an unconvertible value throws, and the
 * task it belongs to faults; the model returns a Failure with one of these instead.
 */
module Faults {

  datatype Fault =
    | TransportFailure          // the HTTP request itself failed: `response.Result` rethrows
    | NotOk(status: int)        // HttpRequestException "HTTP response not 200 OK."
    | MalformedJson             // the body is not JSON at all
    | NotAnObject               // the JSON is not an object (JObject.Parse or the cast to JObject fails)
    | EmptyArray                // `obj[0]` on an empty JSON array
    | MissingKey(key: string)   // `data[key].ToString()` on an absent key: NullReferenceException
    | Unconvertible(key: string) // `data.Value<T>(key)` cannot convert the value to T
}
