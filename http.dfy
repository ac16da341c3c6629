/**
 * What the credential loaders see of the outside world. Transports, file
 * reads and parsers are not modelled; their outcomes are inputs.
 */
module Http {

  /** A completed HTTP exchange: the status code and the body read as text. */
  datatype Response = Response(status: int, body: string)

  /**
   * The outcome of an I/O step whose failure the Rust code propagates with `?`
   * (a connection error, an unreadable file, a body that cannot be read).
   */
  datatype Io<+T> = Done(value: T) | Failed

  datatype Method = Get | Put

  /** `status == http::StatusCode::OK` */
  predicate IsOk(status: int) {
    status == 200
  }

  /** `StatusCode::is_success`: any 2xx code. */
  predicate IsSuccess(status: int) {
    200 <= status < 300
  }
}
