/** The exceptions that can end up in a `Status.Error` (common/exception/AppException.kt). */
module AppException {

  /**
   * `NetworkException` and `UnknownException` are the two application exceptions the
   * view-model raises itself; `Thrown` stands for any other exception a request factory
   * may throw, identified by its message.
   */
  datatype Throwable = NetworkException | UnknownException | Thrown(message: string)
}
