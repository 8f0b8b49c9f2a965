/** The three-way load status held by the view-model (utils/Status.kt). */
module Status {
  import opened AppException

  /** Exactly one variant is active at a time; a transition replaces the whole value. */
  datatype Status<+T> = Loading | Success(data: T) | Error(throwable: Throwable)
}
