/** Failure-carrying values shared by the store's views. */
module Results {

  datatype Option<+T> = None | Some(value: T)

  /** The ways a view can fail without changing anything it was about to change. */
  datatype Error =
    | NotFound        // a 404 from get_object_or_404, or DoesNotExist from a scoped lookup
    | IntegrityError  // the database refused a row (a NULL column, a failed CHECK)

  datatype Result<+T> = Ok(value: T) | Err(error: Error)

  /** The result of a view that only changes state. */
  datatype Outcome = Done | Failed(error: Error)
}
