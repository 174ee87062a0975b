/** Optional values, results, and the one kind of failure the wizard's steps report. */
module Outcomes {

  /** A value that may be absent: a missing `initialData` prop, a `parseInt` that gave NaN. */
  datatype Option<+T> = None | Some(value: T)

  /** What a step's submit handler does: hand its data to `onNext`, or reject. */
  datatype Result<+T, +E> = Ok(value: T) | Err(error: E)

  /** The rejections the step gates raise (each is an `alert` in the UI). */
  datatype ValidationError =
    | BlankContactField    // name or phone number empty after trimming
    | BlankHotelField      // hotel name, size or location empty after trimming
    | InvalidRoomCount     // total rooms not positive
    | NoOperatingDay       // no day and no group flag selected
    | NoOperatingHours     // `from` or `to` is the empty string
}
