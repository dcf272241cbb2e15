/** Results of the modelled Java calls: a value or the kind of exception that was thrown. */
module Outcomes {

  datatype Option<+T> = None | Some(value: T)

  /** The Java exception classes the modelled code throws or lets through. */
  datatype Exception =
    | IllegalArgument       // java.lang.IllegalArgumentException
    | IndexOutOfBounds      // java.lang.IndexOutOfBoundsException
    | IllegalState          // java.lang.IllegalStateException
    | IOException           // java.io.IOException (and MalformedURLException, a subclass)
    | FrameGrabberException // org.bytedeco.javacv.FrameGrabber.Exception

  /** A call that returns a value or throws. */
  datatype Result<+T> = Ok(value: T) | Err(error: Exception)

  /** A `void` call that returns normally or throws. */
  datatype Outcome = Done | Thrown(error: Exception)
}
