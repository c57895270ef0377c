/** The part of RxJava's subscription handle that the activity relies on. */
module Rx {

  /** `io.reactivex.disposables.Disposable`: a handle on a running stream.
      Once disposed, the stream delivers nothing more; disposing again is a no-op. */
  class Disposable {
    var disposed: bool

    /** A subscription starts out live. */
    constructor ()
      ensures !disposed
    {
      disposed := false;
    }

    /** `dispose()`: ends the stream; on an already-disposed handle it changes nothing. */
    method Dispose()
      modifies this
      ensures disposed
      ensures old(disposed) ==> unchanged(this)
    {
      disposed := true;
    }
  }
}
