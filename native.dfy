/**
 * Values shared by every adapter of the platform layer: the running platform
 * (`Platform.OS`), an optional value, and the log of toast notices the layer
 * shows to the user.
 */
module Native {

  datatype Option<T> = None | Some(value: T) {
    /**
     * The JavaScript `value ?? fallback` of a nullable value; with the
     * fallback `""`, as every caller passes, it agrees with `value || ""`.
     */
    function GetOr(fallback: T): T {
      match this
      case Some(v) => v
      case None => fallback
    }
  }

  /** The values `Platform.OS` can take; the adapters only tell `ios` apart. */
  datatype Os = IOS | Android | Windows | MacOS | Web

  /** A toast shown through `showToast`; only the interpolated capability name is kept. */
  datatype Notice =
    | PermissionNeeded(capability: string)         // a request that was not granted
    | PermissionRequestFailed(capability: string)  // a request whose broker call rejected
    | AddToQueueFailed
    | PickFileFailed
    | SaveFileFailed
    | ShareFileFailed

  /** The toast channel, as an output log. */
  class Toasts {
    var shown: seq<Notice>

    constructor ()
      ensures shown == []
    {
      shown := [];
    }

    method Show(n: Notice)
      modifies this
      ensures shown == old(shown) + [n]
    {
      shown := shown + [n];
    }
  }
}
