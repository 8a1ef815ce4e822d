/** The optional value used where the source has `null` or `undefined`. */
module Wrappers {

  datatype Option<+T> = None | Some(value: T) {

    /** The wrapped value, or `default` when there is none (JavaScript's `x || default` on objects). */
    function GetOr(default: T): T {
      match this
      case Some(v) => v
      case None => default
    }
  }
}

/** The browser's `File` object, reduced to what the category flow looks at. */
module BrowserFile {

  /** `file.type` (the MIME type the browser reports) and `file.size` in bytes. */
  datatype File = File(mimeType: string, size: nat)
}
