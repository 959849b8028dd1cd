/** The optional-value datatype used throughout the model: an attribute an object
    may or may not expose, a display size that may or may not have been found. */
module Options {

  datatype Option<+T> = None | Some(value: T)
}
