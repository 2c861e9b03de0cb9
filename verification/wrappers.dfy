/** The optional value used for "no point", "no selection" and parse failures. */
module Wrappers {
  datatype Option<+T> = None | Some(value: T)
}

/** Data that arrives asynchronously from the server: not yet requested, in flight, or available. */
module AppState {
  datatype AsyncData<+T> = NotLoaded | Loading | Loaded(value: T)
}
