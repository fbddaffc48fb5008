/** The optional value used where the plugin's host either yields something or nothing. */
module Wrappers {

  datatype Option<+T> = None | Some(value: T)

}
