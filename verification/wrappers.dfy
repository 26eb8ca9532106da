/** An optional value, for data the site's code reads through optional chaining (`a?.b?.c`). */
module Wrappers {

  datatype Option<+T> = None | Some(value: T)
}
