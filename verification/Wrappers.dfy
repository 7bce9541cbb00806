/** Generated ids, and values that may be absent. */
module Wrappers {
  datatype Option<+T> = None | Some(value: T)

  /** The source's ids are opaque generated text. A number stands for each, and 0 for the empty text. */
  type Id = nat

  const NO_ID: Id := 0

  /** The text of an id. */
  function IdText(id: Id): string {
    if id == NO_ID then "" else IdText(id / 10) + [['0', '1', '2', '3', '4', '5', '6', '7', '8', '9'][id % 10]]
  }
}
