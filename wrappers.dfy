/** Python's `None`-or-value, as used for every optional field and global of the bot. */
module Wrappers {
  datatype Option<+T> = None | Some(value: T)
}
