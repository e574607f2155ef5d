/** Python's `None`-or-value, as used for `current_song` and for an absent JSON key. */
module Optional {

  datatype Option<+T> = None | Some(value: T)
}
