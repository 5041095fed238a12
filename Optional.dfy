/** Python's `None` next to a value: the optional columns, marker slots and
    crack offsets of the roast monitor. */
module Optional {

  datatype Option<+T> = None | Some(value: T)
}
