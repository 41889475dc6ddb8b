/** The source's `null`-or-value fields (the read latch, the in-flight job). */
module Optional {
  datatype Option<T> = None | Some(value: T)
}
