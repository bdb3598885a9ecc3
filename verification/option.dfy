/** An optional value: the engine's null for slots, lookups and layers that may be absent. */
module Optional {
  datatype Option<+T> = None | Some(value: T)
}
