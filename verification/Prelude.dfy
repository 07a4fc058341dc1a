/** Shared vocabulary: optional values, row identifiers and instants. */
module Prelude {

  datatype Option<+T> = None | Some(value: T)

  /** Primary keys. UUIDs are compared as 128-bit numbers, so integers order them alike. */
  type Id = int

  /** Instants, in microseconds. */
  type Time = int

  /** Some member of a non-empty set. */
  ghost function Pick<T>(s: set<T>): (x: T)
    requires s != {}
    ensures x in s
  {
    var x :| x in s;
    x
  }
}
