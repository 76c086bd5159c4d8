/** Small shared vocabulary. */
module Options {
  /** A value that may be absent: a nil pointer, a zero time or a missing map entry. */
  datatype Option<+T> = None | Some(value: T)

  /** Some element of a non-empty set. */
  lemma Pick<T>(s: set<T>) returns (x: T)
    requires s != {}
    ensures x in s
  {
    x :| x in s;
  }
}
