/** What several parts of the block layer and the crypto API have in common. */
module Common {

  datatype Option<+T> = None | Some(value: T)

  /** The data direction of a bio or request. */
  datatype Dir = Read | Write

  /** No id is listed twice. */
  predicate Distinct(s: seq<nat>) {
    |s| == 0 || (s[0] !in s[1..] && Distinct(s[1..]))
  }
}
