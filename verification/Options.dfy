/** An optional value, and lists of blocks spelled out by links. */
module Options {

  datatype Option<+T> = None | Some(value: T)

  ghost predicate Distinct(list: seq<nat>) {
    forall i, j :: 0 <= i < j < |list| ==> list[i] != list[j]
  }

  /** The link that leads to entry `i` of a list. */
  function After(list: seq<nat>, i: nat): Option<nat> {
    if i < |list| then Some(list[i]) else None
  }
}
