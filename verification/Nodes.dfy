/** Linked lists of any kind of node, as sequences. */
module Nodes {
  /** No node is listed twice. */
  predicate Distinct<T(==)>(nodes: seq<T>) {
    forall i: nat, j: nat | i < j < |nodes| :: nodes[i] != nodes[j]
  }
}
