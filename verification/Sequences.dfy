/** What several modules say of sequences. */
module Sequences {
  ghost predicate Distinct(l: seq<int>) {
    forall j, k :: 0 <= j < k < |l| ==> l[j] != l[k]
  }
}
