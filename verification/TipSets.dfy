/** Tipsets as the syncer sees them: a key (the CIDs of its blocks), the key of
    its parents, a height and the weight of its parents. */
module TipSets {

  /** Content identifiers are only ever compared. */
  type Cid = nat

  type Key = seq<Cid>

  const EMPTY_KEY: Key := []

  datatype TipSet = TipSet(key: Key, parents: Key, height: int, weight: int)

  /** `TipSet.Equals`: same height and the same CIDs in the same order. */
  predicate Equals(a: TipSet, b: TipSet) {
    a.height == b.height && a.key == b.key
  }

  /** `isHeavier`: the comparison is on the weight of the parents. */
  predicate IsHeavier(a: TipSet, b: TipSet) {
    a.weight > b.weight
  }

  /** `CidArrsEqual`: the comparison ignores order. */
  predicate CidArrsEqual(a: Key, b: Key) {
    |a| == |b| && forall c | c in b :: c in a
  }

  predicate IsChildOf(child: TipSet, parent: TipSet) {
    CidArrsEqual(child.parents, parent.key) && child.height > parent.height
  }
}
