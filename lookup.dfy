/**
 * The generic first-match linear search on which every descriptor lookup
 * of the CAN layer is built. A candidate table is a sequence together with
 * the count of entries the caller declares valid; the comparator decides
 * whether the key matches one candidate.
 */
module GenericLookup {

  /** "Not found" (a NULL pointer) or the descriptor that was found. */
  datatype Option<+T> = None | Some(value: T)

  /** `index` is the lowest position in `candidates[0 .. candidateCount)` that
      `comparator` accepts, or -1 when it accepts none of them. */
  predicate IsFirstMatch<K, C>(key: K, comparator: (K, C) -> bool, candidates: seq<C>,
                               candidateCount: int, index: int)
    requires candidateCount <= |candidates|
  {
    if index == -1 then
      forall i | 0 <= i < candidateCount :: !comparator(key, candidates[i])
    else
      0 <= index < candidateCount && comparator(key, candidates[index]) &&
      forall i | 0 <= i < index :: !comparator(key, candidates[i])
  }

  /** Reference definition of the search, scanning upwards from `from`. */
  function FirstMatchFrom<K, C>(key: K, comparator: (K, C) -> bool, candidates: seq<C>,
                                candidateCount: int, from: nat): (index: int)
    requires candidateCount <= |candidates|
    ensures index == -1 || (from <= index < candidateCount && comparator(key, candidates[index]))
    ensures index == -1 ==> forall i | from <= i < candidateCount :: !comparator(key, candidates[i])
    ensures index != -1 ==> forall i | from <= i < index :: !comparator(key, candidates[i])
    decreases candidateCount - from
  {
    if from >= candidateCount then -1
    else if comparator(key, candidates[from]) then from
    else FirstMatchFrom(key, comparator, candidates, candidateCount, from + 1)
  }

  /** The result that `lookup` must produce. */
  function FirstMatch<K, C>(key: K, comparator: (K, C) -> bool, candidates: seq<C>,
                            candidateCount: int): (index: int)
    requires candidateCount <= |candidates|
    ensures IsFirstMatch(key, comparator, candidates, candidateCount, index)
    ensures candidateCount <= 0 ==> index == -1
  {
    FirstMatchFrom(key, comparator, candidates, candidateCount, 0)
  }

  /** Being the first match pins the index down: FirstMatch is the only
      index with that property. */
  lemma FirstMatchCharacterization<K, C>(key: K, comparator: (K, C) -> bool, candidates: seq<C>,
                                         candidateCount: int, index: int)
    requires candidateCount <= |candidates|
    ensures IsFirstMatch(key, comparator, candidates, candidateCount, index)
            <==> index == FirstMatch(key, comparator, candidates, candidateCount)
  {
  }

  /** Only the first `candidateCount` entries are ever examined: tables that
      agree on them give the same answer, whatever lies beyond. */
  lemma FirstMatchIgnoresUncounted<K, C>(key: K, comparator: (K, C) -> bool,
                                         candidates: seq<C>, others: seq<C>, candidateCount: int)
    requires candidateCount <= |candidates| && candidateCount <= |others|
    requires forall i | 0 <= i < candidateCount :: candidates[i] == others[i]
    ensures FirstMatch(key, comparator, candidates, candidateCount)
            == FirstMatch(key, comparator, others, candidateCount)
  {
  }

  /** A lookup followed by the step that turns the index into the matching
      descriptor, or into "not found" for -1. */
  function Find<K, C>(key: K, comparator: (K, C) -> bool, candidates: seq<C>,
                      candidateCount: int): (r: Option<C>)
    requires candidateCount <= |candidates|
    ensures r.Some? ==> comparator(key, r.value)
    ensures r.None? <==> forall i | 0 <= i < candidateCount :: !comparator(key, candidates[i])
  {
    var index := FirstMatch(key, comparator, candidates, candidateCount);
    if index != -1 then Some(candidates[index]) else None
  }

  /** The descriptor found is the one at the lowest matching position, so
      duplicate keys resolve to their first occurrence. */
  lemma FindReturnsFirstMatch<K, C>(key: K, comparator: (K, C) -> bool, candidates: seq<C>,
                                    candidateCount: int, k: int)
    requires candidateCount <= |candidates|
    requires 0 <= k < candidateCount && comparator(key, candidates[k])
    requires forall i | 0 <= i < k :: !comparator(key, candidates[i])
    ensures Find(key, comparator, candidates, candidateCount) == Some(candidates[k])
  {
  }

  /** `lookup`: ascending scan with early exit on the first accepted index. */
  method Lookup<K, C>(key: K, comparator: (K, C) -> bool, candidates: seq<C>,
                      candidateCount: int) returns (index: int)
    requires candidateCount <= |candidates|
    ensures index == -1 || 0 <= index < candidateCount
    ensures IsFirstMatch(key, comparator, candidates, candidateCount, index)
    ensures index == FirstMatch(key, comparator, candidates, candidateCount)
  {
    var i := 0;
    while i < candidateCount
      invariant 0 <= i && (i <= candidateCount || i == 0)
      invariant forall j | 0 <= j < i :: !comparator(key, candidates[j])
      decreases candidateCount - i
    {
      if comparator(key, candidates[i]) {
        FirstMatchCharacterization(key, comparator, candidates, candidateCount, i);
        return i;
      }
      i := i + 1;
    }
    FirstMatchCharacterization(key, comparator, candidates, candidateCount, -1);
    return -1;
  }
}
