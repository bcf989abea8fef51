/**
 * The ID space of one picking pass.
 *
 * The pass visits the object categories in a fixed order (moby, tie, shrub,
 * spline, cuboid, sphere, cylinder, type0C, terrain). Category k is described
 * by its enable flag `enabled[k]` and the length `counts[k]` of its list. An
 * enabled category takes the next `counts[k]` IDs from a running offset; a
 * disabled one takes none and keeps the offset variable's initial value 0.
 *
 * Decoding walks the categories in the same order and returns the first
 * enabled one whose upper bound exceeds the ID, with no lower-bound test.
 */
module PickIndex {

  /** The outcome of the decoding chain for one ID. */
  datatype Resolution =
    | Hit(category: nat, index: nat)   // element `index` of category `category`
    | Miss                             // no category matched: no object
    | IndexOutOfRange                  // a negative list index: the list access would throw

  predicate WellFormed(enabled: seq<bool>, counts: seq<nat>)
  {
    |enabled| == |counts|
  }

  /** The number of IDs taken by the enabled categories before category k. */
  function EnabledBefore(enabled: seq<bool>, counts: seq<nat>, k: nat): nat
    requires WellFormed(enabled, counts) && k <= |counts|
  {
    if k == 0 then 0
    else EnabledBefore(enabled, counts, k - 1) + (if enabled[k - 1] then counts[k - 1] else 0)
  }

  /** The number of IDs taken by the whole pass. */
  function Total(enabled: seq<bool>, counts: seq<nat>): nat
    requires WellFormed(enabled, counts)
  {
    EnabledBefore(enabled, counts, |counts|)
  }

  /**
   * The offset variables the pass leaves behind: the running offset for an
   * enabled category, 0 for a disabled one.
   */
  function SourceOffsets(enabled: seq<bool>, counts: seq<nat>): (offsets: seq<int>)
    requires WellFormed(enabled, counts)
    ensures |offsets| == |counts|
  {
    seq(|counts|, k requires 0 <= k < |counts| =>
      if enabled[k] then EnabledBefore(enabled, counts, k) else 0)
  }

  /** Category k is enabled and `id` lies in its range of IDs. */
  predicate Owns(enabled: seq<bool>, counts: seq<nat>, k: nat, id: int)
    requires WellFormed(enabled, counts) && k < |counts|
  {
    enabled[k] && EnabledBefore(enabled, counts, k) <= id < EnabledBefore(enabled, counts, k) + counts[k]
  }

  /**
   * The decoding chain from category k on: the first enabled category whose
   * `id - offset < count` test passes.
   */
  function Chain(enabled: seq<bool>, counts: seq<nat>, offsets: seq<int>, id: int, k: nat): (r: Resolution)
    requires WellFormed(enabled, counts) && |offsets| == |counts| && k <= |counts|
    ensures r.Hit? ==> k <= r.category < |counts| && r.index < counts[r.category]
    decreases |counts| - k
  {
    if k == |counts| then Miss
    else if enabled[k] && id - offsets[k] < counts[k] then
      if id - offsets[k] < 0 then IndexOutOfRange else Hit(k, id - offsets[k])
    else Chain(enabled, counts, offsets, id, k + 1)
  }

  /** Decoding `id` against the offsets of the same pass. */
  function Resolve(enabled: seq<bool>, counts: seq<nat>, id: int): Resolution
    requires WellFormed(enabled, counts)
  {
    Chain(enabled, counts, SourceOffsets(enabled, counts), id, 0)
  }

  // ---------------------------------------------------------------------
  // The ID ranges

  lemma {:induction false} EnabledBeforeMonotone(enabled: seq<bool>, counts: seq<nat>, j: nat, k: nat)
    requires WellFormed(enabled, counts) && j <= k <= |counts|
    ensures EnabledBefore(enabled, counts, j) <= EnabledBefore(enabled, counts, k)
    decreases k - j
  {
    if j < k {
      EnabledBeforeMonotone(enabled, counts, j, k - 1);
    }
  }

  /** An enabled category's range ends where the next enabled category's range starts. */
  lemma RangesContiguous(enabled: seq<bool>, counts: seq<nat>, j: nat, k: nat)
    requires WellFormed(enabled, counts) && j < k < |counts|
    requires enabled[j] && enabled[k]
    requires forall m :: j < m < k ==> !enabled[m]
    ensures EnabledBefore(enabled, counts, k) == EnabledBefore(enabled, counts, j) + counts[j]
  {
    SkipDisabled(enabled, counts, j + 1, k);
  }

  lemma {:induction false} SkipDisabled(enabled: seq<bool>, counts: seq<nat>, j: nat, k: nat)
    requires WellFormed(enabled, counts) && j <= k <= |counts|
    requires forall m :: j <= m < k ==> !enabled[m]
    ensures EnabledBefore(enabled, counts, k) == EnabledBefore(enabled, counts, j)
    decreases k - j
  {
    if j < k {
      SkipDisabled(enabled, counts, j, k - 1);
    }
  }

  /** A disabled category takes no IDs. */
  lemma DisabledOwnsNothing(enabled: seq<bool>, counts: seq<nat>, k: nat, id: int)
    requires WellFormed(enabled, counts) && k < |counts| && !enabled[k]
    ensures !Owns(enabled, counts, k, id)
    ensures EnabledBefore(enabled, counts, k + 1) == EnabledBefore(enabled, counts, k)
  {
  }

  /** No ID lies in the ranges of two categories. */
  lemma RangesDisjoint(enabled: seq<bool>, counts: seq<nat>, j: nat, k: nat, id: int)
    requires WellFormed(enabled, counts) && j < |counts| && k < |counts|
    requires Owns(enabled, counts, j, id) && Owns(enabled, counts, k, id)
    ensures j == k
  {
    if j < k {
      EnabledBeforeMonotone(enabled, counts, j + 1, k);
    } else if k < j {
      EnabledBeforeMonotone(enabled, counts, k + 1, j);
    }
  }

  /** Every ID below the total lies in the range of some category. */
  lemma {:induction false} EveryIdBelowTotalOwned(enabled: seq<bool>, counts: seq<nat>, id: int, n: nat)
    requires WellFormed(enabled, counts) && n <= |counts|
    requires 0 <= id < EnabledBefore(enabled, counts, n)
    ensures exists k :: 0 <= k < n && Owns(enabled, counts, k, id)
  {
    if id < EnabledBefore(enabled, counts, n - 1) {
      EveryIdBelowTotalOwned(enabled, counts, id, n - 1);
    } else {
      assert Owns(enabled, counts, n - 1, id);
    }
  }

  /** IDs at or above the total lie in no range. */
  lemma IdsFromTotalUnowned(enabled: seq<bool>, counts: seq<nat>, k: nat, id: int)
    requires WellFormed(enabled, counts) && k < |counts|
    requires id >= Total(enabled, counts)
    ensures !Owns(enabled, counts, k, id)
  {
    EnabledBeforeMonotone(enabled, counts, k + 1, |counts|);
  }

  // ---------------------------------------------------------------------
  // The decoding chain

  /**
   * The invariant of the chain: when category k is reached with
   * `id >= EnabledBefore(k)` (the bound the failed earlier tests imply), the
   * chain finds the owner of `id` among the categories from k on, or misses
   * when there is none.
   */
  lemma {:induction false} ChainFrom(enabled: seq<bool>, counts: seq<nat>, id: int, k: nat)
    requires WellFormed(enabled, counts) && k <= |counts|
    requires id >= EnabledBefore(enabled, counts, k)
    ensures var r := Chain(enabled, counts, SourceOffsets(enabled, counts), id, k);
      && !r.IndexOutOfRange?
      && (r.Hit? ==> Owns(enabled, counts, r.category, id) && r.index == id - EnabledBefore(enabled, counts, r.category))
      && (r.Miss? ==> forall m :: k <= m < |counts| ==> !Owns(enabled, counts, m, id))
    decreases |counts| - k
  {
    var offsets := SourceOffsets(enabled, counts);
    if k < |counts| {
      if enabled[k] && id - offsets[k] < counts[k] {
        assert Owns(enabled, counts, k, id);
      } else {
        ChainFrom(enabled, counts, id, k + 1);
      }
    }
  }

  /** Decoding a non-negative ID never indexes a list with a negative index. */
  lemma ResolveNeverOutOfRange(enabled: seq<bool>, counts: seq<nat>, id: int)
    requires WellFormed(enabled, counts) && 0 <= id
    ensures !Resolve(enabled, counts, id).IndexOutOfRange?
  {
    ChainFrom(enabled, counts, id, 0);
  }

  /** Decoding an ID returns element `id - EnabledBefore(k)` of the category k that owns it. */
  lemma ResolveFindsOwner(enabled: seq<bool>, counts: seq<nat>, k: nat, id: int)
    requires WellFormed(enabled, counts) && k < |counts|
    requires Owns(enabled, counts, k, id)
    ensures Resolve(enabled, counts, id) == Hit(k, id - EnabledBefore(enabled, counts, k))
  {
    ChainFrom(enabled, counts, id, 0);
    var r := Resolve(enabled, counts, id);
    if r.Hit? {
      RangesDisjoint(enabled, counts, r.category, k, id);
    }
  }

  /** Decoding a non-negative ID hits exactly the owned IDs and misses the others. */
  lemma ResolveHitIffOwned(enabled: seq<bool>, counts: seq<nat>, id: int)
    requires WellFormed(enabled, counts) && 0 <= id
    ensures Resolve(enabled, counts, id).Hit? <==> exists k :: 0 <= k < |counts| && Owns(enabled, counts, k, id)
    ensures Resolve(enabled, counts, id).Hit? <==> id < Total(enabled, counts)
  {
    ChainFrom(enabled, counts, id, 0);
    if id < Total(enabled, counts) {
      EveryIdBelowTotalOwned(enabled, counts, id, |counts|);
    } else {
      forall k | 0 <= k < |counts|
        ensures !Owns(enabled, counts, k, id)
      {
        IdsFromTotalUnowned(enabled, counts, k, id);
      }
    }
  }
}
