/**
 * The chunk filter of the frame: which terrain fragments and collision
 * models are shown, given the per-chunk selection flags.
 */
module Chunks {
  import opened Scene

  /** A collision model with the vertex and index buffer names uploaded for it. */
  datatype CollisionEntry = CollisionEntry(model: ModelRef, vbo: int, ibo: int)

  /** The fragments of the first n terrain chunks whose flag is set, chunk by chunk in order. */
  function SelectedTerrain(chunks: seq<seq<LevelObject>>, selected: seq<bool>, n: nat): seq<LevelObject>
    requires n <= |chunks| && n <= |selected|
  {
    if n == 0 then []
    else SelectedTerrain(chunks, selected, n - 1) + (if selected[n - 1] then chunks[n - 1] else [])
  }

  /** One entry (chunk i, vbo[i], ibo[i]) for each of the first n collision chunks whose flag is set. */
  function SelectedCollisions(chunks: seq<ModelRef>, vbo: seq<int>, ibo: seq<int>, selected: seq<bool>, n: nat): seq<CollisionEntry>
    requires n <= |chunks| && n <= |selected| && n <= |vbo| && n <= |ibo|
  {
    if n == 0 then []
    else
      var entry := CollisionEntry(chunks[n - 1], vbo[n - 1], ibo[n - 1]);
      SelectedCollisions(chunks, vbo, ibo, selected, n - 1) + (if selected[n - 1] then [entry] else [])
  }

  /** The indices below n whose flag is set, in increasing order. */
  function SelectedIndices(selected: seq<bool>, n: nat): (r: seq<nat>)
    requires n <= |selected|
    ensures forall j :: 0 <= j < |r| ==> r[j] < n && selected[r[j]]
  {
    if n == 0 then []
    else SelectedIndices(selected, n - 1) + (if selected[n - 1] then [n - 1] else [])
  }

  /** A fragment is shown exactly when it belongs to a selected chunk. */
  lemma {:induction false} SelectedTerrainMembership(chunks: seq<seq<LevelObject>>, selected: seq<bool>, n: nat, x: LevelObject)
    requires n <= |chunks| && n <= |selected|
    ensures x in SelectedTerrain(chunks, selected, n) <==> exists i :: 0 <= i < n && selected[i] && x in chunks[i]
  {
    if n > 0 {
      SelectedTerrainMembership(chunks, selected, n - 1, x);
    }
  }

  /** The shown fragments are the selected chunks' fragments, chunk by chunk: their count is the sum. */
  function SelectedLength(chunks: seq<seq<LevelObject>>, selected: seq<bool>, n: nat): nat
    requires n <= |chunks| && n <= |selected|
  {
    if n == 0 then 0
    else SelectedLength(chunks, selected, n - 1) + (if selected[n - 1] then |chunks[n - 1]| else 0)
  }

  lemma {:induction false} SelectedTerrainLength(chunks: seq<seq<LevelObject>>, selected: seq<bool>, n: nat)
    requires n <= |chunks| && n <= |selected|
    ensures |SelectedTerrain(chunks, selected, n)| == SelectedLength(chunks, selected, n)
  {
    if n > 0 {
      SelectedTerrainLength(chunks, selected, n - 1);
    }
  }

  /** With every flag set the filter keeps every fragment of every chunk, in order. */
  lemma {:induction false} AllSelectedKeepsAll(chunks: seq<seq<LevelObject>>, selected: seq<bool>, n: nat)
    requires n <= |chunks| && n <= |selected|
    requires forall i :: 0 <= i < n ==> selected[i]
    ensures SelectedTerrain(chunks, selected, n) == Flatten(chunks[..n])
  {
    if n > 0 {
      AllSelectedKeepsAll(chunks, selected, n - 1);
      assert chunks[..n] == chunks[..n - 1] + [chunks[n - 1]];
      FlattenAppend(chunks[..n - 1], chunks[n - 1]);
    }
  }

  function Flatten(chunks: seq<seq<LevelObject>>): seq<LevelObject>
  {
    if chunks == [] then [] else chunks[0] + Flatten(chunks[1..])
  }

  lemma {:induction false} FlattenAppend(chunks: seq<seq<LevelObject>>, last: seq<LevelObject>)
    ensures Flatten(chunks + [last]) == Flatten(chunks) + last
  {
    if chunks != [] {
      assert (chunks + [last])[1..] == chunks[1..] + [last];
      FlattenAppend(chunks[1..], last);
    }
  }

  /**
   * The collision entries are, in order, exactly one entry
   * (chunk i, vbo[i], ibo[i]) for each selected index i.
   */
  lemma {:induction false} SelectedCollisionsAt(chunks: seq<ModelRef>, vbo: seq<int>, ibo: seq<int>, selected: seq<bool>, n: nat)
    requires n <= |chunks| && n <= |selected| && n <= |vbo| && n <= |ibo|
    ensures var r := SelectedCollisions(chunks, vbo, ibo, selected, n);
      var idx := SelectedIndices(selected, n);
      && |r| == |idx|
      && forall j :: 0 <= j < |r| ==> r[j] == CollisionEntry(chunks[idx[j]], vbo[idx[j]], ibo[idx[j]])
  {
    if n > 0 {
      SelectedCollisionsAt(chunks, vbo, ibo, selected, n - 1);
    }
  }

  /** Every selected index appears once in the selected indices, and no other does. */
  lemma {:induction false} SelectedIndicesExact(selected: seq<bool>, n: nat, i: nat)
    requires n <= |selected|
    ensures var idx := SelectedIndices(selected, n);
      && (i in idx <==> i < n && selected[i])
      && forall j, j' :: 0 <= j < j' < |idx| ==> idx[j] < idx[j']
  {
    if n > 0 {
      SelectedIndicesExact(selected, n - 1, i);
    }
  }

  /** With every flag set, every index below n is selected, in order. */
  lemma {:induction false} AllSelectedIndices(selected: seq<bool>, n: nat)
    requires n <= |selected| && forall i :: 0 <= i < n ==> selected[i]
    ensures SelectedIndices(selected, n) == seq(n, i => i)
  {
    if n > 0 {
      AllSelectedIndices(selected, n - 1);
    }
  }

  /** With every flag set, the collision entries are one per chunk, in order, with that chunk's buffers. */
  lemma AllSelectedKeepsAllCollisions(chunks: seq<ModelRef>, vbo: seq<int>, ibo: seq<int>, selected: seq<bool>, n: nat)
    requires n <= |chunks| && n <= |selected| && n <= |vbo| && n <= |ibo|
    requires forall i :: 0 <= i < n ==> selected[i]
    ensures var r := SelectedCollisions(chunks, vbo, ibo, selected, n);
      && |r| == n
      && forall i :: 0 <= i < n ==> r[i] == CollisionEntry(chunks[i], vbo[i], ibo[i])
  {
    SelectedCollisionsAt(chunks, vbo, ibo, selected, n);
    AllSelectedIndices(selected, n);
  }
}
