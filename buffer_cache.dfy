/**
 * The frame's table of GPU buffers, keyed by the identity of the renderable
 * they were uploaded for: a buffer is created on the first request for a
 * renderable and every later request gets that same buffer back.
 */
module BufferCache {
  import opened Scene

  /** Anything with uploadable geometry: a level object or a model. */
  datatype Renderable = ObjectGeometry(obj: LevelObject) | ModelGeometry(model: ModelRef)

  /** The name of the buffer container created for a renderable. */
  type BufferHandle = nat

  type BufferTable = map<Renderable, BufferHandle>

  /**
   * Get-or-create: the cached buffer of `key`, or `created` (the buffer the
   * factory uploads for it) entered under `key` when there is none.
   */
  function GetValue(table: BufferTable, key: Renderable, created: BufferHandle): (r: (BufferHandle, BufferTable))
    ensures key in r.1 && r.1[key] == r.0
    ensures r.1.Keys == table.Keys + {key}
  {
    if key in table then (table[key], table) else (created, table[key := created])
  }

  /** Requests never change or drop an entry that is already there. */
  lemma GetValueKeepsEntries(table: BufferTable, key: Renderable, created: BufferHandle)
    ensures forall k :: k in table ==> k in GetValue(table, key, created).1 && GetValue(table, key, created).1[k] == table[k]
  {
  }

  /** Asking again for the same renderable returns the same buffer and changes nothing. */
  lemma GetValueIdempotent(table: BufferTable, key: Renderable, created: BufferHandle, again: BufferHandle)
    ensures var (h, t) := GetValue(table, key, created);
      GetValue(t, key, again) == (h, t)
  {
  }

  /** The table after serving the requests (renderable, buffer the factory would create) in order. */
  function ServeAll(table: BufferTable, requests: seq<(Renderable, BufferHandle)>): BufferTable
    decreases |requests|
  {
    if requests == [] then table
    else ServeAll(GetValue(table, requests[0].0, requests[0].1).1, requests[1..])
  }

  /** The index of the first request for `key`, or |requests| when there is none. */
  function FirstRequest(requests: seq<(Renderable, BufferHandle)>, key: Renderable): (i: nat)
    ensures i <= |requests|
    ensures i < |requests| ==> requests[i].0 == key
    ensures forall j :: 0 <= j < i ==> requests[j].0 != key
    decreases |requests|
  {
    if requests == [] then 0
    else if requests[0].0 == key then 0
    else 1 + FirstRequest(requests[1..], key)
  }

  /**
   * After any series of requests, a renderable that was cached keeps its
   * buffer, and one that was not is bound to the buffer created by its first
   * request; renderables never requested stay absent.
   */
  lemma {:induction false} FirstRequestWins(table: BufferTable, requests: seq<(Renderable, BufferHandle)>, key: Renderable)
    ensures var after := ServeAll(table, requests);
      var i := FirstRequest(requests, key);
      && (key in table ==> key in after && after[key] == table[key])
      && (key !in table && i < |requests| ==> key in after && after[key] == requests[i].1)
      && (key !in table && i == |requests| ==> key !in after)
    decreases |requests|
  {
    if requests != [] {
      var t := GetValue(table, requests[0].0, requests[0].1).1;
      FirstRequestWins(t, requests[1..], key);
    }
  }

  /**
   * The table after requesting `keys` in order, each from the factory
   * `create`: the form the frame's draw loops use.
   */
  function ServeKeys(table: BufferTable, keys: seq<Renderable>, create: Renderable -> BufferHandle): BufferTable
  {
    if keys == [] then table
    else
      var last := keys[|keys| - 1];
      GetValue(ServeKeys(table, keys[..|keys| - 1], create), last, create(last)).1
  }

  /** Requesting two series of keys one after the other is requesting them joined. */
  lemma {:induction false} ServeKeysConcat(table: BufferTable, first: seq<Renderable>, second: seq<Renderable>,
                                           create: Renderable -> BufferHandle)
    ensures ServeKeys(ServeKeys(table, first, create), second, create) == ServeKeys(table, first + second, create)
    decreases |second|
  {
    if second == [] {
      assert first + second == first;
    } else {
      var n := |second| - 1;
      assert (first + second)[..|first + second| - 1] == first + second[..n];
      assert (first + second)[|first + second| - 1] == second[n];
      ServeKeysConcat(table, first, second[..n], create);
    }
  }

  /**
   * Requesting keys keeps every entry already in the table, adds exactly the
   * keys requested, and binds each new key to the factory's container for it.
   */
  lemma {:induction false} ServeKeysKeepsAndAdds(table: BufferTable, keys: seq<Renderable>, create: Renderable -> BufferHandle, key: Renderable)
    ensures var after := ServeKeys(table, keys, create);
      && (key in after <==> key in table || key in keys)
      && (key in table ==> after[key] == table[key])
      && (key !in table && key in keys ==> after[key] == create(key))
    decreases |keys|
  {
    if keys != [] {
      var n := |keys| - 1;
      ServeKeysKeepsAndAdds(table, keys[..n], create, key);
      assert key in keys <==> key in keys[..n] || key == keys[n] by {
        assert keys == keys[..n] + [keys[n]];
      }
    }
  }
}
