/**
 * One picking pass end to end: the colours the pass draws for each category
 * (the FakeDraw helpers) and the interpretation of the pixel read back under
 * the pass's category lists and enable flags.
 *
 * `lists` holds the nine category lists in the pass order (moby, tie, shrub,
 * spline, cuboid, sphere, cylinder, type0C, terrain) and `enabled` their
 * flags, taken from the same snapshot for drawing and decoding.
 */
module Picking {
  import opened Scene
  import opened PickIndex
  import opened PixelCodec
  import opened BufferCache

  /**
   * One flat-coloured draw call: the list index of the object, the ID whose
   * colour it is drawn in, and the renderable whose buffers it binds.
   */
  datatype Draw = Draw(index: nat, id: nat, geometry: Renderable)
  {
    /** The colour the draw call sets: the three low bytes of its ID. */
    function Colour(): Pixel
    {
      IdColour(id)
    }
  }

  /** What a pick reports: a tool handle (no selection change), or an object or nothing. */
  datatype PickResult = ToolHit(axis: Axis) | Picked(obj: Option<LevelObject>)

  function Counts(lists: seq<seq<LevelObject>>): (counts: seq<nat>)
    ensures |counts| == |lists|
    ensures forall k :: 0 <= k < |lists| ==> counts[k] == |lists[k]|
  {
    seq(|lists|, k requires 0 <= k < |lists| => |lists[k]|)
  }

  /** The object a decoded ID names, if any. */
  function ResolveObject(enabled: seq<bool>, lists: seq<seq<LevelObject>>, id: nat): Option<LevelObject>
    requires |enabled| == |lists|
  {
    var counts := Counts(lists);
    ResolveNeverOutOfRange(enabled, counts, id);
    match Resolve(enabled, counts, id)
    case Hit(k, i) => Some(lists[k][i])
    case Miss => None
    case IndexOutOfRange => assert false; None
  }

  /** The interpretation of the read-back pixel `p`. */
  function Pick(enabled: seq<bool>, lists: seq<seq<LevelObject>>, p: Pixel): PickResult
    requires |enabled| == |lists|
  {
    match Classify(p)
    case Rejected => Picked(None)
    case ToolHandle(axis) => ToolHit(axis)
    case ObjectId(id) => Picked(ResolveObject(enabled, lists, id))
  }

  /** The ID of element i of category k in this pass. */
  function IdOf(enabled: seq<bool>, lists: seq<seq<LevelObject>>, k: nat, i: nat): nat
    requires |enabled| == |lists| && k < |lists|
  {
    SourceOffsets(enabled, Counts(lists))[k] + i
  }

  /**
   * Every draw of category k shows an element of that category, binding the
   * element's renderable, in the colour of the element's ID in the pass.
   */
  predicate DrawnWithIds(enabled: seq<bool>, lists: seq<seq<LevelObject>>, k: nat, draws: seq<Draw>)
    requires |enabled| == |lists| && k < |lists|
  {
    forall j :: 0 <= j < |draws| ==>
      && draws[j].index < |lists[k]|
      && draws[j].id == IdOf(enabled, lists, k, draws[j].index)
      && draws[j].geometry == ElementGeometry(lists[k], IsShapeCategory(k), draws[j].index)
  }

  /**
   * The renderable element i binds: a shape's own geometry, or an object's
   * model, which the objects sharing that model also bind.
   */
  function ElementGeometry(objects: seq<LevelObject>, shape: bool, i: nat): Renderable
    requires i < |objects|
  {
    if shape then ObjectGeometry(objects[i]) else ModelGeometry(objects[i].model)
  }

  /** Splines, cuboids, spheres, cylinders and type0Cs are drawn as shapes, with no model to test. */
  predicate IsShapeCategory(k: nat)
  {
    3 <= k <= 7
  }

  /** Whether the pass draws element i of category k: every shape, and every object with a model. */
  predicate Shown(lists: seq<seq<LevelObject>>, k: nat, i: nat)
    requires k < |lists| && i < |lists[k]|
  {
    IsShapeCategory(k) || lists[k][i].hasModel
  }

  /** Whether some draw in `draws` is of element i. */
  predicate Drawn(draws: seq<Draw>, i: nat)
  {
    exists j :: 0 <= j < |draws| && draws[j].index == i
  }

  predicate DrawsEveryElement(lists: seq<seq<LevelObject>>, k: nat, draws: seq<Draw>)
    requires k < |lists|
  {
    forall i: nat :: i < |lists[k]| && Shown(lists, k, i) ==> Drawn(draws, i)
  }

  /** A shape loop that draws element i as draw i draws every element, once each, in order. */
  lemma ShapeDrawsComplete(lists: seq<seq<LevelObject>>, k: nat, draws: seq<Draw>)
    requires k < |lists| && IsShapeCategory(k) && |draws| == |lists[k]|
    requires forall i :: 0 <= i < |draws| ==> draws[i].index == i
    ensures DrawsEveryElement(lists, k, draws)
    ensures DrawsOnlyShown(lists, k, draws)
  {
    forall i: nat | i < |lists[k]| && Shown(lists, k, i)
      ensures Drawn(draws, i)
    {
      assert draws[i].index == i;
    }
  }

  /**
   * An object loop that draws every object with a model, and only those, in
   * increasing order, draws exactly the elements of a non-shape category that can be drawn.
   */
  lemma ModelDrawsComplete(lists: seq<seq<LevelObject>>, k: nat, offset: nat, draws: seq<Draw>)
    requires k < |lists| && !IsShapeCategory(k)
    requires ModelDrawsBelow(lists[k], offset, draws, |lists[k]|)
    requires forall i :: 0 <= i < |lists[k]| && lists[k][i].hasModel ==> Drawn(draws, i)
    ensures DrawsEveryElement(lists, k, draws)
    ensures DrawsOnlyShown(lists, k, draws)
    ensures forall j :: 0 <= j < |draws| ==>
      draws[j].id == draws[j].index + offset && draws[j].geometry == ModelGeometry(lists[k][draws[j].index].model)
  {
    forall i: nat | i < |lists[k]| && Shown(lists, k, i)
      ensures Drawn(draws, i)
    {
      assert lists[k][i].hasModel;
    }
  }

  /** Every draw is of an element the pass can draw, and the draws go once each, in list order. */
  predicate DrawsOnlyShown(lists: seq<seq<LevelObject>>, k: nat, draws: seq<Draw>)
    requires k < |lists|
  {
    && (forall j :: 0 <= j < |draws| ==> draws[j].index < |lists[k]| && Shown(lists, k, draws[j].index))
    && (forall j, j' :: 0 <= j < j' < |draws| ==> draws[j].index < draws[j'].index)
  }

  /**
   * The draws of category k in a pass: none when it is disabled; otherwise
   * exactly the elements that can be drawn, once each and in list order,
   * each in its ID's colour, and for a shape category one draw per element.
   */
  predicate PassDraws(enabled: seq<bool>, lists: seq<seq<LevelObject>>, k: nat, draws: seq<Draw>)
    requires |enabled| == |lists| && k < |lists|
  {
    if enabled[k] then
      && DrawnWithIds(enabled, lists, k, draws)
      && DrawsEveryElement(lists, k, draws)
      && DrawsOnlyShown(lists, k, draws)
      && (IsShapeCategory(k) ==> |draws| == |lists[k]|)
    else draws == []
  }

  /** The shape loop of an enabled shape category, drawn from its offset, draws as `PassDraws` describes. */
  lemma ShapePassDraws(enabled: seq<bool>, lists: seq<seq<LevelObject>>, k: nat, offset: nat, draws: seq<Draw>)
    requires |enabled| == |lists| && k < |lists| && enabled[k] && IsShapeCategory(k)
    requires offset == SourceOffsets(enabled, Counts(lists))[k]
    requires |draws| == |lists[k]| && forall i :: 0 <= i < |lists[k]| ==> draws[i] == Draw(i, i + offset, ObjectGeometry(lists[k][i]))
    ensures PassDraws(enabled, lists, k, draws)
  {
    ShapeDrawsComplete(lists, k, draws);
  }

  /** The object loop of an enabled model category, drawn from its offset, draws as `PassDraws` describes. */
  lemma ObjectPassDraws(enabled: seq<bool>, lists: seq<seq<LevelObject>>, k: nat, offset: nat, draws: seq<Draw>)
    requires |enabled| == |lists| && k < |lists| && enabled[k] && !IsShapeCategory(k)
    requires offset == SourceOffsets(enabled, Counts(lists))[k]
    requires draws == ModelDraws(lists[k], offset, |lists[k]|)
    ensures PassDraws(enabled, lists, k, draws)
  {
    ModelDrawsProperties(lists[k], offset, |lists[k]|);
    ModelDrawsComplete(lists, k, offset, draws);
  }

  // ---------------------------------------------------------------------
  // The draw loops

  /**
   * The loop of FakeDrawObjects: each object with a model and a vertex buffer
   * is drawn in the colour of ID `i + offset`, after its model's buffers are
   * requested from `table`; the others are skipped but still use up their ID.
   * `create` stands for the container factory.
   */
  method FakeDrawObjects(objects: seq<LevelObject>, offset: nat, table: BufferTable, create: Renderable -> BufferHandle)
    returns (draws: seq<Draw>, served: BufferTable)
    ensures draws == ModelDraws(objects, offset, |objects|)
    ensures forall j :: 0 <= j < |draws| ==>
      draws[j].index < |objects| && objects[draws[j].index].hasModel
      && draws[j].id == draws[j].index + offset && draws[j].geometry == ModelGeometry(objects[draws[j].index].model)
    ensures forall j, j' :: 0 <= j < j' < |draws| ==> draws[j].index < draws[j'].index
    ensures forall i :: 0 <= i < |objects| && objects[i].hasModel ==> Drawn(draws, i)
    ensures served == ServeKeys(table, DrawKeys(draws), create)
  {
    draws, served := [], table;
    for i := 0 to |objects|
      invariant draws == ModelDraws(objects, offset, i)
      invariant served == ServeKeys(table, DrawKeys(draws), create)
    {
      if objects[i].hasModel {
        var d := Draw(i, i + offset, ModelGeometry(objects[i].model));
        served := GetValue(served, d.geometry, create(d.geometry)).1;
        ServeOneMore(draws, d, table, create);
        draws := draws + [d];
      }
    }
    ModelDrawsProperties(objects, offset, |objects|);
  }

  /** The draws of the object loop over the first n objects: each object with a model, in order, in its ID's colour. */
  function ModelDraws(objects: seq<LevelObject>, offset: nat, n: nat): seq<Draw>
    requires n <= |objects|
  {
    if n == 0 then []
    else ModelDraws(objects, offset, n - 1) + (if objects[n - 1].hasModel then [Draw(n - 1, n - 1 + offset, ModelGeometry(objects[n - 1].model))] else [])
  }

  /** The draws of the shape loop over the first n shapes: every shape, with the ID `index + offset`. */
  function ShapeDraws(objects: seq<LevelObject>, offset: nat, n: nat): seq<Draw>
    requires n <= |objects|
  {
    if n == 0 then [] else ShapeDraws(objects, offset, n - 1) + [Draw(n - 1, n - 1 + offset, ObjectGeometry(objects[n - 1]))]
  }

  /** The shape loop draws one draw per shape, shape i with the ID `i + offset`, binding the shape itself. */
  lemma {:induction false} ShapeDrawsAt(objects: seq<LevelObject>, offset: nat, n: nat)
    requires n <= |objects|
    ensures |ShapeDraws(objects, offset, n)| == n
    ensures forall i :: 0 <= i < n ==> ShapeDraws(objects, offset, n)[i] == Draw(i, i + offset, ObjectGeometry(objects[i]))
  {
    if n > 0 {
      ShapeDrawsAt(objects, offset, n - 1);
    }
  }

  /**
   * The object loop over the first n objects draws only objects below n that
   * have a model, each in its ID's colour, in increasing order, and draws
   * every object below n that has one.
   */
  lemma {:induction false} ModelDrawsProperties(objects: seq<LevelObject>, offset: nat, n: nat)
    requires n <= |objects|
    ensures ModelDrawsBelow(objects, offset, ModelDraws(objects, offset, n), n)
    ensures forall i :: 0 <= i < n && objects[i].hasModel ==> Drawn(ModelDraws(objects, offset, n), i)
  {
    if n > 0 {
      var before := ModelDraws(objects, offset, n - 1);
      var after := ModelDraws(objects, offset, n);
      ModelDrawsProperties(objects, offset, n - 1);
      if objects[n - 1].hasModel {
        var d := Draw(n - 1, n - 1 + offset, ModelGeometry(objects[n - 1].model));
        assert after == before + [d];
        AppendModelDraw(objects, offset, before, n - 1);
        AppendKeepsDrawn(before, d);
      } else {
        assert after == before;
        SkipModelless(objects, offset, before, n - 1);
      }
      forall i | 0 <= i < n && objects[i].hasModel
        ensures Drawn(after, i)
      {
        if i < n - 1 {
          assert Drawn(before, i);
        }
      }
    }
  }

  /**
   * The draws so far, in increasing index order, are of objects below `bound`
   * that have a model, each in the colour of its ID.
   */
  predicate ModelDrawsBelow(objects: seq<LevelObject>, offset: nat, draws: seq<Draw>, bound: nat)
  {
    && (forall j :: 0 <= j < |draws| ==>
          draws[j].index < bound && draws[j].index < |objects| && objects[draws[j].index].hasModel
          && draws[j].id == draws[j].index + offset && draws[j].geometry == ModelGeometry(objects[draws[j].index].model))
    && (forall j, j' :: 0 <= j < j' < |draws| ==> draws[j].index < draws[j'].index)
  }

  /** Skipping object `i` extends the draws below `i` to the draws below `i + 1`. */
  lemma SkipModelless(objects: seq<LevelObject>, offset: nat, draws: seq<Draw>, i: nat)
    requires ModelDrawsBelow(objects, offset, draws, i)
    ensures ModelDrawsBelow(objects, offset, draws, i + 1)
  {
  }

  /** Drawing object `i`, which has a model, extends the draws below `i` to the draws below `i + 1`. */
  lemma AppendModelDraw(objects: seq<LevelObject>, offset: nat, draws: seq<Draw>, i: nat)
    requires ModelDrawsBelow(objects, offset, draws, i)
    requires i < |objects| && objects[i].hasModel
    ensures ModelDrawsBelow(objects, offset, draws + [Draw(i, i + offset, ModelGeometry(objects[i].model))], i + 1)
  {
  }

  /** Appending a draw keeps every element drawn so far drawn, and draws its own element. */
  lemma AppendKeepsDrawn(draws: seq<Draw>, d: Draw)
    ensures Drawn(draws + [d], d.index)
    ensures forall i :: Drawn(draws, i) ==> Drawn(draws + [d], i)
  {
    assert (draws + [d])[|draws|] == d;
    forall i | Drawn(draws, i)
      ensures Drawn(draws + [d], i)
    {
      var j :| 0 <= j < |draws| && draws[j].index == i;
      assert (draws + [d])[j] == draws[j];
    }
  }

  /**
   * The loop shared by FakeDrawSplines, FakeDrawCuboids, FakeDrawSpheres,
   * FakeDrawCylinders and FakeDrawType0Cs: every object is drawn in the
   * colour of ID `i + offset`, after its own buffers are requested from `table`.
   */
  method FakeDrawShapes(objects: seq<LevelObject>, offset: nat, table: BufferTable, create: Renderable -> BufferHandle)
    returns (draws: seq<Draw>, served: BufferTable)
    ensures draws == ShapeDraws(objects, offset, |objects|)
    ensures |draws| == |objects|
    ensures forall i :: 0 <= i < |objects| ==> draws[i] == Draw(i, i + offset, ObjectGeometry(objects[i]))
    ensures served == ServeKeys(table, DrawKeys(draws), create)
  {
    draws, served := [], table;
    for i := 0 to |objects|
      invariant draws == ShapeDraws(objects, offset, i)
      invariant served == ServeKeys(table, DrawKeys(draws), create)
    {
      var d := Draw(i, i + offset, ObjectGeometry(objects[i]));
      served := GetValue(served, d.geometry, create(d.geometry)).1;
      ServeOneMore(draws, d, table, create);
      draws := draws + [d];
    }
    ShapeDrawsAt(objects, offset, |objects|);
  }

  // ---------------------------------------------------------------------
  // The buffer requests of a pass

  /** The renderables `draws` request, in draw order. */
  function DrawKeys(draws: seq<Draw>): (keys: seq<Renderable>)
    ensures |keys| == |draws|
  {
    if draws == [] then [] else DrawKeys(draws[..|draws| - 1]) + [draws[|draws| - 1].geometry]
  }

  /** One more draw requests its renderable after the requests of the draws before it. */
  lemma ServeOneMore(draws: seq<Draw>, d: Draw, table: BufferTable, create: Renderable -> BufferHandle)
    ensures ServeKeys(table, DrawKeys(draws + [d]), create)
      == GetValue(ServeKeys(table, DrawKeys(draws), create), d.geometry, create(d.geometry)).1
  {
    assert (draws + [d])[..|draws|] == draws;
  }

  /** Draw j requests the renderable it binds. */
  lemma {:induction false} DrawKeysAt(draws: seq<Draw>, j: nat)
    requires j < |draws|
    ensures DrawKeys(draws)[j] == draws[j].geometry
    decreases |draws|
  {
    if j < |draws| - 1 {
      DrawKeysAt(draws[..|draws| - 1], j);
    }
  }

  /** The renderables a pass's draws request, category by category. */
  function PassKeys(draws: seq<seq<Draw>>): seq<Renderable>
  {
    if draws == [] then [] else PassKeys(draws[..|draws| - 1]) + DrawKeys(draws[|draws| - 1])
  }

  /** One more category's requests after a pass prefix are the requests of the longer prefix. */
  lemma PassKeysAppend(draws: seq<seq<Draw>>, d: seq<Draw>)
    ensures PassKeys(draws + [d]) == PassKeys(draws) + DrawKeys(d)
  {
    assert (draws + [d])[..|draws|] == draws;
  }

  /** The draws of the first |draws| categories of a pass, each as `PassDraws` describes. */
  predicate PassPrefix(enabled: seq<bool>, lists: seq<seq<LevelObject>>, draws: seq<seq<Draw>>)
    requires |enabled| == |lists|
  {
    && |draws| <= |lists|
    && forall k :: 0 <= k < |draws| ==> PassDraws(enabled, lists, k, draws[k])
  }

  /** The draws of a whole pass: one list per category, each as `PassDraws` describes. */
  predicate PassDrawn(enabled: seq<bool>, lists: seq<seq<LevelObject>>, draws: seq<seq<Draw>>)
    requires |enabled| == |lists|
  {
    PassPrefix(enabled, lists, draws) && |draws| == |lists|
  }

  /** A pass prefix extended by the draws of the next category is a pass prefix. */
  lemma PassPrefixAppend(enabled: seq<bool>, lists: seq<seq<LevelObject>>, draws: seq<seq<Draw>>, d: seq<Draw>)
    requires |enabled| == |lists| && PassPrefix(enabled, lists, draws) && |draws| < |lists|
    requires PassDraws(enabled, lists, |draws|, d)
    ensures PassPrefix(enabled, lists, draws + [d])
  {
    var longer := draws + [d];
    forall k | 0 <= k < |longer|
      ensures PassDraws(enabled, lists, k, longer[k])
    {
      if k < |draws| {
        assert longer[k] == draws[k];
      }
    }
  }

  /**
   * The draws of category k in a pass: none when it is disabled; otherwise
   * its shape or object loop, drawn from the category's offset.
   */
  function CategoryDraws(enabled: seq<bool>, lists: seq<seq<LevelObject>>, k: nat): seq<Draw>
    requires |enabled| == |lists| && k < |lists|
  {
    if !enabled[k] then []
    else
      var offset: nat := SourceOffsets(enabled, Counts(lists))[k];
      if IsShapeCategory(k) then ShapeDraws(lists[k], offset, |lists[k]|) else ModelDraws(lists[k], offset, |lists[k]|)
  }

  /** The draws of the first n categories of a pass, category by category. */
  function PassDrawsOf(enabled: seq<bool>, lists: seq<seq<LevelObject>>, n: nat): (r: seq<seq<Draw>>)
    requires |enabled| == |lists| && n <= |lists|
    ensures |r| == n
  {
    if n == 0 then [] else PassDrawsOf(enabled, lists, n - 1) + [CategoryDraws(enabled, lists, n - 1)]
  }

  /** A category's draws are as `PassDraws` describes. */
  lemma CategoryDrawsDrawn(enabled: seq<bool>, lists: seq<seq<LevelObject>>, k: nat)
    requires |enabled| == |lists| && k < |lists|
    ensures PassDraws(enabled, lists, k, CategoryDraws(enabled, lists, k))
  {
    if enabled[k] {
      var offset: nat := SourceOffsets(enabled, Counts(lists))[k];
      if IsShapeCategory(k) {
        ShapeDrawsAt(lists[k], offset, |lists[k]|);
        ShapePassDraws(enabled, lists, k, offset, ShapeDraws(lists[k], offset, |lists[k]|));
      } else {
        ObjectPassDraws(enabled, lists, k, offset, ModelDraws(lists[k], offset, |lists[k]|));
      }
    }
  }

  /** The draws of a pass's first n categories are a pass prefix; all nine are a whole pass. */
  lemma {:induction false} PassDrawsOfDrawn(enabled: seq<bool>, lists: seq<seq<LevelObject>>, n: nat)
    requires |enabled| == |lists| && n <= |lists|
    ensures PassPrefix(enabled, lists, PassDrawsOf(enabled, lists, n))
  {
    if n > 0 {
      PassDrawsOfDrawn(enabled, lists, n - 1);
      CategoryDrawsDrawn(enabled, lists, n - 1);
      PassPrefixAppend(enabled, lists, PassDrawsOf(enabled, lists, n - 1), CategoryDraws(enabled, lists, n - 1));
    }
  }

  /**
   * The buffer table `after` is `before` once a picking pass has drawn the
   * categories and requested each draw's renderable, in draw order.
   */
  ghost predicate PickPassServed(enabled: seq<bool>, lists: seq<seq<LevelObject>>, before: BufferTable, after: BufferTable,
                                 create: Renderable -> BufferHandle)
    requires |enabled| == |lists|
  {
    after == ServeKeys(before, PassKeys(PassDrawsOf(enabled, lists, |lists|)), create)
  }

  /** Every draw of a pass requests its renderable. */
  lemma {:induction false} PassKeysCover(draws: seq<seq<Draw>>, k: nat, j: nat)
    requires k < |draws| && j < |draws[k]|
    ensures draws[k][j].geometry in PassKeys(draws)
    decreases |draws|
  {
    var n := |draws| - 1;
    if k < n {
      assert draws[..n][k] == draws[k];
      PassKeysCover(draws[..n], k, j);
    } else {
      DrawKeysAt(draws[k], j);
      assert DrawKeys(draws[k])[j] in DrawKeys(draws[k]);
    }
  }

  /**
   * After a picking pass, the table keeps every container it held, holds one
   * for the renderable of every draw of the pass, and so for every element
   * the pass shows, and binds each renderable that was not cached before to
   * the container the factory created for it.
   */
  lemma PickPassKeepsAndAdds(enabled: seq<bool>, lists: seq<seq<LevelObject>>, before: BufferTable, after: BufferTable,
                             create: Renderable -> BufferHandle, draws: seq<seq<Draw>>)
    requires |enabled| == |lists| && draws == PassDrawsOf(enabled, lists, |lists|)
    requires PickPassServed(enabled, lists, before, after, create)
    ensures forall key :: key in before ==> key in after && after[key] == before[key]
    ensures forall key :: key in after && key !in before ==> after[key] == create(key)
    ensures forall k, j :: 0 <= k < |lists| && 0 <= j < |draws[k]| ==> draws[k][j].geometry in after
    ensures forall k, i :: 0 <= k < |lists| && enabled[k] && 0 <= i < |lists[k]| && Shown(lists, k, i) ==>
      ElementGeometry(lists[k], IsShapeCategory(k), i) in after
  {
    var keys := PassKeys(draws);
    forall key
      ensures key in before ==> key in after && after[key] == before[key]
      ensures key in after && key !in before ==> after[key] == create(key)
    {
      ServeKeysKeepsAndAdds(before, keys, create, key);
    }
    forall k, j | 0 <= k < |lists| && 0 <= j < |draws[k]|
      ensures draws[k][j].geometry in after
    {
      PassKeysCover(draws, k, j);
      ServeKeysKeepsAndAdds(before, keys, create, draws[k][j].geometry);
    }
    PassDrawsOfDrawn(enabled, lists, |lists|);
    forall k, i | 0 <= k < |lists| && enabled[k] && 0 <= i < |lists[k]| && Shown(lists, k, i)
      ensures ElementGeometry(lists[k], IsShapeCategory(k), i) in after
    {
      assert PassDraws(enabled, lists, k, draws[k]);
      assert Drawn(draws[k], i);
      var j :| 0 <= j < |draws[k]| && draws[k][j].index == i;
      assert draws[k][j].geometry in after;
    }
  }

  // ---------------------------------------------------------------------
  // Properties of a pass

  /** Object ID = index within the category + the category's offset, the enabled categories before it. */
  lemma IdOfIsPrefixSum(enabled: seq<bool>, lists: seq<seq<LevelObject>>, k: nat, i: nat)
    requires |enabled| == |lists| && k < |lists| && enabled[k] && i < |lists[k]|
    ensures IdOf(enabled, lists, k, i) == EnabledBefore(enabled, Counts(lists), k) + i
    ensures Owns(enabled, Counts(lists), k, IdOf(enabled, lists, k, i))
  {
  }

  /** Two distinct positions in the enabled categories get distinct IDs. */
  lemma IdsUnique(enabled: seq<bool>, lists: seq<seq<LevelObject>>, k: nat, i: nat, k': nat, i': nat)
    requires |enabled| == |lists|
    requires k < |lists| && enabled[k] && i < |lists[k]|
    requires k' < |lists| && enabled[k'] && i' < |lists[k']|
    requires IdOf(enabled, lists, k, i) == IdOf(enabled, lists, k', i')
    ensures k == k' && i == i'
  {
    var counts := Counts(lists);
    RangesDisjoint(enabled, counts, k, k', IdOf(enabled, lists, k, i));
  }

  /**
   * The round trip of a pick: the pixel drawn for element i of an enabled
   * category, read back with either alpha, resolves to that very element,
   * provided its ID fits three bytes and is not a marker colour.
   */
  lemma PickDrawnObject(enabled: seq<bool>, lists: seq<seq<LevelObject>>, k: nat, i: nat, alpha: Byte)
    requires |enabled| == |lists| && k < |lists| && enabled[k] && i < |lists[k]|
    requires IdOf(enabled, lists, k, i) < IdSpace && !IsMarkerId(IdOf(enabled, lists, k, i))
    requires alpha == 0 || alpha == 255
    ensures Pick(enabled, lists, IdColour(IdOf(enabled, lists, k, i)).(a := alpha)) == Picked(Some(lists[k][i]))
  {
    var counts := Counts(lists);
    var id := IdOf(enabled, lists, k, i);
    DecodeIdColour(id);
    assert Classify(IdColour(id).(a := alpha)) == Classify(IdColour(id));
    ResolveFindsOwner(enabled, counts, k, id);
  }

  /**
   * A pick that decodes an ID returns an object exactly when the ID is below
   * the pass's total, and the object is then the element that ID was drawn for.
   */
  lemma PickedObjectWasDrawnWithId(enabled: seq<bool>, lists: seq<seq<LevelObject>>, p: Pixel)
    requires |enabled| == |lists| && Classify(p).ObjectId?
    ensures var id := Classify(p).id;
      && (Pick(enabled, lists, p).obj.Some? <==> id < Total(enabled, Counts(lists)))
      && (Pick(enabled, lists, p).obj.Some? ==>
            exists k, i :: 0 <= k < |lists| && enabled[k] && 0 <= i < |lists[k]|
              && IdOf(enabled, lists, k, i) == id && Pick(enabled, lists, p).obj.value == lists[k][i])
  {
    var counts := Counts(lists);
    var id := Classify(p).id;
    ResolveHitIffOwned(enabled, counts, id);
    ChainFrom(enabled, counts, id, 0);
    var r := Resolve(enabled, counts, id);
    if r.Hit? {
      assert IdOf(enabled, lists, r.category, r.index) == id;
    }
  }

  /** A marker colour wins over every object ID: the pick is a tool hit whatever the lists hold. */
  lemma PickMarkerIsToolHit(enabled: seq<bool>, lists: seq<seq<LevelObject>>, axis: Axis, alpha: Byte)
    requires |enabled| == |lists| && (alpha == 0 || alpha == 255)
    ensures Pick(enabled, lists, MarkerColour(axis).(a := alpha)) == ToolHit(axis)
  {
    MarkerColourIsToolHandle(axis, alpha);
  }

  /** A pixel with another alpha picks nothing and is no tool hit. */
  lemma PickRejectedAlpha(enabled: seq<bool>, lists: seq<seq<LevelObject>>, p: Pixel)
    requires |enabled| == |lists| && p.a != 0 && p.a != 255
    ensures Pick(enabled, lists, p) == Picked(None)
  {
  }

  /**
   * The cleared background reads back as ID 0: a click on empty space picks
   * the first element of the first non-empty enabled category, if there is one.
   */
  lemma PickBackground(enabled: seq<bool>, lists: seq<seq<LevelObject>>)
    requires |enabled| == |lists|
    ensures Pick(enabled, lists, Background).Picked?
    ensures Pick(enabled, lists, Background).obj.Some? <==> Total(enabled, Counts(lists)) > 0
    ensures forall k :: 0 <= k < |lists| && Owns(enabled, Counts(lists), k, 0) ==>
      Pick(enabled, lists, Background) == Picked(Some(lists[k][0]))
  {
    BackgroundIsIdZero();
    PickIdZero(enabled, lists, Background);
  }

  /** A pixel that decodes to ID 0 picks the first element of the category owning 0, if any. */
  lemma PickIdZero(enabled: seq<bool>, lists: seq<seq<LevelObject>>, p: Pixel)
    requires |enabled| == |lists| && Classify(p) == ObjectId(0)
    ensures Pick(enabled, lists, p).Picked?
    ensures Pick(enabled, lists, p).obj.Some? <==> Total(enabled, Counts(lists)) > 0
    ensures forall k :: 0 <= k < |lists| && Owns(enabled, Counts(lists), k, 0) ==>
      Pick(enabled, lists, p) == Picked(Some(lists[k][0]))
  {
    assert Pick(enabled, lists, p) == Picked(ResolveObject(enabled, lists, 0));
    ResolvedIffBelowTotal(enabled, lists, 0);
    forall k | 0 <= k < |lists| && Owns(enabled, Counts(lists), k, 0)
      ensures Pick(enabled, lists, p) == Picked(Some(lists[k][0]))
    {
      ResolveOwnsZero(enabled, lists, k);
    }
  }

  /** The category owning ID 0 starts the pass: ID 0 names its first element. */
  lemma ResolveOwnsZero(enabled: seq<bool>, lists: seq<seq<LevelObject>>, k: nat)
    requires |enabled| == |lists| && k < |lists| && Owns(enabled, Counts(lists), k, 0)
    ensures |lists[k]| > 0 && ResolveObject(enabled, lists, 0) == Some(lists[k][0])
  {
    ResolveOwnedId(enabled, lists, k, 0);
    assert ResolveObject(enabled, lists, 0) == Some(lists[k][0]);
  }

  /** A decoded ID names an object iff it is below the pass's total. */
  lemma ResolvedIffBelowTotal(enabled: seq<bool>, lists: seq<seq<LevelObject>>, id: nat)
    requires |enabled| == |lists|
    ensures ResolveObject(enabled, lists, id).Some? <==> id < Total(enabled, Counts(lists))
  {
    ResolveHitIffOwned(enabled, Counts(lists), id);
  }

  /** An owned ID names the element at its distance from its category's offset. */
  lemma ResolveOwnedId(enabled: seq<bool>, lists: seq<seq<LevelObject>>, k: nat, id: nat)
    requires |enabled| == |lists| && k < |lists| && Owns(enabled, Counts(lists), k, id)
    ensures var i := id - EnabledBefore(enabled, Counts(lists), k);
      0 <= i < |lists[k]| && ResolveObject(enabled, lists, id) == Some(lists[k][i])
  {
    ResolveFindsOwner(enabled, Counts(lists), k, id);
  }

  /**
   * Closing the loop of the pass: the colour of any draw of an enabled
   * category, read back unchanged, picks the object that draw showed,
   * provided its ID fits three bytes and is not a marker colour.
   */
  lemma DrawnColourPicksItsObject(enabled: seq<bool>, lists: seq<seq<LevelObject>>, k: nat, draws: seq<Draw>, j: nat)
    requires |enabled| == |lists| && k < |lists| && enabled[k] && PassDraws(enabled, lists, k, draws)
    requires j < |draws|
    requires IdOf(enabled, lists, k, draws[j].index) < IdSpace && !IsMarkerId(IdOf(enabled, lists, k, draws[j].index))
    ensures draws[j].index < |lists[k]|
    ensures Pick(enabled, lists, draws[j].Colour()) == Picked(Some(lists[k][draws[j].index]))
  {
    var i := draws[j].index;
    PickDrawnObject(enabled, lists, k, i, 255);
    assert IdColour(IdOf(enabled, lists, k, i)).(a := 255) == draws[j].Colour();
  }
}
