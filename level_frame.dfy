/**
 * The level frame: the editor window that shows one level, picks objects
 * under the mouse, keeps the selection and the active tool, and filters the
 * terrain and collision chunks it draws.
 *
 * The GPU is an oracle here: the pixel the picking pass reads back and the
 * buffer names created by uploads are parameters of the methods.
 */
module Frames {
  import opened Scene
  import opened PickIndex
  import opened PixelCodec
  import opened Picking
  import opened ToolState
  import opened Chunks
  import opened BufferCache
  import opened EditorState

  /** The parts of a loaded level the frame reads; `mobs` grows when a moby is cloned. */
  class Level {
    var mobs: seq<LevelObject>
    var ties: seq<LevelObject>
    var shrubs: seq<LevelObject>
    var splines: seq<LevelObject>
    var cuboids: seq<LevelObject>
    var spheres: seq<LevelObject>
    var cylinders: seq<LevelObject>
    var type0Cs: seq<LevelObject>
    var terrainEngine: seq<LevelObject>
    var terrainChunks: seq<seq<LevelObject>>
    var collisionEngine: ModelRef
    var collisionChunks: seq<ModelRef>

    constructor (mobs: seq<LevelObject>, ties: seq<LevelObject>, shrubs: seq<LevelObject>,
                 splines: seq<LevelObject>, cuboids: seq<LevelObject>, spheres: seq<LevelObject>,
                 cylinders: seq<LevelObject>, type0Cs: seq<LevelObject>,
                 terrainEngine: seq<LevelObject>, terrainChunks: seq<seq<LevelObject>>,
                 collisionEngine: ModelRef, collisionChunks: seq<ModelRef>)
      ensures this.mobs == mobs && this.ties == ties && this.shrubs == shrubs
      ensures this.splines == splines && this.cuboids == cuboids && this.spheres == spheres
      ensures this.cylinders == cylinders && this.type0Cs == type0Cs
      ensures this.terrainEngine == terrainEngine && this.terrainChunks == terrainChunks
      ensures this.collisionEngine == collisionEngine && this.collisionChunks == collisionChunks
    {
      this.mobs, this.ties, this.shrubs := mobs, ties, shrubs;
      this.splines, this.cuboids, this.spheres := splines, cuboids, spheres;
      this.cylinders, this.type0Cs := cylinders, type0Cs;
      this.terrainEngine, this.terrainChunks := terrainEngine, terrainChunks;
      this.collisionEngine, this.collisionChunks := collisionEngine, collisionChunks;
    }
  }

  class LevelFrame {
    var level: Level

    // The terrain fragments and collision entries of the selected chunks.
    var terrains: seq<LevelObject>
    var collisions: seq<CollisionEntry>
    // The buffer names uploaded for the collision chunks (or the collision engine).
    var collisionVbo: seq<int>
    var collisionIbo: seq<int>
    var selectedChunks: array<bool>

    var currentSplineVertex: int
    var selectedObject: Option<LevelObject>
    var currentTool: Option<Tool>
    var xLock: bool
    var yLock: bool
    var zLock: bool
    var invalidate: bool
    var events: seq<Event>

    var enableMoby: bool
    var enableTie: bool
    var enableShrub: bool
    var enableSpline: bool
    var enableCuboid: bool
    var enableSpheres: bool
    var enableCylinders: bool
    var enableType0C: bool
    var enableTerrain: bool

    var bufferTable: BufferTable

    /** The enable flags in the picking pass's category order. */
    function Flags(): (f: seq<bool>)
      reads this`enableMoby, this`enableTie, this`enableShrub, this`enableSpline, this`enableCuboid
      reads this`enableSpheres, this`enableCylinders, this`enableType0C, this`enableTerrain
      ensures |f| == 9
    {
      [enableMoby, enableTie, enableShrub, enableSpline, enableCuboid,
       enableSpheres, enableCylinders, enableType0C, enableTerrain]
    }

    /** The object lists in the picking pass's category order. */
    function Lists(): (l: seq<seq<LevelObject>>)
      reads this`level, this`terrains, level
      ensures |l| == 9
    {
      [level.mobs, level.ties, level.shrubs, level.splines, level.cuboids,
       level.spheres, level.cylinders, level.type0Cs, terrains]
    }

    /** The selection and tool state. */
    function Ui(): UiState
      reads this`selectedObject, this`currentTool, this`currentSplineVertex
      reads this`xLock, this`yLock, this`zLock, this`invalidate, this`events
    {
      UiState(selectedObject, currentTool, currentSplineVertex, Locks(xLock, yLock, zLock), invalidate, events)
    }

    /**
     * A new frame with the default view flags, showing `level`: every chunk
     * selected, nothing selected, no tool. `vbo` and `ibo` are the buffer
     * names uploaded for the collision chunks, or for the collision engine
     * when the level has no chunks.
     */
    constructor (level: Level, vbo: seq<int>, ibo: seq<int>)
      requires |vbo| == |ibo| == (if |level.collisionChunks| == 0 then 1 else |level.collisionChunks|)
      requires |level.terrainChunks| <= |level.collisionChunks|
      requires |level.mobs| > 0
      ensures this.level == level && fresh(selectedChunks)
      ensures Flags() == [true, true, true, false, false, false, false, false, true]
      ensures selectedObject.None? && currentTool.None? && currentSplineVertex == 0
      ensures !xLock && !yLock && !zLock && events == [] && bufferTable == map[]
      ensures selectedChunks.Length == |level.collisionChunks|
      ensures forall i :: 0 <= i < selectedChunks.Length ==> selectedChunks[i]
      ensures collisionVbo == vbo && collisionIbo == ibo && invalidate
      ensures |level.terrainChunks| == 0 ==>
        terrains == level.terrainEngine && collisions == [CollisionEntry(level.collisionEngine, vbo[0], ibo[0])]
      ensures |level.terrainChunks| > 0 ==>
        && terrains == Flatten(level.terrainChunks)
        && |collisions| == |level.collisionChunks|
        && forall i :: 0 <= i < |collisions| ==> collisions[i] == CollisionEntry(level.collisionChunks[i], vbo[i], ibo[i])
    {
      this.level := level;
      terrains, collisions := [], [];
      collisionVbo, collisionIbo := [], [];
      selectedChunks := new bool[0];
      currentSplineVertex := 0;
      selectedObject, currentTool := None, None;
      xLock, yLock, zLock, invalidate := false, false, false, false;
      events := [];
      enableMoby, enableTie, enableShrub := true, true, true;
      enableSpline, enableCuboid, enableSpheres, enableCylinders, enableType0C := false, false, false, false, false;
      enableTerrain := true;
      bufferTable := map[];
      new;
      LoadLevel(level, vbo, ibo);
    }

    /**
     * Shows `newLevel`: takes the collision buffer names uploaded for it,
     * selects every chunk, refilters, and clears the selection. The level
     * must have a first moby, which the camera is moved behind.
     */
    method LoadLevel(newLevel: Level, vbo: seq<int>, ibo: seq<int>)
      requires |vbo| == |ibo| == (if |newLevel.collisionChunks| == 0 then 1 else |newLevel.collisionChunks|)
      requires |newLevel.terrainChunks| <= |newLevel.collisionChunks|
      requires |newLevel.mobs| > 0
      modifies this`level, this`collisionVbo, this`collisionIbo, this`selectedChunks, this`terrains, this`collisions
      modifies this`selectedObject, this`invalidate
      ensures level == newLevel && collisionVbo == vbo && collisionIbo == ibo
      ensures fresh(selectedChunks) && selectedChunks.Length == |newLevel.collisionChunks|
      ensures forall i :: 0 <= i < selectedChunks.Length ==> selectedChunks[i]
      ensures |newLevel.terrainChunks| == 0 ==>
        terrains == newLevel.terrainEngine && collisions == [CollisionEntry(newLevel.collisionEngine, vbo[0], ibo[0])]
      ensures |newLevel.terrainChunks| > 0 ==>
        && terrains == Flatten(newLevel.terrainChunks)
        && |collisions| == |newLevel.collisionChunks|
        && forall i :: 0 <= i < |collisions| ==> collisions[i] == CollisionEntry(newLevel.collisionChunks[i], vbo[i], ibo[i])
      ensures selectedObject.None? && invalidate
    {
      level := newLevel;
      collisionVbo, collisionIbo := vbo, ibo;
      SelectAllChunks(|newLevel.collisionChunks|);
      ghost var flags := selectedChunks[..];
      SetSelectedChunks();
      ShowsAllChunks(newLevel, flags, vbo, ibo);
      // Selecting nothing: the null branch of SelectObject.
      selectedObject := None;
      invalidate := true;
    }

    /**
     * Resizes the chunk flags to `n` chunks and sets every one. The model
     * always allocates a fresh array, where `Array.Resize` keeps the same
     * array when its length is already `n`; nothing else holds the array,
     * so the flags seen afterwards are the same either way.
     */
    method SelectAllChunks(n: nat)
      modifies this`selectedChunks
      ensures fresh(selectedChunks) && selectedChunks.Length == n
      ensures forall i :: 0 <= i < n ==> selectedChunks[i]
    {
      var flags := new bool[n];
      for i := 0 to n
        invariant forall j :: 0 <= j < i ==> flags[j]
      {
        flags[i] := true;
      }
      selectedChunks := flags;
    }

    /**
     * Refilters the shown terrain and collision from the chunk flags. A level
     * without terrain chunks shows its whole terrain engine and one collision
     * entry for the collision engine with the first buffer names; otherwise
     * the fragments and collision models of the selected chunks are shown.
     */
    method SetSelectedChunks()
      requires |level.terrainChunks| == 0 ==> |collisionVbo| >= 1 && |collisionIbo| >= 1
      requires |level.terrainChunks| > 0 ==>
        && |level.terrainChunks| <= selectedChunks.Length
        && |level.collisionChunks| <= selectedChunks.Length
        && |level.collisionChunks| <= |collisionVbo|
        && |level.collisionChunks| <= |collisionIbo|
      modifies this`terrains, this`collisions
      ensures |level.terrainChunks| == 0 ==>
        terrains == level.terrainEngine && collisions == [CollisionEntry(level.collisionEngine, collisionVbo[0], collisionIbo[0])]
      ensures |level.terrainChunks| > 0 ==>
        && terrains == SelectedTerrain(level.terrainChunks, selectedChunks[..], |level.terrainChunks|)
        && collisions == SelectedCollisions(level.collisionChunks, collisionVbo, collisionIbo, selectedChunks[..], |level.collisionChunks|)
    {
      if |level.terrainChunks| == 0 {
        terrains := level.terrainEngine;
        collisions := [CollisionEntry(level.collisionEngine, collisionVbo[0], collisionIbo[0])];
      } else {
        terrains := [];
        collisions := [];
        for i := 0 to |level.terrainChunks|
          invariant terrains == SelectedTerrain(level.terrainChunks, selectedChunks[..], i)
          modifies this`terrains
        {
          if selectedChunks[i] {
            terrains := terrains + level.terrainChunks[i];
          }
        }
        for i := 0 to |level.collisionChunks|
          invariant collisions == SelectedCollisions(level.collisionChunks, collisionVbo, collisionIbo, selectedChunks[..], i)
          modifies this`collisions
        {
          if selectedChunks[i] {
            collisions := collisions + [CollisionEntry(level.collisionChunks[i], collisionVbo[i], collisionIbo[i])];
          }
        }
      }
    }

    method SelectObject(newObject: Option<LevelObject>)
      modifies this`selectedObject, this`currentTool, this`currentSplineVertex, this`invalidate, this`events
      ensures Ui() == EditorState.SelectObject(old(Ui()), newObject)
      ensures Flags() == old(Flags()) && Lists() == old(Lists())
    {
      if newObject.None? {
        selectedObject := None;
        invalidate := true;
        return;
      }
      if LeavesSpline(selectedObject, newObject.value) {
        if currentTool == Some(VertexTranslationTool) {
          SelectTool(None);
        }
      }
      selectedObject := newObject;
      events := events + [ObjectClick(newObject.value)];
      invalidate := true;
    }

    method DeleteObject(levelObject: Option<LevelObject>)
      modifies this`selectedObject, this`currentTool, this`currentSplineVertex, this`invalidate, this`events
      ensures Ui() == EditorState.DeleteObject(old(Ui()), levelObject)
      ensures Lists() == old(Lists())
    {
      SelectObject(None);
      events := events + [ObjectDeleted(levelObject)];
      invalidate := true;
    }

    method SelectTool(tool: Option<Tool>)
      modifies this`currentTool, this`currentSplineVertex, this`invalidate
      ensures Ui() == EditorState.SelectTool(old(Ui()), tool)
    {
      currentTool := tool;
      currentSplineVertex := 0;
      invalidate := true;
    }

    /** `scrollLength` is the length of the wheel's scroll vector, truncated to an integer. */
    method HandleMouseWheelChanges(scrollLength: nat)
      modifies this`currentSplineVertex, this`invalidate
      ensures Ui() == EditorState.HandleMouseWheelChanges(old(Ui()), scrollLength)
    {
      if !(selectedObject.Some? && selectedObject.value.IsSpline()) { return; }
      if currentTool != Some(VertexTranslationTool) { return; }
      var vertexCount: int := selectedObject.value.kind.vertexCount;
      var delta := scrollLength / 120;
      if delta > 0 {
        if currentSplineVertex < vertexCount - 1 {
          currentSplineVertex := currentSplineVertex + 1;
        }
      } else if currentSplineVertex > 0 {
        currentSplineVertex := currentSplineVertex - 1;
      }
      invalidate := true;
    }

    /**
     * Adds `clone`, the copy the moby makes of itself, to the level and
     * selects it, when the copy is a moby; otherwise does nothing.
     */
    method CloneMoby(moby: LevelObject, clone: Option<LevelObject>)
      modifies level`mobs, this`selectedObject, this`currentTool, this`currentSplineVertex, this`invalidate, this`events
      ensures clone.Some? && clone.value.IsMoby() ==>
        && level.mobs == old(level.mobs) + [clone.value]
        && Ui() == EditorState.SelectObject(old(Ui()), clone)
      ensures !(clone.Some? && clone.value.IsMoby()) ==>
        level.mobs == old(level.mobs) && Ui() == old(Ui())
    {
      if !(clone.Some? && clone.value.IsMoby()) { return; }
      level.mobs := level.mobs + [clone.value];
      SelectObject(clone);
      invalidate := true;
    }

    /**
     * The buffer container of `renderable`, created from it (the created
     * container is `created`) the first time it is asked for.
     */
    method ActivateBuffersForModel(renderable: Renderable, created: BufferHandle) returns (container: BufferHandle)
      modifies this`bufferTable
      ensures (container, bufferTable) == GetValue(old(bufferTable), renderable, created)
    {
      if renderable in bufferTable {
        container := bufferTable[renderable];
      } else {
        container := created;
        bufferTable := bufferTable[renderable := created];
      }
    }

    /**
     * The picking pass: the object whose ID colour `pixel` shows, or a tool
     * handle hit, which sets that axis's lock. `pixel` is what the pass reads
     * back under the mouse after drawing every enabled category with its
     * offsets and then the tool; drawing requests each drawn renderable's
     * buffers from the table, with `create` as the container factory.
     */
    method GetObjectAtScreenPosition(pixel: Pixel, create: Renderable -> BufferHandle) returns (obj: Option<LevelObject>, hitTool: bool)
      modifies this`xLock, this`yLock, this`zLock, this`invalidate, this`bufferTable
      ensures var result := Pick(Flags(), Lists(), pixel);
        && Ui() == PickEffect(old(Ui()), result)
        && hitTool == result.ToolHit?
        && obj == (if result.Picked? then result.obj else None)
      ensures PickPassServed(Flags(), Lists(), old(bufferTable), bufferTable, create)
    {
      var offsets, draws := DrawPickingPass(create);
      obj, hitTool := ReadBack(pixel, offsets);
    }

    /**
     * The read-back half of the picking pass: `pixel` is classified, a
     * handle hit sets its lock, and an ID is decoded against the offsets
     * the pass drew with.
     */
    method ReadBack(pixel: Pixel, offsets: seq<int>) returns (obj: Option<LevelObject>, hitTool: bool)
      requires offsets == SourceOffsets(Flags(), Counts(Lists()))
      modifies this`xLock, this`yLock, this`zLock, this`invalidate
      ensures Flags() == old(Flags()) && Lists() == old(Lists())
      ensures var result := Pick(Flags(), Lists(), pixel);
        && Ui() == PickEffect(old(Ui()), result)
        && hitTool == result.ToolHit?
        && obj == (if result.Picked? then result.obj else None)
    {
      var returnObject: Option<LevelObject> := None;
      if pixel.a == 255 || pixel.a == 0 {
        var px := pixel.(a := 0);
        var didHitTool := false;
        if px.r == 255 && px.g == 0 && px.b == 0 {
          didHitTool := true;
          xLock := true;
        } else if px.r == 0 && px.g == 255 && px.b == 0 {
          didHitTool := true;
          yLock := true;
        } else if px.r == 0 && px.g == 0 && px.b == 255 {
          didHitTool := true;
          zLock := true;
        }
        if didHitTool {
          invalidate := true;
          hitTool := true;
          obj := None;
          return;
        }
        var id := ToUInt32(px);
        returnObject := DecodeId(id, offsets);
      }
      hitTool := false;
      obj := returnObject;
    }

    /**
     * The offsets of the picking pass, in category order: an enabled
     * category starts where the enabled ones before it end, a disabled one
     * keeps 0.
     */
    method PickOffsets() returns (offsets: seq<int>)
      ensures offsets == SourceOffsets(Flags(), Counts(Lists()))
    {
      ghost var f := Flags();
      ghost var c := Counts(Lists());
      assert c == [|level.mobs|, |level.ties|, |level.shrubs|, |level.splines|, |level.cuboids|,
                   |level.spheres|, |level.cylinders|, |level.type0Cs|, |terrains|];
      var mobyOffset, tieOffset, shrubOffset, splineOffset, cuboidOffset := 0, 0, 0, 0, 0;
      var sphereOffset, cylinderOffset, type0COffset, tfragOffset := 0, 0, 0, 0;
      var offset := 0;
      if enableMoby {
        mobyOffset := offset;
        offset := offset + |level.mobs|;
      }
      assert mobyOffset == (if enableMoby then EnabledBefore(f, c, 0) else 0);
      assert offset == EnabledBefore(f, c, 1);
      if enableTie {
        tieOffset := offset;
        offset := offset + |level.ties|;
      }
      assert tieOffset == (if enableTie then EnabledBefore(f, c, 1) else 0);
      assert offset == EnabledBefore(f, c, 2);
      if enableShrub {
        shrubOffset := offset;
        offset := offset + |level.shrubs|;
      }
      assert shrubOffset == (if enableShrub then EnabledBefore(f, c, 2) else 0);
      assert offset == EnabledBefore(f, c, 3);
      if enableSpline {
        splineOffset := offset;
        offset := offset + |level.splines|;
      }
      assert splineOffset == (if enableSpline then EnabledBefore(f, c, 3) else 0);
      assert offset == EnabledBefore(f, c, 4);
      if enableCuboid {
        cuboidOffset := offset;
        offset := offset + |level.cuboids|;
      }
      assert cuboidOffset == (if enableCuboid then EnabledBefore(f, c, 4) else 0);
      assert offset == EnabledBefore(f, c, 5);
      if enableSpheres {
        sphereOffset := offset;
        offset := offset + |level.spheres|;
      }
      assert sphereOffset == (if enableSpheres then EnabledBefore(f, c, 5) else 0);
      assert offset == EnabledBefore(f, c, 6);
      if enableCylinders {
        cylinderOffset := offset;
        offset := offset + |level.cylinders|;
      }
      assert cylinderOffset == (if enableCylinders then EnabledBefore(f, c, 6) else 0);
      assert offset == EnabledBefore(f, c, 7);
      if enableType0C {
        type0COffset := offset;
        offset := offset + |level.type0Cs|;
      }
      assert type0COffset == (if enableType0C then EnabledBefore(f, c, 7) else 0);
      assert offset == EnabledBefore(f, c, 8);
      if enableTerrain {
        tfragOffset := offset;
      }
      assert tfragOffset == (if enableTerrain then EnabledBefore(f, c, 8) else 0);
      offsets := [mobyOffset, tieOffset, shrubOffset, splineOffset, cuboidOffset,
                  sphereOffset, cylinderOffset, type0COffset, tfragOffset];
      SourceOffsetsOfNine(f, c);
    }

    /**
     * The object the decoded ID names: the first enabled category, in pass
     * order, whose list is longer than the ID minus its offset. There is no
     * test that the ID is at least the offset; with the pass's own offsets
     * the index is never negative.
     */
    method DecodeId(id: nat, offsets: seq<int>) returns (returnObject: Option<LevelObject>)
      requires offsets == SourceOffsets(Flags(), Counts(Lists()))
      ensures returnObject == ResolveObject(Flags(), Lists(), id)
    {
      ghost var f := Flags();
      ghost var c := Counts(Lists());
      ResolveNeverOutOfRange(f, c, id);
      ResolveChainUnfolds(f, c, offsets, id);
      returnObject := None;
      if enableMoby && id < |level.mobs| {
        returnObject := Some(level.mobs[id]);
      } else if enableTie && id - offsets[1] < |level.ties| {
        returnObject := Some(level.ties[id - offsets[1]]);
      } else if enableShrub && id - offsets[2] < |level.shrubs| {
        returnObject := Some(level.shrubs[id - offsets[2]]);
      } else if enableSpline && id - offsets[3] < |level.splines| {
        returnObject := Some(level.splines[id - offsets[3]]);
      } else if enableCuboid && id - offsets[4] < |level.cuboids| {
        returnObject := Some(level.cuboids[id - offsets[4]]);
      } else if enableSpheres && id - offsets[5] < |level.spheres| {
        returnObject := Some(level.spheres[id - offsets[5]]);
      } else if enableCylinders && id - offsets[6] < |level.cylinders| {
        returnObject := Some(level.cylinders[id - offsets[6]]);
      } else if enableType0C && id - offsets[7] < |level.type0Cs| {
        returnObject := Some(level.type0Cs[id - offsets[7]]);
      } else if enableTerrain && id - offsets[8] < |terrains| {
        returnObject := Some(terrains[id - offsets[8]]);
      }
    }

    /**
     * The draw calls of category k in the picking pass: none when the
     * category is disabled; otherwise its list drawn from its offset, by
     * FakeDrawObjects for mobies, ties, shrubs and terrain fragments and by
     * the shape loops for the rest.
     */
    method DrawCategory(k: nat, offsets: seq<int>, create: Renderable -> BufferHandle) returns (draws: seq<Draw>)
      requires k < 9 && offsets == SourceOffsets(Flags(), Counts(Lists()))
      modifies this`bufferTable
      ensures draws == CategoryDraws(Flags(), Lists(), k)
      ensures PassDraws(Flags(), Lists(), k, draws)
      ensures bufferTable == ServeKeys(old(bufferTable), DrawKeys(draws), create)
    {
      draws := [];
      ghost var enabled, lists := Flags(), Lists();
      if Flags()[k] {
        var objects := Lists()[k];
        var offset: nat := offsets[k];
        if 3 <= k <= 7 {
          draws, bufferTable := FakeDrawShapes(objects, offset, bufferTable, create);
        } else {
          draws, bufferTable := FakeDrawObjects(objects, offset, bufferTable, create);
        }
      }
      CategoryDrawsDrawn(enabled, lists, k);
    }

    /**
     * The draws of the picking pass, category by category in pass order
     * (the nine blocks of the source, one per category, as a loop over the
     * category index), with the offsets they were drawn from. The draws are
     * `PassDrawsOf` the flags and lists, a whole pass as `PassDraws`
     * describes (`PassDrawsOfDrawn`): every draw shows an element in the
     * colour of the ID the decoding chain maps back to it. Each draw
     * requests its renderable's buffers from the table, in draw order.
     */
    method DrawPickingPass(create: Renderable -> BufferHandle) returns (offsets: seq<int>, draws: seq<seq<Draw>>)
      modifies this`bufferTable
      ensures offsets == SourceOffsets(Flags(), Counts(Lists()))
      ensures draws == PassDrawsOf(Flags(), Lists(), |Lists()|)
      ensures bufferTable == ServeKeys(old(bufferTable), PassKeys(draws), create)
      ensures PickPassServed(Flags(), Lists(), old(bufferTable), bufferTable, create)
    {
      ghost var enabled, lists := Flags(), Lists();
      offsets := PickOffsets();
      draws := [];
      for k := 0 to 9
        invariant draws == PassDrawsOf(enabled, lists, k)
        invariant bufferTable == ServeKeys(old(bufferTable), PassKeys(draws), create)
      {
        var drawn := DrawCategory(k, offsets, create);
        PassKeysAppend(draws, drawn);
        ServeKeysConcat(old(bufferTable), PassKeys(draws), DrawKeys(drawn), create);
        draws := draws + [drawn];
      }
    }

    /**
     * The tool applied along the locked axis, X before Y before Z, to the
     * selection, which is not tested for null: the translation, rotation and
     * scaling tools then throw. The transform itself (its magnitude comes
     * from the mouse ray) is not modelled.
     */
    method ApplyLockedTool() returns (application: ToolApplication)
      ensures application == ApplyToolAsWritten(Ui())
    {
      application := NoApplication;
      if xLock || yLock || zLock {
        var axis := if xLock then X else if yLock then Y else Z;
        match currentTool {
          case Some(TranslationTool) =>
            application := if selectedObject.None? then NullSelectionDereference else Applied(TranslationTool, axis);
          case Some(RotationTool) =>
            application := if selectedObject.None? then NullSelectionDereference else Applied(RotationTool, axis);
          case Some(ScalingTool) =>
            application := if selectedObject.None? then NullSelectionDereference else Applied(ScalingTool, axis);
          case _ =>
        }
      }
    }

    /**
     * One frame of the shown level: `resized` says the view area changed
     * size. The drawing itself is not modelled; it leaves the view valid.
     * When the tick throws, the rest of the frame does not run.
     */
    method Render(resized: bool, input: TickInput, create: Renderable -> BufferHandle) returns (application: ToolApplication)
      modifies this`selectedObject, this`currentTool, this`currentSplineVertex, this`invalidate, this`events
      modifies this`xLock, this`yLock, this`zLock, this`bufferTable
      ensures (Ui(), application) == EditorState.Render(old(Ui()), Flags(), Lists(), resized, input)
      ensures input.focused && input.leftButtonDown ==> PickPassServed(Flags(), Lists(), old(bufferTable), bufferTable, create)
      ensures !(input.focused && input.leftButtonDown) ==> bufferTable == old(bufferTable)
    {
      if resized {
        invalidate := true;
      }
      application := Tick(input, create);
      if application.NullSelectionDereference? {
        return;
      }
      if invalidate {
        invalidate := false;
      }
    }

    /**
     * The pass run while the left button is down: pick under the mouse and
     * select what was picked, unless a tool handle was hit.
     */
    method PickAndSelect(pixel: Pixel, create: Renderable -> BufferHandle)
      modifies this`selectedObject, this`currentTool, this`currentSplineVertex, this`invalidate, this`events
      modifies this`xLock, this`yLock, this`zLock, this`bufferTable
      ensures var result := Pick(Flags(), Lists(), pixel);
        Ui() == (var s := PickEffect(old(Ui()), result);
                 if result.ToolHit? then s else EditorState.SelectObject(s, result.obj))
      ensures PickPassServed(Flags(), Lists(), old(bufferTable), bufferTable, create)
    {
      var obj, cancelSelection := GetObjectAtScreenPosition(pixel, create);
      if cancelSelection {
        return;
      }
      SelectObject(obj);
    }

    /**
     * One frame of input handling while the window is shown: the wheel, the
     * camera, the pick under the left button and, once the view is invalid,
     * the tool along the locked axis. The camera and the tool's transform
     * are not modelled; `application` says what the tool is applied to.
     */
    method Tick(input: TickInput, create: Renderable -> BufferHandle) returns (application: ToolApplication)
      modifies this`selectedObject, this`currentTool, this`currentSplineVertex, this`invalidate, this`events
      modifies this`xLock, this`yLock, this`zLock, this`bufferTable
      ensures (Ui(), application) == EditorState.Tick(old(Ui()), Flags(), Lists(), input)
      ensures input.focused && input.leftButtonDown ==> PickPassServed(Flags(), Lists(), old(bufferTable), bufferTable, create)
      ensures !(input.focused && input.leftButtonDown) ==> bufferTable == old(bufferTable)
    {
      if !input.focused {
        return NoApplication;
      }
      ghost var s0 := Ui();
      HandleMouseWheelChanges(input.scrollLength);
      if input.viewMoved {
        invalidate := true;
      }
      ghost var s2 := Ui();
      assert s2 == TickMove(s0, input);
      if input.leftButtonDown {
        PickAndSelect(input.pixel, create);
      }
      ghost var s3 := Ui();
      assert s3 == TickPick(s2, Flags(), Lists(), input);
      application := NoApplication;
      if invalidate {
        application := ApplyLockedTool();
      }
      assert Ui() == s3;
      assert EditorState.Tick(s0, Flags(), Lists(), input) == (Ui(), application);
    }
  }

  /** With every chunk selected, the filter shows every fragment and every collision chunk. */
  lemma ShowsAllChunks(level: Level, flags: seq<bool>, vbo: seq<int>, ibo: seq<int>)
    requires |flags| == |level.collisionChunks| <= |vbo| && |level.collisionChunks| <= |ibo|
    requires |level.terrainChunks| <= |level.collisionChunks|
    requires forall i :: 0 <= i < |flags| ==> flags[i]
    ensures |level.terrainChunks| > 0 ==>
      && SelectedTerrain(level.terrainChunks, flags, |level.terrainChunks|) == Flatten(level.terrainChunks)
      && var r := SelectedCollisions(level.collisionChunks, vbo, ibo, flags, |level.collisionChunks|);
         |r| == |level.collisionChunks| &&
         forall i :: 0 <= i < |r| ==> r[i] == CollisionEntry(level.collisionChunks[i], vbo[i], ibo[i])
  {
    var n := |level.terrainChunks|;
    if n > 0 {
      AllSelectedKeepsAll(level.terrainChunks, flags, n);
      assert level.terrainChunks[..n] == level.terrainChunks;
      AllSelectedKeepsAllCollisions(level.collisionChunks, vbo, ibo, flags, |level.collisionChunks|);
    }
  }

  /** One test of the decoding chain: category k's, then the rest of the chain. */
  lemma ChainStep(f: seq<bool>, c: seq<nat>, offsets: seq<int>, id: int, k: nat)
    requires |f| == |c| == |offsets| && k < |c|
    ensures Chain(f, c, offsets, id, k) ==
      if f[k] && id - offsets[k] < c[k] then (if id - offsets[k] < 0 then IndexOutOfRange else Hit(k, id - offsets[k]))
      else Chain(f, c, offsets, id, k + 1)
  {
  }

  /** The nine-way decoding chain, test by test. */
  lemma ResolveChainUnfolds(f: seq<bool>, c: seq<nat>, offsets: seq<int>, id: int)
    requires |f| == |c| == 9 && offsets == SourceOffsets(f, c)
    ensures Resolve(f, c, id) ==
      if f[0] && id - offsets[0] < c[0] then (if id - offsets[0] < 0 then IndexOutOfRange else Hit(0, id - offsets[0]))
      else if f[1] && id - offsets[1] < c[1] then (if id - offsets[1] < 0 then IndexOutOfRange else Hit(1, id - offsets[1]))
      else if f[2] && id - offsets[2] < c[2] then (if id - offsets[2] < 0 then IndexOutOfRange else Hit(2, id - offsets[2]))
      else if f[3] && id - offsets[3] < c[3] then (if id - offsets[3] < 0 then IndexOutOfRange else Hit(3, id - offsets[3]))
      else if f[4] && id - offsets[4] < c[4] then (if id - offsets[4] < 0 then IndexOutOfRange else Hit(4, id - offsets[4]))
      else if f[5] && id - offsets[5] < c[5] then (if id - offsets[5] < 0 then IndexOutOfRange else Hit(5, id - offsets[5]))
      else if f[6] && id - offsets[6] < c[6] then (if id - offsets[6] < 0 then IndexOutOfRange else Hit(6, id - offsets[6]))
      else if f[7] && id - offsets[7] < c[7] then (if id - offsets[7] < 0 then IndexOutOfRange else Hit(7, id - offsets[7]))
      else if f[8] && id - offsets[8] < c[8] then (if id - offsets[8] < 0 then IndexOutOfRange else Hit(8, id - offsets[8]))
      else Miss
  {
    ChainStep(f, c, offsets, id, 0);
    ChainStep(f, c, offsets, id, 1);
    ChainStep(f, c, offsets, id, 2);
    ChainStep(f, c, offsets, id, 3);
    ChainStep(f, c, offsets, id, 4);
    ChainStep(f, c, offsets, id, 5);
    ChainStep(f, c, offsets, id, 6);
    ChainStep(f, c, offsets, id, 7);
    ChainStep(f, c, offsets, id, 8);
    assert Chain(f, c, offsets, id, 9) == Miss;
  }

  /** The offsets of a pass over nine categories, written out. */
  lemma SourceOffsetsOfNine(f: seq<bool>, c: seq<nat>)
    requires |f| == |c| == 9
    ensures SourceOffsets(f, c) ==
      [if f[0] then EnabledBefore(f, c, 0) else 0, if f[1] then EnabledBefore(f, c, 1) else 0,
       if f[2] then EnabledBefore(f, c, 2) else 0, if f[3] then EnabledBefore(f, c, 3) else 0,
       if f[4] then EnabledBefore(f, c, 4) else 0, if f[5] then EnabledBefore(f, c, 5) else 0,
       if f[6] then EnabledBefore(f, c, 6) else 0, if f[7] then EnabledBefore(f, c, 7) else 0,
       if f[8] then EnabledBefore(f, c, 8) else 0]
  {
  }

}
