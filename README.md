# LevelFrame: picking, selection and chunk filtering of the Replanetizer level editor

This project models the integer and list logic of Replanetizer's level frame, the editor window that shows one level of a Ratchet & Clank game. The model covers:

- **Picking.** Every visible object is drawn in a colour that encodes a pick ID. The pixel under the mouse is read back and decoded into an object, or into a hit on one of the three axis handles of the active tool.
- **Selection and tool state.** This covers the selected object, the active tool, the spline vertex cursor moved by the mouse wheel, the three axis locks and the events raised to listeners.
- **Chunk filtering.** Levels split into chunks show only the terrain fragments and collision models of the selected chunks.
- **Texture uploads.** This is the byte layout of a DXT5 mip chain.
- **The buffer cache.** Each renderable gets its GPU buffer container on first use.

The GPU is an oracle. The pixel the picking pass reads back, the buffer names an upload creates and the container built for a renderable are all parameters. Level objects are values with a `uid` that stands for their identity. Raising an event appends it to the frame's `events` log.

How the model is laid out:

- `Frames.LevelFrame` is a class with the source's fields and methods.
- Its methods are proved against pure specification functions. `Frames.LevelFrame.SelectObject`, for example, leaves `Ui()` equal to `EditorState.SelectObject(old(Ui()), newObject)`.
- The properties are proved as lemmas about those functions.
- The ID arithmetic of the picking pass is stated once, in `PickIndex`, over any list of categories. `Picking` instantiates it with object lists. `PixelCodec` holds the colour encoding.

## Model

| member | source | states |
|---|---|---|
| PickIndex.EnabledBeforeMonotone | Replanetizer/Frames/LevelFrame.cs:921-984 | the running offset never decreases from one category to the next |
| PickIndex.RangesContiguous | Replanetizer/Frames/LevelFrame.cs:921-984 | an enabled category's ID range starts exactly where the enabled categories before it end |
| PickIndex.SkipDisabled | Replanetizer/Frames/LevelFrame.cs:921-984 | a disabled category consumes no IDs |
| PickIndex.DisabledOwnsNothing | Replanetizer/Frames/LevelFrame.cs:921-984 | no ID belongs to a disabled category |
| PickIndex.RangesDisjoint | Replanetizer/Frames/LevelFrame.cs:921-984 | two categories that own the same ID are the same category |
| PickIndex.EveryIdBelowTotalOwned | Replanetizer/Frames/LevelFrame.cs:921-984 | every ID below the total of the enabled counts is owned by some enabled category |
| PickIndex.IdsFromTotalUnowned | Replanetizer/Frames/LevelFrame.cs:921-984 | no ID at or above the total is owned |
| PickIndex.Chain | Replanetizer/Frames/LevelFrame.cs:1028-1063 | a hit of the fall-through chain names a category at or after the start and an index below that category's count |
| PickIndex.ChainFrom | Replanetizer/Frames/LevelFrame.cs:1028-1063 | once every earlier test has failed, the chain from category k hits exactly the owner of the ID (with the index relative to its offset) and misses when there is none; the missing lower-bound test is implied by the failed earlier tests |
| PickIndex.ResolveNeverOutOfRange | Replanetizer/Frames/LevelFrame.cs:1028-1063 | decoding a non-negative ID never indexes a list with a negative index |
| PickIndex.ResolveFindsOwner | Replanetizer/Frames/LevelFrame.cs:1027-1063 | an ID owned by category k decodes to element `id - offset_k` of category k |
| PickIndex.ResolveHitIffOwned | Replanetizer/Frames/LevelFrame.cs:1027-1063 | decoding hits iff some enabled category owns the ID iff the ID is below the total; otherwise it returns nothing |
| PixelCodec.IdColour | Replanetizer/Frames/LevelFrame.cs:712-713 | an ID is drawn with an opaque alpha |
| PixelCodec.Classify | Replanetizer/Frames/LevelFrame.cs:997-1027 | a pixel is rejected iff its alpha is neither 0 nor 255; a decoded ID is below 2^24 |
| PixelCodec.DecodeIdColour | Replanetizer/Frames/LevelFrame.cs:997-1027 | the colour of an ID below 2^24 that is not a marker ID decodes back to that ID |
| PixelCodec.EncodeDecodedId | Replanetizer/Frames/LevelFrame.cs:1027 | re-encoding a decoded ID gives back the pixel, with an opaque alpha |
| PixelCodec.MarkerIdsShadowed | Replanetizer/Frames/LevelFrame.cs:1002-1016 | IDs 0xFF, 0xFF00 and 0xFF0000 are drawn in a marker colour and read back as a tool-handle hit |
| PixelCodec.MarkerColourIsToolHandle | Replanetizer/Frames/LevelFrame.cs:997-1016 | each marker colour, with alpha 0 or 255, is classified as its axis's handle |
| PixelCodec.BackgroundIsIdZero | Replanetizer/Frames/LevelFrame.cs:914 | the picking pass's clear colour (0,0,0,0) decodes to ID 0 |
| PixelCodec.IdColourWraps | Replanetizer/Frames/LevelFrame.cs:830-831 | only the three low bytes of an ID are drawn, so IDs 2^24 apart get the same colour |
| Picking.FakeDrawObjects | Replanetizer/Frames/LevelFrame.cs:814-835 | the draws are `ModelDraws`: object i is drawn in the colour of ID `i + offset`, binding its model; objects without a model or vertex buffer are skipped, but they keep their ID; every object with a model is drawn, once, in list order; each draw requests its model's buffers from the table, in draw order |
| Picking.FakeDrawShapes | Replanetizer/Frames/LevelFrame.cs:701-812 | the draws are `ShapeDraws`: spline, cuboid, sphere, cylinder and type0C i is drawn in the colour of ID `i + offset`, binding the shape itself, one draw per shape, in list order; each draw requests that shape's own buffers from the table |
| Picking.IdOfIsPrefixSum | Replanetizer/Frames/LevelFrame.cs:921-984 | an object's ID is its index plus the counts of the enabled categories before it, and its category owns that ID |
| Picking.IdsUnique | Replanetizer/Frames/LevelFrame.cs:921-984 | two drawn objects never share an ID |
| Picking.PickDrawnObject | Replanetizer/Frames/LevelFrame.cs:906-1068 | reading back the colour drawn for an object (ID below 2^24, not a marker ID) picks exactly that object |
| Picking.PickedObjectWasDrawnWithId | Replanetizer/Frames/LevelFrame.cs:1027-1063 | whatever a decoded pixel picks is the object whose ID it is |
| Picking.PickMarkerIsToolHit | Replanetizer/Frames/LevelFrame.cs:997-1023 | a marker colour is a hit on its axis's handle, whatever the level holds |
| Picking.PickRejectedAlpha | Replanetizer/Frames/LevelFrame.cs:997-999 | a pixel whose alpha is neither 0 nor 255 picks nothing |
| Picking.PickBackground | Replanetizer/Frames/LevelFrame.cs:914 | a click on the cleared background picks something iff any enabled category has an object; it then picks element 0 of the category that owns ID 0 |
| Picking.DrawnColourPicksItsObject | Replanetizer/Frames/LevelFrame.cs:921-1063 | the colour of any draw of an enabled category, read back, picks the object that draw showed (ID below 2^24, not a marker ID) |
| ToolState.WheelStep | Replanetizer/Frames/LevelFrame.cs:497-509 | one wheel step moves the cursor by at most one and never below 0; with `WheelStepBounds`, it moves up iff a notch was scrolled and the cursor was below the last vertex, and down iff none was and it was above 0 |
| ToolState.LockedAxis | Replanetizer/Frames/LevelFrame.cs:616-621 | no axis iff no lock is set, and X iff the X lock is set; Y and Z follow in that order; with `LockedAxisAfterHits`, after handle hits the tool follows X before Y before Z among the axes hit |
| EditorState.ApplyToolAsWritten | Replanetizer/Frames/LevelFrame.cs:616-658 | the code as written: with a lock set, the translation, rotation or scaling tool is applied along the locked axis, and a null selection is dereferenced; with `ApplyToolNeedsSelection`, it agrees with the guarded `ApplyTool` whenever something is selected, and `LockOutlivesSelection` reaches the dereference |
| EditorState.TickMove | Replanetizer/Frames/LevelFrame.cs:569-600 | the wheel step and the view invalidation by camera rotation or keyboard movement; with `TickKeepsCursorNonNegative` and `TickNeverClearsLocks`, it keeps the cursor non-negative and clears no lock |
| EditorState.TickPick | Replanetizer/Frames/LevelFrame.cs:584-592 | with `TickToolHitKeepsSelection`, a handle hit sets its lock and leaves the selection and events; with `TickPickSelects`, any other pick selects what was picked, nothing included |
| EditorState.Tick | Replanetizer/Frames/LevelFrame.cs:562-685 | the state after one frame's input and the tool application; with `TickNeverClearsLocks` and `TickKeepsCursorNonNegative`, no tick clears a lock or makes the cursor negative |
| EditorState.Render | Replanetizer/Frames/LevelFrame.cs:213-239 | the frame: a resize invalidates, the tick runs, and the view becomes valid unless the tick dereferences a null selection; `LockOutlivesSelection` exhibits that case |
| Picking.Pick | Replanetizer/Frames/LevelFrame.cs:997-1068 | the interpretation of the read-back pixel; with `PickDrawnObject` and `DrawnColourPicksItsObject`, a drawn colour picks its object; with `PickMarkerIsToolHit`, `PickRejectedAlpha` and `PickBackground`, the marker, rejected and background pixels |
| PickIndex.SourceOffsets | Replanetizer/Frames/LevelFrame.cs:921-984 | one offset per category; with `RangesContiguous`, `SkipDisabled` and `RangesDisjoint`, the enabled categories' ID ranges are back to back and disjoint, and a disabled category takes none |
| PickIndex.Resolve | Replanetizer/Frames/LevelFrame.cs:1027-1063 | with `ResolveHitIffOwned` and `ResolveFindsOwner`, an ID hits iff it is below the total, and then names element `id - offset_k` of its owning category k |
| Chunks.SelectedTerrain | Replanetizer/Frames/LevelFrame.cs:443-447 | with `SelectedTerrainMembership`, `SelectedTerrainLength` and `AllSelectedKeepsAll`, a fragment is shown iff its chunk is selected, the count is the selected chunks' total, and all chunks selected shows everything in order |
| Chunks.SelectedCollisions | Replanetizer/Frames/LevelFrame.cs:449-453 | with `SelectedCollisionsAt` and `SelectedIndicesExact`, one entry (chunk i, vbo[i], ibo[i]) per selected index i, in increasing order |
| Textures.MipChain | Replanetizer/Frames/LevelFrame.cs:309-321 | with `MipChainAt` and `MipChainContiguous`, upload j is level `level + j` of the halved dimensions, and the images are packed back to back |
| ToolState.WheelStepBounds | Replanetizer/Frames/LevelFrame.cs:497-509 | the cursor moves up iff a notch was scrolled and it was below the last vertex; it moves down iff none was and it was above 0; it moves by at most one and never goes negative |
| ToolState.WheelStepKeepsRange | Replanetizer/Frames/LevelFrame.cs:497-509 | a cursor in range stays in range after a step |
| ToolState.WheelStepsKeepRange | Replanetizer/Frames/LevelFrame.cs:492-510 | a cursor in range stays in range over any number of frames |
| ToolState.IdleFramesReachFirstVertex | Replanetizer/Frames/LevelFrame.cs:499-509 | frames without a scrolled notch walk the cursor down to vertex 0 |
| ToolState.LockedAxisAfterHits | Replanetizer/Frames/LevelFrame.cs:1002-1016 | locks are only ever set; after a series of handle hits the tool follows X before Y before Z among the axes hit, not the latest one |
| EditorState.SelectNothing | Replanetizer/Frames/LevelFrame.cs:459-464 | selecting nothing clears the selection, raises no event and keeps the tool and cursor |
| EditorState.SelectSomething | Replanetizer/Frames/LevelFrame.cs:466-479 | an object becomes the selection with exactly one click event; the tool is dropped and the cursor reset iff a spline is left for a non-spline under the vertex tool |
| EditorState.DeleteRaisesDeletion | Replanetizer/Frames/LevelFrame.cs:482-490 | deleting clears the selection and raises one deletion event carrying the argument |
| EditorState.SelectToolResetsCursor | Replanetizer/Frames/LevelFrame.cs:549-560 | choosing a tool sets it and resets the cursor to 0 |
| EditorState.SplineSwitchKeepsCursor | Replanetizer/Frames/LevelFrame.cs:466-470 | switching between two splines keeps the cursor, which can then lie past the new spline's last vertex |
| EditorState.TickToolHitKeepsSelection | Replanetizer/Frames/LevelFrame.cs:586-591 | a pick that hits a handle sets that lock and leaves the selection and the events alone |
| EditorState.TickPickSelects | Replanetizer/Frames/LevelFrame.cs:586-591 | any other pick selects what was picked, nothing included |
| EditorState.TickNeverClearsLocks | Replanetizer/Frames/LevelFrame.cs:562-685 | no tick clears a lock |
| EditorState.TickKeepsCursorNonNegative | Replanetizer/Frames/LevelFrame.cs:562-685 | no tick makes the cursor negative |
| EditorState.ApplyToolNeedsSelection | Replanetizer/Frames/LevelFrame.cs:613-658 | the guarded tool application never dereferences a null selection; it applies the tool along the highest-precedence locked axis; with a selection it agrees with the code as written |
| EditorState.LockOutlivesSelection | Replanetizer/Frames/LevelFrame.cs:613-630 | as written, a handle hit followed by a deletion makes the next frame call into the null selection; the guarded application applies nothing there |
| Chunks.SelectedTerrainMembership | Replanetizer/Frames/LevelFrame.cs:443-447 | a fragment is shown iff it belongs to a selected chunk |
| Chunks.SelectedTerrainLength | Replanetizer/Frames/LevelFrame.cs:443-447 | the number of shown fragments is the sum of the selected chunks' sizes |
| Chunks.AllSelectedKeepsAll | Replanetizer/Frames/LevelFrame.cs:443-447 | with every chunk selected, the shown fragments are all fragments in chunk order |
| Chunks.SelectedCollisionsAt | Replanetizer/Frames/LevelFrame.cs:449-453 | the collision entries are, in order, one entry (chunk i, vbo[i], ibo[i]) per selected index i |
| Chunks.SelectedIndicesExact | Replanetizer/Frames/LevelFrame.cs:449-453 | each selected index appears once, in increasing order, and no other index does |
| Chunks.AllSelectedKeepsAllCollisions | Replanetizer/Frames/LevelFrame.cs:418-423 | with every chunk selected, there is one collision entry per chunk with that chunk's buffers |
| Textures.LoadTexture | Replanetizer/Frames/LevelFrame.cs:297-331 | with several mip levels, the uploads are the chain's prefix of images that fit in the data, all in bounds; the rest is not uploaded because the copy of the next image throws; with one level or fewer, a single level-0 image of `BlockBytes(width, height)` bytes is uploaded |
| Textures.MipChainAt | Replanetizer/Frames/LevelFrame.cs:309-321 | upload j is level `level + j`, sized w and h halved j times, placed after the images before it; the chain stops at the level count or when a dimension reaches 0 |
| Textures.MipChainContiguous | Replanetizer/Frames/LevelFrame.cs:313-318 | consecutive level images are packed back to back |
| Textures.BlockCoverage | Replanetizer/Frames/LevelFrame.cs:313 | the 4x4 blocks cover the level with less than one block to spare, 16 bytes each |
| BufferCache.GetValue | Replanetizer/Frames/LevelFrame.cs:839 | the key is bound to the returned container, and only the key is added |
| BufferCache.GetValueKeepsEntries | Replanetizer/Frames/LevelFrame.cs:839 | a request never changes or drops an existing entry |
| BufferCache.GetValueIdempotent | Replanetizer/Frames/LevelFrame.cs:839 | asking again returns the same container and changes nothing |
| BufferCache.FirstRequestWins | Replanetizer/Frames/LevelFrame.cs:837-841 | after any series of requests, a renderable is bound to the container created by its first request |
| Picking.ModelDrawsProperties | Replanetizer/Frames/LevelFrame.cs:814-835 | the object loop over the first n objects draws only objects below n that have a model, in increasing order, each with ID `index + offset` and binding its model, and draws every such object |
| Picking.ShapePassDraws | Replanetizer/Frames/LevelFrame.cs:948-977 | the shape loop of an enabled shape category, drawn from that category's offset, draws exactly its elements, each once, in order, with their IDs in the pass |
| Picking.ObjectPassDraws | Replanetizer/Frames/LevelFrame.cs:921-984 | the object loop of an enabled model category, drawn from that category's offset, draws exactly its objects with a model, each once, in order, with their IDs in the pass |
| Picking.DrawKeysAt | Replanetizer/Frames/LevelFrame.cs:715-826 | the j-th buffer request of a draw loop is the renderable its j-th draw binds |
| Picking.PassKeysCover | Replanetizer/Frames/LevelFrame.cs:921-984 | every draw of a pass requests its renderable |
| Picking.PickPassKeepsAndAdds | Replanetizer/Frames/LevelFrame.cs:837-841 | after a pick pass the table keeps every old entry, binds each new entry to the container created for it, and holds the renderable of every draw of the pass, so of every element the pass shows (each shape, and the model of each object with one, in an enabled category) |
| Picking.ShapeDrawsAt | Replanetizer/Frames/LevelFrame.cs:701-812 | the shape loop over the first n shapes draws n draws, draw i of shape i with ID `i + offset`, binding that shape |
| Picking.ModelDrawsComplete | Replanetizer/Frames/LevelFrame.cs:814-835 | an object loop that draws, in increasing order, only objects with a model, and every one of them, draws exactly the drawable elements of its category, each with ID `index + offset` and binding its model |
| Picking.CategoryDrawsDrawn | Replanetizer/Frames/LevelFrame.cs:921-984 | the draws of each category of a pass are as `PassDraws` describes: nothing when disabled; otherwise exactly the drawable elements, once each, in order, in their IDs' colours, binding their renderables |
| Picking.PassPrefixAppend | Replanetizer/Frames/LevelFrame.cs:921-984 | the draws of the first categories, extended by the next category's draws as `PassDraws` describes, are again a pass prefix |
| Picking.PassDrawsOfDrawn | Replanetizer/Frames/LevelFrame.cs:921-984 | the draws of the pass's first n categories, and so of the whole pass, are each as `PassDraws` describes |
| BufferCache.ServeKeysConcat | Replanetizer/Frames/LevelFrame.cs:837-841 | serving two request sequences one after the other is serving their concatenation |
| BufferCache.ServeKeysKeepsAndAdds | Replanetizer/Frames/LevelFrame.cs:837-841 | after a sequence of requests a renderable is in the table iff it was before or was requested; old entries are unchanged, and new ones hold the container created for them |
| Frames.LevelFrame.constructor | Replanetizer/Frames/LevelFrame.cs:59-62 | the default view flags (moby, tie, shrub and terrain shown), no selection, no tool, no locks, an empty buffer table; then the level is loaded: every chunk is selected, the collision buffer names are the ones given, every fragment and collision chunk is shown, and the view is invalid |
| Frames.LevelFrame.LoadLevel | Replanetizer/Frames/LevelFrame.cs:406-428 | every chunk is selected, every fragment and collision chunk is shown, and the selection is cleared |
| Frames.LevelFrame.SelectAllChunks | Replanetizer/Frames/LevelFrame.cs:418-422 | the chunk flags are resized to the chunk count and all set |
| Frames.LevelFrame.SetSelectedChunks | Replanetizer/Frames/LevelFrame.cs:430-455 | without terrain chunks the engine terrain and the engine collision entry are shown; otherwise the filtered chunks are |
| Frames.LevelFrame.SelectObject | Replanetizer/Frames/LevelFrame.cs:457-480 | the new state is `EditorState.SelectObject` of the old |
| Frames.LevelFrame.DeleteObject | Replanetizer/Frames/LevelFrame.cs:482-490 | the new state is `EditorState.DeleteObject` of the old, and the level's lists are unchanged |
| Frames.LevelFrame.SelectTool | Replanetizer/Frames/LevelFrame.cs:549-560 | the new state is `EditorState.SelectTool` of the old |
| Frames.LevelFrame.HandleMouseWheelChanges | Replanetizer/Frames/LevelFrame.cs:492-510 | the cursor takes one wheel step only for a selected spline under the vertex tool |
| Frames.LevelFrame.CloneMoby | Replanetizer/Frames/LevelFrame.cs:512-519 | a moby clone is appended to the mobies and selected; anything else changes nothing |
| Frames.LevelFrame.ActivateBuffersForModel | Replanetizer/Frames/LevelFrame.cs:837-841 | the container is the cached one, or the new one entered in the table |
| Frames.LevelFrame.GetObjectAtScreenPosition | Replanetizer/Frames/LevelFrame.cs:906-1068 | the pass is drawn, and the result is `Picking.Pick` of the enabled flags, the lists and the pixel; a handle hit sets its lock; the buffer table afterwards is the old one served with every drawn renderable, in draw order (`PickPassServed`) |
| Frames.LevelFrame.DrawCategory | Replanetizer/Frames/LevelFrame.cs:924-984 | the draws are `CategoryDraws`: a disabled category draws nothing; an enabled one draws only the elements it can draw (every shape; objects with a model), each once, in list order, each in the colour of that element's ID in the pass and binding the element's renderable, and draws every one of them; each draw requests its renderable's buffers from the table, in draw order |
| Frames.LevelFrame.DrawPickingPass | Replanetizer/Frames/LevelFrame.cs:921-984 | the draws are `PassDrawsOf` the flags and lists: the nine categories are drawn in order from the enabled prefix-sum offsets (the nine source blocks as a loop over the category index): per category, only the elements it can draw, each once, in order, in the colour of its object's ID, every drawable element of an enabled category drawn and nothing for a disabled one; the table is the old one served with the pass's requests, category by category |
| Frames.LevelFrame.ReadBack | Replanetizer/Frames/LevelFrame.cs:997-1068 | the read-back pixel is interpreted as `Picking.Pick` against the offsets the pass drew with; a handle hit sets its lock and invalidates the view |
| Frames.LevelFrame.PickOffsets | Replanetizer/Frames/LevelFrame.cs:909-984 | the offsets of the pass are the enabled prefix sums, and 0 for disabled categories |
| Frames.LevelFrame.DecodeId | Replanetizer/Frames/LevelFrame.cs:1027-1063 | the branch chain returns the object the ID resolves to |
| Frames.LevelFrame.ApplyLockedTool | Replanetizer/Frames/LevelFrame.cs:616-658 | with a lock set, the translation, rotation or scaling tool is applied along the highest-precedence locked axis, and a null selection is dereferenced; the vertex tool and no tool apply nothing |
| Frames.LevelFrame.PickAndSelect | Replanetizer/Frames/LevelFrame.cs:584-592 | a handle hit leaves the selection; anything else is selected; the buffer table is the old one served with the pick pass's requests |
| Frames.LevelFrame.Tick | Replanetizer/Frames/LevelFrame.cs:562-685 | the new state and the tool application are `EditorState.Tick` of the old state: an unfocused window does nothing; the wheel step, then the view invalidation by camera rotation and keyboard movement, then the pick; the tool is applied, as written, only once the view is invalid; the buffer table is served with the pick pass's requests when the left button is down in a focused window, and is unchanged otherwise. In the source the keyboard-movement invalidation (594-600) comes after the pick (584-592); the two commute, because the pick changes `invalidate` only on a handle hit, and that sets it |
| Frames.LevelFrame.Render | Replanetizer/Frames/LevelFrame.cs:213-238 | a resize invalidates the view, the tick runs, and an invalid view is redrawn and becomes valid; a tick that throws leaves the view invalid; the buffer table changes only through the tick's pick pass |

## Left out

- OpenGL and ImGui: draw calls, shaders, framebuffers, texture and buffer uploads, window layout and the menu bar. The read-back pixel and the created buffer names are parameters.
- The camera, `MouseToWorldRay` and the transform a tool applies. These are floating-point vector maths. The magnitude is taken after the previous mouse ray has been overwritten, so it is always zero. `ToolApplication` records only which tool is applied along which axis.
- The window-size check in `Render` and the `level != null` test. The frame always holds a level.
- Commented-out code. This includes the mouse-up handler that would clear the locks, keyboard tool switching and process-memory writes. No live code clears a lock, and the model does not either.
- The RPCS3 memory hook. It is external-process I/O.
- `LoadLevelTextures`, the texture-ID dictionary and the skybox sort. Only the mip-chain byte layout of `loadTexture` is modelled.
- LoadCollisionBOs: its buffer names arrive as the `vbo` and `ibo` parameters of `LoadLevel`.
- Spline decoding and the spline vertex API. A spline's vertex count is the `vertexCount` of its kind; `GetVertexCount` is not part of this model.
- The colour conversion to `/255f` floats. Colour bytes are taken to round-trip exactly.
- `Pixel.ToUInt32`, `Moby.Clone` and `BufferContainer.FromRenderable` are not part of this model. They are taken as little-endian packing, a parameter and a parameter respectively.
- Picking.FakeDrawObjects: 32-bit overflow of `i + offset` is not modelled, because integers here are unbounded. Three-byte wrap-around of colours is modelled by `PixelCodec.IdColourWraps`.
- Frames.LevelFrame.SetSelectedChunks: its requires states the index bounds the code relies on, because the code would throw without them. Terrain chunks must not outnumber the chunk flags, which are sized by the collision chunks.
- Frames.LevelFrame.LoadLevel: it requires a first moby because the camera is moved behind `mobs[0]`. The camera move itself is not modelled. It also requires that terrain chunks do not outnumber collision chunks, because the refilter indexes the chunk flags, which are sized by the collision chunks, with terrain-chunk indices.
- Frames.LevelFrame.constructor: the source constructor builds the frame without a level, and the level is loaded later through LoadLevel. The model's constructor merges the two steps, so it takes the level and carries LoadLevel's requires.
- The weak-table eviction of the buffer cache. The table is a map that only grows.
- Frames.LevelFrame.Render: the buffer requests of the paint pass (`RenderModelObject` at LevelFrame.cs:1081, the skybox at 1165, the shapes at 1216-1269) are not modelled, because `OnPaint` is GL drawing and is not part of this model. The table changes only through the pick pass of the tick.
- Frames.LevelFrame.GetObjectAtScreenPosition: the buffer requests `RenderTool` makes through the tool's own `Render` are not modelled; the tool classes are not part of this model. The table holds the pick pass's requests only.
- Marker and ID disjointness does not hold and is not claimed. `PixelCodec.MarkerIdsShadowed` proves that IDs 0xFF, 0xFF00 and 0xFF0000 are read as handle hits.

## Findings

| source | as written | input that shows it | evidently intended | confidence | as-written member | corrected member |
|---|---|---|---|---|---|---|
| Replanetizer/Frames/LevelFrame.cs:613-630 | with a lock set, the translation, rotation and scaling tools call into `selectedObject` without testing it for null, and locks are never cleared | select a moby, choose the translation tool, click the X handle (sets `xLock`), delete the moby (clears the selection and invalidates the view); the next frame calls `Translate` on null | apply the tool only when something is selected | medium, not executed | EditorState.LockOutlivesSelection | EditorState.ApplyToolNeedsSelection |

`Frames.LevelFrame.Tick` and `Frames.LevelFrame.Render` follow the code as written, through `EditorState.ApplyToolAsWritten`. The corrected application is `EditorState.ApplyTool`.
