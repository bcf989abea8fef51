/**
 * The selection and tool state of the level frame as a value, and the
 * transition each operation of the frame makes on it. The frame's methods
 * are specified by these functions; the lemmas below state what the
 * operations promise.
 */
module EditorState {
  import opened Scene
  import opened PixelCodec
  import opened Picking
  import opened ToolState

  /** The part of the frame the operations change. */
  datatype UiState = UiState(
    selected: Option<LevelObject>,
    tool: Option<Tool>,
    cursor: int,          // the spline vertex the vertex tool works on
    locks: Locks,
    invalidate: bool,     // the view must be redrawn
    events: seq<Event>)   // the notifications raised so far, oldest first

  /** The previous selection was a spline and the new one is not. */
  predicate LeavesSpline(previous: Option<LevelObject>, next: LevelObject)
  {
    previous.Some? && previous.value.IsSpline() && !next.IsSpline()
  }

  function SelectTool(s: UiState, tool: Option<Tool>): UiState
  {
    s.(tool := tool, cursor := 0, invalidate := true)
  }

  function SelectObject(s: UiState, newObject: Option<LevelObject>): UiState
  {
    if newObject.None? then s.(selected := None, invalidate := true)
    else
      var s' := if LeavesSpline(s.selected, newObject.value) && s.tool == Some(VertexTranslationTool)
                then SelectTool(s, None) else s;
      s'.(selected := newObject, events := s'.events + [ObjectClick(newObject.value)], invalidate := true)
  }

  function DeleteObject(s: UiState, levelObject: Option<LevelObject>): UiState
  {
    var s' := SelectObject(s, None);
    s'.(events := s'.events + [ObjectDeleted(levelObject)], invalidate := true)
  }

  /** The wheel acts only on a selected spline under the vertex tool. */
  predicate WheelApplies(s: UiState)
  {
    s.selected.Some? && s.selected.value.IsSpline() && s.tool == Some(VertexTranslationTool)
  }

  /** The wheel handler; `scrollLength` is the scroll vector's length truncated to an integer. */
  function HandleMouseWheelChanges(s: UiState, scrollLength: nat): UiState
  {
    if WheelApplies(s) then
      s.(cursor := WheelStep(s.cursor, s.selected.value.kind.vertexCount, scrollLength / 120), invalidate := true)
    else s
  }

  /** The lock side effect of a pick: a handle hit sets its axis's lock and invalidates the view. */
  function PickEffect(s: UiState, result: PickResult): UiState
  {
    if result.ToolHit? then s.(locks := SetLock(s.locks, result.axis), invalidate := true) else s
  }

  /** What one tick does with the tool once a lock is set. */
  datatype ToolApplication =
    | NoApplication
    | Applied(tool: Tool, axis: Axis)   // the tool's transform is applied to the selection along `axis`
    | NullSelectionDereference          // the selection is null: the call throws

  /**
   * The tool application as written: with a lock set, the translation,
   * rotation and scaling tools call into the selection whether or not there
   * is one; the vertex tool's body is disabled and tests for a spline first.
   */
  function ApplyToolAsWritten(s: UiState): ToolApplication
  {
    match LockedAxis(s.locks.x, s.locks.y, s.locks.z)
    case None => NoApplication
    case Some(axis) =>
      match s.tool
      case None => NoApplication
      case Some(VertexTranslationTool) => NoApplication
      case Some(t) => if s.selected.None? then NullSelectionDereference else Applied(t, axis)
  }

  /** The tool application with nothing applied while nothing is selected. */
  function ApplyTool(s: UiState): (a: ToolApplication)
  {
    if s.selected.None? then NoApplication else ApplyToolAsWritten(s)
  }

  /** The inputs one tick reads from the window. */
  datatype TickInput = TickInput(
    focused: bool,          // the frame's window has focus
    viewMoved: bool,        // the right button rotates the camera or a movement key is down
    leftButtonDown: bool,
    scrollLength: nat,
    pixel: Pixel)           // what the picking pass reads back under the mouse

  /**
   * The first part of a tick: the wheel step, then the view invalidation by
   * camera rotation or keyboard movement. The keyboard invalidation follows
   * the pick in LevelFrame.cs; applying it first gives the same state, since
   * the pick changes `invalidate` only on a handle hit, which sets it.
   */
  function TickMove(s: UiState, input: TickInput): UiState
  {
    var s' := HandleMouseWheelChanges(s, input.scrollLength);
    if input.viewMoved then s'.(invalidate := true) else s'
  }

  /**
   * The pick of a tick while the left button is down: a tool hit leaves the
   * selection alone, anything else is selected, nothing included.
   */
  function TickPick(s: UiState, enabled: seq<bool>, lists: seq<seq<LevelObject>>, input: TickInput): UiState
    requires |enabled| == |lists|
  {
    if input.leftButtonDown then
      var result := Pick(enabled, lists, input.pixel);
      var s' := PickEffect(s, result);
      if result.ToolHit? then s' else SelectObject(s', result.obj)
    else s
  }

  /**
   * One tick of a focused window: move, pick, and, when the view is
   * invalid, apply the tool along the locked axis as the code is written,
   * null selection included. An unfocused window does nothing.
   */
  function Tick(s: UiState, enabled: seq<bool>, lists: seq<seq<LevelObject>>, input: TickInput): (UiState, ToolApplication)
    requires |enabled| == |lists|
  {
    if !input.focused then (s, NoApplication)
    else
      var s' := TickPick(TickMove(s, input), enabled, lists, input);
      (s', if s'.invalidate then ApplyToolAsWritten(s') else NoApplication)
  }

  /**
   * One frame of a shown level: a resize invalidates the view, the tick
   * runs, and an invalid view is redrawn, after which it is valid again.
   * A tick that dereferences a null selection throws, so nothing after it
   * runs and the view stays invalid.
   */
  function Render(s: UiState, enabled: seq<bool>, lists: seq<seq<LevelObject>>, resized: bool, input: TickInput): (UiState, ToolApplication)
    requires |enabled| == |lists|
  {
    var s' := if resized then s.(invalidate := true) else s;
    var (t, application) := Tick(s', enabled, lists, input);
    (if application.NullSelectionDereference? then t else t.(invalidate := false), application)
  }

  // ---------------------------------------------------------------------
  // Selection

  /** Selecting nothing clears the selection, raises no event and leaves the tool and cursor alone. */
  lemma SelectNothing(s: UiState)
    ensures var t := SelectObject(s, None);
      t == s.(selected := None, invalidate := true)
  {
  }

  /**
   * Selecting an object makes it the selection and raises exactly one click
   * event carrying it; the tool is dropped and the cursor reset exactly when
   * a spline is left for a non-spline under the vertex tool.
   */
  lemma SelectSomething(s: UiState, obj: LevelObject)
    ensures var t := SelectObject(s, Some(obj));
      var drops := LeavesSpline(s.selected, obj) && s.tool == Some(VertexTranslationTool);
      && t.selected == Some(obj)
      && t.events == s.events + [ObjectClick(obj)]
      && t.locks == s.locks && t.invalidate
      && (t.tool != s.tool <==> drops)
      && (drops ==> t.tool.None? && t.cursor == 0)
      && (!drops ==> t.cursor == s.cursor)
  {
  }

  /** Deleting clears the selection and raises one deletion event carrying the argument. */
  lemma DeleteRaisesDeletion(s: UiState, obj: Option<LevelObject>)
    ensures var t := DeleteObject(s, obj);
      && t.selected.None?
      && t.events == s.events + [ObjectDeleted(obj)]
      && t.tool == s.tool && t.cursor == s.cursor && t.locks == s.locks && t.invalidate
  {
  }

  /** Choosing a tool, any tool or none, resets the cursor to the first vertex. */
  lemma SelectToolResetsCursor(s: UiState, tool: Option<Tool>)
    ensures var t := SelectTool(s, tool);
      t.tool == tool && t.cursor == 0 && t.selected == s.selected && t.events == s.events
  {
  }

  /**
   * Switching from one spline to another keeps the cursor, so it can name a
   * vertex past the end of the newly selected spline.
   */
  lemma SplineSwitchKeepsCursor()
    ensures var s := UiState(Some(LevelObject(1, Spline(5), true, ModelRef(0))), Some(VertexTranslationTool), 4,
                             Locks(false, false, false), false, []);
      var t := SelectObject(s, Some(LevelObject(2, Spline(2), true, ModelRef(0))));
      t.cursor == 4 && !CursorInRange(t.cursor, 2)
  {
  }

  // ---------------------------------------------------------------------
  // Ticks

  /** A tick whose pick hits a tool handle sets that lock and leaves the selection and the events alone. */
  lemma {:induction false} TickToolHitKeepsSelection(s: UiState, enabled: seq<bool>, lists: seq<seq<LevelObject>>, input: TickInput)
    requires |enabled| == |lists| && input.focused && input.leftButtonDown
    requires Pick(enabled, lists, input.pixel).ToolHit?
    ensures var t := Tick(s, enabled, lists, input).0;
      && t.selected == s.selected && t.events == s.events
      && t.locks == SetLock(s.locks, Pick(enabled, lists, input.pixel).axis)
  {
  }

  /** A tick whose pick is not a tool hit selects the picked object, or nothing. */
  lemma {:induction false} TickPickSelects(s: UiState, enabled: seq<bool>, lists: seq<seq<LevelObject>>, input: TickInput)
    requires |enabled| == |lists| && input.focused && input.leftButtonDown
    requires Pick(enabled, lists, input.pixel).Picked?
    ensures var t := Tick(s, enabled, lists, input).0;
      && t.selected == Pick(enabled, lists, input.pixel).obj
      && t.locks == s.locks
      && t.events == s.events + (if t.selected.Some? then [ObjectClick(t.selected.value)] else [])
  {
  }

  /** No tick clears a lock: locks set by a handle hit stay set. */
  lemma TickNeverClearsLocks(s: UiState, enabled: seq<bool>, lists: seq<seq<LevelObject>>, input: TickInput)
    requires |enabled| == |lists|
    ensures var t := Tick(s, enabled, lists, input).0;
      && (s.locks.x ==> t.locks.x) && (s.locks.y ==> t.locks.y) && (s.locks.z ==> t.locks.z)
  {
  }

  /** No operation makes the cursor negative. */
  lemma TickKeepsCursorNonNegative(s: UiState, enabled: seq<bool>, lists: seq<seq<LevelObject>>, input: TickInput)
    requires |enabled| == |lists| && s.cursor >= 0
    ensures Tick(s, enabled, lists, input).0.cursor >= 0
  {
    if input.focused {
      WheelStepBounds(s.cursor, if WheelApplies(s) then s.selected.value.kind.vertexCount else 0, input.scrollLength / 120);
    }
  }

  /** The tool is applied only to a selection, along the axis of the highest-precedence lock. */
  lemma ApplyToolNeedsSelection(s: UiState)
    ensures ApplyTool(s) != NullSelectionDereference
    ensures ApplyTool(s).Applied? ==>
      s.selected.Some? && Some(ApplyTool(s).axis) == LockedAxis(s.locks.x, s.locks.y, s.locks.z)
    ensures s.selected.Some? ==> ApplyTool(s) == ApplyToolAsWritten(s)
  {
  }

  /**
   * As written, a lock outlives the selection it was set on: in one frame
   * the X handle of a selected moby is picked under the translation tool;
   * the moby is then deleted, which invalidates the view; the next frame's
   * frame, with no input at all, calls into the null selection. With the
   * application guarded by the selection, that tick applies nothing.
   */
  lemma LockOutlivesSelection(enabled: seq<bool>, lists: seq<seq<LevelObject>>)
    requires |enabled| == |lists|
    ensures var moby := LevelObject(0, Moby, true, ModelRef(0));
      var s0 := UiState(Some(moby), Some(TranslationTool), 0, Locks(false, false, false), false, []);
      var click := TickInput(true, false, true, 0, MarkerColour(X));
      var idle := TickInput(true, false, false, 0, Background);
      var (s1, a1) := Render(s0, enabled, lists, false, click);
      var s2 := DeleteObject(s1, Some(moby));
      var t := TickPick(TickMove(s2, idle), enabled, lists, idle);
      && a1 == Applied(TranslationTool, X)
      && s2.selected.None? && s2.locks.x
      && t.invalidate && ApplyToolAsWritten(t) == NullSelectionDereference
      && Render(s2, enabled, lists, false, idle).1 == NullSelectionDereference
      && ApplyTool(t) == NoApplication
  {
    PickMarkerIsToolHit(enabled, lists, X, 255);
  }
}
