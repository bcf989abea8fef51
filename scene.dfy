/**
 * The entities the level editor's frame works with, as values.
 *
 * Level objects are references in the editor; here each carries a `uid` that
 * stands for its identity, so two objects are "the same object" exactly when
 * they are equal values.
 */
module Scene {

  datatype Option<+T> = None | Some(value: T)

  /** The kinds of level object the frame distinguishes with `is` tests. */
  datatype Kind =
    | Moby
    | Tie
    | Shrub
    | Spline(vertexCount: nat)
    | Cuboid
    | Sphere
    | Cylinder
    | Type0C
    | TerrainFragment

  /**
   * A level object. `hasModel` is true when the object has a model and that
   * model has a vertex buffer; the picking pass skips model objects without
   * one (it only matters for mobies, ties, shrubs and terrain fragments).
   * `model` names the model a model object instantiates; several objects can
   * share one.
   */
  datatype LevelObject = LevelObject(uid: nat, kind: Kind, hasModel: bool, model: ModelRef)
  {
    predicate IsSpline() { kind.Spline? }
    predicate IsMoby() { kind.Moby? }
  }

  /** A model: the model of a level object, or a collision model (a chunk or the whole collision engine). */
  datatype ModelRef = ModelRef(uid: nat)

  /** The manipulation tools of the editor. */
  datatype Tool = TranslationTool | RotationTool | ScalingTool | VertexTranslationTool

  /** The three world axes a tool handle can lock. */
  datatype Axis = X | Y | Z

  /** The notifications the frame raises to its listeners. */
  datatype Event =
    | ObjectClick(clicked: LevelObject)
    | ObjectDeleted(deleted: Option<LevelObject>)
}
