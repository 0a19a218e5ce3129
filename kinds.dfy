/**
 * The kinds of environment and shape, and the per-kind table of property
 * names whose values vary over time (the static `timedIds` lists of
 * src/environment.js and src/shape.js).
 */
module Kinds {
  datatype Kind =
    | Plain       // Environment: untimed bindings only
    | Timelined   // TimelinedEnvironment itself
    | Stroke | Mirror
    | Text | Rectangle | Circle | Polygon | Polyline | Line | Ungon | Path
    | Group | Mask | Cutout | Tip

  /** Every kind but the plain environment keeps a map of timelines. */
  predicate IsTimelined(kind: Kind)
  {
    !kind.Plain?
  }

  predicate IsShape(kind: Kind)
  {
    !(kind.Plain? || kind.Timelined? || kind.Stroke? || kind.Mirror?)
  }

  /** Shapes built from vertices: the `VertexShape` subclasses. */
  predicate IsVertexShape(kind: Kind)
  {
    kind.Polygon? || kind.Polyline? || kind.Line? || kind.Ungon?
  }

  /** Shapes that keep a list of nodes: the `NodeShape` subclasses. */
  predicate IsNodeShape(kind: Kind)
  {
    IsVertexShape(kind) || kind.Path?
  }

  /**
   * The kind's `timedIds` list: nothing for an environment without
   * timelines, and `enabled` last for every shape that can be switched off.
   */
  function TimedIds(kind: Kind): (r: seq<string>)
    ensures !IsTimelined(kind) ==> r == []
    ensures IsShape(kind) && !(kind.Mask? || kind.Cutout?) ==> |r| > 0 && r[|r| - 1] == "enabled"
  {
    match kind
    case Plain => []
    case Timelined => []
    case Stroke => ["size", "color", "opacity", "dashes", "join"]
    case Mirror => ["point", "axis"]
    case Text => ["position", "message", "size", "color", "opacity", "anchor", "baseline", "enabled"]
    case Rectangle => ["corner", "center", "size", "color", "opacity", "rounding", "enabled"]
    case Circle => ["center", "radius", "color", "opacity", "enabled"]
    case Polygon => ["color", "opacity", "enabled"]
    case Polyline => ["size", "color", "opacity", "dashes", "join", "enabled"]
    case Line => ["size", "color", "opacity", "dashes", "enabled"]
    case Ungon => ["rounding", "color", "opacity", "enabled"]
    case Path => ["color", "opacity", "enabled"]
    case Group => ["enabled"]
    case Mask => []
    case Cutout => []
    case Tip => ["size", "anchor", "corner", "center", "enabled"]
  }

  /** `isTimed(id)`: whether the kind's list names `id`. */
  predicate IsTimed(kind: Kind, id: string)
    ensures IsTimed(kind, id) ==> IsTimelined(kind) && id != ""
  {
    id in TimedIds(kind)
  }

  /** The type name error messages use. */
  function TypeName(kind: Kind): (r: string)
    ensures |r| > 0
  {
    match kind
    case Plain => "environment"
    case Timelined => "timelined environment"
    case Stroke => "stroke"
    case Mirror => "mirror"
    case Text => "text"
    case Rectangle => "rectangle"
    case Circle => "circle"
    case Polygon => "polygon"
    case Polyline => "polyline"
    case Line => "line"
    case Ungon => "ungon"
    case Path => "path"
    case Group => "group"
    case Mask => "mask"
    case Cutout => "cutout"
    case Tip => "tip"
  }

  /** The article error messages use; the plain environment has none, which prints as "undefined". */
  function Article(kind: Kind): (r: string)
    ensures IsTimelined(kind) ==> (r == "a" || r == "an") && (r == "an" <==> TypeName(kind)[0] in "aeiou")
  {
    match kind
    case Plain => "undefined"
    case Ungon => "an"
    case _ => "a"
  }

  /** Masks, cutouts and the bare timelined environment time nothing; every bind on them is untimed. */
  lemma NothingTimed(kind: Kind, id: string)
    requires kind.Mask? || kind.Cutout? || kind.Timelined? || kind.Plain?
    ensures !IsTimed(kind, id)
  {
  }

  /** The default `opacity` of a new shape is timed for exactly these kinds. */
  lemma OpacityTimedKinds(kind: Kind)
    requires IsShape(kind)
    ensures IsTimed(kind, "opacity") <==> !(kind.Group? || kind.Mask? || kind.Cutout? || kind.Tip?)
  {
  }

  /** The default `enabled` of a new shape is timed for every shape kind but masks and cutouts. */
  lemma EnabledTimedKinds(kind: Kind)
    requires IsShape(kind)
    ensures IsTimed(kind, "enabled") <==> !(kind.Mask? || kind.Cutout?)
  {
  }

  /** No list names a property twice. */
  lemma TimedIdsDistinct(kind: Kind)
    ensures forall i, j :: 0 <= i < j < |TimedIds(kind)| ==> TimedIds(kind)[i] != TimedIds(kind)[j]
  {
  }

  /** No two kinds share a type name, so a message names the kind it is about. */
  lemma TypeNameInjective(a: Kind, b: Kind)
    ensures TypeName(a) == TypeName(b) ==> a == b
  {
    if TypeName(a) == TypeName(b) {
      assert TypeName(a)[0] == TypeName(b)[0] && |TypeName(a)| == |TypeName(b)|;
    }
  }
}
