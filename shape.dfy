/**
 * Shapes of the current generation (src/shape.js): what `initialize` binds
 * and counts, the marker and node lists, the walk up `parent` that decides
 * whether a shape sits inside a cutout, and the checks `configureState`
 * makes before it builds any SVG.
 */
module Shapes {
  import opened Wrappers
  import opened Common
  import opened Values
  import opened Timelines
  import opened Kinds
  import opened Environments
  import Types

  /** A marker of a shape; its id stays undefined until a shape numbers it. */
  class Marker {
    const shape: Shape
    var id: Option<int>

    constructor(shape: Shape)
      ensures this.shape == shape && id == None
    {
      this.shape := shape;
      id := None;
    }
  }

  /** What kind of step a node is, as far as the first-step rules care. */
  datatype Step = VertexStep | TurtleStep | JumpStep | OtherStep

  /** A node of a vertex shape or path: its step, whether it is drawn, where it was written and its type name. */
  datatype Node = Node(step: Step, isDom: bool, where: Option<SourceLocation>, typeName: string)

  /** Why `addNode` refused a node. */
  datatype NodeError =
    | FirstStep(where: Option<SourceLocation>, message: string)  // the first node cannot start this shape
    | NoAddNode                                                   // the shape has no `addNode`: a TypeError

  /** The opacity and enabled flag every shape starts with. */
  const DefaultOpacity: Datum := Data(Value.Real(1.0))
  const DefaultEnabled: Datum := Data(Value.Boolean(true))

  function DefaultOf(id: string): Datum
  {
    if id == "opacity" then DefaultOpacity else DefaultEnabled
  }

  /** The four transform functions, each tied to the shape. */
  function TransformFunctions(e: Environment): map<string, Function>
  {
    map["translate" := FunctionDefinition("translate", [], BoundTo("translate", e)),
        "scale" := FunctionDefinition("scale", [], BoundTo("scale", e)),
        "rotate" := FunctionDefinition("rotate", [], BoundTo("rotate", e)),
        "shear" := FunctionDefinition("shear", [], BoundTo("shear", e))]
  }

  /** The defaults a kind does not time, as untimed properties. */
  function UntimedDefaults(kind: Kind): map<string, Datum>
  {
    (if IsTimed(kind, "opacity") then map[] else map["opacity" := DefaultOpacity]) +
    (if IsTimed(kind, "enabled") then map[] else map["enabled" := DefaultEnabled])
  }

  /** The defaults a kind times. */
  function TimedDefaults(kind: Kind): set<string>
  {
    (if IsTimed(kind, "opacity") then {"opacity"} else {}) +
    (if IsTimed(kind, "enabled") then {"enabled"} else {})
  }

  /** Every default lands in exactly one of the two maps. */
  lemma DefaultsPartition(kind: Kind)
    ensures UntimedDefaults(kind).Keys !! TimedDefaults(kind)
    ensures UntimedDefaults(kind).Keys + TimedDefaults(kind) == {"opacity", "enabled"}
    ensures kind.Mask? || kind.Cutout? ==> TimedDefaults(kind) == {} && UntimedDefaults(kind) == map["opacity" := DefaultOpacity, "enabled" := DefaultEnabled]
  {
  }

  /** Whether a node may be the first of a shape of this kind. */
  predicate Starts(kind: Kind, step: Step)
    ensures Starts(kind, step) ==> IsNodeShape(kind) && !step.OtherStep?
    ensures step.TurtleStep? ==> (Starts(kind, step) <==> IsNodeShape(kind))
  {
    if IsVertexShape(kind) then step == VertexStep || step == TurtleStep
    else if kind.Path? then step == JumpStep || step == TurtleStep
    else false
  }

  /** `sentenceCase` of an article: its first letter capitalised. */
  function SentenceCase(s: string): (r: string)
    ensures |r| == |s|
    ensures |s| > 0 ==> r[1..] == s[1..]
  {
    if |s| > 0 && 'a' <= s[0] <= 'z' then [(s[0] as int - 'a' as int + 'A' as int) as char] + s[1..] else s
  }

  /** The words of `addNode`'s complaint before the node's type name. */
  function FirstStepOpening(kind: Kind): string
  {
    if kind.Path? then "I saw a path whose first step is "
    else "I saw " + Article(kind) + " " + TypeName(kind) + " whose first step is "
  }

  /** What `addNode` says about a node that cannot start a shape. */
  function FirstStepMessage(kind: Kind, node: Node): (r: string)
    ensures var opening := FirstStepOpening(kind);
            |r| > |opening| + |node.typeName| && r[..|opening|] == opening &&
            r[|opening|..|opening| + |node.typeName|] == node.typeName
    ensures kind.Path? ==> |FirstStepOpening(kind)| == 33
  {
    var opening := FirstStepOpening(kind);
    var closing :=
      if kind.Path? then ". A path must begin with jump or turtle."
      else ". " + SentenceCase(Article(kind)) + " " + TypeName(kind) + " must begin with vertex or turtle.";
    assert (opening + node.typeName + closing)[..|opening|] == opening;
    assert (opening + node.typeName + closing)[|opening|..|opening| + |node.typeName|] == node.typeName;
    opening + node.typeName + closing
  }

  /**
   * A `Shape` on top of its timelined environment. The environment stands
   * for the shape wherever the source hands the shape itself around (in
   * `root.shapes`, as the value of `parent`).
   */
  class Shape {
    const env: Environment
    var id: int
    var sourceSpans: seq<SourceLocation>
    var transforms: seq<Datum>
    var markers: Option<seq<Marker>>  // undefined (`None`) until something assigns a list
    var nodes: seq<Node>

    constructor(env: Environment, id: int)
      ensures this.env == env && this.id == id
      ensures sourceSpans == [] && transforms == [] && markers == None && nodes == []
    {
      this.env := env;
      this.id := id;
      sourceSpans := [];
      transforms := [];
      markers := None;
      nodes := [];
    }

    /** Every marker's id is its index in the list (vacuous while there is no list). */
    ghost predicate MarkersNumbered()
      reads this, if markers.Some? then markers.value else []
    {
      markers.Some? ==> forall k :: 0 <= k < |markers.value| ==> markers.value[k].id == Some(k)
    }

    /**
     * `addMarker`: the marker is numbered by the previous length of the list
     * and appended. Reading the length of an undefined list throws a
     * TypeError before anything is assigned.
     */
    method AddMarker(marker: Marker) returns (r: Result<(), Throw>)
      modifies this, marker
      ensures r.Err? <==> old(markers).None?
      ensures r.Err? ==> r.error == TypeError && markers == old(markers) && marker.id == old(marker.id)
      ensures r.Ok? ==> marker.id == Some(|old(markers).value|) && markers == Some(old(markers).value + [marker])
      ensures id == old(id) && nodes == old(nodes) && sourceSpans == old(sourceSpans) && transforms == old(transforms)
      ensures old(MarkersNumbered()) && old(markers.None? || marker !in markers.value) ==> MarkersNumbered()
    {
      if markers.None? {
        return Err(TypeError);
      }
      marker.id := Some(|markers.value|);
      markers := Some(markers.value + [marker]);
      return Ok(());
    }

    /** A node list that is empty or starts with a node that may start this kind of shape. */
    ghost predicate WellStarted()
      reads this
    {
      nodes == [] || Starts(env.kind, nodes[0].step)
    }

    /**
     * `VertexShape.addNode` and `Path.addNode`: the first node must be one
     * that may start the shape; later nodes are appended unchecked. Shapes
     * of other kinds have no `addNode`.
     */
    method AddNode(node: Node) returns (r: Result<(), NodeError>)
      modifies this
      ensures !IsNodeShape(env.kind) ==> r == Err(NoAddNode)
      ensures IsNodeShape(env.kind) ==>
                (r.Err? <==> old(nodes) == [] && !Starts(env.kind, node.step))
      ensures IsNodeShape(env.kind) && r.Err? ==> r.error == FirstStep(node.where, FirstStepMessage(env.kind, node))
      ensures r.Err? ==> nodes == old(nodes)
      ensures r.Ok? ==> nodes == old(nodes) + [node]
      ensures id == old(id) && markers == old(markers) && sourceSpans == old(sourceSpans) && transforms == old(transforms)
      ensures old(WellStarted()) ==> WellStarted()
    {
      if !IsNodeShape(env.kind) {
        return Err(NoAddNode);
      }
      if |nodes| == 0 && !Starts(env.kind, node.step) {
        return Err(FirstStep(node.where, FirstStepMessage(env.kind, node)));
      }
      nodes := nodes + [node];
      return Ok(());
    }
  }

  /**
   * Nothing in the shape's own code gives it a marker list, so its first
   * `addMarker` throws.
   */
  method FreshShapeCannotMark(env: Environment, id: int) returns (r: Result<(), Throw>)
    ensures r == Err(TypeError)
  {
    var s := new Shape(env, id);
    var marker := new Marker(s);
    r := s.AddMarker(marker);
  }

  /** Once a shape holds a list, markers are numbered in the order they are added. */
  method MarkersNumberedInOrder(env: Environment) returns (first: Option<int>, second: Option<int>)
    ensures first == Some(0) && second == Some(1)
  {
    var s := new Shape(env, 0);
    s.markers := Some([]);
    var a := new Marker(s);
    var b := new Marker(s);
    var ra := s.AddMarker(a);
    var rb := s.AddMarker(b);
    first, second := a.id, b.id;
  }

  /** The default `opacity` and `enabled` bindings of a new shape, bound through `bind`. */
  method BindDefaults(e: Environment)
    requires IsShape(e.kind) && e.untimedProperties == map[] && e.timedProperties == map[]
    modifies e
    ensures e.untimedProperties == UntimedDefaults(e.kind)
    ensures e.timedProperties.Keys == TimedDefaults(e.kind)
    ensures forall id :: id in e.timedProperties ==>
              fresh(e.timedProperties[id]) && e.timedProperties[id].log == [SetDefault(DefaultOf(id))]
    ensures e.functions == old(e.functions) && e.where == old(e.where) && e.root == old(e.root)
  {
    e.Bind("opacity", DefaultOpacity, Unset, Unset, Boundaries(DefaultOpacity, DefaultOpacity, DefaultOpacity));
    e.Bind("enabled", DefaultEnabled, Unset, Unset, Boundaries(DefaultEnabled, DefaultEnabled, DefaultEnabled));
  }

  /** The transform functions of a new shape, each tied to it. */
  method BindTransforms(e: Environment)
    requires e.functions == map[]
    modifies e
    ensures e.functions == TransformFunctions(e)
    ensures e.untimedProperties == old(e.untimedProperties) && e.timedProperties == old(e.timedProperties)
    ensures e.where == old(e.where) && e.root == old(e.root)
  {
    e.BindFunction("translate", FunctionDefinition("translate", [], BoundTo("translate", e)));
    e.BindFunction("scale", FunctionDefinition("scale", [], BoundTo("scale", e)));
    e.BindFunction("rotate", FunctionDefinition("rotate", [], BoundTo("rotate", e)));
    e.BindFunction("shear", FunctionDefinition("shear", [], BoundTo("shear", e)));
  }

  /**
   * `Shape.initialize` (with `NodeShape`'s empty node list). The shape takes
   * its id from the root's serial counter, which a shape without a parent,
   * or under a parent without a root, cannot reach: a TypeError. Otherwise
   * `opacity` and `enabled` are bound through `bind`, so each becomes a
   * one-call timeline or an untimed property as the kind's `timedIds`
   * say; the transform functions are bound; and the root counts and lists
   * the shape.
   */
  method Initialize(kind: Kind, parentEnvironment: Environment?, where: Option<SourceLocation>) returns (r: Result<Shape, Throw>)
    requires IsShape(kind)
    requires parentEnvironment != null ==> parentEnvironment.Linked()
    modifies if parentEnvironment != null && parentEnvironment.root != null then {parentEnvironment.root} else {}
    ensures r.Err? <==> parentEnvironment == null || parentEnvironment.root == null
    ensures r.Err? ==> r.error == TypeError
    ensures r.Ok? ==>
              var s := r.value;
              var root := parentEnvironment.root;
              fresh(s) && fresh(s.env) && s.env.Linked() &&
              s.env.kind == kind && s.env.parentEnvironment == parentEnvironment &&
              s.env.where == where && s.env.root == root &&
              s.id == old(root.serial) && root.serial == old(root.serial) + 1 && root.shapes == old(root.shapes) + [s.env] &&
              s.sourceSpans == [] && s.transforms == [] && s.markers == None && s.nodes == [] &&
              s.env.functions == TransformFunctions(s.env) &&
              s.env.untimedProperties == UntimedDefaults(kind) &&
              s.env.timedProperties.Keys == TimedDefaults(kind) &&
              forall id :: id in s.env.timedProperties ==>
                fresh(s.env.timedProperties[id]) && s.env.timedProperties[id].log == [SetDefault(DefaultOf(id))]
  {
    var e := new Environment(kind, parentEnvironment, where);
    if parentEnvironment == null || parentEnvironment.root == null {
      return Err(TypeError);
    }
    var root := parentEnvironment.root;
    var s := new Shape(e, root.serial);
    BindDefaults(e);
    BindTransforms(e);
    root.serial := root.serial + 1;
    root.shapes := root.shapes + [e];
    return Ok(s);
  }

  // ---------------------------------------------------------------------------
  // Whether a shape is inside a cutout

  /** Why `isCutoutChild` throws: a `parent` that has no `isCutoutChild`, or a `parent` cycle that exhausts the stack. */
  datatype CutoutError = NotAShape | TooDeep

  /**
   * `isCutoutChild`: false without a local `parent`; true when the parent
   * is a cutout; otherwise the parent shape is asked in turn. `fuel` bounds
   * the recursion, which a cycle of parents would never end.
   */
  function IsCutoutChild(e: Environment, fuel: nat): (r: Result<bool, CutoutError>)
    reads *
    ensures !e.Owns("parent") ==> r == Ok(false)
    ensures r == Ok(true) ==> e.Owns("parent") && LocalBinding(e, "parent", true).Some? && LocalBinding(e, "parent", true).value.Scope? &&
                              IsShape(LocalBinding(e, "parent", true).value.env.kind)
    decreases fuel
  {
    if !e.Owns("parent") then Ok(false)
    else
      match LocalBinding(e, "parent", true)
      case Some(Scope(p)) =>
        if p.kind.Cutout? then Ok(true)
        else if !IsShape(p.kind) then Err(NotAShape)
        else if fuel == 0 then Err(TooDeep)
        else IsCutoutChild(p, fuel - 1)
      case _ => Err(NotAShape)
  }

  /** More fuel changes nothing once the walk has an answer. */
  lemma {:induction false} CutoutFuelMonotone(e: Environment, fuel: nat, more: nat)
    requires fuel <= more
    requires IsCutoutChild(e, fuel) != Err(TooDeep)
    ensures IsCutoutChild(e, more) == IsCutoutChild(e, fuel)
    decreases fuel
  {
    if e.Owns("parent") {
      match LocalBinding(e, "parent", true)
      case Some(Scope(p)) =>
        if !p.kind.Cutout? && IsShape(p.kind) && fuel > 0 {
          CutoutFuelMonotone(p, fuel - 1, more - 1);
        }
      case _ =>
    }
  }

  /** A shape that is its own parent never gets an answer: the recursion runs out of stack. */
  lemma {:induction false} OwnParentNeverEnds(e: Environment, fuel: nat)
    requires IsShape(e.kind) && !e.kind.Cutout?
    requires "parent" in e.untimedProperties && e.untimedProperties["parent"] == Scope(e)
    ensures IsCutoutChild(e, fuel) == Err(TooDeep)
    decreases fuel
  {
    if fuel > 0 {
      OwnParentNeverEnds(e, fuel - 1);
    }
  }

  /** A shape whose parent is a cutout, or is a shape inside one, is inside a cutout. */
  lemma ParentLinks(e: Environment, p: Environment, fuel: nat)
    requires "parent" in e.untimedProperties && e.untimedProperties["parent"] == Scope(p)
    ensures p.kind.Cutout? ==> IsCutoutChild(e, fuel) == Ok(true)
    ensures IsShape(p.kind) && !p.kind.Cutout? ==> IsCutoutChild(e, fuel + 1) == IsCutoutChild(p, fuel)
    ensures !IsShape(p.kind) ==> IsCutoutChild(e, fuel) == Err(NotAShape)
  {
  }

  // ---------------------------------------------------------------------------
  // The checks of configureState

  /** What the validator of one property finds: no timeline, a malformed one (with the error it raised), or a good one. */
  datatype Status = Absent | Malformed(where: Option<SourceLocation>, reason: string) | WellFormed

  /** A located complaint of `configureState`. */
  datatype Complaint = Complaint(where: Option<SourceLocation>, message: string)

  const BothSet := "I found a rectangle whose <code>corner</code> and <code>center</code> were both set. Define only one of these."
  const Unplaced := "I found a rectangle whose position I couldn't figure out. Define either its <code>corner</code> or <code>center</code>."
  const SizeUnset := "I found a rectangle whose <code>size</code> was not set."

  function Illegal(property: string, status: Status): Complaint
    requires status.Malformed?
  {
    Complaint(status.where, "I found an illegal value for <code>" + property + "</code>. " + status.reason)
  }

  /**
   * What `configureColor` of a filled shape reads: its `opacity` and `color`
   * timelines, and whether the opacity is above zero anywhere (its default
   * or the value at either end of one of its intervals).
   */
  datatype Fill = Fill(opacity: Status, color: Status, opacityPositive: bool)

  /** The complaint about a shape that can be seen but has no colour. */
  function ColorUnset(kind: Kind): string
  {
    "I found " + Article(kind) + " " + TypeName(kind) + " whose <code>color</code> isn't set."
  }

  /**
   * `configureColor`: `opacity`, where present, must be a scalar; `color`,
   * where present, a triple; and an opacity above zero somewhere makes
   * `color` required.
   */
  function ConfigureColor(where: Option<SourceLocation>, kind: Kind, fill: Fill): (r: Result<(), Complaint>)
    ensures r.Ok? <==> !fill.opacity.Malformed? && !fill.color.Malformed? && (fill.opacityPositive ==> !fill.color.Absent?)
    ensures fill.opacity.Malformed? ==> r == Err(Illegal("opacity", fill.opacity))
    ensures !fill.opacity.Malformed? && fill.color.Malformed? ==> r == Err(Illegal("color", fill.color))
    ensures !fill.opacity.Malformed? && fill.opacityPositive && fill.color.Absent? ==>
              r == Err(Complaint(where, ColorUnset(kind)))
  {
    if fill.opacity.Malformed? then Err(Illegal("opacity", fill.opacity))
    else if fill.color.Malformed? then Err(Illegal("color", fill.color))
    else if fill.opacityPositive && fill.color.Absent? then Err(Complaint(where, ColorUnset(kind)))
    else Ok(())
  }

  /**
   * `Rectangle.configureState`, its checks in order: the fill first, then
   * `rounding`, optional but a scalar, then `size`, required and a pair,
   * and exactly one of `corner` and `center` as a timed property, itself a
   * pair.
   */
  function RectangleConfigureState(where: Option<SourceLocation>, fill: Fill, rounding: Status, size: Status, corner: Status, center: Status): (r: Result<(), Complaint>)
    ensures r.Ok? <==>
              ConfigureColor(where, Kind.Rectangle, fill).Ok? && !rounding.Malformed? && size.WellFormed? &&
              ((corner.WellFormed? && center.Absent?) || (corner.Absent? && center.WellFormed?))
    ensures ConfigureColor(where, Kind.Rectangle, fill).Err? ==> r == ConfigureColor(where, Kind.Rectangle, fill)
    ensures ConfigureColor(where, Kind.Rectangle, fill).Ok? && !rounding.Malformed? && size.WellFormed? &&
            !corner.Absent? && !center.Absent? ==>
              r == Err(Complaint(where, BothSet))
    ensures ConfigureColor(where, Kind.Rectangle, fill).Ok? && !rounding.Malformed? && size.WellFormed? &&
            corner.Absent? && center.Absent? ==>
              r == Err(Complaint(where, Unplaced))
    ensures ConfigureColor(where, Kind.Rectangle, fill).Ok? && !rounding.Malformed? && size.Absent? ==>
              r == Err(Complaint(where, SizeUnset))
    ensures ConfigureColor(where, Kind.Rectangle, fill).Ok? && rounding.Malformed? ==> r == Err(Illegal("rounding", rounding))
  {
    var colored := ConfigureColor(where, Kind.Rectangle, fill);
    if colored.Err? then colored
    else if rounding.Malformed? then Err(Illegal("rounding", rounding))
    else if size.Absent? then Err(Complaint(where, SizeUnset))
    else if size.Malformed? then Err(Illegal("size", size))
    else if !corner.Absent? && !center.Absent? then
      Err(Complaint(where, BothSet))
    else if !corner.Absent? then
      if corner.Malformed? then Err(Illegal("corner", corner)) else Ok(())
    else if !center.Absent? then
      if center.Malformed? then Err(Illegal("center", center)) else Ok(())
    else
      Err(Complaint(where, Unplaced))
  }

  /** The nodes that are drawn, in order. */
  function DomNodes(nodes: seq<Node>): (r: seq<Node>)
    ensures |r| <= |nodes|
    ensures forall n :: n in r <==> n in nodes && n.isDom
    ensures (forall k :: 0 <= k < |nodes| ==> nodes[k].isDom) ==> r == nodes
  {
    if nodes == [] then []
    else (if nodes[0].isDom then [nodes[0]] else []) + DomNodes(nodes[1..])
  }

  /** "vertex" for one, "vertices" for any other count. */
  function VertexNoun(count: nat): string
  {
    if count == 1 then "vertex" else "vertices"
  }

  /** `Polygon.configureState`: at least three drawn vertices, then the fill. */
  function PolygonConfigureState(where: Option<SourceLocation>, nodes: seq<Node>, fill: Fill): (r: Result<(), Complaint>)
    ensures r.Ok? <==> |DomNodes(nodes)| >= 3 && ConfigureColor(where, Kind.Polygon, fill).Ok?
    ensures |DomNodes(nodes)| < 3 ==> r.Err? && r.error.where == where
    ensures |DomNodes(nodes)| >= 3 ==> r == ConfigureColor(where, Kind.Polygon, fill)
  {
    var count := |DomNodes(nodes)|;
    if count < 3 then
      Err(Complaint(where, "I found a <code>polygon</code> that had " + NumberToString(count) + " " + VertexNoun(count) +
                           ". Polygons must have at least 3 vertices."))
    else
      ConfigureColor(where, Kind.Polygon, fill)
  }

  /** `Line.configureState`: exactly two drawn vertices. */
  function LineConfigureState(where: Option<SourceLocation>, nodes: seq<Node>): (r: Result<(), Complaint>)
    ensures r.Ok? <==> |DomNodes(nodes)| == 2
    ensures r.Err? ==> r.error.where == where
  {
    var count := |DomNodes(nodes)|;
    if count != 2 then
      Err(Complaint(where, "I found a line that had " + NumberToString(count) + " " + VertexNoun(count) +
                           ". Lines must have exactly 2 vertices."))
    else
      Ok(())
  }

  /** Nodes that are not drawn never count: adding one changes neither verdict. */
  lemma HiddenNodesIgnored(where: Option<SourceLocation>, nodes: seq<Node>, hidden: Node, fill: Fill)
    requires !hidden.isDom
    ensures DomNodes(nodes + [hidden]) == DomNodes(nodes)
    ensures PolygonConfigureState(where, nodes + [hidden], fill) == PolygonConfigureState(where, nodes, fill)
    ensures LineConfigureState(where, nodes + [hidden]) == LineConfigureState(where, nodes)
  {
    DomNodesAppend(nodes, [hidden]);
  }

  lemma {:induction false} DomNodesAppend(a: seq<Node>, b: seq<Node>)
    ensures DomNodes(a + b) == DomNodes(a) + DomNodes(b)
    decreases |a|
  {
    if a == [] {
      assert a + b == b;
    } else {
      assert (a + b)[1..] == a[1..] + b;
      DomNodesAppend(a[1..], b);
    }
  }

  /**
   * The two generations agree on lines whose nodes are all drawn: the
   * current check accepts exactly the node counts the types.js draw does.
   */
  lemma LineGenerationsAgree(where: Option<SourceLocation>, nodes: seq<Node>)
    requires forall k :: 0 <= k < |nodes| ==> nodes[k].isDom
    ensures LineConfigureState(where, nodes).Ok? <==> Types.LineDrawCheck(|nodes|).Ok?
  {
  }

  /**
   * The two generations agree on rectangles whose properties are well
   * formed where present and whose fill passes `configureColor` (which the
   * types.js draw does not check), with presence read from the timed
   * properties in one and from `has` in the other.
   */
  lemma RectangleGenerationsAgree(where: Option<SourceLocation>, fill: Fill, size: Status, corner: Status, center: Status)
    requires ConfigureColor(where, Kind.Rectangle, fill).Ok?
    requires !size.Malformed? && !corner.Malformed? && !center.Malformed?
    ensures RectangleConfigureState(where, fill, Absent, size, corner, center).Ok? <==>
            Types.RectangleDrawCheck(!corner.Absent?, !center.Absent?, !size.Absent?, "rectangle").Ok?
  {
  }

  /** A visible shape with no colour fails before any check of its own. */
  lemma ColorlessShapes(where: Option<SourceLocation>, rounding: Status, size: Status, corner: Status, center: Status, nodes: seq<Node>)
    requires |DomNodes(nodes)| >= 3
    ensures RectangleConfigureState(where, Fill(WellFormed, Absent, true), rounding, size, corner, center) ==
            Err(Complaint(where, ColorUnset(Kind.Rectangle)))
    ensures PolygonConfigureState(where, nodes, Fill(WellFormed, Absent, true)) ==
            Err(Complaint(where, ColorUnset(Kind.Polygon)))
  {
  }

  /** A transparent shape needs no colour. */
  lemma TransparentNeedsNoColor(where: Option<SourceLocation>, kind: Kind, opacity: Status)
    requires !opacity.Malformed?
    ensures ConfigureColor(where, kind, Fill(opacity, Absent, false)).Ok?
  {
  }
}
