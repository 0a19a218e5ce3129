/**
 * The second generation of the binding store and shapes (types.js): one map
 * of bindings per environment, an untimed `bind` that ignores its time
 * bounds, a timelined `bind` that creates its timeline locally and tests
 * the bounds with `!= null`, the shape serial counter, and the decision
 * logic of the rectangle, line and arc drawing code.
 */
module Types {
  import opened Wrappers
  import opened Common
  import opened Values
  import opened Timelines

  /** What an id can be bound to: a value, a timeline, an environment, or a host-defined function record. */
  datatype Datum =
    | Data(value: Value)
    | Timed(timeline: Timeline<Datum>)
    | Scope(env: TwovilleEnvironment)
    | Intrinsic(name: string)

  /** `TwovilleEnvironment`, and with `timelined` set, `TwovilleTimelinedEnvironment`. */
  class TwovilleEnvironment {
    const timelined: bool
    const parent: TwovilleEnvironment?
    ghost const ancestors: seq<TwovilleEnvironment>
    var bindings: map<string, Datum>

    ghost predicate Linked()
      decreases |ancestors|
    {
      if parent == null then ancestors == []
      else ancestors == [parent] + parent.ancestors && parent.Linked()
    }

    ghost function Chain(): seq<TwovilleEnvironment>
    {
      [this] + ancestors
    }

    constructor(timelined: bool, parent: TwovilleEnvironment?)
      requires parent != null ==> parent.Linked()
      ensures Linked() && this.timelined == timelined && this.parent == parent && bindings == map[]
    {
      this.timelined := timelined;
      this.parent := parent;
      ancestors := if parent == null then [] else [parent] + parent.ancestors;
      bindings := map[];
    }

    /** `owns`: bound right here. */
    predicate Owns(id: string)
      reads this
      ensures Owns(id) ==> |bindings| > 0
    {
      id in bindings
    }

    /** `has`: bound somewhere on the chain. */
    method Has(id: string) returns (r: bool)
      requires Linked()
      ensures r <==> exists k :: 0 <= k < |Chain()| && Chain()[k].Owns(id)
    {
      var env: TwovilleEnvironment? := this;
      ghost var k := 0;
      while env != null
        invariant 0 <= k <= |Chain()|
        invariant env == null <==> k == |Chain()|
        invariant env != null ==> env.Linked() && env.Chain() == Chain()[k..]
        invariant forall j :: 0 <= j < k ==> !Chain()[j].Owns(id)
        decreases |Chain()| - k
      {
        if id in env.bindings {
          assert Chain()[k] == env;
          return true;
        }
        env := env.parent;
        k := k + 1;
      }
      return false;
    }

    /** `get`: the nearest binding, or null when the id is bound nowhere. */
    method Get(id: string) returns (r: Option<Datum>)
      requires Linked()
      ensures r.None? <==> forall k :: 0 <= k < |Chain()| ==> !Chain()[k].Owns(id)
      ensures r.Some? ==>
                exists k :: 0 <= k < |Chain()| && Chain()[k].Owns(id) && Chain()[k].bindings[id] == r.value &&
                  forall j :: 0 <= j < k ==> !Chain()[j].Owns(id)
    {
      var env: TwovilleEnvironment? := this;
      ghost var k := 0;
      while env != null
        invariant 0 <= k <= |Chain()|
        invariant env == null <==> k == |Chain()|
        invariant env != null ==> env.Linked() && env.Chain() == Chain()[k..]
        invariant forall j :: 0 <= j < k ==> !Chain()[j].Owns(id)
        decreases |Chain()| - k
      {
        if id in env.bindings {
          assert Chain()[k] == env;
          return Some(env.bindings[id]);
        }
        env := env.parent;
        k := k + 1;
      }
      return None;
    }

    /**
     * `bind(id, fromTime, toTime, value)`. The plain environment stores the
     * value and ignores both bounds. The timelined one makes a timeline
     * unless the id is already bound here, then calls the setters of
     * `PresentEdges` on it; a local binding that is not a timeline has no
     * setters, which is a TypeError, and then nothing changes.
     */
    method Bind(id: string, fromTime: Time, toTime: Time, value: Datum) returns (r: Result<(), Throw>)
      modifies this, if id in bindings && bindings[id].Timed? then {bindings[id].timeline} else {}
      ensures !timelined ==> r.Ok? && bindings == old(bindings)[id := value]
      ensures timelined ==> (r.Err? <==> id in old(bindings) && !old(bindings[id]).Timed?)
      ensures r.Err? ==> r.error == TypeError && bindings == old(bindings)
      ensures timelined && r.Ok? ==>
                id in bindings && bindings[id].Timed? &&
                (id in old(bindings) ==> bindings == old(bindings)) &&
                (id !in old(bindings) ==> fresh(bindings[id].timeline) && bindings == old(bindings)[id := bindings[id]]) &&
                bindings[id].timeline.log ==
                  (if id in old(bindings) && old(bindings[id]).Timed? then old(bindings[id].timeline.log) else []) +
                  PresentEdges(value, fromTime, toTime)
    {
      if !timelined {
        bindings := bindings[id := value];
        return Ok(());
      }
      if id !in bindings {
        var created := new Timeline<Datum>();
        bindings := bindings[id := Timed(created)];
      }
      if !bindings[id].Timed? {
        return Err(TypeError);
      }
      var timeline := bindings[id].timeline;
      if Present(fromTime) && Present(toTime) {
        timeline.SetFromValue(fromTime.t, value);
        timeline.SetToValue(toTime.t, value);
      } else if Present(fromTime) {
        timeline.SetFromValue(fromTime.t, value);
      } else if Present(toTime) {
        timeline.SetToValue(toTime.t, value);
      } else {
        timeline.SetDefault(value);
      }
      return Ok(());
    }
  }

  // ---------------------------------------------------------------------------
  // Shapes and their serial numbers

  /**
   * The module-level `serial`. `issued` records the ids handed out since the
   * last `initializeShapes`.
   */
  class ShapeCounter {
    var serial: int
    ghost var issued: seq<int>

    /** Since the last reset, the ids handed out are 0, 1, 2, ... and `serial` is the next. */
    ghost predicate Valid()
      reads this
    {
      serial == |issued| && forall k :: 0 <= k < |issued| ==> issued[k] == k
    }

    constructor()
      ensures Valid() && serial == 0 && issued == []
    {
      serial := 0;
      issued := [];
    }

    /** `initializeShapes`: serial numbers start again from 0. */
    method InitializeShapes()
      modifies this
      ensures Valid() && serial == 0 && issued == []
    {
      serial := 0;
      issued := [];
    }
  }

  /** Ids handed out since a reset never repeat. */
  lemma IssuedDistinct(counter: ShapeCounter)
    requires counter.Valid()
    ensures forall i, j :: 0 <= i < j < |counter.issued| ==> counter.issued[i] != counter.issued[j]
  {
  }

  /**
   * `TwovilleShape`: a timelined environment with a type, the location of
   * the call that made it, a serial id, a `stroke` sub-environment and a
   * default opacity of 1.
   */
  class TwovilleShape {
    const env: TwovilleEnvironment
    const shapeType: string
    const callWhere: Option<SourceLocation>
    const id: int

    constructor(parent: TwovilleEnvironment?, callWhere: Option<SourceLocation>, shapeType: string, counter: ShapeCounter)
      requires parent != null ==> parent.Linked()
      requires counter.Valid()
      modifies counter
      ensures fresh(env) && env.Linked() && env.timelined && env.parent == parent
      ensures env.bindings.Keys == {"stroke", "opacity"}
      ensures env.bindings["stroke"].Scope? && fresh(env.bindings["stroke"].env)
      ensures env.bindings["stroke"].env.timelined && env.bindings["stroke"].env.parent == env
      ensures env.bindings["stroke"].env.bindings == map[]
      ensures env.bindings["opacity"].Timed? && fresh(env.bindings["opacity"].timeline)
      ensures env.bindings["opacity"].timeline.log == [SetDefault(Data(Value.Real(1.0)))]
      ensures this.shapeType == shapeType && this.callWhere == callWhere
      ensures id == old(counter.serial) && counter.serial == old(counter.serial) + 1
      ensures counter.Valid() && counter.issued == old(counter.issued) + [id]
    {
      var e := new TwovilleEnvironment(true, parent);
      var stroke := new TwovilleEnvironment(true, e);
      e.bindings := e.bindings["stroke" := Scope(stroke)];
      var r := e.Bind("opacity", Unset, Unset, Data(Value.Real(1.0)));
      env := e;
      this.shapeType := shapeType;
      this.callWhere := callWhere;
      id := counter.serial;
      new;
      counter.serial := counter.serial + 1;
      counter.issued := counter.issued + [id];
    }
  }

  /** After a reset, shapes made one after another get ids 0 and 1. */
  method SerialAfterReset(counter: ShapeCounter) returns (a: TwovilleShape, b: TwovilleShape)
    requires counter.Valid()
    modifies counter
    ensures a.id == 0 && b.id == 1 && a.id != b.id
  {
    counter.InitializeShapes();
    a := new TwovilleShape(null, None, "rectangle", counter);
    b := new TwovilleShape(null, None, "circle", counter);
  }

  // ---------------------------------------------------------------------------
  // Decision logic of drawing

  /**
   * `TwovilleRectangle.draw` up to the drawing itself, from the answers of
   * `has` for its position and size: exactly one of corner and center, and
   * a size (through `assertProperty`, which also uses `has`).
   */
  function RectangleDrawCheck(hasCorner: bool, hasCenter: bool, hasSize: bool, shapeType: string): (r: Result<(), string>)
    ensures r.Ok? <==> (hasCorner != hasCenter) && hasSize
    ensures hasCorner && hasCenter ==>
              r == Err("I found a rectangle whose corner and center properties were both set. Define only one of these.")
    ensures !hasCorner && !hasCenter ==>
              r == Err("I found a rectangle whose location I couldn't figure out. Please define its corner or center.")
    ensures hasCorner != hasCenter && !hasSize ==> r == Err("I found a " + shapeType + " whose size property is not defined.")
  {
    if hasCorner && hasCenter then
      Err("I found a rectangle whose corner and center properties were both set. Define only one of these.")
    else if !hasCorner && !hasCenter then
      Err("I found a rectangle whose location I couldn't figure out. Please define its corner or center.")
    else if !hasSize then
      Err("I found a " + shapeType + " whose size property is not defined.")
    else
      Ok(())
  }

  /** The complaint of `TwovilleLine.draw`, from the count as written and the noun after it. */
  function LineMessage(count: string, noun: string): (r: string)
    ensures |r| > 33 + |count| + |noun|
    ensures r[32..32 + |count|] == count && r[33 + |count|..33 + |count| + |noun|] == noun
  {
    "I tried to draw a line that had " + count + " " + noun + ". Lines must only have two vertices."
  }

  /**
   * `TwovilleLine.draw` as written: a line needs exactly two nodes. The
   * message picks its noun by `nodes.size`, which an array does not have,
   * so it always says "vertices".
   */
  function LineDrawCheckAsWritten(nodeCount: nat): (r: Result<(), string>)
    ensures r.Ok? <==> nodeCount == 2
    ensures r.Err? ==> r.error == LineMessage(NumberToString(nodeCount), "vertices")
  {
    if nodeCount != 2 then Err(LineMessage(NumberToString(nodeCount), "vertices")) else Ok(())
  }

  /** The evidently intended message: "vertex" for one node, "vertices" otherwise. */
  function LineDrawCheck(nodeCount: nat): (r: Result<(), string>)
    ensures r.Ok? <==> nodeCount == 2
    ensures r.Err? ==> r.error == LineMessage(NumberToString(nodeCount), if nodeCount == 1 then "vertex" else "vertices")
  {
    if nodeCount != 2 then
      Err(LineMessage(NumberToString(nodeCount), if nodeCount == 1 then "vertex" else "vertices"))
    else
      Ok(())
  }

  /** One node: as written the message reads "1 vertices", intended "1 vertex"; every other count agrees. */
  lemma LineMessageForOneNode()
    ensures LineDrawCheckAsWritten(1) == Err(LineMessage("1", "vertices"))
    ensures LineDrawCheck(1) == Err(LineMessage("1", "vertex"))
    ensures LineDrawCheck(1) != LineDrawCheckAsWritten(1)
    ensures forall n: nat :: n != 1 ==> LineDrawCheck(n) == LineDrawCheckAsWritten(n)
  {
    assert Digits(1) == [DigitChar(1)] == "1";
    assert NumberToString(1) == "1";
    var asWritten := LineMessage("1", "vertices");
    var intended := LineMessage("1", "vertex");
    assert asWritten[38] == 'i' && intended[38] == 'e';
  }

  /** Twice the signed area of the triangle spanned by two offsets from the arc's center, halved. */
  function SignedArea(d1x: real, d1y: real, d2x: real, d2y: real): (r: real)
    ensures r == 0.0 <==> d1x * d2y == d2x * d1y
    ensures d1x == d2x && d1y == d2y ==> r == 0.0
  {
    0.5 * (d1x * d2y - d2x * d1y)
  }

  /** The large-arc and sweep flags of an SVG arc command, from the direction and the signed area. */
  function ArcFlags(direction: real, area: real): (flags: (int, int))
    ensures flags.1 == (if direction == 0.0 then 1 else 0)
    ensures flags.0 == 1 <==> (if direction == 0.0 then area < 0.0 else area > 0.0)
    ensures flags.0 in {0, 1}
  {
    if direction == 0.0 then
      if area < 0.0 then (1, 1) else (0, 1)
    else
      if area > 0.0 then (1, 0) else (0, 0)
  }

  /** Turning the other way flips the sweep, and for a non-degenerate arc also the large flag. */
  lemma ArcFlagsMirror(area: real, other: real)
    requires other != 0.0
    ensures ArcFlags(0.0, area).1 != ArcFlags(other, area).1
    ensures area != 0.0 ==> ArcFlags(0.0, area).0 != ArcFlags(other, area).0
    ensures ArcFlags(0.0, -area).0 == ArcFlags(other, area).0
  {
  }

  /** The offsets swapped give the opposite area, and so the opposite large flag unless the area is 0. */
  lemma SignedAreaAntisymmetric(d1x: real, d1y: real, d2x: real, d2y: real)
    ensures SignedArea(d2x, d2y, d1x, d1y) == -SignedArea(d1x, d1y, d2x, d2y)
  {
  }
}
