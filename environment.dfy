/**
 * The current scope and binding store (src/environment.js): an environment
 * holds untimed properties, functions and, when it is timelined, one
 * timeline per time-varying property; lookups walk the parent chain.
 */
module Environments {
  import opened Wrappers
  import opened Common
  import opened Values
  import opened Timelines
  import opened Kinds

  /** What a property can be bound to: a value, a timeline, or another environment (a shape, a stroke). */
  datatype Datum =
    | Data(value: Value)
    | Timed(timeline: Timeline<Datum>)
    | Scope(env: Environment)

  /** The body of a function: an intrinsic, possibly tied to the shape it acts on. */
  datatype Body = Builtin(name: string) | BoundTo(name: string, target: Environment)

  type Function = FunctionDefinition<Body>

  /**
   * What the timeline being bound answers when asked for its boundaries
   * (`intervalFrom(fromTime).fromValue`, `intervalTo(toTime).toValue`,
   * `getDefault()`); those queries belong to timeline.js.
   */
  datatype Boundaries = Boundaries(fromValue: Datum, toValue: Datum, defaultValue: Datum)

  /** The error `assertProperty` throws: a location (possibly undefined) and a message. */
  datatype MissingProperty = MissingProperty(where: Option<SourceLocation>, message: string)

  /** The object every environment reaches as `root`: the shape serial counter and the list of shapes. */
  class Root {
    var serial: int
    var shapes: seq<Environment>

    constructor()
      ensures serial == 0 && shapes == []
    {
      serial := 0;
      shapes := [];
    }
  }

  class Environment {
    const kind: Kind
    const parentEnvironment: Environment?
    /** The environments above this one, nearest first. */
    ghost const ancestors: seq<Environment>
    var untimedProperties: map<string, Datum>
    var timedProperties: map<string, Timeline<Datum>>
    var functions: map<string, Function>
    var where: Option<SourceLocation>
    var root: Root?

    /** `ancestors` is the parent chain itself, running up to an environment without a parent. */
    ghost predicate Linked()
      decreases |ancestors|
    {
      if parentEnvironment == null then ancestors == []
      else ancestors == [parentEnvironment] + parentEnvironment.ancestors && parentEnvironment.Linked()
    }

    /** This environment and all of its ancestors, nearest first. */
    ghost function Chain(): seq<Environment>
    {
      [this] + ancestors
    }

    /** `create` followed by `initialize`: empty maps, the parent's root, the location if there is one. */
    constructor(kind: Kind, parentEnvironment: Environment?, where: Option<SourceLocation>)
      requires parentEnvironment != null ==> parentEnvironment.Linked()
      ensures Linked()
      ensures this.kind == kind && this.parentEnvironment == parentEnvironment
      ensures untimedProperties == map[] && timedProperties == map[] && functions == map[]
      ensures this.where == where
      ensures root == (if parentEnvironment != null then parentEnvironment.root else null)
    {
      this.kind := kind;
      this.parentEnvironment := parentEnvironment;
      ancestors := if parentEnvironment == null then [] else [parentEnvironment] + parentEnvironment.ancestors;
      untimedProperties := map[];
      timedProperties := map[];
      functions := map[];
      this.where := where;
      root := if parentEnvironment != null then parentEnvironment.root else null;
    }

    /** `owns`: the property is bound right here, untimed or (for a timelined environment) timed. */
    predicate Owns(id: string)
      reads this
      ensures untimedProperties == map[] && timedProperties == map[] ==> !Owns(id)
      ensures !IsTimelined(kind) ==> (Owns(id) <==> id in untimedProperties)
    {
      id in untimedProperties || (IsTimelined(kind) && id in timedProperties)
    }

    /** `knows`: some environment on the chain owns the property. */
    method Knows(id: string) returns (r: bool)
      requires Linked()
      ensures r <==> exists k :: 0 <= k < |Chain()| && Chain()[k].Owns(id)
    {
      var env: Environment? := this;
      ghost var k := 0;
      while env != null
        invariant 0 <= k <= |Chain()|
        invariant env == null <==> k == |Chain()|
        invariant env != null ==> env.Linked() && env.Chain() == Chain()[k..]
        invariant forall j :: 0 <= j < k ==> !Chain()[j].Owns(id)
        decreases |Chain()| - k
      {
        if env.Owns(id) {
          assert Chain()[k] == env;
          return true;
        }
        env := env.parentEnvironment;
        k := k + 1;
      }
      return false;
    }

    /**
     * `get`: the binding of the nearest environment that has the property,
     * or undefined. A timelined receiver also looks at the timed maps of the
     * environments that have one, preferring the untimed binding at each
     * level; a plain receiver looks at untimed bindings only.
     */
    method Get(id: string) returns (r: Option<Datum>)
      requires Linked()
      ensures r.None? <==> forall k :: 0 <= k < |Chain()| ==> LocalBinding(Chain()[k], id, IsTimelined(kind)).None?
      ensures r.Some? ==>
                exists k :: 0 <= k < |Chain()| && LocalBinding(Chain()[k], id, IsTimelined(kind)) == r &&
                  forall j :: 0 <= j < k ==> LocalBinding(Chain()[j], id, IsTimelined(kind)).None?
    {
      var timedToo := IsTimelined(kind);
      var env: Environment? := this;
      ghost var k := 0;
      while env != null
        invariant 0 <= k <= |Chain()|
        invariant env == null <==> k == |Chain()|
        invariant env != null ==> env.Linked() && env.Chain() == Chain()[k..]
        invariant forall j :: 0 <= j < k ==> LocalBinding(Chain()[j], id, timedToo).None?
        decreases |Chain()| - k
      {
        assert Chain()[k] == env;
        if id in env.untimedProperties {
          return Some(env.untimedProperties[id]);
        } else if timedToo && IsTimelined(env.kind) && id in env.timedProperties {
          return Some(Timed(env.timedProperties[id]));
        }
        env := env.parentEnvironment;
        k := k + 1;
      }
      return None;
    }

    /** `bindFunction`: defines or replaces one function, here. */
    method BindFunction(id: string, f: Function)
      modifies this
      ensures functions == old(functions)[id := f]
      ensures untimedProperties == old(untimedProperties) && timedProperties == old(timedProperties)
      ensures where == old(where) && root == old(root)
    {
      functions := functions[id := f];
    }

    /** `hasFunction`: some environment on the chain defines the function. */
    method HasFunction(id: string) returns (r: bool)
      requires Linked()
      ensures r <==> exists k :: 0 <= k < |Chain()| && id in Chain()[k].functions
      decreases |ancestors|
    {
      if id in functions {
        assert Chain()[0] == this;
        return true;
      }
      if parentEnvironment == null {
        return false;
      }
      r := parentEnvironment.HasFunction(id);
      assert Chain() == [this] + parentEnvironment.Chain();
      if r {
        ghost var k :| 0 <= k < |parentEnvironment.Chain()| && id in parentEnvironment.Chain()[k].functions;
        assert Chain()[k + 1] == parentEnvironment.Chain()[k];
      }
    }

    /** `getFunction`: the nearest definition on the chain, or undefined. */
    method GetFunction(id: string) returns (r: Option<Function>)
      requires Linked()
      ensures r.None? <==> forall k :: 0 <= k < |Chain()| ==> id !in Chain()[k].functions
      ensures r.Some? ==>
                exists k :: 0 <= k < |Chain()| && id in Chain()[k].functions && Chain()[k].functions[id] == r.value &&
                  forall j :: 0 <= j < k ==> id !in Chain()[j].functions
      decreases |ancestors|
    {
      if id in functions {
        assert Chain()[0] == this;
        return Some(functions[id]);
      }
      if parentEnvironment == null {
        return None;
      }
      r := parentEnvironment.GetFunction(id);
      assert Chain() == [this] + parentEnvironment.Chain();
      if r.Some? {
        ghost var k :| 0 <= k < |parentEnvironment.Chain()| && id in parentEnvironment.Chain()[k].functions &&
          parentEnvironment.Chain()[k].functions[id] == r.value &&
          forall j :: 0 <= j < k ==> id !in parentEnvironment.Chain()[j].functions;
        assert Chain()[k + 1] == parentEnvironment.Chain()[k];
      }
    }

    /** `assertProperty`: throws, at this environment's location, unless the property is owned here. */
    function AssertProperty(id: string): (r: Result<(), MissingProperty>)
      reads this
      ensures r.Ok? <==> Owns(id)
      ensures r.Err? ==> r.error.where == where
    {
      if !Owns(id) then
        Err(MissingProperty(where, "I found " + Article(kind) + " " + TypeName(kind) + " whose " + id + " property is not defined."))
      else
        Ok(())
    }

    /** `Environment.prototype.bind`: sets the untimed property, replacing any earlier value. */
    method BindUntimed(id: string, value: Datum)
      modifies this
      ensures untimedProperties == old(untimedProperties)[id := value]
      ensures timedProperties == old(timedProperties) && functions == old(functions)
      ensures where == old(where) && root == old(root)
    {
      untimedProperties := untimedProperties[id := value];
    }

    /**
     * `bind` as the receiver's class defines it. A plain environment, and a
     * timelined one for a property its kind does not time, binds untimed.
     * Otherwise the property's timeline (created on its first bind, reused
     * after) receives the setter calls of `TimedCalls`.
     */
    method Bind(id: string, value: Datum, fromTime: Time, toTime: Time, boundaries: Boundaries)
      modifies this, if id in timedProperties then {timedProperties[id]} else {}
      ensures functions == old(functions) && where == old(where) && root == old(root)
      ensures !(IsTimelined(kind) && IsTimed(kind, id)) ==>
                untimedProperties == old(untimedProperties)[id := value] && timedProperties == old(timedProperties) &&
                (id in timedProperties ==> timedProperties[id].log == old(timedProperties[id].log))
      ensures IsTimelined(kind) && IsTimed(kind, id) ==>
                untimedProperties == old(untimedProperties) &&
                id in timedProperties &&
                (id in old(timedProperties) ==> timedProperties == old(timedProperties)) &&
                (id !in old(timedProperties) ==>
                   fresh(timedProperties[id]) && timedProperties == old(timedProperties)[id := timedProperties[id]]) &&
                timedProperties[id].log ==
                  (if id in old(timedProperties) then old(timedProperties[id].log) else []) +
                  TimedCalls(value, fromTime, toTime, boundaries)
    {
      if !IsTimelined(kind) || !IsTimed(kind, id) {
        BindUntimed(id, value);
      } else {
        if id !in timedProperties {
          var created := new Timeline<Datum>();
          timedProperties := timedProperties[id := created];
        }
        var timeline := timedProperties[id];
        if value.Timed? {
          if Truthy(fromTime) && Truthy(toTime) {
            timeline.SetFromValue(fromTime.t, boundaries.fromValue);
            timeline.SetToValue(toTime.t, boundaries.toValue);
          } else if Truthy(fromTime) {
            timeline.SetFromValue(fromTime.t, boundaries.fromValue);
          } else if Truthy(toTime) {
            timeline.SetToValue(toTime.t, boundaries.toValue);
          } else {
            timeline.SetDefault(boundaries.defaultValue);
          }
        } else if Truthy(fromTime) && Truthy(toTime) {
          timeline.SetFromValue(fromTime.t, value);
          timeline.SetToValue(toTime.t, value);
        } else if Truthy(fromTime) {
          timeline.SetFromValue(fromTime.t, value);
        } else if Truthy(toTime) {
          timeline.SetToValue(toTime.t, value);
        } else {
          timeline.SetDefault(value);
        }
      }
    }
  }

  /** The binding one environment holds for a property, untimed first, then (if asked) timed. */
  function LocalBinding(e: Environment, id: string, timedToo: bool): (r: Option<Datum>)
    reads e
    ensures !timedToo ==> (r.Some? <==> id in e.untimedProperties)
    ensures id in e.untimedProperties ==> r == Some(e.untimedProperties[id])
  {
    if id in e.untimedProperties then Some(e.untimedProperties[id])
    else if timedToo && IsTimelined(e.kind) && id in e.timedProperties then Some(Timed(e.timedProperties[id]))
    else None
  }

  /** With timed bindings included, an environment holds a binding for exactly the properties it owns. */
  lemma LocalBindingOwned(e: Environment, id: string)
    ensures LocalBinding(e, id, true).Some? <==> e.Owns(id)
  {
  }

  /**
   * The setter calls a timed bind makes. A value is handed to the timeline
   * as given; a timeline being bound only passes on its boundary values:
   * the value at the start of its interval from `fromTime`, at the end of
   * its interval to `toTime`, or its default.
   */
  function TimedCalls(value: Datum, fromTime: Time, toTime: Time, boundaries: Boundaries): (r: seq<Call<Datum>>)
    ensures |r| == (if Truthy(fromTime) && Truthy(toTime) then 2 else 1)
    ensures Truthy(fromTime) <==> r[0].SetFromValue?
    ensures Truthy(toTime) <==> r[|r| - 1].SetToValue?
    ensures !value.Timed? ==> forall c :: c in r ==> CallValue(c) == value
  {
    if !value.Timed? then TruthyEdges(value, fromTime, toTime)
    else if Truthy(fromTime) && Truthy(toTime) then
      [SetFromValue(fromTime.t, boundaries.fromValue), SetToValue(toTime.t, boundaries.toValue)]
    else if Truthy(fromTime) then [SetFromValue(fromTime.t, boundaries.fromValue)]
    else if Truthy(toTime) then [SetToValue(toTime.t, boundaries.toValue)]
    else [SetDefault(boundaries.defaultValue)]
  }

  /** Binding a timeline never hands the timeline itself over, only what it answers. */
  lemma TimelineBindCopiesBoundaries(t: Timeline<Datum>, fromTime: Time, toTime: Time, boundaries: Boundaries)
    ensures forall c :: c in TimedCalls(Timed(t), fromTime, toTime, boundaries) ==>
              CallValue(c) in {boundaries.fromValue, boundaries.toValue, boundaries.defaultValue}
    ensures Truthy(fromTime) && Truthy(toTime) ==>
              TimedCalls(Timed(t), fromTime, toTime, boundaries) ==
              [SetFromValue(fromTime.t, boundaries.fromValue), SetToValue(toTime.t, boundaries.toValue)]
    ensures !Truthy(fromTime) && !Truthy(toTime) ==>
              TimedCalls(Timed(t), fromTime, toTime, boundaries) == [SetDefault(boundaries.defaultValue)]
  {
  }
}
