/**
 * The first generation of the binding store (builtins.js): one map of
 * bindings per environment, lookups along `parent`, and a timelined bind
 * that decides whether to make a timeline by looking along the whole chain.
 */
module Builtins {
  import opened Wrappers
  import opened Values
  import opened Timelines

  /** What an id can be bound to: data, a timeline, a shape, or a host-defined intrinsic object. */
  datatype Datum =
    | Data(value: Value)
    | Timed(timeline: Timeline<Datum>)
    | Scope(env: TwovilleEnvironment)
    | Intrinsic(name: string)

  /**
   * `TwovilleEnvironment`. The global environment's parent is a plain record
   * whose `parent` is null and whose bindings are empty; here that record is
   * an environment without a parent.
   */
  class TwovilleEnvironment {
    const parent: TwovilleEnvironment?
    ghost const ancestors: seq<TwovilleEnvironment>
    var bindings: map<string, Datum>

    ghost predicate Linked()
      decreases |ancestors|
    {
      if parent == null then ancestors == []
      else ancestors == [parent] + parent.ancestors && parent.Linked()
    }

    ghost function Chain(): seq<TwovilleEnvironment>
    {
      [this] + ancestors
    }

    constructor(parent: TwovilleEnvironment?)
      requires parent != null ==> parent.Linked()
      ensures Linked() && this.parent == parent && bindings == map[]
    {
      this.parent := parent;
      ancestors := if parent == null then [] else [parent] + parent.ancestors;
      bindings := map[];
    }

    /** `has`: some environment on the chain binds the id. */
    method Has(id: string) returns (r: bool)
      requires Linked()
      ensures r <==> exists k :: 0 <= k < |Chain()| && id in Chain()[k].bindings
    {
      var env: TwovilleEnvironment? := this;
      ghost var k := 0;
      while env != null
        invariant 0 <= k <= |Chain()|
        invariant env == null <==> k == |Chain()|
        invariant env != null ==> env.Linked() && env.Chain() == Chain()[k..]
        invariant forall j :: 0 <= j < k ==> id !in Chain()[j].bindings
        decreases |Chain()| - k
      {
        if id in env.bindings {
          assert Chain()[k] == env;
          return true;
        }
        env := env.parent;
        k := k + 1;
      }
      return false;
    }

    /** `get`: the nearest binding; an id bound nowhere throws 'no such var --id--'. */
    method Get(id: string) returns (r: Result<Datum, string>)
      requires Linked()
      ensures r.Err? <==> forall k :: 0 <= k < |Chain()| ==> id !in Chain()[k].bindings
      ensures r.Err? ==> r.error == "no such var --" + id + "--"
      ensures r.Ok? ==>
                exists k :: 0 <= k < |Chain()| && id in Chain()[k].bindings && Chain()[k].bindings[id] == r.value &&
                  forall j :: 0 <= j < k ==> id !in Chain()[j].bindings
    {
      var env: TwovilleEnvironment? := this;
      ghost var k := 0;
      while env != null
        invariant 0 <= k <= |Chain()|
        invariant env == null <==> k == |Chain()|
        invariant env != null ==> env.Linked() && env.Chain() == Chain()[k..]
        invariant forall j :: 0 <= j < k ==> id !in Chain()[j].bindings
        decreases |Chain()| - k
      {
        if id in env.bindings {
          assert Chain()[k] == env;
          return Ok(env.bindings[id]);
        }
        env := env.parent;
        k := k + 1;
      }
      return Err("no such var --" + id + "--");
    }

    /** `bindUntimelined`: sets the local binding, replacing any earlier one. */
    method BindUntimelined(id: string, value: Datum)
      modifies this
      ensures bindings == old(bindings)[id := value]
    {
      bindings := bindings[id := value];
    }

    /**
     * `bindTimelined` as written: a timeline is created only when no
     * environment on the chain binds the id, and the local binding is then
     * used as that timeline. An id bound only further up leaves the local
     * binding undefined, and one bound locally to anything but a timeline
     * has no setters: both throw a TypeError, and nothing changes.
     */
    method BindTimelined(id: string, fromTime: Time, toTime: Time, value: Datum) returns (r: Result<(), Throw>)
      requires Linked()
      modifies this, if id in bindings && bindings[id].Timed? then {bindings[id].timeline} else {}
      ensures r.Err? <==>
                (exists k :: 0 <= k < |Chain()| && id in old(Chain()[k].bindings)) &&
                !(id in old(bindings) && old(bindings[id]).Timed?)
      ensures r.Err? ==> r.error == TypeError && bindings == old(bindings)
      ensures r.Ok? ==> LoggedBind(this, id, fromTime, toTime, value, old(bindings),
                                   if id in old(bindings) && old(bindings[id]).Timed? then old(bindings[id].timeline.log) else [])
    {
      assert Chain()[0] == this;
      var known := Has(id);
      if !known {
        var created := new Timeline<Datum>();
        bindings := bindings[id := Timed(created)];
      }
      if id !in bindings || !bindings[id].Timed? {
        return Err(TypeError);
      }
      Dispatch(bindings[id].timeline, fromTime, toTime, value);
      return Ok(());
    }

    /**
     * The evidently intended `bindTimelined`: a timeline is created unless
     * this environment itself already binds the id, as the later
     * generations do.
     */
    method BindTimelinedLocally(id: string, fromTime: Time, toTime: Time, value: Datum) returns (r: Result<(), Throw>)
      modifies this, if id in bindings && bindings[id].Timed? then {bindings[id].timeline} else {}
      ensures r.Err? <==> id in old(bindings) && !old(bindings[id]).Timed?
      ensures r.Err? ==> r.error == TypeError && bindings == old(bindings)
      ensures r.Ok? ==> LoggedBind(this, id, fromTime, toTime, value, old(bindings),
                                   if id in old(bindings) && old(bindings[id]).Timed? then old(bindings[id].timeline.log) else [])
    {
      if id !in bindings {
        var created := new Timeline<Datum>();
        bindings := bindings[id := Timed(created)];
      }
      if !bindings[id].Timed? {
        return Err(TypeError);
      }
      Dispatch(bindings[id].timeline, fromTime, toTime, value);
      return Ok(());
    }
  }

  /**
   * After a successful timelined bind: the id holds a timeline (the one it
   * held, or a fresh one), no other binding changed, and the timeline's log
   * grew by exactly the calls of `BetweenEdges`.
   */
  twostate predicate LoggedBind(env: TwovilleEnvironment, id: string, fromTime: Time, toTime: Time, value: Datum,
                                before: map<string, Datum>, logBefore: seq<Call<Datum>>)
    reads env, if id in env.bindings && env.bindings[id].Timed? then {env.bindings[id].timeline} else {}
  {
    id in env.bindings && env.bindings[id].Timed? &&
    (id in before ==> env.bindings == before) &&
    (id !in before ==> fresh(env.bindings[id].timeline) && env.bindings == before[id := env.bindings[id]]) &&
    env.bindings[id].timeline.log == logBefore + BetweenEdges(value, fromTime, toTime)
  }

  /** The four-way dispatch on `!= null` bounds, with `setBetweenValue` for two. */
  method Dispatch(timeline: Timeline<Datum>, fromTime: Time, toTime: Time, value: Datum)
    modifies timeline
    ensures timeline.log == old(timeline.log) + BetweenEdges(value, fromTime, toTime)
  {
    if Present(fromTime) && Present(toTime) {
      timeline.SetBetweenValue(fromTime.t, toTime.t, value);
    } else if Present(fromTime) {
      timeline.SetFromValue(fromTime.t, value);
    } else if Present(toTime) {
      timeline.SetToValue(toTime.t, value);
    } else {
      timeline.SetDefault(value);
    }
  }

  /**
   * A timeline-bound id that a child scope rebinds: as written the bind
   * throws a TypeError, where the local check binds it in the child and
   * leaves the parent's timeline alone.
   */
  method ShadowedBindThrows() returns (asWritten: Result<(), Throw>, intended: Result<(), Throw>)
    ensures asWritten == Err(TypeError)
    ensures intended.Ok?
  {
    var global := new TwovilleEnvironment(null);
    var r0 := global.BindTimelined("x", Unset, Unset, Data(Integer(1)));
    assert "x" in global.bindings;
    var child := new TwovilleEnvironment(global);
    assert child.Chain()[1] == global;
    asWritten := child.BindTimelined("x", At(1.0), Unset, Data(Integer(2)));
    var other := new TwovilleEnvironment(global);
    intended := other.BindTimelinedLocally("x", At(1.0), Unset, Data(Integer(2)));
  }

  /** An id bound nowhere: `has` says no and `get` throws. */
  method UnboundLookup() returns (known: bool, found: Result<Datum, string>)
    ensures !known && found == Err("no such var --y--")
  {
    var global := new TwovilleEnvironment(null);
    global.BindUntimelined("x", Data(Integer(1)));
    var child := new TwovilleEnvironment(global);
    assert child.Chain() == [child, global];
    known := child.Has("y");
    found := child.Get("y");
    assert "no such var --" + "y" + "--" == "no such var --y--";
  }
}
