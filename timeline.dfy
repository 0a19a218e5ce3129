/**
 * Timelines as the binding stores see them. A timeline's own keyframe logic
 * (timeline.js) is not part of this model: a `Timeline` here records, in
 * order, the setter calls made on it, which is exactly what every `bind`
 * decides.
 */
module Timelines {
  /** A time bound of an interval statement: a number, or absent (undefined or null). */
  datatype Time = Unset | At(t: real)

  /** JavaScript truthiness of a bound: absent and the number 0 are both falsy. */
  predicate Truthy(time: Time)
  {
    time.At? && time.t != 0.0
  }

  /** The `!= null` test: every number counts, 0 included. */
  predicate Present(time: Time)
  {
    time.At?
  }

  /** One setter call on a timeline. */
  datatype Call<V> =
    | SetDefault(value: V)
    | SetFromValue(from: real, value: V)
    | SetToValue(to: real, value: V)
    | SetBetweenValue(from: real, to: real, value: V)

  /** A keyframed property; `log` holds the setter calls made on it so far. */
  class Timeline<V> {
    var log: seq<Call<V>>

    constructor()
      ensures log == []
    {
      log := [];
    }

    method SetDefault(value: V)
      modifies this
      ensures log == old(log) + [Call.SetDefault(value)]
    {
      log := log + [Call.SetDefault(value)];
    }

    method SetFromValue(from: real, value: V)
      modifies this
      ensures log == old(log) + [Call.SetFromValue(from, value)]
    {
      log := log + [Call.SetFromValue(from, value)];
    }

    method SetToValue(to: real, value: V)
      modifies this
      ensures log == old(log) + [Call.SetToValue(to, value)]
    {
      log := log + [Call.SetToValue(to, value)];
    }

    method SetBetweenValue(from: real, to: real, value: V)
      modifies this
      ensures log == old(log) + [Call.SetBetweenValue(from, to, value)]
    {
      log := log + [Call.SetBetweenValue(from, to, value)];
    }
  }

  // ---------------------------------------------------------------------------
  // Which setters a bind calls, in each generation of the binding store

  /**
   * src/environment.js: the bounds are tested for truthiness. Both bounds
   * set a from-edge and a to-edge with the same value, which holds it
   * constant across the interval.
   */
  function TruthyEdges<V>(value: V, fromTime: Time, toTime: Time): (r: seq<Call<V>>)
    ensures |r| > 0
    ensures Truthy(fromTime) <==> r[0].SetFromValue?
    ensures Truthy(toTime) <==> r[|r| - 1].SetToValue?
    ensures r[0].SetDefault? <==> !Truthy(fromTime) && !Truthy(toTime)
  {
    if Truthy(fromTime) && Truthy(toTime) then [SetFromValue(fromTime.t, value), SetToValue(toTime.t, value)]
    else if Truthy(fromTime) then [SetFromValue(fromTime.t, value)]
    else if Truthy(toTime) then [SetToValue(toTime.t, value)]
    else [SetDefault(value)]
  }

  /** types.js: the same four cases, with the bounds tested by `!= null`. */
  function PresentEdges<V>(value: V, fromTime: Time, toTime: Time): (r: seq<Call<V>>)
    ensures |r| > 0
    ensures Present(fromTime) <==> r[0].SetFromValue?
    ensures Present(toTime) <==> r[|r| - 1].SetToValue?
    ensures r[0].SetDefault? <==> !Present(fromTime) && !Present(toTime)
  {
    if Present(fromTime) && Present(toTime) then [SetFromValue(fromTime.t, value), SetToValue(toTime.t, value)]
    else if Present(fromTime) then [SetFromValue(fromTime.t, value)]
    else if Present(toTime) then [SetToValue(toTime.t, value)]
    else [SetDefault(value)]
  }

  /** builtins.js: tested by `!= null`, and two bounds make one `setBetweenValue` call. */
  function BetweenEdges<V>(value: V, fromTime: Time, toTime: Time): (r: seq<Call<V>>)
    ensures |r| == 1
    ensures r[0].SetBetweenValue? <==> Present(fromTime) && Present(toTime)
    ensures r[0].SetDefault? <==> !Present(fromTime) && !Present(toTime)
  {
    if Present(fromTime) && Present(toTime) then [SetBetweenValue(fromTime.t, toTime.t, value)]
    else if Present(fromTime) then [SetFromValue(fromTime.t, value)]
    else if Present(toTime) then [SetToValue(toTime.t, value)]
    else [SetDefault(value)]
  }

  function CallValue<V>(call: Call<V>): V
  {
    match call
    case SetDefault(v) => v
    case SetFromValue(_, v) => v
    case SetToValue(_, v) => v
    case SetBetweenValue(_, _, v) => v
  }

  /**
   * Every generation hands the bound value to the timeline unchanged, and
   * only its two-bound case of src/environment.js makes a second call.
   */
  lemma EdgesStoreTheValue<V>(value: V, fromTime: Time, toTime: Time)
    ensures forall c :: c in TruthyEdges(value, fromTime, toTime) ==> CallValue(c) == value
    ensures forall c :: c in PresentEdges(value, fromTime, toTime) ==> CallValue(c) == value
    ensures forall c :: c in BetweenEdges(value, fromTime, toTime) ==> CallValue(c) == value
    ensures |TruthyEdges(value, fromTime, toTime)| == (if Truthy(fromTime) && Truthy(toTime) then 2 else 1)
    ensures |BetweenEdges(value, fromTime, toTime)| == 1
  {
  }

  /** The truthiness and `!= null` generations agree unless a bound is the number 0. */
  lemma TruthyAgreesWithPresentAwayFromZero<V>(value: V, fromTime: Time, toTime: Time)
    requires fromTime != At(0.0) && toTime != At(0.0)
    ensures TruthyEdges(value, fromTime, toTime) == PresentEdges(value, fromTime, toTime)
  {
  }

  /** A from-bound of 0 is dropped by truthiness and kept by `!= null`. */
  lemma ZeroBoundDiffers<V>(value: V)
    ensures TruthyEdges(value, At(0.0), Unset) == [SetDefault(value)]
    ensures PresentEdges(value, At(0.0), Unset) == [SetFromValue(0.0, value)]
    ensures TruthyEdges(value, At(0.0), At(2.0)) == [SetToValue(2.0, value)]
    ensures PresentEdges(value, At(0.0), At(2.0)) == [SetFromValue(0.0, value), SetToValue(2.0, value)]
  {
  }

  /** builtins.js differs from types.js only when both bounds are given. */
  lemma BetweenDiffersOnlyWithBothBounds<V>(value: V, fromTime: Time, toTime: Time)
    ensures BetweenEdges(value, fromTime, toTime) == PresentEdges(value, fromTime, toTime)
            <==> !(Present(fromTime) && Present(toTime))
  {
  }
}
