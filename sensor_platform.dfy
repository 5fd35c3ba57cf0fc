/**
 * The motion-sensor library as the core sees it: a place to set each sensor's
 * update interval, and subscriptions that can be cancelled. The library itself
 * is outside the model; this module only records what the core asks of it.
 */
module SensorPlatform {
  import opened Wrappers

  datatype SensorKind = Accelerometer | Gyroscope | Magnetometer

  /** A reading as the library delivers it: three axes and the library's own timestamp. */
  datatype RawReading = RawReading(x: real, y: real, z: real, timestamp: int)

  /** A bare 3-axis sample `{x, y, z}`. */
  datatype Axes = Axes(x: real, y: real, z: real)

  const ZeroAxes: Axes := Axes(0.0, 0.0, 0.0)

  /** What the core asked the library to do, in order. */
  datatype Action =
    | SetUpdateInterval(kind: SensorKind, ms: nat)
    | Subscribe(kind: SensorKind)

  /** The update interval in force for `kind` after `log`: the latest one set, if any. */
  function IntervalIn(log: seq<Action>, kind: SensorKind): (r: Option<nat>)
    ensures r.Some? ==> SetUpdateInterval(kind, r.value) in log
    ensures r.None? ==> forall ms: nat :: SetUpdateInterval(kind, ms) !in log
  {
    if log == [] then None
    else
      var last := log[|log| - 1];
      if last.SetUpdateInterval? && last.kind == kind then Some(last.ms)
      else IntervalIn(log[..|log| - 1], kind)
  }

  /** Actions that do not touch the update interval of `kind`. */
  predicate LeavesInterval(rest: seq<Action>, kind: SensorKind) {
    forall i :: 0 <= i < |rest| ==> !(rest[i].SetUpdateInterval? && rest[i].kind == kind)
  }

  /** Setting an interval decides it until the next setting for the same sensor. */
  lemma {:induction false} IntervalAfterSet(log: seq<Action>, kind: SensorKind, ms: nat, rest: seq<Action>)
    requires LeavesInterval(rest, kind)
    ensures IntervalIn(log + [SetUpdateInterval(kind, ms)] + rest, kind) == Some(ms)
  {
    var whole := log + [SetUpdateInterval(kind, ms)] + rest;
    if rest == [] {
    } else {
      var shorter := rest[..|rest| - 1];
      assert whole[..|whole| - 1] == log + [SetUpdateInterval(kind, ms)] + shorter;
      assert !(rest[|rest| - 1].SetUpdateInterval? && rest[|rest| - 1].kind == kind);
      IntervalAfterSet(log, kind, ms, shorter);
    }
  }

  /** Appending actions that do not touch `kind` keeps its interval. */
  lemma {:induction false} IntervalUntouched(log: seq<Action>, kind: SensorKind, rest: seq<Action>)
    requires LeavesInterval(rest, kind)
    ensures IntervalIn(log + rest, kind) == IntervalIn(log, kind)
  {
    if rest == [] {
      assert log + rest == log;
    } else {
      var shorter := rest[..|rest| - 1];
      assert (log + rest)[..|log + rest| - 1] == log + shorter;
      assert !(rest[|rest| - 1].SetUpdateInterval? && rest[|rest| - 1].kind == kind);
      IntervalUntouched(log, kind, shorter);
    }
  }

  /** The library's global configuration and subscription entry points. */
  class Platform {
    var log: seq<Action>

    constructor ()
      ensures log == []
    {
      log := [];
    }

    method SetUpdateIntervalForType(kind: SensorKind, ms: nat)
      modifies this
      ensures log == old(log) + [SetUpdateInterval(kind, ms)]
    {
      log := log + [SetUpdateInterval(kind, ms)];
    }

    /** Subscribes to the stream of `kind`; the caller's reading handler is attached to the result. */
    method SubscribeTo(kind: SensorKind) returns (s: Subscription)
      modifies this
      ensures fresh(s)
      ensures s.kind == kind && s.subscribed && s.unsubscribeCalls == 0
      ensures log == old(log) + [Subscribe(kind)]
    {
      s := new Subscription(kind);
      log := log + [Subscribe(kind)];
    }
  }

  /**
   * One live subscription to one sensor stream. Its `unsubscribe` may throw;
   * `fail` stands for that, and then the subscription stays as it was.
   */
  class Subscription {
    const kind: SensorKind
    var subscribed: bool
    var unsubscribeCalls: nat

    constructor (kind: SensorKind)
      ensures this.kind == kind && subscribed && unsubscribeCalls == 0
    {
      this.kind := kind;
      subscribed := true;
      unsubscribeCalls := 0;
    }

    method Unsubscribe(fail: bool) returns (threw: bool)
      modifies this
      ensures threw == fail
      ensures unsubscribeCalls == old(unsubscribeCalls) + 1
      ensures subscribed == (old(subscribed) && fail)
    {
      unsubscribeCalls := unsubscribeCalls + 1;
      threw := fail;
      if !fail {
        subscribed := false;
      }
    }
  }
}
