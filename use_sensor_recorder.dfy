/**
 * The `useSensorRecorder` hook. While recording, each accelerometer reading
 * appends a fresh row `{timestamp, acc_x, acc_y, acc_z}` at once and keeps it
 * as `latestRow`; a gyroscope reading writes `gyro_x/y/z` into that same
 * object, so it updates the last appended row in place, and is dropped when
 * no accelerometer reading has arrived since this activation. `data` is never
 * cleared.
 */
module SensorRecorder {
  import opened Wrappers
  import opened SensorPlatform
  import SensorService

  /** A recorded row; `gyro` is None while the row has no `gyro_*` fields at all. */
  datatype Row = Row(timestamp: int, acc: Axes, gyro: Option<Axes>)

  /** The hook's state: the rows, and the index of `latestRow` in them (None for `{}`). */
  datatype RecState = RecState(data: seq<Row>, open: Option<nat>)

  /** One sensor callback invocation; `now` stands for `Date.now()`. */
  datatype RecEvent = AccelReading(sample: Axes, now: int) | GyroReading(sample: Axes)

  /** `latestRow`, when set, is the row appended last. */
  predicate WellFormed(s: RecState) {
    s.open.Some? ==> s.open.value + 1 == |s.data|
  }

  /** A new activation: `latestRow` starts as `{}`, the rows stay. */
  function Activate(s: RecState): (t: RecState)
    ensures WellFormed(t) && t.data == s.data && t.open.None?
  {
    RecState(s.data, None)
  }

  /** One callback applied to the state. */
  function Step(s: RecState, e: RecEvent): (t: RecState)
    requires WellFormed(s)
    ensures WellFormed(t)
    ensures e.AccelReading? ==> t.data == s.data + [Row(e.now, e.sample, None)] && t.open == Some(|s.data|)
    ensures e.GyroReading? && s.open.None? ==> t == s
    ensures e.GyroReading? && s.open.Some? ==>
      && t.open == s.open
      && |t.data| == |s.data|
      && t.data[..|s.data| - 1] == s.data[..|s.data| - 1]
      && t.data[|s.data| - 1] == s.data[|s.data| - 1].(gyro := Some(e.sample))
  {
    match e
    case AccelReading(sample, now) =>
      RecState(s.data + [Row(now, sample, None)], Some(|s.data|))
    case GyroReading(sample) =>
      if s.open.None? then s
      else
        var i := s.open.value;
        RecState(s.data[i := s.data[i].(gyro := Some(sample))], s.open)
  }

  /** The callbacks of one activation, applied in arrival order. */
  function Replay(s: RecState, es: seq<RecEvent>): (t: RecState)
    requires WellFormed(s)
    ensures WellFormed(t)
    decreases |es|
  {
    if es == [] then s else Replay(Step(s, es[0]), es[1..])
  }

  /** The accelerometer readings among `es`, as the `(timestamp, acc)` of the rows they open. */
  function AccelStamps(es: seq<RecEvent>): seq<(int, Axes)> {
    if es == [] then []
    else (if es[0].AccelReading? then [(es[0].now, es[0].sample)] else []) + AccelStamps(es[1..])
  }

  /** The `(timestamp, acc)` part of each row: what no gyroscope reading can change. */
  function Stamps(rows: seq<Row>): (r: seq<(int, Axes)>)
    ensures |r| == |rows|
    ensures forall i :: 0 <= i < |rows| ==> r[i] == (rows[i].timestamp, rows[i].acc)
  {
    if rows == [] then [] else [(rows[0].timestamp, rows[0].acc)] + Stamps(rows[1..])
  }

  predicate GyroOnly(es: seq<RecEvent>) {
    forall i :: 0 <= i < |es| ==> es[i].GyroReading?
  }

  /** Replaying `a + b` is replaying `a`, then `b`. */
  lemma {:induction false} ReplayAppend(s: RecState, a: seq<RecEvent>, b: seq<RecEvent>)
    requires WellFormed(s)
    ensures Replay(s, a + b) == Replay(Replay(s, a), b)
    decreases |a|
  {
    if a == [] {
      assert a + b == b;
    } else {
      assert (a + b)[1..] == a[1..] + b;
      ReplayAppend(Step(s, a[0]), a[1..], b);
    }
  }

  /**
   * Rows are only ever appended, one per accelerometer reading and in arrival
   * order, and no reading changes an existing row's timestamp or acc values.
   */
  lemma {:induction false} ReplayStamps(s: RecState, es: seq<RecEvent>)
    requires WellFormed(s)
    ensures Stamps(Replay(s, es).data) == Stamps(s.data) + AccelStamps(es)
    decreases |es|
  {
    if es == [] {
      assert Stamps(s.data) + AccelStamps(es) == Stamps(s.data);
    } else {
      var t := Step(s, es[0]);
      ReplayStamps(t, es[1..]);
      StepStamps(s, es[0]);
      ConcatAssoc(Stamps(s.data), if es[0].AccelReading? then [(es[0].now, es[0].sample)] else [], AccelStamps(es[1..]));
    }
  }

  lemma ConcatAssoc<T>(a: seq<T>, b: seq<T>, c: seq<T>)
    ensures a + b + c == a + (b + c)
  {
  }

  /** One callback adds the `(timestamp, acc)` of an accelerometer reading and nothing else. */
  lemma StepStamps(s: RecState, e: RecEvent)
    requires WellFormed(s)
    ensures Stamps(Step(s, e).data) == Stamps(s.data) + (if e.AccelReading? then [(e.now, e.sample)] else [])
  {
  }

  /** Rows added equal accelerometer readings received. */
  lemma RowCount(s: RecState, es: seq<RecEvent>)
    requires WellFormed(s)
    ensures |Replay(s, es).data| == |s.data| + |AccelStamps(es)|
  {
    ReplayStamps(s, es);
  }

  /** A row that is not `latestRow` never changes again. */
  lemma {:induction false} ReplayKeepsClosedRows(s: RecState, es: seq<RecEvent>, i: nat)
    requires WellFormed(s) && i < |s.data| && s.open != Some(i)
    ensures i < |Replay(s, es).data| && Replay(s, es).data[i] == s.data[i]
    decreases |es|
  {
    if es != [] {
      ReplayKeepsClosedRows(Step(s, es[0]), es[1..], i);
    }
  }

  /** Gyroscope readings with no accelerometer reading yet in this activation are dropped. */
  lemma {:induction false} GyroBeforeAccelDropped(s: RecState, es: seq<RecEvent>)
    requires WellFormed(s) && s.open.None? && GyroOnly(es)
    ensures Replay(s, es) == s
    decreases |es|
  {
    if es != [] {
      GyroBeforeAccelDropped(Step(s, es[0]), es[1..]);
    }
  }

  /** Gyroscope readings after the row opened by `a` land on that row; the last one wins. */
  lemma {:induction false} LastGyroWins(s: RecState, a: RecEvent, gs: seq<RecEvent>)
    requires WellFormed(s) && a.AccelReading? && GyroOnly(gs)
    ensures var t := Replay(s, [a] + gs);
      && |t.data| == |s.data| + 1
      && t.open == Some(|s.data|)
      && t.data[..|s.data|] == s.data
      && t.data[|s.data|] == Row(a.now, a.sample, if gs == [] then None else Some(gs[|gs| - 1].sample))
    decreases |gs|
  {
    if gs == [] {
      assert [a] + gs == [a];
      assert Replay(s, [a]) == Step(s, a);
    } else {
      var init := gs[..|gs| - 1];
      assert [a] + gs == ([a] + init) + [gs[|gs| - 1]];
      ReplayAppend(s, [a] + init, [gs[|gs| - 1]]);
      LastGyroWins(s, a, init);
      var t0 := Replay(s, [a] + init);
      assert Replay(t0, [gs[|gs| - 1]]) == Step(t0, gs[|gs| - 1]);
    }
  }

  /**
   * A delivered accelerometer reading opens a row stamped with `now` and
   * carrying the reading's x, y, z; the library's own timestamp plays no part.
   */
  lemma {:induction false} AccelRowStamp(s: RecState, raw: RawReading, now: int)
    requires WellFormed(s)
    ensures var t := Step(s, AccelReading(SensorService.Project(raw), now));
      && |t.data| == |s.data| + 1
      && t.data[|s.data|] == Row(now, Axes(raw.x, raw.y, raw.z), None)
    ensures forall ts: int ::
      Step(s, AccelReading(SensorService.Project(raw.(timestamp := ts)), now))
        == Step(s, AccelReading(SensorService.Project(raw), now))
  {
    forall ts: int
      ensures Step(s, AccelReading(SensorService.Project(raw.(timestamp := ts)), now))
        == Step(s, AccelReading(SensorService.Project(raw), now))
    {
      SensorService.ProjectDropsTimestamp(raw, ts);
    }
  }

  /**
   * The hook instance. `data`, `open` mirror `RecState`; `listeners` is the
   * stop handle of the current activation's listeners.
   */
  class Recorder {
    var data: seq<Row>
    var open: Option<nat>
    var isRecording: bool
    var listeners: SensorService.SensorListeners?

    function State(): RecState
      reads this
    {
      RecState(data, open)
    }

    ghost predicate Valid()
      reads this
    {
      && WellFormed(State())
      && (listeners != null ==> listeners.Valid())
      && (isRecording ==> listeners != null)
    }

    /** The subscriptions the pending cleanup would stop. */
    function Held(): set<Subscription>
      reads this
    {
      if listeners == null then {} else {listeners.accSub, listeners.gyroSub}
    }

    /** A fresh hook instance before its first activation: `useState([])`. */
    constructor ()
      ensures Valid() && data == [] && open.None? && !isRecording && listeners == null
    {
      data, open, isRecording, listeners := [], None, false, null;
    }

    /**
     * The accelerometer callback, fed through the service's projection: a new
     * row, appended at once and kept as `latestRow`.
     */
    method OnAccelerometer(raw: RawReading, now: int)
      requires Valid()
      modifies this
      ensures Valid() && State() == Step(old(State()), AccelReading(SensorService.Project(raw), now))
      ensures isRecording == old(isRecording) && listeners == old(listeners)
    {
      var accData := SensorService.Project(raw);
      data := data + [Row(now, accData, None)];
      open := Some(|data| - 1);
    }

    /** The gyroscope callback, fed through the projection: dropped without `latestRow`, else written into it. */
    method OnGyroscope(raw: RawReading)
      requires Valid()
      modifies this
      ensures Valid() && State() == Step(old(State()), GyroReading(SensorService.Project(raw)))
      ensures isRecording == old(isRecording) && listeners == old(listeners)
    {
      if open.None? {
        return;
      }
      var gyroData := SensorService.Project(raw);
      var i := open.value;
      data := data[i := data[i].(gyro := Some(gyroData))];
    }

    /**
     * A render with `recording`. The effect re-runs only when it changes.
     * Turning on resets `latestRow` and starts the listeners; turning off runs
     * the cleanup, which calls the listeners' stop function and lets its
     * exception (`threw`) escape. `data` is untouched either way.
     */
    method SetRecording(recording: bool, platform: Platform, failAcc: bool, failGyro: bool) returns (threw: bool)
      requires Valid()
      modifies this, platform, Held()
      ensures Valid() && isRecording == recording && data == old(data)
      ensures recording == old(isRecording) ==> State() == old(State()) && !threw
      ensures recording == old(isRecording) ==> platform.log == old(platform.log) && listeners == old(listeners)
      ensures recording && !old(isRecording) ==> State() == Activate(old(State())) && !threw
      ensures recording && !old(isRecording) ==> fresh(listeners) && platform.log == old(platform.log) + SensorService.StartActions
      ensures recording && !old(isRecording) ==> fresh(Held())
      ensures recording && !old(isRecording) ==> listeners.accSub.subscribed && listeners.gyroSub.subscribed
      ensures !recording && old(isRecording) ==> State() == old(State()) && listeners == null
      ensures !recording && old(isRecording) ==> threw == (failAcc || failGyro)
      ensures !recording && old(isRecording) ==> var l := old(listeners);
        && l.accSub.unsubscribeCalls == old(l.accSub.unsubscribeCalls) + 1
        && l.accSub.subscribed == (old(l.accSub.subscribed) && failAcc)
        && (failAcc ==> l.gyroSub.subscribed == old(l.gyroSub.subscribed))
        && (!failAcc ==> l.gyroSub.subscribed == (old(l.gyroSub.subscribed) && failGyro))
    {
      threw := false;
      if recording == isRecording {
        return;
      }
      if recording {
        open := None;
        listeners := new SensorService.SensorListeners.Start(platform);
      } else {
        threw := listeners.Stop(failAcc, failGyro);
        listeners := null;
      }
      isRecording := recording;
    }
  }
}
