/**
 * The trip screen: a recording session over `tripActive`, `sensorData`,
 * `score`, `events` and `loading`. While a trip is active every sensor
 * callback appends a tagged reading; stopping drains the buffer into a payload
 * with one zero-padded entry per reading and submits it for scoring.
 */
module TripScreen {
  import opened Wrappers
  import opened SensorPlatform
  import TripService
  import SensorService

  /** A buffered reading `{...sample, type}`: the delivered reading tagged with its sensor. */
  datatype Reading = Reading(sample: RawReading, kind: SensorKind)

  /** One payload entry, the nine keys `acc_x` … `mag_z` of the request body. */
  datatype PayloadEntry = PayloadEntry(
    accX: real, accY: real, accZ: real,
    gyroX: real, gyroY: real, gyroZ: real,
    magX: real, magY: real, magZ: real)
  {
    /** The three keys of one sensor's axis group. */
    function Group(kind: SensorKind): Axes {
      match kind
      case Accelerometer => Axes(accX, accY, accZ)
      case Gyroscope => Axes(gyroX, gyroY, gyroZ)
      case Magnetometer => Axes(magX, magY, magZ)
    }
  }

  /** The request body `{sensors: [...]}`. */
  datatype TripPayload = TripPayload(sensors: seq<PayloadEntry>)

  /** The entry for one reading: each key copies the axis when the tag matches, else 0. */
  function EntryFor(r: Reading): (e: PayloadEntry)
    ensures e.Group(r.kind) == SensorService.Project(r.sample)
    ensures forall k: SensorKind :: k != r.kind ==> e.Group(k) == ZeroAxes
  {
    var s := r.sample;
    PayloadEntry(
      if r.kind == Accelerometer then s.x else 0.0,
      if r.kind == Accelerometer then s.y else 0.0,
      if r.kind == Accelerometer then s.z else 0.0,
      if r.kind == Gyroscope then s.x else 0.0,
      if r.kind == Gyroscope then s.y else 0.0,
      if r.kind == Gyroscope then s.z else 0.0,
      if r.kind == Magnetometer then s.x else 0.0,
      if r.kind == Magnetometer then s.y else 0.0,
      if r.kind == Magnetometer then s.z else 0.0)
  }

  /**
   * `buildTripData`: one entry per buffered reading, in buffer order, each
   * carrying only its own reading's axes; no readings are combined.
   */
  function BuildTripData(buffer: seq<Reading>): (p: TripPayload)
    ensures |p.sensors| == |buffer|
    ensures buffer == [] ==> p == TripPayload([])
    ensures forall i :: 0 <= i < |buffer| ==>
      && p.sensors[i].Group(buffer[i].kind) == SensorService.Project(buffer[i].sample)
      && forall k: SensorKind :: k != buffer[i].kind ==> p.sensors[i].Group(k) == ZeroAxes
  {
    if buffer == [] then TripPayload([])
    else TripPayload([EntryFor(buffer[0])] + BuildTripData(buffer[1..]).sensors)
  }

  /** Building is entry-wise, so the payload of `a + b` is that of `a` followed by that of `b`. */
  lemma {:induction false} BuildAppend(a: seq<Reading>, b: seq<Reading>)
    ensures BuildTripData(a + b).sensors == BuildTripData(a).sensors + BuildTripData(b).sensors
    decreases |a|
  {
    if a == [] {
      assert a + b == b;
    } else {
      assert (a + b)[1..] == a[1..] + b;
      BuildAppend(a[1..], b);
    }
  }

  datatype Feedback = Excellent | GoodJob | RoomForImprovement

  /** The line shown under a score. */
  function FeedbackFor(score: real): (f: Feedback)
    ensures f == Excellent <==> score >= 80.0
    ensures f == GoodJob <==> 60.0 <= score < 80.0
    ensures f == RoomForImprovement <==> score < 60.0
  {
    if score >= 80.0 then Excellent
    else if score >= 60.0 then GoodJob
    else RoomForImprovement
  }

  /** The `data` of a scoring response; `score` and `events` may be null or missing. */
  datatype ResponseData = ResponseData(score: Option<real>, events: Option<seq<string>>)

  /** How the awaited submission ends: a response whose `data` may be falsy, or a thrown error. */
  datatype Outcome = Responded(data: Option<ResponseData>) | Threw

  const UnexpectedResponse: string := "Server returned unexpected response"
  const SendFailed: string := "Failed to send trip to server"

  /** The screen's state. `alerts` stands for the alert dialogs shown. */
  class TripSession {
    var tripActive: bool
    var sensorData: seq<Reading>
    var score: Option<real>
    var events: seq<string>
    var loading: bool
    var alerts: seq<string>

    constructor ()
      ensures !tripActive && sensorData == [] && score.None? && events == [] && !loading && alerts == []
    {
      tripActive, sensorData, score, events, loading, alerts := false, [], None, [], false, [];
    }

    /** The Start button is enabled only when no trip is active; `loading` does not block it. */
    predicate StartEnabled()
      reads this
    {
      !tripActive
    }

    /** The Stop button is enabled only when a trip is active and no submission is in flight. */
    predicate StopEnabled()
      reads this
    {
      tripActive && !loading
    }

    /** The `onAccel`, `onGyro` and `onMag` callbacks: append a tagged reading only while a trip is active. */
    method OnReading(kind: SensorKind, sample: RawReading)
      modifies this
      ensures sensorData == if old(tripActive) then old(sensorData) + [Reading(sample, kind)] else old(sensorData)
      ensures old(sensorData) <= sensorData
      ensures tripActive == old(tripActive) && score == old(score) && events == old(events)
      ensures loading == old(loading) && alerts == old(alerts)
    {
      if tripActive {
        sensorData := sensorData + [Reading(sample, kind)];
      }
    }

    /** `startTrip`: empty the buffer, clear the result, go active. */
    method Start()
      modifies this
      ensures tripActive && sensorData == [] && score.None? && events == []
      ensures loading == old(loading) && alerts == old(alerts)
    {
      sensorData := [];
      score := None;
      events := [];
      tripActive := true;
    }

    /**
     * `stopTrip` up to its await: go inactive and loading, take a copy of the
     * buffer and clear it, build the payload from the copy and issue the
     * request. What the request carries is fixed here, before any later
     * callback or start can touch the buffer.
     */
    method Stop(token: Option<string>) returns (req: TripService.Request<TripPayload>)
      modifies this
      ensures !tripActive && loading && sensorData == []
      ensures req == TripService.SendTripData(BuildTripData(old(sensorData)), token)
      ensures |req.body.sensors| == |old(sensorData)|
      ensures score == old(score) && events == old(events) && alerts == old(alerts)
    {
      tripActive := false;
      loading := true;
      var copy := sensorData;
      sensorData := [];
      var tripData := BuildTripData(copy);
      req := TripService.SendTripData(tripData, token);
    }

    /**
     * `stopTrip` after its await. With truthy `data`, score and events are set,
     * defaulting only null or missing fields; otherwise they are left as they
     * were and an alert is shown. `loading` ends false in every case.
     */
    method Settle(outcome: Outcome)
      modifies this
      ensures !loading
      ensures tripActive == old(tripActive) && sensorData == old(sensorData)
      ensures outcome.Responded? && outcome.data.Some? ==>
        && score == Some(outcome.data.value.score.GetOr(0.0))
        && events == outcome.data.value.events.GetOr([])
        && alerts == old(alerts)
      ensures outcome.Responded? && outcome.data.None? ==>
        score == old(score) && events == old(events) && alerts == old(alerts) + [UnexpectedResponse]
      ensures outcome.Threw? ==>
        score == old(score) && events == old(events) && alerts == old(alerts) + [SendFailed]
    {
      match outcome {
        case Responded(data) =>
          if data.Some? {
            score := Some(data.value.score.GetOr(0.0));
            events := data.value.events.GetOr([]);
          } else {
            alerts := alerts + [UnexpectedResponse];
          }
        case Threw =>
          alerts := alerts + [SendFailed];
      }
      loading := false;
    }

    /** A press on Start, which does nothing while the button is disabled. */
    method PressStart()
      modifies this
      ensures old(StartEnabled()) ==> tripActive && sensorData == [] && score.None? && events == []
      ensures !old(StartEnabled()) ==> tripActive == old(tripActive) && sensorData == old(sensorData)
      ensures !old(StartEnabled()) ==> score == old(score) && events == old(events)
      ensures loading == old(loading) && alerts == old(alerts)
    {
      if StartEnabled() {
        Start();
      }
    }

    /** A press on Stop, which issues a request only while the button is enabled. */
    method PressStop(token: Option<string>) returns (req: Option<TripService.Request<TripPayload>>)
      modifies this
      ensures req.Some? <==> old(StopEnabled())
      ensures req.Some? ==> req.value == TripService.SendTripData(BuildTripData(old(sensorData)), token)
      ensures req.Some? ==> !tripActive && loading && sensorData == []
      ensures req.None? ==> tripActive == old(tripActive) && sensorData == old(sensorData) && loading == old(loading)
      ensures score == old(score) && events == old(events) && alerts == old(alerts)
    {
      if StopEnabled() {
        var r := Stop(token);
        req := Some(r);
      } else {
        req := None;
      }
    }
  }
}
