/**
 * `startSensorListeners`: sets the accelerometer and gyroscope update
 * intervals, subscribes both streams through an `{x, y, z}` projection, and
 * hands back a stop function that unsubscribes them one after the other.
 */
module SensorService {
  import opened Wrappers
  import opened SensorPlatform

  /** The projection applied to every delivered reading: keep `x`, `y`, `z`, drop the rest. */
  function Project(r: RawReading): (a: Axes)
    ensures a.x == r.x && a.y == r.y && a.z == r.z
  {
    Axes(r.x, r.y, r.z)
  }

  /** The library's own timestamp never survives the projection. */
  lemma ProjectDropsTimestamp(r: RawReading, t: int)
    ensures Project(r.(timestamp := t)) == Project(r)
  {
  }

  /** The actions `Start` asks of the library, in order. */
  const StartActions: seq<Action> := [
    SetUpdateInterval(Accelerometer, 100),
    SetUpdateInterval(Gyroscope, 100),
    Subscribe(Accelerometer),
    Subscribe(Gyroscope)
  ]

  /**
   * The listeners one call of `startSensorListeners` sets up; `Stop` is the
   * function it returns. Accelerometer readings go to `onAccelerometer` through
   * `accSub`, gyroscope readings to `onGyroscope` through `gyroSub`; no
   * magnetometer stream is opened.
   */
  class SensorListeners {
    const accSub: Subscription
    const gyroSub: Subscription

    ghost predicate Valid() {
      accSub != gyroSub && accSub.kind == Accelerometer && gyroSub.kind == Gyroscope
    }

    constructor Start(platform: Platform)
      modifies platform
      ensures Valid()
      ensures platform.log == old(platform.log) + StartActions
      ensures IntervalIn(platform.log, Accelerometer) == Some(100)
      ensures IntervalIn(platform.log, Gyroscope) == Some(100)
      ensures IntervalIn(platform.log, Magnetometer) == IntervalIn(old(platform.log), Magnetometer)
      ensures fresh(accSub) && fresh(gyroSub)
      ensures accSub.subscribed && accSub.unsubscribeCalls == 0
      ensures gyroSub.subscribed && gyroSub.unsubscribeCalls == 0
    {
      ghost var log0 := platform.log;
      platform.SetUpdateIntervalForType(Accelerometer, 100);
      platform.SetUpdateIntervalForType(Gyroscope, 100);
      var acc := platform.SubscribeTo(Accelerometer);
      var gyro := platform.SubscribeTo(Gyroscope);
      accSub, gyroSub := acc, gyro;
      new;
      assert platform.log == log0 + StartActions;
      IntervalAfterSet(log0, Accelerometer, 100, StartActions[1..]);
      assert log0 + [StartActions[0]] + StartActions[1..] == platform.log;
      IntervalAfterSet(log0 + [StartActions[0]], Gyroscope, 100, StartActions[2..]);
      assert log0 + [StartActions[0]] + [StartActions[1]] + StartActions[2..] == platform.log;
      IntervalUntouched(log0, Magnetometer, StartActions);
    }

    /**
     * The returned stop function: unsubscribe the accelerometer, then the
     * gyroscope, with no guard between them. If the first throws, the
     * exception leaves the function and the gyroscope is never unsubscribed.
     */
    method Stop(failAcc: bool, failGyro: bool) returns (threw: bool)
      requires Valid()
      modifies accSub, gyroSub
      ensures threw == (failAcc || failGyro)
      ensures accSub.unsubscribeCalls == old(accSub.unsubscribeCalls) + 1
      ensures accSub.subscribed == (old(accSub.subscribed) && failAcc)
      ensures failAcc ==> gyroSub.subscribed == old(gyroSub.subscribed)
      ensures failAcc ==> gyroSub.unsubscribeCalls == old(gyroSub.unsubscribeCalls)
      ensures !failAcc ==> gyroSub.unsubscribeCalls == old(gyroSub.unsubscribeCalls) + 1
      ensures !failAcc ==> gyroSub.subscribed == (old(gyroSub.subscribed) && failGyro)
    {
      threw := accSub.Unsubscribe(failAcc);
      if threw {
        return;
      }
      threw := gyroSub.Unsubscribe(failGyro);
    }
  }
}
