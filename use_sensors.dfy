/**
 * The `useSensors` hook: while `active`, the three motion streams are
 * configured and subscribed to the screen's three callbacks; the effect's
 * cleanup unsubscribes each one in its own guard. The effect depends on
 * `active` only, so new callbacks alone never re-subscribe.
 */
module UseSensors {
  import opened Wrappers
  import opened SensorPlatform

  /** The three subscriptions a run of the effect holds until its cleanup. */
  datatype Subscriptions = Subscriptions(acc: Subscription, gyro: Subscription, mag: Subscription)

  /** The actions one activation asks of the library, in order. */
  const ActivationActions: seq<Action> := [
    SetUpdateInterval(Accelerometer, 100),
    SetUpdateInterval(Gyroscope, 100),
    SetUpdateInterval(Magnetometer, 200),
    Subscribe(Accelerometer),
    Subscribe(Gyroscope),
    Subscribe(Magnetometer)
  ]

  /** After an activation the intervals are 100 ms, 100 ms and 200 ms, whatever was set before. */
  lemma ActivationIntervals(log: seq<Action>)
    ensures IntervalIn(log + ActivationActions, Accelerometer) == Some(100)
    ensures IntervalIn(log + ActivationActions, Gyroscope) == Some(100)
    ensures IntervalIn(log + ActivationActions, Magnetometer) == Some(200)
  {
    var a := ActivationActions;
    IntervalAfterSet(log, Accelerometer, 100, a[1..]);
    assert log + [a[0]] + a[1..] == log + a;
    IntervalAfterSet(log + a[..1], Gyroscope, 100, a[2..]);
    assert log + a[..1] + [a[1]] + a[2..] == log + a;
    IntervalAfterSet(log + a[..2], Magnetometer, 200, a[3..]);
    assert log + a[..2] + [a[2]] + a[3..] == log + a;
  }

  /**
   * The hook's effect for one mounted screen. `subs` is the cleanup React
   * holds for the latest run of the effect (None when that run returned none).
   * `errorLog` stands for the console: each stream's error handler only logs.
   */
  class SensorsEffect {
    var active: bool
    var subs: Option<Subscriptions>
    var errorLog: seq<SensorKind>

    ghost predicate Valid()
      reads this
    {
      subs.Some? ==>
        && subs.value.acc.kind == Accelerometer
        && subs.value.gyro.kind == Gyroscope
        && subs.value.mag.kind == Magnetometer
    }

    /** The subscription objects the pending cleanup touches. */
    function Held(): set<Subscription>
      reads this
    {
      if subs.Some? then {subs.value.acc, subs.value.gyro, subs.value.mag} else {}
    }

    /** First render: the effect runs once with the initial `active`. */
    constructor Mount(active: bool, platform: Platform)
      modifies platform
      ensures Valid() && this.active == active && errorLog == []
      ensures !active ==> subs.None? && platform.log == old(platform.log)
      ensures active ==> subs.Some? && platform.log == old(platform.log) + ActivationActions
      ensures active ==> fresh(Held())
      ensures active ==> subs.value.acc != subs.value.gyro && subs.value.gyro != subs.value.mag && subs.value.acc != subs.value.mag
      ensures active ==> forall s :: s in Held() ==> s.subscribed && s.unsubscribeCalls == 0
    {
      this.active := active;
      subs := None;
      errorLog := [];
      new;
      Run(platform);
    }

    /**
     * One run of the effect body. When inactive it does nothing and leaves no
     * cleanup; otherwise it sets the three intervals, then subscribes each
     * stream once.
     */
    method Run(platform: Platform)
      requires subs.None?
      modifies this, platform
      ensures Valid() && active == old(active) && errorLog == old(errorLog)
      ensures !active ==> subs.None? && platform.log == old(platform.log)
      ensures active ==> platform.log == old(platform.log) + ActivationActions
      ensures active ==> IntervalIn(platform.log, Accelerometer) == Some(100)
      ensures active ==> IntervalIn(platform.log, Gyroscope) == Some(100)
      ensures active ==> IntervalIn(platform.log, Magnetometer) == Some(200)
      ensures active ==> subs.Some? && fresh(Held())
      ensures active ==> subs.value.acc != subs.value.gyro && subs.value.gyro != subs.value.mag && subs.value.acc != subs.value.mag
      ensures active ==> forall s :: s in Held() ==> s.subscribed && s.unsubscribeCalls == 0
    {
      if !active {
        return;
      }
      ghost var log0 := platform.log;
      platform.SetUpdateIntervalForType(Accelerometer, 100);
      platform.SetUpdateIntervalForType(Gyroscope, 100);
      platform.SetUpdateIntervalForType(Magnetometer, 200);
      var accSub := platform.SubscribeTo(Accelerometer);
      var gyroSub := platform.SubscribeTo(Gyroscope);
      var magSub := platform.SubscribeTo(Magnetometer);
      subs := Some(Subscriptions(accSub, gyroSub, magSub));
      assert platform.log == log0 + ActivationActions;
      ActivationIntervals(log0);
    }

    /**
     * The cleanup the effect returned, if any: each unsubscribe sits in its own
     * try/catch, so all three are attempted, a failure in one leaves the others
     * unaffected, and the cleanup itself never throws.
     */
    method Cleanup(failAcc: bool, failGyro: bool, failMag: bool)
      requires Valid()
      modifies this, Held()
      ensures Valid() && subs.None? && active == old(active) && errorLog == old(errorLog)
      ensures old(subs).Some? ==> var s := old(subs).value;
        && s.acc.unsubscribeCalls == old(s.acc.unsubscribeCalls) + 1
        && s.gyro.unsubscribeCalls == old(s.gyro.unsubscribeCalls) + 1
        && s.mag.unsubscribeCalls == old(s.mag.unsubscribeCalls) + 1
        && s.acc.subscribed == (old(s.acc.subscribed) && failAcc)
        && s.gyro.subscribed == (old(s.gyro.subscribed) && failGyro)
        && s.mag.subscribed == (old(s.mag.subscribed) && failMag)
    {
      if subs.None? {
        return;
      }
      var s := subs.value;
      var _ := s.acc.Unsubscribe(failAcc);
      var _ := s.gyro.Unsubscribe(failGyro);
      var _ := s.mag.Unsubscribe(failMag);
      subs := None;
    }

    /**
     * A re-render with `newActive`. Only a change of `active` re-runs the
     * effect: the previous cleanup runs first, then the effect body.
     */
    method Update(newActive: bool, platform: Platform, failAcc: bool, failGyro: bool, failMag: bool)
      requires Valid()
      modifies this, Held(), platform
      ensures Valid() && active == newActive && errorLog == old(errorLog)
      ensures newActive == old(active) ==> subs == old(subs) && platform.log == old(platform.log)
      ensures newActive == old(active) ==> forall s :: s in old(Held()) ==> unchanged(s)
      ensures newActive != old(active) && old(subs).Some? ==> var s := old(subs).value;
        && s.acc.unsubscribeCalls == old(s.acc.unsubscribeCalls) + 1
        && s.gyro.unsubscribeCalls == old(s.gyro.unsubscribeCalls) + 1
        && s.mag.unsubscribeCalls == old(s.mag.unsubscribeCalls) + 1
        && s.acc.subscribed == (old(s.acc.subscribed) && failAcc)
        && s.gyro.subscribed == (old(s.gyro.subscribed) && failGyro)
        && s.mag.subscribed == (old(s.mag.subscribed) && failMag)
      ensures newActive != old(active) && newActive ==> subs.Some? && fresh(Held())
      ensures newActive != old(active) && newActive ==>
        subs.value.acc != subs.value.gyro && subs.value.gyro != subs.value.mag && subs.value.acc != subs.value.mag
      ensures newActive != old(active) && newActive ==> forall s :: s in Held() ==> s.subscribed && s.unsubscribeCalls == 0
      ensures newActive != old(active) && newActive ==> platform.log == old(platform.log) + ActivationActions
      ensures newActive != old(active) && !newActive ==> subs.None? && platform.log == old(platform.log)
    {
      if newActive == active {
        return;
      }
      Cleanup(failAcc, failGyro, failMag);
      active := newActive;
      Run(platform);
    }

    /** Unmounting runs the pending cleanup, whatever state the screen is in. */
    method Unmount(failAcc: bool, failGyro: bool, failMag: bool)
      requires Valid()
      modifies this, Held()
      ensures Valid() && subs.None? && active == old(active) && errorLog == old(errorLog)
      ensures old(subs).Some? ==> var s := old(subs).value;
        && s.acc.unsubscribeCalls == old(s.acc.unsubscribeCalls) + 1
        && s.gyro.unsubscribeCalls == old(s.gyro.unsubscribeCalls) + 1
        && s.mag.unsubscribeCalls == old(s.mag.unsubscribeCalls) + 1
        && s.acc.subscribed == (old(s.acc.subscribed) && failAcc)
        && s.gyro.subscribed == (old(s.gyro.subscribed) && failGyro)
        && s.mag.subscribed == (old(s.mag.subscribed) && failMag)
    {
      Cleanup(failAcc, failGyro, failMag);
    }

    /** A stream's error handler: it logs, and touches no subscription. */
    method OnStreamError(kind: SensorKind)
      modifies this
      ensures errorLog == old(errorLog) + [kind]
      ensures active == old(active) && subs == old(subs)
    {
      errorLog := errorLog + [kind];
    }
  }
}
