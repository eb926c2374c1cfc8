/** The lease watchdog: timers guarded by an epoch, under callbacks that fire late, even after
    their timer was stopped. */
module Watchdog {
  import opened Durations

  /** A callback armed by one `schedule` call, with the epoch it captured. */
  datatype Callback = Callback(fatal: bool, epoch: nat, armedAt: int, lease: int, delay: int)

  /** `calls` counts the schedule and stop calls that changed the epoch. */
  datatype Dog = Dog(fatalOnLeaseTimeout: bool, now: int, epoch: nat, stopped: bool, calls: nat,
                     armed: seq<Callback>, latest: seq<Callback>)

  datatype Event = Schedule(lease: int) | Stop | Tick(d: nat)

  /** `2*lease` in Go's arithmetic. */
  function FatalDelay(lease: int): int {
    Wrap64(2 * lease)
  }

  function NewDog(fatalOnLeaseTimeout: bool, now: int): Dog {
    Dog(fatalOnLeaseTimeout, now, 0, false, 0, [], [])
  }

  function NextEpoch(epoch: nat): nat {
    (epoch + 1) % TWO64
  }

  function Armed(fatalOnLeaseTimeout: bool, epoch: nat, now: int, lease: int): seq<Callback> {
    [Callback(false, epoch, now, lease, lease)]
    + (if fatalOnLeaseTimeout then [Callback(true, epoch, now, lease, FatalDelay(lease))] else [])
  }

  function Do(d: Dog, e: Event): Dog {
    match e
    case Tick(t) => d.(now := d.now + t)
    case Stop => d.(stopped := true, epoch := NextEpoch(d.epoch), calls := d.calls + 1, latest := [])
    case Schedule(lease) =>
      if lease <= 0 || d.stopped then d
      else
        var cbs := Armed(d.fatalOnLeaseTimeout, NextEpoch(d.epoch), d.now, lease);
        d.(epoch := NextEpoch(d.epoch), calls := d.calls + 1, armed := d.armed + cbs, latest := cbs)
  }

  function Run(d: Dog, script: seq<Event>): Dog
    decreases |script|
  {
    if script == [] then d else Run(Do(d, script[0]), script[1..])
  }

  /** A callback may run at any time from its delay on: stopping its timer may come too late. */
  predicate MayFire(d: Dog, cb: Callback) {
    cb in d.armed && d.now >= cb.armedAt + cb.delay
  }

  /** The guard a callback evaluates under the mutex. */
  predicate Guard(d: Dog, cb: Callback) {
    !d.stopped && d.epoch == cb.epoch
  }

  /** The object as the source has it. */
  class LeaseWatchdog {
    const fatalOnLeaseTimeout: bool
    var stopped: bool
    var epoch: nat
    var warn: seq<Callback>     // at most one live timer each
    var fatal: seq<Callback>
    ghost var dog: Dog          // everything that was ever armed

    ghost predicate Valid()
      reads this
    {
      && dog.fatalOnLeaseTimeout == fatalOnLeaseTimeout
      && dog.stopped == stopped && dog.epoch == epoch
      && warn + fatal == dog.latest && |warn| <= 1
    }

    constructor (fatalOnLeaseTimeout: bool, now: int)
      ensures Valid() && dog == NewDog(fatalOnLeaseTimeout, now)
    {
      this.fatalOnLeaseTimeout := fatalOnLeaseTimeout;
      stopped, epoch, warn, fatal := false, 0, [], [];
      dog := NewDog(fatalOnLeaseTimeout, now);
    }

    method Schedule(lease: int, now: int)
      requires Valid() && now >= dog.now
      modifies this
      ensures Valid() && dog == Do(Do(old(dog), Tick(now - old(dog).now)), Event.Schedule(lease))
    {
      dog := Do(dog, Tick(now - dog.now));
      if lease <= 0 {
        return;
      }
      if stopped {
        return;
      }
      dog := Do(dog, Event.Schedule(lease));
      epoch := NextEpoch(epoch);
      warn := [Callback(false, epoch, now, lease, lease)];
      fatal := [];
      if !fatalOnLeaseTimeout {
        return;
      }
      fatal := [Callback(true, epoch, now, lease, FatalDelay(lease))];
    }

    method StopTimers()
      requires Valid()
      modifies this
      ensures Valid() && dog == Do(old(dog), Event.Stop) && warn == [] && fatal == []
    {
      dog := Do(dog, Event.Stop);
      stopped := true;
      epoch := NextEpoch(epoch);
      warn, fatal := [], [];
    }

    /** The body of a callback: whether it logs, and for a fatal one exits the process. */
    method Fire(cb: Callback, now: int) returns (acts: bool)
      requires Valid() && now >= dog.now && MayFire(Do(dog, Tick(now - dog.now)), cb)
      ensures acts == Guard(Do(dog, Tick(now - dog.now)), cb)
    {
      acts := !(stopped || epoch != cb.epoch);
    }
  }

  // ----- soundness and completeness -----

  /** Epochs of armed callbacks are distinct per schedule as long as 64 bits do not wrap. */
  ghost predicate Inv(d: Dog) {
    && d.epoch == d.calls % TWO64
    && (d.stopped ==> d.latest == [])
    && (forall cb | cb in d.latest :: cb in d.armed && cb.epoch == d.epoch && cb.armedAt <= d.now)
    && (d.latest != [] ==> d.latest == Armed(d.fatalOnLeaseTimeout, d.epoch, d.latest[0].armedAt, d.latest[0].lease))
    && (forall cb | cb in d.armed ::
          && cb.lease > 0
          && cb.delay == (if cb.fatal then FatalDelay(cb.lease) else cb.lease)
          && (cb in d.latest || exists n: nat :: n < d.calls && cb.epoch == n % TWO64))
    && (!d.stopped && d.calls > 0 ==> d.latest != [])
  }

  lemma ScheduleKeeps(d: Dog, lease: int)
    requires Inv(d) && lease > 0 && !d.stopped
    ensures Inv(Do(d, Schedule(lease)))
  {
    var d' := Do(d, Schedule(lease));
    forall cb | cb in d'.armed
      ensures cb in d'.latest || exists n: nat :: n < d'.calls && cb.epoch == n % TWO64
    {
      if cb in d.latest {
        assert d.calls < d'.calls && cb.epoch == d.calls % TWO64;
      }
    }
  }

  lemma StopKeeps(d: Dog)
    requires Inv(d)
    ensures Inv(Do(d, Stop))
  {
    var d' := Do(d, Stop);
    forall cb | cb in d'.armed ensures exists n: nat :: n < d'.calls && cb.epoch == n % TWO64 {
      if cb in d.latest {
        assert d.calls < d'.calls && cb.epoch == d.calls % TWO64;
      }
    }
  }

  lemma {:induction false} RunKeeps(d: Dog, script: seq<Event>)
    requires Inv(d)
    ensures Inv(Run(d, script))
    decreases |script|
  {
    if script != [] {
      match script[0] {
        case Schedule(lease) =>
          if lease > 0 && !d.stopped {
            ScheduleKeeps(d, lease);
          }
        case Stop => StopKeeps(d);
        case Tick(_) =>
      }
      RunKeeps(Do(d, script[0]), script[1..]);
    }
  }

  /** Soundness: a callback that passes its guard belongs to the latest positive-lease schedule,
      stop was not called, and its time has come: one lease for the warning; for the fatal
      callback two leases, exactly when twice the lease fits in 64 bits. */
  lemma GuardSound(fatalOnLeaseTimeout: bool, now: int, script: seq<Event>, cb: Callback)
    requires var d := Run(NewDog(fatalOnLeaseTimeout, now), script);
             d.calls < TWO64 && MayFire(d, cb) && Guard(d, cb)
    ensures var d := Run(NewDog(fatalOnLeaseTimeout, now), script);
            && cb in d.latest && !d.stopped
            && (!cb.fatal ==> d.now >= cb.armedAt + cb.lease)
            && (cb.fatal && 2 * cb.lease <= MAX_INT64 ==> d.now >= cb.armedAt + 2 * cb.lease)
  {
    var d := Run(NewDog(fatalOnLeaseTimeout, now), script);
    RunKeeps(NewDog(fatalOnLeaseTimeout, now), script);
  }

  /** Completeness: while the latest schedule stands (no reschedule, no stop), its fatal callback
      may fire from two leases on, and then passes its guard. */
  lemma GuardComplete(now: int, script: seq<Event>) returns (cb: Callback)
    requires var d := Run(NewDog(true, now), script);
             d.latest != [] && d.now >= d.latest[0].armedAt + 2 * d.latest[0].lease
    ensures var d := Run(NewDog(true, now), script);
            cb in d.latest && cb.fatal && MayFire(d, cb) && Guard(d, cb)
  {
    var d := Run(NewDog(true, now), script);
    RunKeeps(NewDog(true, now), script);
    FlagStays(NewDog(true, now), script);
    cb := d.latest[1];
    assert cb in d.latest;
  }

  lemma {:induction false} FlagStays(d: Dog, script: seq<Event>)
    ensures Run(d, script).fatalOnLeaseTimeout == d.fatalOnLeaseTimeout
    decreases |script|
  {
    if script != [] {
      FlagStays(Do(d, script[0]), script[1..]);
    }
  }

  /** Without the flag no fatal callback exists. */
  lemma {:induction false} NoFatalWithoutFlag(d: Dog, script: seq<Event>)
    requires !d.fatalOnLeaseTimeout && forall cb | cb in d.armed :: !cb.fatal
    ensures forall cb | cb in Run(d, script).armed :: !cb.fatal
    decreases |script|
  {
    if script != [] {
      NoFatalWithoutFlag(Do(d, script[0]), script[1..]);
    }
  }

  /** The exact range of leases for which the fatal timer waits for two leases: beyond it
      `2*lease` wraps to a negative delay and the process would exit at once. */
  lemma FatalDelayExact(lease: int)
    requires 0 < lease && IsInt64(lease)
    ensures FatalDelay(lease) == 2 * lease <==> lease <= MAX_INT64 / 2
    ensures FatalDelay(lease) != 2 * lease ==> FatalDelay(lease) < 0
  {
  }

  /** Such a lease makes the callback pass its guard in the very moment it is armed. */
  lemma HugeLeaseFiresAtOnce(lease: int, now: int)
    requires MAX_INT64 / 2 < lease <= MAX_INT64
    ensures var d := Do(NewDog(true, now), Schedule(lease));
            MayFire(d, d.latest[1]) && Guard(d, d.latest[1]) && d.latest[1].fatal
  {
    FatalDelayExact(lease);
    var d := Do(NewDog(true, now), Schedule(lease));
    assert d.armed[1] == d.latest[1];
  }
}
