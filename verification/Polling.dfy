/** Waiting for another task's result: the polling loop with capped exponential backoff, its
    deadline, and the heartbeats that keep the waiting run's own lease alive.  Times are
    nanoseconds on one time line; they pass in calls and sleeps only. */
module Polling {
  import opened Prelude
  import opened Durations

  const INITIAL_BACKOFF: int := 50 * MILLISECOND
  const MAX_BACKOFF: int := SECOND
  const MIN_HEARTBEAT: int := 500 * MILLISECOND

  /** `GoLoop` computes the remaining time after the heartbeat, `ScriptLoop` (TypeScript and
      Python) before it. */
  datatype Flavour = GoLoop | ScriptLoop

  datatype Fetched = FetchError | Missing | Open | Terminal

  /** How long the calls and the sleep of one round take, and how they end. */
  datatype Round = Round(fetchTime: nat, fetched: Fetched, sendTime: nat, replyTime: nat, beatOk: bool,
                         oversleep: nat, cancelled: bool)

  datatype Outcome = Polled | Found | NotFound | Failed | TimedOut | BeatFailed | Interrupted

  /** A sleep that was asked for. */
  datatype Nap = Nap(at: int, length: int)

  datatype Params = Params(flavour: Flavour, startedAt: int, hasDeadline: bool, timeout: int, beating: bool, lease: int)

  /** `lapsed`: at some moment the claim was expired in the store. */
  datatype State = State(now: int, delay: int, nextBeat: int, leaseUntil: int, lapsed: bool, fetches: nat,
      naps: seq<Nap>)

  /** Go's `timeout` option: none, immediate, or a duration. */
  function GoParams(startedAt: int, timeout: int, beating: bool, lease: int): Params {
    Params(GoLoop, startedAt, timeout != 0, if timeout < 0 then 0 else timeout, beating, lease)
  }

  function Interval(lease: int): int {
    Max(lease / 2, MIN_HEARTBEAT)
  }

  /** What one heartbeat asks of the store: `heartbeat(ctx, 0)` in whole seconds. */
  function BeatLease(lease: int): int {
    DurationSeconds(NormalizeLease(0, lease)) * SECOND
  }

  function Pass(s: State, d: nat): State {
    s.(now := s.now + d, lapsed := s.lapsed || s.now + d >= s.leaseUntil)
  }

  function Remaining(p: Params, s: State): int {
    p.timeout - (s.now - p.startedAt)
  }

  function Fetch(s: State, r: Round): State {
    Pass(s.(fetches := s.fetches + 1), r.fetchTime)
  }

  predicate BeatDue(p: Params, s: State) {
    p.beating && s.now >= s.nextBeat
  }

  /** The heartbeat closure. */
  function Beat(p: Params, s: State, r: Round): State
    requires BeatDue(p, s)
  {
    var sent := Pass(s, r.sendTime);
    var extended := if r.beatOk then sent.(leaseUntil := sent.now + BeatLease(p.lease)) else sent;
    var back := Pass(extended, r.replyTime);
    back.(nextBeat := (if p.flavour.GoLoop? then s.now else back.now) + Interval(p.lease))
  }

  function Sleep(s: State, length: nat, r: Round): State {
    Pass(s.(naps := s.naps + [Nap(s.now, length)]), length + r.oversleep)
  }

  /** One round of the loop. */
  function OneRound(p: Params, s: State, r: Round): (State, Outcome) {
    var f := Fetch(s, r);
    match r.fetched
    case FetchError => (f, Failed)
    case Missing => (f, NotFound)
    case Terminal => (f, Found)
    case Open =>
      if p.hasDeadline && Remaining(p, f) <= 0 then (f, TimedOut)
      else
        var early := if p.hasDeadline then Min(f.delay, Remaining(p, f)) else f.delay;
        var b := if BeatDue(p, f) then Beat(p, f, r) else f;
        if BeatDue(p, f) && !r.beatOk then (b, BeatFailed)
        else if p.flavour.GoLoop? then
          if p.hasDeadline && Remaining(p, b) <= 0 then (b, TimedOut)
          else
            var length := if p.hasDeadline then Min(b.delay, Remaining(p, b)) else b.delay;
            if r.cancelled then (b, Interrupted)
            else (Sleep(b, Max(length, 0), r).(delay := if b.delay < MAX_BACKOFF then Min(b.delay * 2, MAX_BACKOFF)
                else b.delay), Polled)
        else
          (Sleep(b, Max(early, 0), r).(delay := Min(early * 2, MAX_BACKOFF)), Polled)
  }

  function Run(p: Params, s: State, rounds: seq<Round>): (State, Outcome)
    decreases |rounds|
  {
    if rounds == [] then (s, Polled)
    else
      var (t, o) := OneRound(p, s, rounds[0]);
      if o != Polled then (t, o) else Run(p, t, rounds[1..])
  }

  /** The loop's start; `leaseUntil` is the claim's expiry on entry. */
  function Enter(p: Params, leaseUntil: int): State {
    State(p.startedAt, INITIAL_BACKOFF, p.startedAt + Interval(p.lease), leaseUntil, p.startedAt >= leaseUntil, 0, [])
  }

  /** The Go loop as written, on a finite list of rounds. */
  method AwaitTaskResultWithBackoff(p: Params, start: State, rounds: seq<Round>) returns (s: State, o: Outcome)
    requires p.flavour.GoLoop? && p.timeout >= 0
    ensures (s, o) == Run(p, start, rounds)
  {
    s := start;
    var i := 0;
    while i < |rounds|
      invariant 0 <= i <= |rounds|
      invariant Run(p, s, rounds[i..]) == Run(p, start, rounds)
    {
      var r := rounds[i];
      assert rounds[i..][0] == r && rounds[i..][1..] == rounds[i + 1..];
      s := Fetch(s, r);
      if r.fetched.FetchError? {
        return s, Failed;
      }
      if r.fetched.Missing? {
        return s, NotFound;
      }
      if r.fetched.Terminal? {
        return s, Found;
      }
      if p.hasDeadline && s.now - p.startedAt >= p.timeout {
        return s, TimedOut;
      }
      if BeatDue(p, s) {
        s := Beat(p, s, r);
        if !r.beatOk {
          return s, BeatFailed;
        }
      }
      var waitFor := s.delay;
      if p.hasDeadline {
        var remaining := p.timeout - (s.now - p.startedAt);
        if remaining <= 0 {
          return s, TimedOut;
        }
        if waitFor > remaining {
          waitFor := remaining;
        }
      }
      if r.cancelled {
        return s, Interrupted;
      }
      s := Sleep(s, Max(waitFor, 0), r);
      if s.delay < MAX_BACKOFF {
        s := s.(delay := Min(s.delay * 2, MAX_BACKOFF));
      }
      i := i + 1;
    }
    o := Polled;
  }

  // ----- backoff -----

  /** The k-th unclipped delay: 50, 100, 200, 400, 800, 1000, 1000, ... milliseconds. */
  function Delay(k: nat): int {
    if k >= 5 then MAX_BACKOFF else INITIAL_BACKOFF * Power2(k)
  }

  function Power2(k: nat): nat {
    if k == 0 then 1 else 2 * Power2(k - 1)
  }

  /** min(50 * 2^k, 1000) ms, for every k. */
  lemma {:induction false} DelayFormula(k: nat)
    ensures Delay(k) == Min(INITIAL_BACKOFF * Power2(k), MAX_BACKOFF)
    ensures Delay(k + 1) == Min(Delay(k) * 2, MAX_BACKOFF)
    ensures Delay(k) > 0
  {
    PowerValues();
    if k >= 5 {
      PowerAtLeast32(k);
    }
  }

  lemma PowerValues()
    ensures Power2(0) == 1 && Power2(1) == 2 && Power2(2) == 4 && Power2(3) == 8 && Power2(4) == 16 && Power2(5) == 32
  {
    assert Power2(5) == 2 * Power2(4);
    assert Power2(3) == 2 * Power2(2);
  }

  lemma {:induction false} PowerAtLeast32(k: nat)
    requires k >= 5
    ensures Power2(k) >= 32
  {
    PowerValues();
    if k > 5 {
      PowerAtLeast32(k - 1);
    }
  }

  /** The time the first k unclipped sleeps take at least. */
  function Total(k: nat): int {
    if k == 0 then 0 else Total(k - 1) + Delay(k - 1)
  }

  lemma {:induction false} TotalClosed(k: nat)
    requires k >= 5
    ensures Total(k) == 1550 * MILLISECOND + (k - 5) * SECOND
  {
    PowerValues();
    if k == 5 {
      assert Total(2) == 150 * MILLISECOND;
      assert Total(4) == 750 * MILLISECOND;
    } else {
      TotalClosed(k - 1);
    }
  }

  /** With a deadline, once a sleep was clipped the deadline has passed when it is over. */
  ghost predicate OnSchedule(p: Params, s: State, k: nat) {
    || (s.delay == Delay(k) && s.now - p.startedAt >= Total(k))
    || (p.hasDeadline && Remaining(p, s) <= 0)
  }

  lemma RoundOnSchedule(p: Params, s: State, r: Round, k: nat)
    requires OnSchedule(p, s, k) && p.timeout >= 0 && OneRound(p, s, r).1 == Polled
    ensures OnSchedule(p, OneRound(p, s, r).0, k + 1)
    ensures s.delay == Delay(k)
    ensures p.hasDeadline ==> Total(k) < p.timeout
  {
    DelayFormula(k);
    var f := Fetch(s, r);
    assert f.now >= s.now && f.delay == s.delay;
  }

  /** The most fetches a deadline of `timeout` allows. */
  function FetchBound(timeout: nat): nat {
    timeout / SECOND + 6
  }

  lemma FetchBoundHolds(timeout: nat, k: nat)
    requires Total(k) < timeout
    ensures k + 2 <= FetchBound(timeout)
  {
    if k >= 5 {
      TotalClosed(k);
      assert timeout > (k - 4) * SECOND;
      assert timeout / SECOND >= k - 4;
    }
  }

  lemma {:induction false} FetchesLeft(p: Params, s: State, rounds: seq<Round>, k: nat)
    requires p.hasDeadline && p.timeout >= 0 && OnSchedule(p, s, k)
    requires k + 1 <= FetchBound(p.timeout)
    ensures Run(p, s, rounds).0.fetches <= s.fetches + (FetchBound(p.timeout) - k)
    ensures |rounds| > FetchBound(p.timeout) - k ==> Run(p, s, rounds).1 != Polled
    decreases |rounds|
  {
    if rounds != [] {
      var (t, o) := OneRound(p, s, rounds[0]);
      assert t.fetches == s.fetches + 1;
      if o == Polled {
        RoundOnSchedule(p, s, rounds[0], k);
        FetchBoundHolds(p.timeout, k);
        FetchesLeft(p, t, rounds[1..], k + 1);
      }
    }
  }

  /** A timeout of T allows at most floor(T / 1 s) + 6 fetches, however the calls are timed, as
      long as each sleep lasts at least its request; after that many rounds the wait is over. */
  lemma FetchesBounded(p: Params, leaseUntil: int, rounds: seq<Round>)
    requires p.hasDeadline && p.timeout >= 0
    ensures Run(p, Enter(p, leaseUntil), rounds).0.fetches <= p.timeout / SECOND + 6
    ensures |rounds| > p.timeout / SECOND + 6 ==> Run(p, Enter(p, leaseUntil), rounds).1 != Polled
  {
    PowerValues();
    FetchesLeft(p, Enter(p, leaseUntil), rounds, 0);
  }

  /** What the sleeps asked for so far look like: all but the last have the backoff length, the
      last at most that, and shorter only to meet the deadline. */
  ghost predicate NapsOk(p: Params, naps: seq<Nap>) {
    && (forall k | 0 <= k < |naps| :: 0 <= naps[k].length <= Delay(k))
    && (forall k | 0 <= k < |naps| - 1 :: naps[k].length == Delay(k))
    && (|naps| > 0 && naps[|naps| - 1].length != Delay(|naps| - 1) ==>
          p.hasDeadline && naps[|naps| - 1].at + naps[|naps| - 1].length >= p.startedAt + p.timeout)
  }

  lemma NapAppended(p: Params, naps: seq<Nap>, nap: Nap)
    requires NapsOk(p, naps)
    requires |naps| > 0 ==> naps[|naps| - 1].length == Delay(|naps| - 1)
    requires 0 <= nap.length <= Delay(|naps|)
    requires nap.length != Delay(|naps|) ==> p.hasDeadline && nap.at + nap.length >= p.startedAt + p.timeout
    ensures NapsOk(p, naps + [nap])
  {
  }

  /** A round that goes on has slept once more: the backoff length, or up to the deadline. */
  lemma RoundSleeps(p: Params, s: State, r: Round) returns (nap: Nap)
    requires p.timeout >= 0 && 0 < s.delay && OneRound(p, s, r).1 == Polled
    ensures var t := OneRound(p, s, r).0;
            && t.naps == s.naps + [nap] && 0 <= nap.length <= s.delay && t.now >= nap.at + nap.length
            && (nap.length != s.delay ==> p.hasDeadline && nap.at + nap.length >= p.startedAt + p.timeout)
    ensures p.hasDeadline ==> Remaining(p, s) > 0
  {
    var t := OneRound(p, s, r).0;
    nap := t.naps[|s.naps|];
  }

  lemma RoundNaps(p: Params, s: State, r: Round)
    requires p.timeout >= 0 && NapsOk(p, s.naps) && OnSchedule(p, s, |s.naps|)
    requires |s.naps| > 0 && s.naps[|s.naps| - 1].length != Delay(|s.naps| - 1) ==>
             p.hasDeadline && Remaining(p, s) <= 0
    ensures var t := OneRound(p, s, r).0;
            && NapsOk(p, t.naps)
            && (OneRound(p, s, r).1 == Polled ==>
                  && |t.naps| == |s.naps| + 1
                  && (t.naps[|s.naps|].length != Delay(|s.naps|) ==> p.hasDeadline && Remaining(p, t) <= 0))
  {
    DelayFormula(|s.naps|);
    if OneRound(p, s, r).1 == Polled {
      RoundOnSchedule(p, s, r, |s.naps|);
      var nap := RoundSleeps(p, s, r);
      NapAppended(p, s.naps, nap);
    }
  }

  lemma {:induction false} RunNaps(p: Params, s: State, rounds: seq<Round>)
    requires p.timeout >= 0 && NapsOk(p, s.naps) && OnSchedule(p, s, |s.naps|)
    requires |s.naps| > 0 && s.naps[|s.naps| - 1].length != Delay(|s.naps| - 1) ==>
             p.hasDeadline && Remaining(p, s) <= 0
    ensures NapsOk(p, Run(p, s, rounds).0.naps)
    decreases |rounds|
  {
    if rounds != [] {
      RoundNaps(p, s, rounds[0]);
      if OneRound(p, s, rounds[0]).1 == Polled {
        RoundOnSchedule(p, s, rounds[0], |s.naps|);
        RunNaps(p, OneRound(p, s, rounds[0]).0, rounds[1..]);
      }
    }
  }

  /** The k-th sleep asked for is min(50 * 2^k, 1000) ms; only the last can be shorter, and then
      it reaches the deadline. */
  lemma BackoffLengths(p: Params, leaseUntil: int, rounds: seq<Round>)
    requires p.timeout >= 0
    ensures NapsOk(p, Run(p, Enter(p, leaseUntil), rounds).0.naps)
  {
    PowerValues();
    RunNaps(p, Enter(p, leaseUntil), rounds);
  }

  ghost predicate NoNapPastDeadline(p: Params, naps: seq<Nap>) {
    forall k | 0 <= k < |naps| :: naps[k].at + naps[k].length <= p.startedAt + p.timeout
  }

  ghost predicate InstantBeats(rounds: seq<Round>) {
    forall i | 0 <= i < |rounds| :: rounds[i].sendTime == 0 && rounds[i].replyTime == 0
  }

  /** No sleep is requested past the deadline: always in the Go loop, and in the TypeScript and
      Python loops at least when heartbeats take no time or there are none. */
  lemma {:induction false} DeadlineRespected(p: Params, s: State, rounds: seq<Round>)
    requires p.hasDeadline && p.timeout >= 0 && s.delay >= 0 && NoNapPastDeadline(p, s.naps)
    requires p.flavour.GoLoop? || !p.beating || InstantBeats(rounds)
    ensures NoNapPastDeadline(p, Run(p, s, rounds).0.naps)
    decreases |rounds|
  {
    if rounds != [] {
      var (t, o) := OneRound(p, s, rounds[0]);
      assert NoNapPastDeadline(p, t.naps);
      if o == Polled {
        DeadlineRespected(p, t, rounds[1..]);
      }
    }
  }

  /** Every run of the wait stays within the deadline. */
  ghost predicate AlwaysWithinDeadline(p: Params, leaseUntil: int) {
    forall rounds :: NoNapPastDeadline(p, Run(p, Enter(p, leaseUntil), rounds).0.naps)
  }

  /** While the first heartbeat is due only at the deadline or later, none is ever sent. */
  lemma {:induction false} NoBeatBeforeDeadline(p: Params, s: State, rounds: seq<Round>)
    requires p.hasDeadline && p.timeout >= 0 && s.delay >= 0 && NoNapPastDeadline(p, s.naps)
    requires p.beating ==> s.nextBeat >= p.startedAt + p.timeout
    ensures NoNapPastDeadline(p, Run(p, s, rounds).0.naps)
    decreases |rounds|
  {
    if rounds != [] {
      var (t, o) := OneRound(p, s, rounds[0]);
      assert NoNapPastDeadline(p, t.naps);
      if o == Polled {
        NoBeatBeforeDeadline(p, t, rounds[1..]);
      }
    }
  }

  /** A slow heartbeat between the computation of the sleep and the sleep itself. */
  lemma SlowBeatOverruns(p: Params, leaseUntil: int)
    requires p.flavour.ScriptLoop? && p.hasDeadline && p.beating && Interval(p.lease) < p.timeout
    ensures !AlwaysWithinDeadline(p, leaseUntil)
  {
    var r := Round(Interval(p.lease), Open, 0, p.timeout, true, 0, false);
    var s := Enter(p, leaseUntil);
    var (t, o) := OneRound(p, s, r);
    assert [r][1..] == [] && Run(p, s, [r]).0 == t;
    assert t.naps[0].at >= p.startedAt + p.timeout && t.naps[0].length > 0;
    assert !NoNapPastDeadline(p, Run(p, s, [r]).0.naps);
  }

  /** The TypeScript and Python loops never ask for a sleep past the deadline if and only if they
      send no heartbeats or the first one is not due before the deadline. */
  lemma ScriptDeadlineExact(p: Params, leaseUntil: int)
    requires p.flavour.ScriptLoop? && p.hasDeadline && p.timeout >= 0
    ensures AlwaysWithinDeadline(p, leaseUntil) <==> !p.beating || Interval(p.lease) >= p.timeout
  {
    if !p.beating || Interval(p.lease) >= p.timeout {
      forall rounds ensures NoNapPastDeadline(p, Run(p, Enter(p, leaseUntil), rounds).0.naps) {
        NoBeatBeforeDeadline(p, Enter(p, leaseUntil), rounds);
      }
    } else {
      SlowBeatOverruns(p, leaseUntil);
    }
  }

  // ----- the lease -----

  lemma BeatLeaseWhole(seconds: nat)
    requires 0 < seconds && seconds * SECOND <= MAX_INT64
    ensures BeatLease(seconds * SECOND) == seconds * SECOND
  {
    SecondsOfWhole(seconds);
  }

  /** Bounds on how long the calls of one round take. */
  datatype Latency = Latency(fetch: nat, send: nat, reply: nat, oversleep: nat)

  predicate Within(r: Round, l: Latency) {
    r.fetchTime <= l.fetch && r.sendTime <= l.send && r.replyTime <= l.reply && r.oversleep <= l.oversleep
  }

  /** The longest stretch from one look at the clock to the next heartbeat's arrival. */
  function Stretch(l: Latency): int {
    MAX_BACKOFF + l.oversleep + l.fetch + l.send
  }

  /** Half the lease and one maximal backoff with its latencies fit within the lease.  In the Go
      loop the next heartbeat is timed before the call is made, so its reply counts only against
      the lease itself; the other loops time it afterwards. */
  predicate Fits(flavour: Flavour, lease: int, l: Latency) {
    if flavour.GoLoop? then Interval(lease) + Stretch(l) <= lease && l.reply + Stretch(l) < lease
    else Interval(lease) + Stretch(l) + l.reply <= lease
  }

  /** At the top of the loop: the lease covers everything until the next heartbeat is stored. */
  ghost predicate Covered(s: State, l: Latency) {
    && !s.lapsed && 0 < s.delay <= MAX_BACKOFF
    && s.now + l.fetch + l.send < s.leaseUntil
    && s.nextBeat + MAX_BACKOFF + l.oversleep + l.fetch + l.send <= s.leaseUntil
  }

  lemma BeatCovers(p: Params, s: State, r: Round, l: Latency)
    requires Within(r, l) && Fits(p.flavour, p.lease, l) && BeatLease(p.lease) == p.lease
    requires BeatDue(p, s) && r.beatOk && !s.lapsed && s.now + l.send < s.leaseUntil
    ensures var b := Beat(p, s, r);
            && !b.lapsed && b.delay == s.delay
            && b.now + MAX_BACKOFF + l.oversleep + l.fetch + l.send < b.leaseUntil
            && b.nextBeat + MAX_BACKOFF + l.oversleep + l.fetch + l.send <= b.leaseUntil
  {
    assert Interval(p.lease) > 0;
  }

  /** A round without a heartbeat leaves room for the next one. */
  lemma QuietCovers(p: Params, s: State, r: Round, l: Latency)
    requires p.beating && p.timeout >= 0 && Within(r, l) && Covered(s, l) && !BeatDue(p, Fetch(s, r))
    ensures var (t, o) := OneRound(p, s, r);
            && (o == Polled ==> Covered(t, l))
            && !t.lapsed && (o == Found ==> t.now + l.send < t.leaseUntil)
  {
  }

  lemma RoundCovers(p: Params, s: State, r: Round, l: Latency)
    requires p.beating && p.timeout >= 0 && Within(r, l) && Fits(p.flavour, p.lease, l) && BeatLease(p.lease) == p.lease
    requires Covered(s, l)
    ensures var (t, o) := OneRound(p, s, r);
            && (o == Polled ==> Covered(t, l))
            && (o != BeatFailed ==> !t.lapsed)
            && (o == Found ==> t.now + l.send < t.leaseUntil)
  {
    var f := Fetch(s, r);
    if !BeatDue(p, f) {
      QuietCovers(p, s, r, l);
    } else if r.fetched.Open? && r.beatOk {
      BeatCovers(p, f, r, l);
    }
  }

  /** While the result is awaited the waiting run's claim never expires, and when the result
      arrives there is still time to store its checkpoint. */
  lemma {:induction false} LeaseNeverLapses(p: Params, s: State, rounds: seq<Round>, l: Latency)
    requires p.beating && p.timeout >= 0 && Fits(p.flavour, p.lease, l) && BeatLease(p.lease) == p.lease
    requires Covered(s, l) && forall i | 0 <= i < |rounds| :: Within(rounds[i], l)
    ensures var (t, o) := Run(p, s, rounds);
            && (o != BeatFailed ==> !t.lapsed)
            && (o == Found ==> t.now + l.send < t.leaseUntil)
    decreases |rounds|
  {
    if rounds != [] {
      RoundCovers(p, s, rounds[0], l);
      var (t, o) := OneRound(p, s, rounds[0]);
      if o == Polled {
        LeaseNeverLapses(p, t, rounds[1..], l);
      }
    }
  }

  /** The whole wait, from a claim of whole seconds that still covers the first window. */
  lemma AwaitKeepsLease(p: Params, seconds: nat, leaseUntil: int, rounds: seq<Round>, l: Latency)
    requires p.beating && p.timeout >= 0 && p.lease == seconds * SECOND && 0 < p.lease <= MAX_INT64
    requires Fits(p.flavour, p.lease, l) && forall i | 0 <= i < |rounds| :: Within(rounds[i], l)
    requires p.startedAt + Interval(p.lease) + MAX_BACKOFF + l.oversleep + l.fetch + l.send <= leaseUntil
    ensures var (t, o) := Run(p, Enter(p, leaseUntil), rounds);
            && (o != BeatFailed ==> !t.lapsed)
            && (o == Found ==> t.now + l.send < t.leaseUntil)
  {
    BeatLeaseWhole(seconds);
    LeaseNeverLapses(p, Enter(p, leaseUntil), rounds, l);
  }

  /** From three seconds on the condition leaves room for latencies; the shortest leases fail it
      even when calls take no time. */
  lemma WhichLeasesFit(flavour: Flavour, seconds: nat)
    ensures Fits(flavour, seconds * SECOND, Latency(0, 0, 0, 0)) <==> seconds >= 2
    ensures seconds >= 3 ==>
              Fits(flavour, seconds * SECOND,
                  Latency(100 * MILLISECOND, 100 * MILLISECOND, 100 * MILLISECOND, 200 * MILLISECOND))
  {
  }

  function Ms(n: int): int {
    n * MILLISECOND
  }

  /** A zero-time round without a heartbeat, and one with it. */
  lemma QuietRound(p: Params, s: State, r: Round)
    requires !p.hasDeadline && p.beating && r == Round(0, Open, 0, 0, true, 0, false)
    requires s.now < s.nextBeat && 0 < s.delay < MAX_BACKOFF && !s.lapsed && s.now + s.delay < s.leaseUntil
    ensures OneRound(p, s, r) == (State(s.now + s.delay, Min(s.delay * 2, MAX_BACKOFF), s.nextBeat, s.leaseUntil, false,
                                        s.fetches + 1, s.naps + [Nap(s.now, s.delay)]), Polled)
  {
  }

  lemma BeatRound(p: Params, s: State, r: Round)
    requires !p.hasDeadline && p.beating && r == Round(0, Open, 0, 0, true, 0, false)
    requires p.lease == SECOND && s.now >= s.nextBeat && 0 < s.delay <= MAX_BACKOFF && !s.lapsed && s.now < s.leaseUntil
    ensures var (t, o) := OneRound(p, s, r);
            && o == Polled && t.now == s.now + s.delay && t.nextBeat == s.now + Ms(500)
                && t.leaseUntil == s.now + SECOND
            && t.delay == Min(s.delay * 2, MAX_BACKOFF) && t.lapsed == (s.delay >= SECOND)
  {
    BeatLeaseWhole(1);
  }

  lemma RunOn(p: Params, s: State, r: Round, rest: seq<Round>)
    requires OneRound(p, s, r).1 == Polled
    ensures Run(p, s, [r] + rest) == Run(p, OneRound(p, s, r).0, rest)
  {
    assert ([r] + rest)[1..] == rest;
  }

  /** The last two rounds: the heartbeat at 750 ms, and the one at 1550 ms before the sleep. */
  lemma LastRounds(p: Params, s: State, r: Round)
    requires !p.hasDeadline && p.beating && p.lease == SECOND && r == Round(0, Open, 0, 0, true, 0, false)
    requires s.now == p.startedAt + Ms(750) && s.delay == Ms(800) && s.nextBeat == p.startedAt + Ms(500)
    requires s.leaseUntil == p.startedAt + SECOND && !s.lapsed
    ensures Run(p, s, [r] + ([r] + [])).0.lapsed && Run(p, s, [r] + ([r] + [])).1 == Polled
  {
    BeatRound(p, s, r);
    var t := OneRound(p, s, r).0;
    BeatRound(p, t, r);
    RunOn(p, s, r, [r] + []);
    RunOn(p, t, r, []);
  }

  /** Four zero-time rounds: at 750 ms the first heartbeat is overdue. */
  lemma FirstRounds(p: Params, r: Round, rest: seq<Round>) returns (s: State)
    requires !p.hasDeadline && p.beating && p.lease == SECOND && r == Round(0, Open, 0, 0, true, 0, false)
    ensures s.now == p.startedAt + Ms(750) && s.delay == Ms(800) && s.nextBeat == p.startedAt + Ms(500)
    ensures s.leaseUntil == p.startedAt + SECOND && !s.lapsed
    ensures Run(p, Enter(p, p.startedAt + p.lease), [r] + ([r] + ([r] + ([r] + rest)))) == Run(p, s, rest)
  {
    var s0 := Enter(p, p.startedAt + p.lease);
    QuietRound(p, s0, r);
    var s1 := OneRound(p, s0, r).0;
    QuietRound(p, s1, r);
    var s2 := OneRound(p, s1, r).0;
    QuietRound(p, s2, r);
    var s3 := OneRound(p, s2, r).0;
    QuietRound(p, s3, r);
    s := OneRound(p, s3, r).0;
    RunOn(p, s3, r, rest);
    RunOn(p, s2, r, [r] + rest);
    RunOn(p, s1, r, [r] + ([r] + rest));
    RunOn(p, s0, r, [r] + ([r] + ([r] + rest)));
  }

  /** Six rounds of a one-second claim. */
  lemma OneSecondRounds(p: Params) returns (rounds: seq<Round>)
    requires !p.hasDeadline && p.beating && p.lease == SECOND
    ensures forall i | 0 <= i < |rounds| :: Within(rounds[i], Latency(0, 0, 0, 0))
    ensures var (t, o) := Run(p, Enter(p, p.startedAt + p.lease), rounds); t.lapsed && o == Polled
  {
    var r := Round(0, Open, 0, 0, true, 0, false);
    var last := [r] + ([r] + []);
    var s := FirstRounds(p, r, last);
    LastRounds(p, s, r);
    rounds := [r] + ([r] + ([r] + ([r] + last)));
    assert forall i | 0 <= i < |rounds| :: rounds[i] == r;
  }

  /** Whatever the rounds within the latencies, the claim does not expire before a heartbeat is
      rejected. */
  ghost predicate NeverLapses(p: Params, leaseUntil: int, l: Latency) {
    forall rounds: seq<Round> | forall i | 0 <= i < |rounds| :: Within(rounds[i], l) ::
      var (t, o) := Run(p, Enter(p, leaseUntil), rounds); o != BeatFailed ==> !t.lapsed
  }

  /** With a one-second claim and calls that take no time, the claim is expired when the first
      full-second sleep is over. */
  lemma OneSecondLeaseLapses(p: Params)
    requires !p.hasDeadline && p.beating && p.lease == SECOND
    ensures !NeverLapses(p, p.startedAt + p.lease, Latency(0, 0, 0, 0))
  {
    var rounds := OneSecondRounds(p);
  }

  lemma TwoSecondsKeep(p: Params, seconds: nat)
    requires p.beating && p.timeout >= 0 && p.lease == seconds * SECOND <= MAX_INT64 && seconds >= 2
    ensures NeverLapses(p, p.startedAt + p.lease, Latency(0, 0, 0, 0))
  {
    var l := Latency(0, 0, 0, 0);
    WhichLeasesFit(p.flavour, seconds);
    forall rounds: seq<Round> | forall i | 0 <= i < |rounds| :: Within(rounds[i], l)
      ensures var (t, o) := Run(p, Enter(p, p.startedAt + p.lease), rounds); o != BeatFailed ==> !t.lapsed
    {
      AwaitKeepsLease(p, seconds, p.startedAt + p.lease, rounds, l);
    }
  }

  /** With calls that take no time and a fresh claim of whole seconds, a wait without a deadline
      keeps its claim if and only if the claim is two seconds or more. */
  lemma WholeSecondsExact(p: Params, seconds: nat)
    requires p.beating && !p.hasDeadline && p.timeout >= 0 && p.lease == seconds * SECOND <= MAX_INT64
    ensures NeverLapses(p, p.startedAt + p.lease, Latency(0, 0, 0, 0)) <==> seconds >= 2
  {
    if seconds >= 2 {
      TwoSecondsKeep(p, seconds);
    } else if seconds == 1 {
      OneSecondLeaseLapses(p);
    } else {
      assert Run(p, Enter(p, p.startedAt + p.lease), []).0.lapsed;
    }
  }

  // ----- Go's timeout option -----

  /** A positive timeout bounds the fetches and the sleeps; a negative one fetches once and never
      sleeps; without one there is no deadline to miss. */
  lemma GoTimeouts(startedAt: int, timeout: int, beating: bool, lease: int, leaseUntil: int, rounds: seq<Round>)
    ensures var p := GoParams(startedAt, timeout, beating, lease);
            var (t, o) := Run(p, Enter(p, leaseUntil), rounds);
            && (timeout > 0 ==> t.fetches <= timeout / SECOND + 6 && NoNapPastDeadline(p, t.naps))
            && (timeout < 0 ==> t.fetches <= 1 && t.naps == [])
            && (timeout == 0 ==> o != TimedOut)
  {
    var p := GoParams(startedAt, timeout, beating, lease);
    if timeout > 0 {
      FetchesBounded(p, leaseUntil, rounds);
      DeadlineRespected(p, Enter(p, leaseUntil), rounds);
    } else if timeout == 0 {
      NoDeadlineNoTimeout(p, Enter(p, leaseUntil), rounds);
    } else if rounds != [] {
      assert OneRound(p, Enter(p, leaseUntil), rounds[0]).1 != Polled;
    }
  }

  lemma {:induction false} NoDeadlineNoTimeout(p: Params, s: State, rounds: seq<Round>)
    requires !p.hasDeadline
    ensures Run(p, s, rounds).1 != TimedOut
    decreases |rounds|
  {
    if rounds != [] && OneRound(p, s, rounds[0]).1 == Polled {
      NoDeadlineNoTimeout(p, OneRound(p, s, rounds[0]).0, rounds[1..]);
    }
  }
}
