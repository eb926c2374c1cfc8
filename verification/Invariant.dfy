/** The inductive invariant of the replay protocol and the proof that every event keeps it. */
module Invariant {
  import opened Prelude
  import opened Store
  import opened Names
  import opened Replay
  import opened History

  function Newest(t: Task): nat
    requires |t.runs| > 0
  {
    |t.runs| - 1
  }

  /** Every wait of the history observed the payload its event still has. */
  ghost predicate EventsOk(h: Handler, events: map<string, Value>, H: seq<Value>) {
    forall i | 0 <= i < |H| && h(H[..i]).Await? :: h(H[..i]).event in events && events[h(H[..i]).event] == H[i]
  }

  /** Only the newest run is not failed, and it agrees with the task's state. */
  ghost predicate RunsOk(t: Task) {
    && |t.runs| > 0
    && (forall k | 0 <= k < Newest(t) :: t.runs[k].state == State.Failed && t.runs[k].wait.None?)
    && (forall n | n in t.checkpoints :: t.checkpoints[n].owner <= Newest(t))
    && var last := t.runs[Newest(t)];
    && (t.state == Cancelled ==> last.state in {Cancelled, State.Failed})
    && (last.state == Cancelled ==> t.state == Cancelled)
    && (t.state == State.Failed ==> last.state == State.Failed)
    && (t.state == Completed <==> last.state == Completed)
    && (t.state == Completed <==> t.result.Some?)
    && (last.wait.Some? ==> last.state == Sleeping && last.available.None?)
  }

  /** The store holds exactly the rows of history `H`, which can happen. */
  ghost predicate StoreOk(h: Handler, t: Task, H: seq<Value>) {
    && RunsOk(t)
    && Live(h, H)
    && EventsOk(h, t.events, H)
    && Committed(t) == Table(h, H)
    && (t.result.Some? ==> h(H) == Return(t.result.value))
    && var last := t.runs[Newest(t)];
    && (last.wait.Some? ==> WaitsAt(h, H, last.wait.value))
  }

  /** The wait is the handler's next action. */
  ghost predicate WaitsAt(h: Handler, H: seq<Value>, wait: Wait) {
    Fresh(h, H) && h(H).Await? && wait.checkpoint == NameAt(h, H) && wait.event == h(H).event
  }

  ghost predicate Submap(m: map<string, Value>, n: map<string, Value>) {
    forall k | k in m :: k in n && n[k] == m[k]
  }

  /** The session's counters agree with the handler's uses; `begun`: the next action is counted. */
  ghost predicate CountersOk(h: Handler, s: Session, begun: bool) {
    forall n :: CountOf(s.counters, n)
             == UsesOf(h, s.seen, n) + (if begun && h(s.seen).Takes() && h(s.seen).name == n then 1 else 0)
  }

  ghost predicate WritesFor(h: Handler, s: Session, req: Request) {
    match req
    case Persist(cp, v) =>
      (h(s.seen).Step? || (h(s.seen).Sleep? && v.Time?)) && Begun(h, s, cp)
    case Wait(cp, event) => h(s.seen).Await? && h(s.seen).event == event && Begun(h, s, cp)
    case Complete(v) => h(s.seen) == Return(v)
    case _ => true
  }

  /** The next action is counted, and no row had its name. */
  ghost predicate Begun(h: Handler, s: Session, cp: string) {
    Fresh(h, s.seen) && cp == NameAt(h, s.seen) && CountersOk(h, s, true)
  }

  ghost predicate NextIs(H: seq<Value>, s: Session, v: Value) {
    |s.seen| < |H| && H[|s.seen|] == v
  }

  ghost predicate PhaseOk(h: Handler, H: seq<Value>, s: Session) {
    match s.phase
    case Preloading => CountersOk(h, s, false)
    case Idle => CountersOk(h, s, false)
    case Missed(cp) => Begun(h, s, cp)
    case Holding(w) => h(s.seen).Sleep? && NextIs(H, s, Time(w)) && CountersOk(h, s, true)
    case Sent(req) => WritesFor(h, s, req)
    case Late(req) => WritesFor(h, s, req)
    case Answered(req, reply) =>
      && WritesFor(h, s, req)
      && (req.Persist? && reply.Done? ==> NextIs(H, s, req.value))
      && (reply.Found? ==> req.Wait?)
      && (req.Wait? && reply.Found? ==> NextIs(H, s, reply.value))
      && (reply.Done? ==> !req.Wait?)
    case _ => true
  }

  /** Every sleep the session got past was passed at a local time not before its recorded time. */
  ghost predicate SleptEnough(h: Handler, s: Session) {
    forall i: nat | i < |s.seen| && h(s.seen[..i]).Sleep? ::
      s.seen[i].Time? && i in s.passed && s.passed[i] >= s.seen[i].at
  }

  ghost predicate SessionOk(h: Handler, H: seq<Value>, runs: nat, s: Session)
    requires Chain(h, H)
  {
    && s.run < runs
    && s.seen <= H
    && Submap(s.cache, Table(h, H))
    && SleptEnough(h, s)
    && PhaseOk(h, H, s)
  }

  /** Sessions, and late requests, that could still write a checkpoint or end the run. */
  predicate Potent(s: Session) {
    match s.phase
    case Preloading => true
    case Idle => true
    case Missed(_) => true
    case Holding(_) => true
    case Sent(req) => !req.Fail?
    case Late(req) => !req.Fail?
    case Answered(req, reply) => (req.Persist? && reply.Done?) || reply.Found?
    case _ => false
  }

  predicate AboutToWrite(s: Session) {
    match s.phase
    case Missed(_) => true
    case Sent(req) => req.Persist? || req.Wait?
    case Late(req) => req.Persist? || req.Wait?
    case _ => false
  }

  predicate Current(t: Task, s: Session)
    requires |t.runs| > 0
  {
    s.run == Newest(t) && Potent(s)
  }

  /** At most one session or late request can write for the live run, none while it is not
      running. */
  ghost predicate OneCurrent(w: World)
    requires |w.task.runs| > 0
  {
    var st := w.task.runs[Newest(w.task)].state;
    && (st == Running ==>
          forall i, j | 0 <= i < j < |w.sessions| ::
              !(Current(w.task, w.sessions[i]) && Current(w.task, w.sessions[j])))
    && (st in {Pending, Sleeping, Completed} ==>
          forall i | 0 <= i < |w.sessions| :: !Current(w.task, w.sessions[i]))
  }

  /** And one about to write has seen the whole history. */
  ghost predicate OneWriter(H: seq<Value>, w: World)
    requires |w.task.runs| > 0
  {
    && OneCurrent(w)
    && (w.task.runs[Newest(w.task)].state == Running ==>
          forall i | 0 <= i < |w.sessions| ::
            Current(w.task, w.sessions[i]) && AboutToWrite(w.sessions[i]) ==> w.sessions[i].seen == H)
  }

  ghost predicate Inv(h: Handler, w: World, H: seq<Value>) {
    && StoreOk(h, w.task, H)
    && (forall i | 0 <= i < |w.sessions| :: SessionOk(h, H, |w.task.runs|, w.sessions[i]))
    && OneWriter(H, w)
  }

  lemma InitInv(h: Handler, now: int)
    ensures Inv(h, Start(now), [])
  {
    assert Committed(NewTask(now)) == map[];
  }

  // ----- events of one session -----

  lemma SeenExtends(h: Handler, H: seq<Value>, s: Session, v: Value)
    requires Chain(h, H) && s.seen <= H && NextIs(H, s, v) && CountersOk(h, s, true) && SleptEnough(h, s)
    requires h(s.seen).Sleep? ==> v.Time? && |s.seen| in s.passed && s.passed[|s.seen|] >= v.at
    ensures h(s.seen).Takes() && (h(s.seen).Sleep? ==> v.Time?)
    ensures s.seen + [v] <= H
    ensures CountersOk(h, Observe(s, v), false)
    ensures SleptEnough(h, Observe(s, v))
  {
    var r := s.seen + [v];
    assert H[..|s.seen|] == s.seen && r[..|r| - 1] == s.seen;
    forall i: nat | i < |r| && h(r[..i]).Sleep?
      ensures r[i].Time? && i in s.passed && s.passed[i] >= r[i].at
    {
      if i < |s.seen| {
        assert r[..i] == s.seen[..i];
      } else {
        assert r[..i] == s.seen;
      }
    }
  }

  /** What a change inside one session must respect. */
  ghost predicate SafeChange(h: Handler, H: seq<Value>, runs: nat, s: Session, s': Session)
    requires Chain(h, H)
  {
    && SessionOk(h, H, runs, s')
    && s'.run == s.run
    && (Potent(s') ==> Potent(s))
    && (AboutToWrite(s') ==> (AboutToWrite(s) && s'.seen == s.seen) || s'.seen == H)
  }

  lemma SafeChangeKeeps(h: Handler, w: World, H: seq<Value>, i: nat, s': Session)
    requires Inv(h, w, H) && i < |w.sessions|
    requires SafeChange(h, H, |w.task.runs|, w.sessions[i], s')
    ensures Inv(h, SetSession(w, i, s'), H)
  {
  }

  /** Numbering the next action: its name is the one the history expects. */
  lemma NextUse(h: Handler, s: Session)
    requires h(s.seen).Takes() && CountersOk(h, s, false)
    ensures NextName(s.counters, h(s.seen).name).1 == NameAt(h, s.seen)
    ensures CountersOk(h, s.(counters := NextName(s.counters, h(s.seen).name).0), true)
  {
    var name := h(s.seen).name;
    var s' := s.(counters := NextName(s.counters, name).0);
    assert CountOf(s.counters, name) == UsesOf(h, s.seen, name);
    forall n ensures CountOf(s'.counters, n) == UsesOf(h, s.seen, n) + (if name == n then 1 else 0) {
      assert CountOf(s.counters, n) == UsesOf(h, s.seen, n);
    }
  }

  lemma SeenRow(h: Handler, H: seq<Value>, s: Session)
    requires Distinct(h, H) && s.seen <= H && |s.seen| < |H|
    ensures h(s.seen).Takes() && NameAt(h, s.seen) in Table(h, H) && Table(h, H)[NameAt(h, s.seen)] == H[|s.seen|]
  {
    assert H[..|s.seen|] == s.seen;
    RowAt(h, H, |s.seen|);
  }

  /** Storing a row the history already has keeps the cache a part of the store. */
  lemma CacheRow(h: Handler, H: seq<Value>, s: Session, v: Value)
    requires Distinct(h, H) && s.seen <= H && Submap(s.cache, Table(h, H))
    requires h(s.seen).Takes() && NextIs(H, s, v)
    ensures Submap(s.cache[NameAt(h, s.seen) := v], Table(h, H))
  {
    SeenRow(h, H, s);
  }

  /** Before its end, a lookup finds the next value of the history; at its end it finds nothing,
      unless the name is an earlier one. */
  lemma LookupIsNext(h: Handler, H: seq<Value>, s: Session)
    requires Distinct(h, H) && s.seen <= H && Submap(s.cache, Table(h, H)) && h(s.seen).Takes()
    ensures |s.seen| < |H| ==> Lookup(s.cache, Table(h, H), NameAt(h, s.seen)) == Some(H[|s.seen|])
    ensures s.seen == H ==> (Lookup(s.cache, Table(h, H), NameAt(h, s.seen)).None? <==> Fresh(h, H))
  {
    if |s.seen| < |H| {
      SeenRow(h, H, s);
    }
  }

  /** At the end of the history a harmless collision is a sleep with an unreadable value. */
  lemma HitAtEnd(h: Handler, H: seq<Value>, s: Session)
    requires NoHarmfulCollision(h) && Live(h, H) && s.seen == H && Submap(s.cache, Table(h, H))
    requires h(H).Takes() && !Fresh(h, H)
    ensures var found := Lookup(s.cache, Table(h, H), NameAt(h, H));
            found.Some? && Unreadable(h(H), found.value) && NameAt(h, H) in Table(h, H)
                && found.value == Table(h, H)[NameAt(h, H)]
  {
    var i := RowHasAction(h, H, NameAt(h, H));
    RowAt(h, H, i);
  }

  lemma BeginFails(h: Handler, H: seq<Value>, runs: nat, s: Session, counters: map<string, nat>,
      cache: map<string, Value>)
    requires Chain(h, H) && SessionOk(h, H, runs, s) && s.phase.Idle? && Submap(cache, Table(h, H))
    ensures SafeChange(h, H, runs, s, s.(counters := counters, cache := cache, phase := Failing))
  {
  }

  lemma BeginMiss(h: Handler, H: seq<Value>, runs: nat, s: Session)
    requires Fresh(h, H) && SessionOk(h, H, runs, s) && s.phase.Idle? && s.seen == H
    ensures SafeChange(h, H, runs, s,
            s.(counters := NextName(s.counters, h(s.seen).name).0, phase := Missed(NameAt(h, s.seen))))
  {
    NextUse(h, s);
    var s' := s.(counters := NextName(s.counters, h(s.seen).name).0, phase := Missed(NameAt(h, s.seen)));
    assert CountersOk(h, s', true);
  }

  lemma BeginHit(h: Handler, H: seq<Value>, runs: nat, s: Session, a: Action, v: Value, cache: map<string, Value>,
      proposed: int)
    requires Chain(h, H) && SessionOk(h, H, runs, s) && s.phase.Idle? && a == h(s.seen) && a.Takes()
    requires NextIs(H, s, v) && Submap(cache, Table(h, H))
    ensures var known := s.(counters := NextName(s.counters, a.name).0, cache := cache);
            if a.Sleep? then v.Time? && SafeChange(h, H, runs, s, known.(phase := Holding(v.at)))
            else SafeChange(h, H, runs, s, Observe(known, v))
  {
    NextUse(h, s);
    var begun := s.(counters := NextName(s.counters, a.name).0);
    var known := begun.(cache := cache);
    assert CountersOk(h, known, true) by { assert CountersOk(h, begun, true); }
    assert H[..|s.seen|] == s.seen;
    if a.Sleep? {
      var s' := known.(phase := Holding(v.at));
      assert CountersOk(h, s', true);
    } else {
      SeenExtends(h, H, known, v);
    }
  }

  /** Before the end of the history the lookup answers the action. */
  lemma BeginKnown(h: Handler, t: Task, H: seq<Value>, s: Session, proposed: int)
    requires StoreOk(h, t, H) && SessionOk(h, H, |t.runs|, s) && s.phase.Idle? && h(s.seen).Takes() && |s.seen| < |H|
    ensures SafeChange(h, H, |t.runs|, s, BeginAction(s, h(s.seen), Committed(t), proposed))
  {
    NextUse(h, s);
    LookupIsNext(h, H, s);
    CacheRow(h, H, s, H[|s.seen|]);
    BeginHit(h, H, |t.runs|, s, h(s.seen), H[|s.seen|], s.cache[NameAt(h, s.seen) := H[|s.seen|]], proposed);
  }

  lemma BeginNew(h: Handler, t: Task, H: seq<Value>, s: Session, proposed: int)
    requires StoreOk(h, t, H) && SessionOk(h, H, |t.runs|, s) && s.phase.Idle? && s.seen == H && Fresh(h, H)
    ensures SafeChange(h, H, |t.runs|, s, BeginAction(s, h(s.seen), Committed(t), proposed))
  {
    NextUse(h, s);
    LookupIsNext(h, H, s);
    BeginMiss(h, H, |t.runs|, s);
  }

  lemma BeginCollides(h: Handler, t: Task, H: seq<Value>, s: Session, proposed: int)
    requires NoHarmfulCollision(h) && StoreOk(h, t, H) && SessionOk(h, H, |t.runs|, s)
    requires s.phase.Idle? && s.seen == H && h(H).Takes() && !Fresh(h, H)
    ensures SafeChange(h, H, |t.runs|, s, BeginAction(s, h(s.seen), Committed(t), proposed))
  {
    NextUse(h, s);
    HitAtEnd(h, H, s);
    var n := NameAt(h, H);
    BeginFails(h, H, |t.runs|, s, NextName(s.counters, h(H).name).0, s.cache[n := Table(h, H)[n]]);
  }

  lemma BeginSafe(h: Handler, t: Task, H: seq<Value>, s: Session, proposed: int)
    requires NoHarmfulCollision(h) && StoreOk(h, t, H) && SessionOk(h, H, |t.runs|, s)
    requires s.phase.Idle? && h(s.seen).Takes()
    ensures SafeChange(h, H, |t.runs|, s, BeginAction(s, h(s.seen), Committed(t), proposed))
  {
    if |s.seen| < |H| {
      BeginKnown(h, t, H, s, proposed);
    } else if Fresh(h, H) {
      BeginNew(h, t, H, s, proposed);
    } else {
      BeginCollides(h, t, H, s, proposed);
    }
  }

  lemma ObserveAnswer(h: Handler, H: seq<Value>, runs: nat, s: Session, v: Value, cache: map<string, Value>)
    requires Chain(h, H) && SessionOk(h, H, runs, s) && s.phase.Answered? && Potent(s)
    requires CountersOk(h, s, true) && NextIs(H, s, v) && Submap(cache, Table(h, H))
    ensures h(s.seen).Sleep? ==> v.Time? && SafeChange(h, H, runs, s, s.(cache := cache, phase := Holding(v.at)))
    ensures !h(s.seen).Sleep? ==> SafeChange(h, H, runs, s, Observe(s.(cache := cache), v))
  {
    var known := s.(cache := cache);
    assert H[..|s.seen|] == s.seen;
    if h(s.seen).Sleep? {
      var s' := known.(phase := Holding(v.at));
      assert CountersOk(h, s', true);
    } else {
      SeenExtends(h, H, known, v);
    }
  }

  lemma ReceiveSafe(h: Handler, H: seq<Value>, runs: nat, s: Session, fac: bool)
    requires Distinct(h, H) && SessionOk(h, H, runs, s) && s.phase.Answered?
    ensures SafeChange(h, H, runs, s, Receive(s, h(s.seen).Sleep?, fac))
  {
    var req, reply := s.phase.req, s.phase.reply;
    if req.Persist? && reply.Done? {
      CacheRow(h, H, s, req.value);
      ObserveAnswer(h, H, runs, s, req.value, s.cache[req.checkpoint := req.value]);
    } else if req.Wait? && reply.Found? {
      CacheRow(h, H, s, reply.value);
      ObserveAnswer(h, H, runs, s, reply.value, s.cache[req.checkpoint := reply.value]);
    } else {
      EndSafe(h, H, runs, s, Receive(s, h(s.seen).Sleep?, fac));
    }
  }

  /** Ending a session, or leaving it to report a failure, is always safe. */
  lemma EndSafe(h: Handler, H: seq<Value>, runs: nat, s: Session, s': Session)
    requires Chain(h, H) && SessionOk(h, H, runs, s)
    requires s' == s.(phase := s'.phase) && (s'.phase.Gone? || s'.phase.Failing? || s'.phase == Sent(Fail))
    ensures SafeChange(h, H, runs, s, s')
  {
  }

  lemma WokenOk(h: Handler, s: Session, localNow: int)
    requires CountersOk(h, s, true) && SleptEnough(h, s)
    ensures var woken := s.(passed := s.passed[|s.seen| := localNow]);
            CountersOk(h, woken, true) && SleptEnough(h, woken)
  {
  }

  lemma WakeSafe(h: Handler, H: seq<Value>, runs: nat, s: Session, localNow: int)
    requires Chain(h, H) && SessionOk(h, H, runs, s) && s.phase.Holding? && localNow >= s.phase.wake
    ensures SafeChange(h, H, runs, s, CheckWake(s, localNow))
  {
    WokenOk(h, s, localNow);
    SeenExtends(h, H, s.(passed := s.passed[|s.seen| := localNow]), Time(s.phase.wake));
  }

  lemma RescheduleSafe(h: Handler, H: seq<Value>, runs: nat, s: Session)
    requires Chain(h, H) && SessionOk(h, H, runs, s) && s.phase.Holding?
    ensures SafeChange(h, H, runs, s, s.(phase := Sent(Schedule(s.phase.wake))))
  {
  }

  lemma CheckWakeSafe(h: Handler, H: seq<Value>, runs: nat, s: Session, localNow: int)
    requires Chain(h, H) && SessionOk(h, H, runs, s) && s.phase.Holding?
    ensures SafeChange(h, H, runs, s, CheckWake(s, localNow))
  {
    if localNow < s.phase.wake {
      RescheduleSafe(h, H, runs, s);
    } else {
      WakeSafe(h, H, runs, s, localNow);
    }
  }

  lemma SendSafe(h: Handler, H: seq<Value>, runs: nat, s: Session, req: Request)
    requires Chain(h, H) && SessionOk(h, H, runs, s) && !req.Fail?
    requires s.phase.Missed? || s.phase.Idle?
    requires WritesFor(h, s, req) && (s.phase.Missed? || req.Complete?)
    ensures SafeChange(h, H, runs, s, s.(phase := Sent(req)))
  {
    var s' := s.(phase := Sent(req));
    assert CountersOk(h, s, true) ==> CountersOk(h, s', true);
  }

  lemma CrashSafe(h: Handler, H: seq<Value>, runs: nat, s: Session)
    requires Chain(h, H) && SessionOk(h, H, runs, s) && s.phase.Sent?
    ensures SafeChange(h, H, runs, s, s.(phase := Late(s.phase.req)))
  {
    var s' := s.(phase := Late(s.phase.req));
    assert CountersOk(h, s, true) ==> CountersOk(h, s', true);
  }

  lemma PreloadSafe(h: Handler, t: Task, H: seq<Value>, s: Session)
    requires StoreOk(h, t, H) && SessionOk(h, H, |t.runs|, s) && s.phase.Preloading?
    ensures SafeChange(h, H, |t.runs|, s, s.(cache := CheckpointsFor(t, s.run), phase := Idle))
  {
    assert Submap(CheckpointsFor(t, s.run), Committed(t));
    var s' := s.(cache := CheckpointsFor(t, s.run), phase := Idle);
    assert CountersOk(h, s', false);
  }

  /** Every event that concerns one session changes it safely. */
  lemma LocalSafe(h: Handler, t: Task, H: seq<Value>, s: Session, e: Event)
    requires NoHarmfulCollision(h) && StoreOk(h, t, H) && SessionOk(h, H, |t.runs|, s)
    ensures SafeChange(h, H, |t.runs|, s, Local(h, t, s, e))
  {
    var s' := Local(h, t, s, e);
    if s' == s {
    } else if e.Begin? {
      BeginSafe(h, t, H, s, e.proposed);
    } else if e.LocalClock? {
      CheckWakeSafe(h, H, |t.runs|, s, e.localNow);
    } else if e.ReplyArrives? {
      ReceiveSafe(h, H, |t.runs|, s, e.again);
    } else if e.Preload? {
      PreloadSafe(h, t, H, s);
    } else if e.Compute? {
      SendSafe(h, H, |t.runs|, s, RequestFor(h(s.seen), s.phase.checkpoint, e.value, e.time));
    } else if e.Finish? && h(s.seen).Return? {
      SendSafe(h, H, |t.runs|, s, Complete(h(s.seen).result));
    } else if e.Crash? && s.phase.Sent? {
      CrashSafe(h, H, |t.runs|, s);
    } else {
      EndSafe(h, H, |t.runs|, s, s');
    }
  }
}
