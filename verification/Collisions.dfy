/** When step names may collide: durable execution is faithful (one committed row for every value
    of the history, and no session ahead of it) exactly when no action of a possible history gets
    the checkpoint name of an earlier one, except a sleep that cannot read what it finds. */
module Collisions {
  import opened Prelude
  import opened Store
  import opened Names
  import opened Replay
  import opened History
  import opened Invariant
  import opened Steps
  import opened Durable

  /** The store is a history with one row per value, and bounds what every session observed. */
  ghost predicate Faithful(h: Handler, w: World, H: seq<Value>) {
    && Chain(h, H) && Committed(w.task) == Table(h, H) && |Committed(w.task)| == |H|
    && forall i | 0 <= i < |w.sessions| :: w.sessions[i].seen <= H
  }

  ghost predicate AlwaysFaithful(h: Handler) {
    forall now, script :: SomehowFaithful(h, Exec(h, Start(now), script))
  }

  ghost predicate SomehowFaithful(h: Handler, w: World) {
    exists H :: Faithful(h, w, H)
  }

  lemma HarmlessIsFaithful(h: Handler)
    requires NoHarmfulCollision(h)
    ensures AlwaysFaithful(h)
  {
    forall now, script ensures SomehowFaithful(h, Exec(h, Start(now), script)) {
      var H, _ := Reach(h, now, script, []);
      TableSize(h, H);
      assert Faithful(h, Exec(h, Start(now), script), H);
    }
  }

  // ----- the other direction: a collision is always reached -----

  /** The time a recorded sleep holds. */
  function TimeOf(v: Value): int {
    if v.Time? then v.at else 0
  }

  /** What makes a lone worker observe `v` for action `a`: the event is emitted, the action begun,
      computed, sent, stored and answered, and the clock shows the wake time. */
  function ActionScript(a: Action, v: Value): seq<Event> {
    [Emit(if a.Await? then a.event else "", v), Begin(0, 0), Compute(0, v, TimeOf(v)), Serve(0, 0, Exhausted),
     ReplyArrives(0, false), LocalClock(0, TimeOf(v))]
  }

  /** One undisturbed worker, about to take the action after `p`; only events that `p` waited for
      have been emitted. */
  ghost predicate At(h: Handler, w: World, p: seq<Value>) {
    && Live(h, p) && |w.sessions| == 1
    && var s := w.sessions[0];
    && s.phase == Idle && s.seen == p && s.cache == Table(h, p) && CountersOk(h, s, false) && s.run == 0
    && TaskAt(h, w.task, p)
  }

  ghost predicate TaskAt(h: Handler, t: Task, p: seq<Value>) {
    && Chain(h, p) && Committed(t) == Table(h, p) && EventsOk(h, t.events, p)
    && (forall e | e in t.events :: WaitedFor(h, p, e))
    && |t.runs| == 1 && t.runs[0].state == Running && t.state == Running
    && (forall n | n in t.checkpoints :: t.checkpoints[n].owner == 0)
  }

  ghost predicate WaitedFor(h: Handler, p: seq<Value>, event: string) {
    exists i :: 0 <= i < |p| && h(p[..i]).Await? && h(p[..i]).event == event
  }

  lemma ExecCons(h: Handler, w: World, e: Event, rest: seq<Event>)
    ensures Exec(h, w, [e] + rest) == Exec(h, Do(h, w, e), rest)
  {
    assert ([e] + rest)[1..] == rest;
  }

  lemma ExecSix(h: Handler, w: World, script: seq<Event>)
    requires |script| == 6
    ensures Exec(h, w, script)
         == Do(h, Do(h, Do(h, Do(h, Do(h, Do(h, w, script[0]), script[1]), script[2]), script[3]), script[4]),
             script[5])
  {
    var w3 := Do(h, Do(h, Do(h, w, script[0]), script[1]), script[2]);
    ExecAppend(h, w, script[..3], script[3..]);
    assert script == script[..3] + script[3..];
    ExecThree(h, w, script[..3]);
    ExecThree(h, w3, script[3..]);
  }

  lemma ExecThree(h: Handler, w: World, script: seq<Event>)
    requires |script| == 3
    ensures Exec(h, w, script) == Do(h, Do(h, Do(h, w, script[0]), script[1]), script[2])
  {
    var a, b, c := script[0], script[1], script[2];
    assert script == [a] + ([b] + ([c] + []));
    ExecCons(h, w, a, [b] + ([c] + []));
    ExecCons(h, Do(h, w, a), b, [c] + []);
    ExecCons(h, Do(h, Do(h, w, a), b), c, []);
  }

  /** The next value of a possible history is what the events already say. */
  lemma NextPayload(h: Handler, events: map<string, Value>, p: seq<Value>, v: Value)
    requires OnePayload(h, p + [v]) && EventsOk(h, events, p) && h(p).Await? && WaitedFor(h, p, h(p).event)
    ensures h(p).event in events && events[h(p).event] == v
  {
    var r := p + [v];
    var i :| 0 <= i < |p| && h(p[..i]).Await? && h(p[..i]).event == h(p).event;
    assert r[..i] == p[..i] && r[..|p|] == p;
    assert SameEvent(h(r[..i]), h(r[..|p|]));
  }

  /** Events are kept, and only the awaited one is new. */
  ghost predicate EventsMove(h: Handler, p: seq<Value>, v: Value, events: map<string, Value>,
      later: map<string, Value>) {
    && (forall e | e in events :: e in later && later[e] == events[e])
    && (forall e | e in later :: e in events || (h(p).Await? && e == h(p).event))
    && (h(p).Await? ==> h(p).event in later && later[h(p).event] == v)
  }

  /** Emitting the awaited event, if it is new, leaves everything else. */
  lemma Emits(h: Handler, t: Task, p: seq<Value>, v: Value)
    requires OnePayload(h, p + [v]) && TaskAt(h, t, p) && h(p).Takes() && Accepted(h(p), NameAt(h, p))
    ensures var t' := EmitEvent(t, if h(p).Await? then h(p).event else "", v);
            t' == t.(events := t'.events) && EventsMove(h, p, v, t.events, t'.events)
  {
    if h(p).Await? && h(p).event in t.events {
      NextPayload(h, t.events, p, v);
    }
  }

  lemma BeginsAction(h: Handler, w: World, s: Session)
    requires w.sessions == [s] && s.phase == Idle && CountersOk(h, s, false) && Fresh(h, s.seen)
    requires s.cache == Table(h, s.seen) == Committed(w.task)
    ensures Do(h, w, Begin(0, 0))
         == w.(sessions := [s.(counters := NextName(s.counters, h(s.seen).name).0, phase := Missed(NameAt(h, s.seen)))])
  {
    NextUse(h, s);
  }

  /** The row a lone worker's request leaves. */
  function WithRow(t: Task, cp: string, v: Value): Task {
    t.(checkpoints := t.checkpoints[cp := Checkpoint(v, 0)])
  }

  predicate LoneRun(t: Task) {
    |t.runs| == 1 && t.runs[0].state == Running && t.state == Running
  }

  lemma CommitsStep(h: Handler, w: World, s: Session, cp: string, v: Value)
    requires w.sessions == [s] && s.phase == Missed(cp) && s.run == 0 && LoneRun(w.task)
    requires h(s.seen).Step? && !Blank(cp) && cp !in w.task.checkpoints
    ensures Committing(h, w, v) == World(WithRow(w.task, cp, v),
            [s.(cache := s.cache[cp := v], seen := s.seen + [v], phase := Idle)])
  {
    var w2 := Do(h, w, Compute(0, v, TimeOf(v)));
    assert w2 == World(w.task, [s.(phase := Sent(Persist(cp, v)))]);
    assert w.task.runs[0 := w.task.runs[0]] == w.task.runs;
    var w3 := Do(h, w2, Serve(0, 0, Exhausted));
    assert w3 == World(WithRow(w.task, cp, v), [s.(phase := Answered(Persist(cp, v), Done))]);
  }

  lemma CommitsWait(h: Handler, w: World, s: Session, cp: string, v: Value)
    requires w.sessions == [s] && s.phase == Missed(cp) && s.run == 0 && LoneRun(w.task)
    requires h(s.seen).Await? && !Blank(h(s.seen).event) && cp !in w.task.checkpoints
    requires h(s.seen).event in w.task.events && w.task.events[h(s.seen).event] == v
    ensures Committing(h, w, v) == World(WithRow(w.task, cp, v),
            [s.(cache := s.cache[cp := v], seen := s.seen + [v], phase := Idle)])
  {
    var req := Request.Wait(cp, h(s.seen).event);
    var w2 := Do(h, w, Compute(0, v, TimeOf(v)));
    assert w2 == World(w.task, [s.(phase := Sent(req))]);
    var w3 := Do(h, w2, Serve(0, 0, Exhausted));
    assert w3 == World(WithRow(w.task, cp, v), [s.(phase := Answered(req, Found(v)))]);
  }

  lemma CommitsSleep(h: Handler, w: World, s: Session, cp: string, v: Value)
    requires w.sessions == [s] && s.phase == Missed(cp) && s.run == 0 && LoneRun(w.task)
    requires h(s.seen).Sleep? && v.Time? && !Blank(cp) && cp !in w.task.checkpoints
    ensures Committing(h, w, v)
         == World(WithRow(w.task, cp, v),
                  [s.(cache := s.cache[cp := v], passed := s.passed[|s.seen| := v.at], seen := s.seen + [v],
                      phase := Idle)])
  {
    var w2 := Do(h, w, Compute(0, v, v.at));
    assert w2 == World(w.task, [s.(phase := Sent(Persist(cp, v)))]);
    assert w.task.runs[0 := w.task.runs[0]] == w.task.runs;
    var w3 := Do(h, w2, Serve(0, 0, Exhausted));
    assert w3 == World(WithRow(w.task, cp, v), [s.(phase := Answered(Persist(cp, v), Done))]);
    var w4 := Do(h, w3, ReplyArrives(0, false));
    assert w4 == World(WithRow(w.task, cp, v), [s.(cache := s.cache[cp := v], phase := Holding(v.at))]);
  }

  /** The last four events of an action's script. */
  function Committing(h: Handler, w: World, v: Value): World {
    Do(h, Do(h, Do(h, Do(h, w, Compute(0, v, TimeOf(v))), Serve(0, 0, Exhausted)), ReplyArrives(0, false)),
        LocalClock(0, TimeOf(v)))
  }

  lemma CountedOn(h: Handler, s: Session, s': Session, v: Value)
    requires CountersOk(h, s, true) && h(s.seen).Takes()
    requires s'.counters == s.counters && s'.seen == s.seen + [v]
    ensures CountersOk(h, s', false)
  {
    assert (s.seen + [v])[..|s.seen|] == s.seen;
  }

  lemma WaitsMove(h: Handler, p: seq<Value>, v: Value, event: string)
    requires WaitedFor(h, p, event) || (h(p).Await? && h(p).event == event)
    ensures WaitedFor(h, p + [v], event)
  {
    var r := p + [v];
    if WaitedFor(h, p, event) {
      var i :| 0 <= i < |p| && h(p[..i]).Await? && h(p[..i]).event == event;
      assert r[..i] == p[..i];
    } else {
      assert r[..|p|] == p;
    }
  }

  lemma EventsMoveOk(h: Handler, p: seq<Value>, v: Value, events: map<string, Value>, later: map<string, Value>)
    requires EventsMove(h, p, v, events, later) && EventsOk(h, events, p)
    requires forall e | e in events :: WaitedFor(h, p, e)
    ensures EventsOk(h, later, p) && forall e | e in later :: WaitedFor(h, p + [v], e)
  {
    forall e | e in later ensures WaitedFor(h, p + [v], e) {
      WaitsMove(h, p, v, e);
    }
  }

  lemma RowsMove(h: Handler, t: Task, events: map<string, Value>, p: seq<Value>, v: Value)
    requires Fresh(h, p) && Committed(t) == Table(h, p) && (h(p).Sleep? ==> v.Time?)
    ensures Chain(h, p + [v]) && Committed(WithRow(t.(events := events), NameAt(h, p), v)) == Table(h, p + [v])
  {
    TableExtend(h, p, v);
    RowEntered(t, events, NameAt(h, p), v);
  }

  lemma RowEntered(t: Task, events: map<string, Value>, name: string, v: Value)
    ensures Committed(WithRow(t.(events := events), name, v)) == Committed(t)[name := v]
  {
  }

  lemma TaskMoves(h: Handler, t: Task, events: map<string, Value>, p: seq<Value>, v: Value)
    requires TaskAt(h, t, p) && Live(h, p) && Fresh(h, p) && (h(p).Sleep? ==> v.Time?) && Accepted(h(p), NameAt(h, p))
    requires EventsMove(h, p, v, t.events, events)
    ensures TaskAt(h, WithRow(t.(events := events), NameAt(h, p), v), p + [v])
  {
    RowsMove(h, t, events, p, v);
    EventsMoveOk(h, p, v, t.events, events);
    HistoryGrows(h, events, p, v);
  }

  /** The last four events store the row and show its value to the handler. */
  lemma CommitsAction(h: Handler, w: World, s: Session, cp: string, v: Value)
    requires w.sessions == [s] && s.phase == Missed(cp) && s.run == 0 && LoneRun(w.task) && cp !in w.task.checkpoints
    requires h(s.seen).Takes() && Accepted(h(s.seen), cp) && (h(s.seen).Sleep? ==> v.Time?)
    requires h(s.seen).Await? ==> h(s.seen).event in w.task.events && w.task.events[h(s.seen).event] == v
    ensures var w' := Committing(h, w, v);
            && w'.task == WithRow(w.task, cp, v) && |w'.sessions| == 1
            && w'.sessions[0] == s.(cache := s.cache[cp := v], seen := s.seen + [v], phase := Idle,
                passed := w'.sessions[0].passed)
  {
    match h(s.seen)
    case Step(_) => CommitsStep(h, w, s, cp, v);
    case Sleep(_) => CommitsSleep(h, w, s, cp, v);
    case Await(_, _) => CommitsWait(h, w, s, cp, v);
  }

  lemma NextIsFresh(h: Handler, p: seq<Value>, v: Value)
    requires Live(h, p + [v])
    ensures Live(h, p) && Fresh(h, p) && (h(p).Sleep? ==> v.Time?) && Accepted(h(p), NameAt(h, p))
  {
    var r := p + [v];
    LivePrefix(h, r, |p|);
    assert r[..|p|] == p && r[|p|] == v;
    assert forall i | 0 <= i < |p| :: r[..i] == p[..i];
    FreshMeansNew(h, p);
  }

  /** The first two events: the awaited event is there, and the action has begun under a new name. */
  lemma ActionBegins(h: Handler, w: World, p: seq<Value>, v: Value)
    requires At(h, w, p) && Live(h, p + [v]) && Fresh(h, p) && Accepted(h(p), NameAt(h, p))
    ensures var s, w1 := w.sessions[0], Do(h, w, Emit(if h(p).Await? then h(p).event else "", v));
            && w1.task == w.task.(events := w1.task.events) && EventsMove(h, p, v, w.task.events, w1.task.events)
            && NameAt(h, p) !in w.task.checkpoints
            && Do(h, w1, Begin(0, 0))
            == World(w1.task, [s.(counters := NextName(s.counters, h(p).name).0, phase := Missed(NameAt(h, p)))])
  {
    Emits(h, w.task, p, v);
    var w1 := Do(h, w, Emit(if h(p).Await? then h(p).event else "", v));
    assert Committed(w1.task) == Committed(w.task);
    assert NameAt(h, p) !in w.task.checkpoints by { assert NameAt(h, p) !in Committed(w.task); }
    BeginsAction(h, w1, w.sessions[0]);
  }

  lemma OneAction(h: Handler, w: World, p: seq<Value>, v: Value)
    requires At(h, w, p) && Live(h, p + [v])
    ensures h(p).Takes() && At(h, Exec(h, w, ActionScript(h(p), v)), p + [v])
  {
    NextIsFresh(h, p, v);
    var s := w.sessions[0];
    var w1 := Do(h, w, Emit(if h(p).Await? then h(p).event else "", v));
    ActionBegins(h, w, p, v);
    var w2 := Do(h, w1, Begin(0, 0));
    NextUse(h, s);
    CommitsAction(h, w2, w2.sessions[0], NameAt(h, p), v);
    ExecSix(h, w, ActionScript(h(p), v));
    TaskMoves(h, w.task, w1.task.events, p, v);
    TableExtend(h, p, v);
    CountedOn(h, w2.sessions[0], Committing(h, w2, v).sessions[0], v);
  }

  lemma ClaimFirst(h: Handler, now: int)
    ensures At(h, Exec(h, Start(now), [ClaimRun(0, 0), Preload(0)]), [])
  {
    var w := Start(now);
    var w1 := Do(h, w, ClaimRun(0, 0));
    var w2 := Do(h, w1, Preload(0));
    assert [ClaimRun(0, 0), Preload(0)] == [ClaimRun(0, 0)] + ([Preload(0)] + []);
    ExecCons(h, w, ClaimRun(0, 0), [Preload(0)] + []);
    ExecCons(h, w1, Preload(0), []);
    assert w1.sessions == [Session(0, map[], map[], [], map[], Preloading)];
    assert w1.task.checkpoints == map[];
    assert Committed(w2.task) == map[] && CheckpointsFor(w1.task, 0) == map[];
  }

  /** One worker left alone reaches every history that can happen. */
  lemma {:induction false} Build(h: Handler, now: int, p: seq<Value>) returns (script: seq<Event>)
    requires Live(h, p)
    ensures At(h, Exec(h, Start(now), script), p)
    decreases |p|
  {
    if p == [] {
      script := [ClaimRun(0, 0), Preload(0)];
      ClaimFirst(h, now);
    } else {
      var q, v := p[..|p| - 1], p[|p| - 1];
      assert p == q + [v];
      LivePrefix(h, p, |q|);
      var before := Build(h, now, q);
      OneAction(h, Exec(h, Start(now), before), q, v);
      script := before + ActionScript(h(q), v);
      ExecAppend(h, Start(now), before, ActionScript(h(q), v));
    }
  }

  /** At a collision the handler's action is answered with the earlier row and never happens. */
  lemma CollisionAnswers(h: Handler, w: World, p: seq<Value>) returns (wake: int)
    requires At(h, w, p) && h(p).Takes() && NameAt(h, p) in Table(h, p) && !Unreadable(h(p), Table(h, p)[NameAt(h, p)])
    ensures var w' := Do(h, Do(h, w, Begin(0, 0)), LocalClock(0, wake));
            w'.task == w.task && |w'.sessions| == 1 && |w'.sessions[0].seen| == |p| + 1
  {
    NextUse(h, w.sessions[0]);
    var w1 := Do(h, w, Begin(0, 0));
    wake := if w1.sessions[0].phase.Holding? then w1.sessions[0].phase.wake else 0;
  }

  lemma CollisionOutruns(h: Handler, w: World, p: seq<Value>, i: nat) returns (wake: int)
    requires At(h, w, p) && i < |p| && h(p).Takes() && NameAt(h, p[..i]) == NameAt(h, p) && !Unreadable(h(p), p[i])
    ensures !SomehowFaithful(h, Do(h, Do(h, w, Begin(0, 0)), LocalClock(0, wake)))
  {
    RowAt(h, p, i);
    wake := CollisionAnswers(h, w, p);
    TableSize(h, p);
    TooManySeen(h, Do(h, Do(h, w, Begin(0, 0)), LocalClock(0, wake)), p);
  }

  lemma NotAlways(h: Handler, script: seq<Event>)
    requires !SomehowFaithful(h, Exec(h, Start(0), script))
    ensures !AlwaysFaithful(h)
  {
  }

  lemma CollisionUnfaithful(h: Handler, p: seq<Value>, i: nat)
    requires i < |p| && Live(h, p) && h(p).Takes() && NameAt(h, p[..i]) == NameAt(h, p) && !Unreadable(h(p), p[i])
    ensures !AlwaysFaithful(h)
  {
    var before := Build(h, 0, p);
    var wake := CollisionOutruns(h, Exec(h, Start(0), before), p, i);
    ExecTwoMore(h, before, Begin(0, 0), LocalClock(0, wake));
    NotAlways(h, before + ([Begin(0, 0)] + ([LocalClock(0, wake)] + [])));
  }

  lemma ExecTwoMore(h: Handler, before: seq<Event>, a: Event, b: Event)
    ensures Exec(h, Start(0), before + ([a] + ([b] + []))) == Do(h, Do(h, Exec(h, Start(0), before), a), b)
  {
    var w := Exec(h, Start(0), before);
    ExecAppend(h, Start(0), before, [a] + ([b] + []));
    ExecCons(h, w, a, [b] + []);
    ExecCons(h, Do(h, w, a), b, []);
  }

  lemma TooManySeen(h: Handler, w: World, p: seq<Value>)
    requires |w.sessions| == 1 && |Committed(w.task)| == |p| < |w.sessions[0].seen|
    ensures !SomehowFaithful(h, w)
  {
  }

  /** The exact condition, for every handler. */
  lemma FaithfulIffHarmless(h: Handler)
    ensures AlwaysFaithful(h) <==> NoHarmfulCollision(h)
  {
    if NoHarmfulCollision(h) {
      HarmlessIsFaithful(h);
    } else {
      var p: seq<Value>, i: nat :|
        i < |p| && Live(h, p) && h(p).Takes() && NameAt(h, p[..i]) == NameAt(h, p) && !Unreadable(h(p), p[i]);
      CollisionUnfaithful(h, p, i);
    }
  }

  lemma FirstTwoNames(h: Handler, p: seq<Value>)
    requires |p| == 1 && h([]) == Step("a") && h(p) == Step("a")
    ensures NameAt(h, []) == "a" && NameAt(h, p) == "a#2" && "a" != "a#2"
  {
    assert p[..0] == [] && Decimal(2) == "2";
    assert UsesOf(h, [], "a") == 0 && UsesOf(h, p, "a") == 1;
    assert |"a"| != |"a#2"|;
  }

  /** Two steps named `a`, then an action whose own name is `a#2`. */
  lemma SecondAMeetsA2(h: Handler, p: seq<Value>)
    requires |p| == 2 && h([]) == Step("a") && h(p[..1]) == Step("a")
    requires h(p).Takes() && h(p).name == "a#2"
    ensures Live(h, p) && NameAt(h, []) == "a" && NameAt(h, p[..1]) == NameAt(h, p) == "a#2"
  {
    FirstTwoNames(h, p[..1]);
    assert p[..0] == [] && p[..1][..0] == [] && p[..2] == p;
    assert UsesOf(h, [], "a#2") == 0 && UsesOf(h, p[..1], "a#2") == 0 && UsesOf(h, p, "a#2") == 0;
    assert "a"[0] != ' ' && "a#2"[0] != ' ';
  }

  /** A handler that collides: its third step is answered with the second one's value. */
  function Colliding(p: seq<Value>): Action {
    if |p| < 2 then Step("a") else if |p| == 2 then Step("a#2") else Return(p[2])
  }

  lemma CollidingIsUnfaithful()
    ensures !AlwaysFaithful(Colliding)
  {
    var p := [Json("x"), Json("x")];
    SecondAMeetsA2(Colliding, p);
    CollisionUnfaithful(Colliding, p, 1);
  }

  /** A handler that collides without harm: its third action, a sleep, can only meet a text that
      is no time, and fails every attempt. */
  function FailingSleep(p: seq<Value>): Action {
    if |p| < 2 then Step("a") else if |p| == 2 && p[1] == Json("z") then Sleep("a#2") else Return(p[0])
  }

  lemma HarmlessCollision()
    ensures AlwaysFaithful(FailingSleep)
    ensures exists p: seq<Value>, i: nat :: i < |p| && Live(FailingSleep, p) && FailingSleep(p).Takes()
                                          && NameAt(FailingSleep, p[..i]) == NameAt(FailingSleep, p)
  {
    var h: Handler := FailingSleep;
    var p := [Json("x"), Json("z")];
    SecondAMeetsA2(h, p);
    forall q: seq<Value>, i: nat | i < |q| && Live(h, q) && h(q).Takes() && NameAt(h, q[..i]) == NameAt(h, q)
      ensures Unreadable(h(q), q[i])
    {
      assert q[..0] == [];
      if |q| == 1 {
        FirstTwoNames(h, q);
      } else {
        SecondAMeetsA2(h, q);
      }
    }
    FaithfulIffHarmless(h);
  }
}
