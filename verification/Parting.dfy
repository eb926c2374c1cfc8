/** Where a handler's memory and the store part: the laws of replay carry over to handlers that see
    values in memory exactly when these handlers do not notice the difference. */
module Parting {
  import opened Prelude
  import opened Store
  import opened Names
  import opened Replay
  import opened History
  import opened Invariant
  import opened Steps
  import opened Durable
  import opened Collisions
  import opened RoundTrip

  /** Names without `#` that the store takes. */
  ghost predicate UsableNames(g: Handler) {
    forall p: seq<Value> | g(p).Takes() :: UsableAction(g(p))
  }

  predicate UsableAction(a: Action)
    requires a.Takes()
  {
    HashFree(a.name) && if a.Await? then !Blank(a.event) else !Blank(a.name)
  }

  /** Only steps. */
  ghost predicate PlainSteps(g: Handler) {
    UsableNames(g) && forall p: seq<Value> :: g(p).Step? || g(p).Return? || g(p).Throw?
  }

  /** The rows are a history with one row per value, and a result is the handler's on it. */
  ghost predicate Replayable(g: Handler, t: Task, H: seq<Value>) {
    && Chain(g, H) && Committed(t) == Table(g, H) && |Committed(t)| == |H|
    && (t.result.Some? ==> g(H) == Return(t.result.value))
  }

  ghost predicate AlwaysReplayable(g: Handler, norm: Codec) {
    forall now, script :: SomehowReplayable(g, ActAll(g, norm, Init(now), script).w.task)
  }

  ghost predicate SomehowReplayable(g: Handler, t: Task) {
    exists H :: Replayable(g, t, H)
  }

  /** And every session has acted on a prefix of that history as the handler does. */
  ghost predicate Follows(g: Handler, norm: Codec, m: System, H: seq<Value>) {
    && Replayable(g, m.w.task, H)
    && forall j | 0 <= j < |m.memory| ::
        Decoded(norm, m.memory[j].observed) <= H && Agreed(g, norm, m.memory[j].observed)
  }

  ghost predicate SomehowFollows(g: Handler, norm: Codec, m: System) {
    exists H :: Follows(g, norm, m, H)
  }

  ghost predicate AlwaysFollows(g: Handler, norm: Codec) {
    forall now, script :: SomehowFollows(g, norm, ActAll(g, norm, Init(now), script))
  }

  lemma UsableNeverCollide(g: Handler)
    requires UsableNames(g)
    ensures NoHarmfulCollision(g)
  {
    HashFreeNeverCollides(g);
  }

  lemma TolerantFollows(g: Handler, norm: Codec)
    requires NoHarmfulCollision(g) && Tolerant(g, norm) && IsRoundTrip(norm)
    ensures AlwaysFollows(g, norm)
  {
    forall now, script ensures SomehowFollows(g, norm, ActAll(g, norm, Init(now), script)) {
      var m := ActAll(g, norm, Init(now), script);
      var plain := TolerantIsPlain(g, norm, now, script);
      var H, _ := Reach(g, now, plain, []);
      assert plain + [] == plain;
      TableSize(g, H);
      SessionsFollow(g, norm, m, H);
    }
  }

  lemma SessionsFollow(g: Handler, norm: Codec, m: System, H: seq<Value>)
    requires Inv(g, m.w, H) && |m.memory| == |m.w.sessions| && |Committed(m.w.task)| == |H|
    requires forall j | 0 <= j < |m.memory| ::
               m.w.sessions[j].seen == Decoded(norm, m.memory[j].observed) && Agreed(g, norm, m.memory[j].observed)
    ensures Follows(g, norm, m, H)
  {
    forall j | 0 <= j < |m.memory| ensures Decoded(norm, m.memory[j].observed) <= H {
      assert SessionOk(g, H, |m.w.task.runs|, m.w.sessions[j]);
    }
  }

  lemma TolerantIsReplayable(g: Handler, norm: Codec)
    requires NoHarmfulCollision(g) && Tolerant(g, norm) && IsRoundTrip(norm)
    ensures AlwaysReplayable(g, norm)
  {
    TolerantFollows(g, norm);
    forall now, script ensures SomehowReplayable(g, ActAll(g, norm, Init(now), script).w.task) {
      var m := ActAll(g, norm, Init(now), script);
      assert SomehowFollows(g, norm, m);
      var H :| Follows(g, norm, m, H);
      assert Replayable(g, m.w.task, H);
    }
  }

  // ----- a lone worker takes one action -----

  /** A lone worker that holds `p` in memory. */
  ghost predicate Holds(g: Handler, norm: Codec, m: System, p: seq<Value>) {
    At(g, m.w, Decoded(norm, p)) && |m.memory| == 1 && m.memory[0].observed == p
  }

  /** A lone worker and its memory. */
  function Lone(t: Task, s: Session, mem: Memory): System {
    System(World(t, [s]), [mem])
  }

  lemma EmitAlone(g: Handler, norm: Codec, t: Task, s: Session, mem: Memory, event: string, v: Value)
    requires LoneRun(t) && !Blank(event) && Fixed(norm, v) && (event in t.events ==> t.events[event] == v)
    ensures Act(g, norm, Lone(t, s, mem), Emit(event, v)) == Lone(t.(events := t.events[event := v]), s, mem)
  {
    assert event in t.events ==> t.events[event := v] == t.events;
  }

  lemma BeginAlone(g: Handler, norm: Codec, t: Task, s: Session, mem: Memory, cp: string)
    requires g(mem.observed).Takes() && s.phase == Idle && cp !in s.cache && cp !in Committed(t)
    requires cp == NextName(s.counters, g(mem.observed).name).1
    ensures Act(g, norm, Lone(t, s, mem), Begin(0, 0))
         == Lone(t, s.(counters := NextName(s.counters, g(mem.observed).name).0, phase := Missed(cp)), mem)
  {
  }

  lemma ComputeAlone(g: Handler, norm: Codec, t: Task, s: Session, mem: Memory, cp: string, v: Value, time: int)
    requires s.phase == Missed(cp)
    ensures Act(g, norm, Lone(t, s, mem), Compute(0, v, time))
         == Lone(t, s.(phase := Sent(RequestFor(g(mem.observed), cp, norm(v), time))), mem.(computed := v))
  {
  }

  lemma ServeAlone(g: Handler, norm: Codec, t: Task, s: Session, mem: Memory, cp: string, x: Value)
    requires s.phase == Sent(Persist(cp, x)) && s.run == 0 && LoneRun(t) && cp !in t.checkpoints && !Blank(cp)
    ensures Act(g, norm, Lone(t, s, mem), Serve(0, 0, Exhausted))
         == Lone(WithRow(t, cp, x), s.(phase := Answered(Persist(cp, x), Done)), mem)
  {
    assert t.runs[0 := t.runs[0]] == t.runs;
  }

  lemma ServeWaitAlone(g: Handler, norm: Codec, t: Task, s: Session, mem: Memory, cp: string, event: string)
    requires s.phase == Sent(Request.Wait(cp, event)) && s.run == 0 && LoneRun(t) && cp !in t.checkpoints
    requires !Blank(event) && event in t.events
    ensures Act(g, norm, Lone(t, s, mem), Serve(0, 0, Exhausted))
         == Lone(WithRow(t, cp, t.events[event]),
             s.(phase := Answered(Request.Wait(cp, event), Found(t.events[event]))), mem)
  {
  }

  lemma ReplyStepAlone(g: Handler, norm: Codec, t: Task, s: Session, mem: Memory, cp: string, x: Value)
    requires s.phase == Answered(Persist(cp, x), Done) && !g(mem.observed).Sleep?
    ensures Act(g, norm, Lone(t, s, mem), ReplyArrives(0, false))
         == Lone(t, s.(cache := s.cache[cp := x], seen := s.seen + [x], phase := Idle),
                 mem.(observed := mem.observed + [mem.computed]))
  {
  }

  lemma ReplySleepAlone(g: Handler, norm: Codec, t: Task, s: Session, mem: Memory, cp: string, x: Value)
    requires s.phase == Answered(Persist(cp, x), Done) && g(mem.observed).Sleep? && x.Time?
    ensures Act(g, norm, Lone(t, s, mem), ReplyArrives(0, false))
         == Lone(t, s.(cache := s.cache[cp := x], phase := Holding(x.at)), mem)
  {
  }

  lemma ReplyWaitAlone(g: Handler, norm: Codec, t: Task, s: Session, mem: Memory, cp: string, event: string, v: Value)
    requires s.phase == Answered(Request.Wait(cp, event), Found(v))
    ensures Act(g, norm, Lone(t, s, mem), ReplyArrives(0, false))
         == Lone(t, s.(cache := s.cache[cp := v], seen := s.seen + [v], phase := Idle),
             mem.(observed := mem.observed + [v]))
  {
  }

  lemma ClockAlone(g: Handler, norm: Codec, t: Task, s: Session, mem: Memory, at: int)
    requires s.phase == Holding(at)
    ensures Act(g, norm, Lone(t, s, mem), LocalClock(0, at))
         == Lone(t, s.(passed := s.passed[|s.seen| := at], seen := s.seen + [Time(at)], phase := Idle),
                 mem.(observed := mem.observed + [Time(at)]))
  {
  }

  lemma ActAllAppend(g: Handler, norm: Codec, m: System, a: seq<Event>, b: seq<Event>)
    ensures ActAll(g, norm, m, a + b) == ActAll(g, norm, ActAll(g, norm, m, a), b)
    decreases |a|
  {
    if a == [] {
      assert a + b == b;
    } else {
      assert (a + b)[0] == a[0] && (a + b)[1..] == a[1..] + b;
      ActAllAppend(g, norm, Act(g, norm, m, a[0]), a[1..], b);
    }
  }

  lemma ActCons(g: Handler, norm: Codec, m: System, e: Event, rest: seq<Event>)
    ensures ActAll(g, norm, m, [e] + rest) == ActAll(g, norm, Act(g, norm, m, e), rest)
  {
    assert ([e] + rest)[1..] == rest;
  }

  lemma ActTwo(g: Handler, norm: Codec, m: System, a: Event, b: Event)
    ensures ActAll(g, norm, m, [a, b]) == Act(g, norm, Act(g, norm, m, a), b)
  {
    assert [a, b] == [a] + ([b] + []);
    ActCons(g, norm, m, a, [b] + []);
    ActCons(g, norm, Act(g, norm, m, a), b, []);
  }

  lemma ActFive(g: Handler, norm: Codec, m: System, a: Event, b: Event, c: Event, d: Event, e: Event)
    ensures ActAll(g, norm, m, [a, b] + ([c, d] + [e]))
         == Act(g, norm, Act(g, norm, Act(g, norm, Act(g, norm, Act(g, norm, m, a), b), c), d), e)
  {
    ActAllAppend(g, norm, m, [a, b], [c, d] + [e]);
    ActTwo(g, norm, m, a, b);
    var m2 := ActAll(g, norm, m, [a, b]);
    ActAllAppend(g, norm, m2, [c, d], [e]);
    ActTwo(g, norm, m2, c, d);
    assert [e] == [e] + [];
    ActCons(g, norm, ActAll(g, norm, m2, [c, d]), e, []);
  }

  /** What makes the lone worker observe `v`: emission of the awaited event, beginning, computing,
      sending, storing, answering, and the clock of a sleep. */
  function Script(a: Action, v: Value): seq<Event>
    requires a.Takes()
  {
    match a
    case Step(_) =>
      [TimePasses(0), Begin(0, 0)] + ([Compute(0, v, 0), Serve(0, 0, Exhausted)] + [ReplyArrives(0, false)])
    case Await(_, event) =>
      [Emit(event, v), Begin(0, 0)] + ([Compute(0, v, 0), Serve(0, 0, Exhausted)] + [ReplyArrives(0, false)])
    case Sleep(_) =>
      [Begin(0, 0), Compute(0, v, TimeOf(v))]
          + ([Serve(0, 0, Exhausted), ReplyArrives(0, false)] + [LocalClock(0, TimeOf(v))])
  }

  /** The events after the action. */
  function EventsAfter(t: Task, a: Action, v: Value): map<string, Value> {
    if a.Await? then t.events[a.event := v] else t.events
  }

  /** A lone worker that can take action `a` under a new name and observe `v`. */
  ghost predicate CanTake(norm: Codec, t: Task, s: Session, a: Action, cp: string, v: Value) {
    && s.phase == Idle && s.run == 0 && LoneRun(t) && a.Takes()
    && cp == NextName(s.counters, a.name).1 && cp !in s.cache && cp !in t.checkpoints && Accepted(a, cp)
    && (a.Sleep? ==> v.Time?) && (a.Step? || Fixed(norm, v))
    && (a.Await? && a.event in t.events ==> t.events[a.event] == v)
  }

  /** The lone worker after that. */
  function Taken(norm: Codec, t: Task, s: Session, mem: Memory, a: Action, cp: string, v: Value): System
    requires a.Takes()
  {
    Lone(WithRow(t.(events := EventsAfter(t, a, v)), cp, norm(v)),
         s.(counters := NextName(s.counters, a.name).0, cache := s.cache[cp := norm(v)], seen := s.seen + [norm(v)],
            passed := if a.Sleep? then s.passed[|s.seen| := TimeOf(v)] else s.passed),
         Memory(mem.observed + [v], v))
  }

  lemma PassAlone(g: Handler, norm: Codec, t: Task, s: Session, mem: Memory)
    ensures Act(g, norm, Lone(t, s, mem), TimePasses(0)) == Lone(t, s, mem)
  {
  }

  lemma StepTaken(g: Handler, norm: Codec, t: Task, s: Session, mem: Memory, a: Action, cp: string, v: Value)
    requires CanTake(norm, t, s, a, cp, v) && a == g(mem.observed) && a.Step?
    ensures ActAll(g, norm, Lone(t, s, mem), Script(a, v)) == Taken(norm, t, s, mem, a, cp, v)
  {
    var begun := s.(counters := NextName(s.counters, a.name).0, phase := Missed(cp));
    var x := norm(v);
    ActFive(g, norm, Lone(t, s, mem), TimePasses(0), Begin(0, 0), Compute(0, v, 0), Serve(0, 0, Exhausted),
        ReplyArrives(0, false));
    PassAlone(g, norm, t, s, mem);
    BeginAlone(g, norm, t, s, mem, cp);
    ComputeAlone(g, norm, t, begun, mem, cp, v, 0);
    ServeAlone(g, norm, t, begun.(phase := Sent(Persist(cp, x))), mem.(computed := v), cp, x);
    ReplyStepAlone(g, norm, WithRow(t, cp, x), begun.(phase := Answered(Persist(cp, x), Done)), mem.(computed := v),
        cp, x);
    assert t.(events := t.events) == t;
  }

  lemma WaitTaken(g: Handler, norm: Codec, t: Task, s: Session, mem: Memory, a: Action, cp: string, v: Value)
    requires CanTake(norm, t, s, a, cp, v) && a == g(mem.observed) && a.Await?
    ensures ActAll(g, norm, Lone(t, s, mem), Script(a, v)) == Taken(norm, t, s, mem, a, cp, v)
  {
    var begun := s.(counters := NextName(s.counters, a.name).0, phase := Missed(cp));
    var u, req := t.(events := t.events[a.event := v]), Request.Wait(cp, a.event);
    ActFive(g, norm, Lone(t, s, mem), Emit(a.event, v), Begin(0, 0), Compute(0, v, 0), Serve(0, 0, Exhausted),
        ReplyArrives(0, false));
    EmitAlone(g, norm, t, s, mem, a.event, v);
    BeginAlone(g, norm, u, s, mem, cp);
    ComputeAlone(g, norm, u, begun, mem, cp, v, 0);
    ServeWaitAlone(g, norm, u, begun.(phase := Sent(req)), mem.(computed := v), cp, a.event);
    ReplyWaitAlone(g, norm, WithRow(u, cp, v), begun.(phase := Answered(req, Found(v))), mem.(computed := v), cp,
        a.event, v);
  }

  lemma SleepTaken(g: Handler, norm: Codec, t: Task, s: Session, mem: Memory, a: Action, cp: string, v: Value)
    requires CanTake(norm, t, s, a, cp, v) && a == g(mem.observed) && a.Sleep?
    ensures ActAll(g, norm, Lone(t, s, mem), Script(a, v)) == Taken(norm, t, s, mem, a, cp, v)
  {
    var begun := s.(counters := NextName(s.counters, a.name).0, phase := Missed(cp));
    var held := begun.(cache := s.cache[cp := v], phase := Holding(v.at));
    ActFive(g, norm, Lone(t, s, mem), Begin(0, 0), Compute(0, v, v.at), Serve(0, 0, Exhausted), ReplyArrives(0, false),
        LocalClock(0, v.at));
    BeginAlone(g, norm, t, s, mem, cp);
    ComputeAlone(g, norm, t, begun, mem, cp, v, v.at);
    ServeAlone(g, norm, t, begun.(phase := Sent(Persist(cp, v))), mem.(computed := v), cp, v);
    ReplySleepAlone(g, norm, WithRow(t, cp, v), begun.(phase := Answered(Persist(cp, v), Done)), mem.(computed := v),
        cp, v);
    ClockAlone(g, norm, WithRow(t, cp, v), held, mem.(computed := v), v.at);
    assert t.(events := t.events) == t;
  }

  /** One action of the lone worker, as its own memory chooses it. */
  lemma ActionTaken(g: Handler, norm: Codec, t: Task, s: Session, mem: Memory, cp: string, v: Value)
    requires CanTake(norm, t, s, g(mem.observed), cp, v)
    ensures ActAll(g, norm, Lone(t, s, mem), Script(g(mem.observed), v))
         == Taken(norm, t, s, mem, g(mem.observed), cp, v)
  {
    match g(mem.observed)
    case Step(_) => StepTaken(g, norm, t, s, mem, g(mem.observed), cp, v);
    case Await(_, _) => WaitTaken(g, norm, t, s, mem, g(mem.observed), cp, v);
    case Sleep(_) => SleepTaken(g, norm, t, s, mem, g(mem.observed), cp, v);
  }

  // ----- names -----

  lemma NameNotBlank(name: string, count: nat)
    requires !Blank(name)
    ensures !Blank(CheckpointName(name, count))
  {
    var i :| 0 <= i < |name| && name[i] != ' ';
    assert CheckpointName(name, count)[i] == name[i];
  }

  lemma UnusedByAction(g: Handler, q: seq<Value>, i: nat, r: seq<Value>, name: string)
    requires i < |q| && r == q[..i] && g(r).Takes() && HashFree(g(r).name) && HashFree(name)
    ensures NameAt(g, r) != CheckpointName(name, UsesOf(g, q, name) + 1)
  {
    if g(r).name == name {
      UsesGrow(g, q, i, name);
    }
    NumberedApart(g(r).name, UsesOf(g, r, g(r).name) + 1, name, UsesOf(g, q, name) + 1);
  }

  /** A usable name has no row yet. */
  lemma UnusedName(g: Handler, q: seq<Value>, name: string)
    requires UsableNames(g) && Chain(g, q) && HashFree(name)
    ensures CheckpointName(name, UsesOf(g, q, name) + 1) !in Table(g, q)
  {
    forall n | n in Table(g, q) ensures n != CheckpointName(name, UsesOf(g, q, name) + 1) {
      var i := RowHasAction(g, q, n);
      assert UsableAction(g(q[..i]));
      UnusedByAction(g, q, i, q[..i], name);
    }
  }

  /** What the next step would be called, as the session counts. */
  lemma CountedName(g: Handler, s: Session, name: string)
    requires CountersOk(g, s, false)
    ensures NextName(s.counters, name).1 == CheckpointName(name, UsesOf(g, s.seen, name) + 1)
  {
    assert CountOf(s.counters, name) == UsesOf(g, s.seen, name);
  }

  lemma NoRow(t: Task, name: string)
    requires name !in Committed(t)
    ensures name !in t.checkpoints
  {
  }

  /** Whatever the memory asks for next, the lone worker can take it. */
  lemma MemoryCanTake(g: Handler, norm: Codec, m: System, q: seq<Value>, a: Action, v: Value) returns (cp: string)
    requires UsableNames(g) && At(g, m.w, q) && a.Takes() && UsableAction(a)
    requires (a.Sleep? ==> v.Time?) && (a.Step? || Fixed(norm, v))
    requires a.Await? && a.event in m.w.task.events ==> m.w.task.events[a.event] == v
    ensures cp == CheckpointName(a.name, UsesOf(g, q, a.name) + 1) && cp !in Table(g, q)
    ensures CanTake(norm, m.w.task, m.w.sessions[0], a, cp, v)
  {
    cp := CheckpointName(a.name, UsesOf(g, q, a.name) + 1);
    CountedName(g, m.w.sessions[0], a.name);
    UnusedName(g, q, a.name);
    NoRow(m.w.task, cp);
    if !a.Await? {
      NameNotBlank(a.name, UsesOf(g, q, a.name) + 1);
    }
  }

  lemma IsLone(g: Handler, norm: Codec, m: System, p: seq<Value>)
    requires Holds(g, norm, m, p)
    ensures m == Lone(m.w.task, m.w.sessions[0], m.memory[0])
  {
  }

  /** And doing so leaves this. */
  lemma MemoryTakes(g: Handler, norm: Codec, m: System, p: seq<Value>, v: Value) returns (cp: string)
    requires UsableNames(g) && Holds(g, norm, m, p) && g(p).Takes()
    requires (g(p).Sleep? ==> v.Time?) && (g(p).Step? || Fixed(norm, v))
    requires g(p).Await? && g(p).event in m.w.task.events ==> m.w.task.events[g(p).event] == v
    ensures cp == CheckpointName(g(p).name, UsesOf(g, Decoded(norm, p), g(p).name) + 1)
    ensures cp !in Table(g, Decoded(norm, p))
    ensures CanTake(norm, m.w.task, m.w.sessions[0], g(p), cp, v)
    ensures ActAll(g, norm, m, Script(g(p), v)) == Taken(norm, m.w.task, m.w.sessions[0], m.memory[0], g(p), cp, v)
  {
    assert UsableAction(g(p));
    cp := MemoryCanTake(g, norm, m, Decoded(norm, p), g(p), v);
    IsLone(g, norm, m, p);
    ActionTaken(g, norm, m.w.task, m.w.sessions[0], m.memory[0], cp, v);
  }

  // ----- a lone worker comes to hold any values -----

  lemma DecodedPrefix(norm: Codec, p: seq<Value>, k: nat)
    requires k <= |p|
    ensures Decoded(norm, p[..k]) == Decoded(norm, p)[..k]
  {
  }

  lemma AgreedPrefix(g: Handler, norm: Codec, p: seq<Value>, n: nat)
    requires n <= |p| && Agreed(g, norm, p) && OnlyStepsDiffer(g, norm, p)
    ensures Agreed(g, norm, p[..n]) && OnlyStepsDiffer(g, norm, p[..n])
    ensures n < |p| ==> g(p[..n]) == g(Decoded(norm, p)[..n])
  {
    var r := p[..n];
    DecodedPrefix(norm, p, n);
    forall k | 0 <= k < n ensures g(r[..k]) == g(Decoded(norm, r)[..k]) && (g(r[..k]).Step? || Fixed(norm, r[k])) {
      assert r[..k] == p[..k] && Decoded(norm, r)[..k] == Decoded(norm, p)[..k];
    }
  }

  lemma LastHeld(g: Handler, norm: Codec, p: seq<Value>)
    requires p != [] && MayHold(g, norm, p)
    ensures var r := p[..|p| - 1];
            && MayHold(g, norm, r) && g(r) == g(Decoded(norm, r)) && g(r).Takes()
            && Decoded(norm, p) == Decoded(norm, r) + [norm(p[|p| - 1])]
            && (g(r).Step? || Fixed(norm, p[|p| - 1]))
  {
    var n := |p| - 1;
    DecodedPrefix(norm, p, n);
    AgreedPrefix(g, norm, p, n);
    LivePrefix(g, Decoded(norm, p), n);
  }

  lemma HoldsAgain(g: Handler, norm: Codec, t: Task, s: Session, mem: Memory, q: seq<Value>, x: Value, v: Value,
      cp: string)
    requires At(g, World(t, [s]), q) && Live(g, q + [x]) && x == norm(v) && g(q) == g(mem.observed)
    requires Fresh(g, q) && cp == NameAt(g, q) && CanTake(norm, t, s, g(q), cp, v)
    ensures At(g, Taken(norm, t, s, mem, g(q), cp, v).w, q + [x])
  {
    var m' := Taken(norm, t, s, mem, g(q), cp, v);
    assert EventsMove(g, q, x, t.events, EventsAfter(t, g(q), v));
    NextIsFresh(g, q, x);
    TaskMoves(g, t, EventsAfter(t, g(q), v), q, x);
    TableExtend(g, q, x);
    NextUse(g, s);
    CountedOn(g, s.(counters := NextName(s.counters, g(q).name).0), m'.w.sessions[0], x);
  }

  lemma PayloadKnown(g: Handler, t: Task, q: seq<Value>, x: Value)
    requires TaskAt(g, t, q) && Live(g, q + [x]) && g(q).Await? && g(q).event in t.events
    ensures t.events[g(q).event] == x
  {
    NextPayload(g, t.events, q, x);
  }

  lemma FillStep(g: Handler, norm: Codec, m: System, r: seq<Value>, v: Value)
    requires UsableNames(g) && IsRoundTrip(norm) && MayHold(g, norm, r + [v]) && Holds(g, norm, m, r)
    ensures g(r).Takes() && Holds(g, norm, ActAll(g, norm, m, Script(g(r), v)), r + [v])
  {
    var p, q, x := r + [v], Decoded(norm, r), norm(v);
    assert p[..|p| - 1] == r;
    LastHeld(g, norm, p);
    NextIsFresh(g, q, x);
    assert g(r).Sleep? ==> v.Time? by {
      assert g(r).Step? || Fixed(norm, v);
    }
    if g(r).Await? && g(r).event in m.w.task.events {
      PayloadKnown(g, m.w.task, q, x);
    }
    var cp := MemoryTakes(g, norm, m, r, v);
    HoldsAgain(g, norm, m.w.task, m.w.sessions[0], m.memory[0], q, x, v, cp);
  }

  lemma {:induction false} Fill(g: Handler, norm: Codec, p: seq<Value>) returns (script: seq<Event>)
    requires UsableNames(g) && IsRoundTrip(norm) && MayHold(g, norm, p)
    ensures Holds(g, norm, ActAll(g, norm, Init(0), script), p)
    decreases |p|
  {
    if p == [] {
      script := [ClaimRun(0, 0), Preload(0)];
      FirstHolds(g, norm);
    } else {
      var r, v := p[..|p| - 1], p[|p| - 1];
      LastHeld(g, norm, p);
      var before := Fill(g, norm, r);
      assert r + [v] == p;
      FillStep(g, norm, ActAll(g, norm, Init(0), before), r, v);
      script := before + Script(g(r), v);
      ActAllAppend(g, norm, Init(0), before, Script(g(r), v));
    }
  }

  lemma FirstHolds(g: Handler, norm: Codec)
    ensures Holds(g, norm, ActAll(g, norm, Init(0), [ClaimRun(0, 0), Preload(0)]), [])
  {
    var m := Init(0);
    ClaimFirst(g, 0);
    var m1 := Act(g, norm, m, ClaimRun(0, 0));
    assert m1.w == Do(g, Start(0), ClaimRun(0, 0)) && |m1.w.sessions| == 1;
    assert m1.memory == [Memory([], Json(""))];
    var m2 := Act(g, norm, m1, Preload(0));
    assert m2.w == Do(g, m1.w, Preload(0));
    ActTwo(g, norm, m, ClaimRun(0, 0), Preload(0));
    assert [ClaimRun(0, 0), Preload(0)] == [ClaimRun(0, 0)] + ([Preload(0)] + []);
    ExecCons(g, Start(0), ClaimRun(0, 0), [Preload(0)] + []);
    ExecCons(g, m1.w, Preload(0), []);
    assert Decoded(norm, []) == [];
  }

  // ----- where memory and store part -----

  lemma {:induction false} TableAtMost(g: Handler, p: seq<Value>)
    requires Chain(g, p)
    ensures |Table(g, p)| <= |p|
    ensures |Table(g, p)| == |p| ==> Distinct(g, p)
    decreases |p|
  {
    if p != [] {
      var q, v := p[..|p| - 1], p[|p| - 1];
      ChainPrefix(g, p, |q|);
      TableAtMost(g, q);
      assert q + [v] == p;
      if |Table(g, p)| == |p| {
        DistinctExtend(g, q, v);
      }
    }
  }

  /** A history with one row more takes that row next. */
  lemma OneRowMore(g: Handler, q: seq<Value>, H: seq<Value>, cp: string, v: Value)
    requires Distinct(g, q) && Distinct(g, H) && cp !in Table(g, q) && Table(g, H) == Table(g, q)[cp := v]
    ensures g(q).Takes() && NameAt(g, q) == cp
  {
    TableSize(g, q);
    TableSize(g, H);
    RowsDetermine(g, q, H, |q|);
    assert q[..|q|] == q;
    RowAt(g, H, |q|);
    assert forall i | 0 <= i < |q| :: q[..i] == H[..i];
    FreshMeansNew(g, q);
  }

  /** A different step commits a row that no history has. */
  lemma WrongRow(g: Handler, t: Task, q: seq<Value>, name: string, v: Value)
    requires PlainSteps(g) && Live(g, q) && HashFree(name) && g(q) != Step(name)
    requires Committed(t) == Table(g, q)[CheckpointName(name, UsesOf(g, q, name) + 1) := v]
    ensures !SomehowReplayable(g, t)
  {
    var cp := CheckpointName(name, UsesOf(g, q, name) + 1);
    UnusedName(g, q, name);
    forall H ensures !Replayable(g, t, H) {
      if Replayable(g, t, H) {
        TableAtMost(g, H);
        OneRowMore(g, q, H, cp, v);
        HashFreeInjective(g(q).name, UsesOf(g, q, g(q).name) + 1, name, UsesOf(g, q, name) + 1);
      }
    }
  }

  /** A different result is the result on no history. */
  lemma WrongResult(g: Handler, t: Task, q: seq<Value>)
    requires Live(g, q) && Committed(t) == Table(g, q) && t.result.Some? && g(q) != Return(t.result.value)
    ensures !SomehowReplayable(g, t)
  {
    TableSize(g, q);
    forall H ensures !Replayable(g, t, H) {
      if Replayable(g, t, H) {
        TableAtMost(g, H);
        SameRowsSameHistory(g, q, H);
      }
    }
  }

  lemma ReturnCompletes(g: Handler, norm: Codec, m: System, p: seq<Value>)
    requires Holds(g, norm, m, p) && g(p).Return?
    ensures var t' := Act(g, norm, Act(g, norm, m, Finish(0)), Serve(0, 0, Exhausted)).w.task;
            Committed(t') == Committed(m.w.task) && t'.result == Some(g(p).result)
  {
    var s := m.w.sessions[0];
    var m1 := Act(g, norm, m, Finish(0));
    assert m1.w == World(m.w.task, [s.(phase := Sent(Complete(g(p).result)))]);
  }

  lemma ReturnShows(g: Handler, norm: Codec, m: System, p: seq<Value>)
    requires Holds(g, norm, m, p) && g(p) != g(Decoded(norm, p)) && g(p).Return?
    ensures !SomehowReplayable(g, ActAll(g, norm, m, [Finish(0), Serve(0, 0, Exhausted)]).w.task)
  {
    ActTwo(g, norm, m, Finish(0), Serve(0, 0, Exhausted));
    ReturnCompletes(g, norm, m, p);
    WrongResult(g, ActAll(g, norm, m, [Finish(0), Serve(0, 0, Exhausted)]).w.task, Decoded(norm, p));
  }

  lemma RowAdded(t: Task, cp: string, v: Value)
    ensures Committed(WithRow(t, cp, v)) == Committed(t)[cp := v]
  {
  }

  lemma StepLeaves(norm: Codec, t: Task, s: Session, mem: Memory, a: Action, cp: string, v: Value)
    requires a.Step?
    ensures Committed(Taken(norm, t, s, mem, a, cp, v).w.task) == Committed(t)[cp := norm(v)]
  {
    RowAdded(t, cp, norm(v));
    assert t.(events := t.events) == t;
  }

  /** The step that the memory chooses leaves a row of that name. */
  lemma StepCommits(g: Handler, norm: Codec, m: System, p: seq<Value>, v: Value)
    requires PlainSteps(g) && Holds(g, norm, m, p) && g(p).Step?
    ensures var q, name := Decoded(norm, p), g(p).name;
            Committed(ActAll(g, norm, m, Script(g(p), v)).w.task)
            == Table(g, q)[CheckpointName(name, UsesOf(g, q, name) + 1) := norm(v)]
  {
    var cp := MemoryTakes(g, norm, m, p, v);
    StepLeaves(norm, m.w.task, m.w.sessions[0], m.memory[0], g(p), cp, v);
  }

  lemma StepShows(g: Handler, norm: Codec, m: System, p: seq<Value>, v: Value)
    requires PlainSteps(g) && Holds(g, norm, m, p) && g(p) != g(Decoded(norm, p)) && g(p).Step?
    ensures !SomehowReplayable(g, ActAll(g, norm, m, Script(g(p), v)).w.task)
  {
    StepCommits(g, norm, m, p, v);
    assert UsableAction(g(p));
    WrongRow(g, ActAll(g, norm, m, Script(g(p), v)).w.task, Decoded(norm, p), g(p).name, norm(v));
  }

  lemma NotAlwaysReplayable(g: Handler, norm: Codec, before: seq<Event>, more: seq<Event>)
    requires !SomehowReplayable(g, ActAll(g, norm, ActAll(g, norm, Init(0), before), more).w.task)
    ensures !AlwaysReplayable(g, norm)
  {
    ActAllAppend(g, norm, Init(0), before, more);
    assert !SomehowReplayable(g, ActAll(g, norm, Init(0), before + more).w.task);
  }

  /** Where memory and store part, one more action shows it in the store. */
  lemma PartingShows(g: Handler, norm: Codec, p: seq<Value>)
    requires PlainSteps(g) && IsRoundTrip(norm) && MayHold(g, norm, p) && g(p) != g(Decoded(norm, p)) && !g(p).Throw?
    ensures !AlwaysReplayable(g, norm)
  {
    var before := Fill(g, norm, p);
    var m := ActAll(g, norm, Init(0), before);
    if g(p).Return? {
      ReturnShows(g, norm, m, p);
      NotAlwaysReplayable(g, norm, before, [Finish(0), Serve(0, 0, Exhausted)]);
    } else {
      StepShows(g, norm, m, p, Json(""));
      NotAlwaysReplayable(g, norm, before, Script(g(p), Json("")));
    }
  }

  /** The exact condition for handlers of steps, read off the store alone: it stays one history of
      the handler, with its result, over all scripts if and only if the handler acts on values in
      memory as on decoded ones, or fails. */
  lemma ReplayableIffTolerant(g: Handler, norm: Codec)
    requires PlainSteps(g) && IsRoundTrip(norm)
    ensures AlwaysReplayable(g, norm) <==> Tolerant(g, norm)
  {
    if Tolerant(g, norm) {
      UsableNeverCollide(g);
      TolerantIsReplayable(g, norm);
    } else {
      var p: seq<Value> :| MayHold(g, norm, p) && g(p) != g(Decoded(norm, p)) && !g(p).Throw?;
      PartingShows(g, norm, p);
    }
  }

  // ----- sleeps and waits -----

  /** A value that action `a` can be answered with. */
  lemma AnAnswer(g: Handler, norm: Codec, t: Task, p: seq<Value>, a: Action) returns (v: Value)
    requires IsRoundTrip(norm) && TaskAt(g, t, Decoded(norm, p)) && a.Takes()
    ensures (a.Sleep? ==> v.Time?) && (a.Step? || Fixed(norm, v))
    ensures a.Await? && a.event in t.events ==> t.events[a.event] == v
  {
    v := if a.Sleep? then Time(0) else norm(Json(""));
    if a.Await? && a.event in t.events {
      var q := Decoded(norm, p);
      assert WaitedFor(g, q, a.event);
      var i :| 0 <= i < |q| && g(q[..i]).Await? && g(q[..i]).event == a.event;
      v := t.events[a.event];
      assert v == q[i] == norm(p[i]);
    }
  }

  /** A session that has acted otherwise than the history's handler follows no history. */
  lemma PartingHasNoHistory(g: Handler, norm: Codec, m: System, p: seq<Value>, v: Value)
    requires |m.memory| > 0 && m.memory[0].observed == p + [v] && g(p) != g(Decoded(norm, p))
    ensures !SomehowFollows(g, norm, m)
  {
    var r := p + [v];
    assert r[..|p|] == p && Decoded(norm, r)[..|p|] == Decoded(norm, p);
    assert !Agreed(g, norm, r);
  }

  lemma ActionShows(g: Handler, norm: Codec, m: System, p: seq<Value>) returns (more: seq<Event>)
    requires UsableNames(g) && IsRoundTrip(norm) && Holds(g, norm, m, p) && g(p) != g(Decoded(norm, p)) && g(p).Takes()
    ensures !SomehowFollows(g, norm, ActAll(g, norm, m, more))
  {
    var v := AnAnswer(g, norm, m.w.task, p, g(p));
    var cp := MemoryTakes(g, norm, m, p, v);
    more := Script(g(p), v);
    PartingHasNoHistory(g, norm, ActAll(g, norm, m, more), p, v);
  }

  lemma NotAlwaysFollows(g: Handler, norm: Codec, before: seq<Event>, more: seq<Event>)
    requires !SomehowFollows(g, norm, ActAll(g, norm, ActAll(g, norm, Init(0), before), more))
    ensures !AlwaysFollows(g, norm)
  {
    ActAllAppend(g, norm, Init(0), before, more);
    assert !SomehowFollows(g, norm, ActAll(g, norm, Init(0), before + more));
  }

  lemma PartingIsSeen(g: Handler, norm: Codec, p: seq<Value>)
    requires UsableNames(g) && IsRoundTrip(norm) && MayHold(g, norm, p) && g(p) != g(Decoded(norm, p)) && !g(p).Throw?
    ensures !AlwaysFollows(g, norm)
  {
    var before := Fill(g, norm, p);
    var m := ActAll(g, norm, Init(0), before);
    if g(p).Return? {
      ReturnShows(g, norm, m, p);
      NotAlwaysFollows(g, norm, before, [Finish(0), Serve(0, 0, Exhausted)]);
    } else {
      var more := ActionShows(g, norm, m, p);
      NotAlwaysFollows(g, norm, before, more);
    }
  }

  /** The exact condition for handlers of steps, sleeps and waits with usable names, read off the
      store and the sessions: over all scripts the store is one history of the handler, with its
      result, and every session has acted on a prefix of it as the handler does, if and only if the
      handler acts on values in memory as on decoded ones, or fails. */
  lemma FollowsIffTolerant(g: Handler, norm: Codec)
    requires UsableNames(g) && IsRoundTrip(norm)
    ensures AlwaysFollows(g, norm) <==> Tolerant(g, norm)
  {
    if Tolerant(g, norm) {
      UsableNeverCollide(g);
      TolerantFollows(g, norm);
    } else {
      var p: seq<Value> :| MayHold(g, norm, p) && g(p) != g(Decoded(norm, p)) && !g(p).Throw?;
      PartingIsSeen(g, norm, p);
    }
  }
}
