/** Values in memory and values in the store.  The first run of a step hands its value to the
    handler as computed; every replay hands over what decoding the stored JSON gives.  This module
    lifts the replay protocol to handlers that see the former; when they do not notice the
    difference, every run is one of the plain protocol. */
module RoundTrip {
  import opened Prelude
  import opened Store
  import opened Names
  import opened Replay
  import opened History
  import opened Invariant
  import opened Steps
  import opened Durable
  import opened Collisions

  /** Encoding a value and decoding it again. */
  type Codec = Value -> Value

  /** A second round trip changes nothing more, and recorded wake times survive. */
  ghost predicate IsRoundTrip(norm: Codec) {
    && (forall v :: norm(norm(v)) == norm(v))
    && forall at :: norm(Time(at)) == Time(at)
  }

  /** What the store holds of the values a handler has observed. */
  function Decoded(norm: Codec, p: seq<Value>): (q: seq<Value>)
    ensures |q| == |p| && forall i | 0 <= i < |p| :: q[i] == norm(p[i])
  {
    seq(|p|, i requires 0 <= i < |p| => norm(p[i]))
  }

  /** A session's handler: the values it holds, and the last one its step function computed. */
  datatype Memory = Memory(observed: seq<Value>, computed: Value)

  datatype System = System(w: World, memory: seq<Memory>)

  function Actor(e: Event): Option<nat> {
    match e
    case Preload(i) => Some(i)
    case Begin(i, _) => Some(i)
    case Compute(i, _, _) => Some(i)
    case LocalClock(i, _) => Some(i)
    case Finish(i) => Some(i)
    case Raise(i) => Some(i)
    case ReportFailure(i) => Some(i)
    case Serve(i, _, _) => Some(i)
    case ReplyArrives(i, _) => Some(i)
    case ReplyLost(i, _) => Some(i)
    case GiveUp(i, _) => Some(i)
    case Crash(i) => Some(i)
    case _ => None
  }

  /** What goes over the wire is JSON. */
  function Encoded(norm: Codec, e: Event): Event {
    match e
    case Compute(i, v, time) => Compute(i, norm(v), time)
    case Emit(event, payload) => Emit(event, norm(payload))
    case _ => e
  }

  /** The handler as the acting session runs it: its next action comes from its own memory. */
  function View(g: Handler, m: System, e: Event): Handler {
    var i := Actor(e);
    if i.Some? && i.value < |m.memory| then (_ => g(m.memory[i.value].observed)) else g
  }

  function Remember(m: System, e: Event, later: World, j: nat): Memory
    requires j < |later.sessions|
  {
    if j >= |m.memory| || j >= |m.w.sessions| then
      if e.GiveUp? && e.i < |m.memory| then m.memory[e.i] else Memory([], Json(""))
    else
      var mem, s, s' := m.memory[j], m.w.sessions[j], later.sessions[j];
      if |s'.seen| > |s.seen| then
        var v := if e.ReplyArrives? && s.phase.Answered? && s.phase.req.Persist? then mem.computed
            else s'.seen[|s.seen|];
        mem.(observed := mem.observed + [v])
      else if e.Compute? && e.i == j && s.phase.Missed? then mem.(computed := e.value)
      else mem
  }

  function Act(g: Handler, norm: Codec, m: System, e: Event): System {
    var w := Do(View(g, m, e), m.w, Encoded(norm, e));
    System(w, seq(|w.sessions|, j requires 0 <= j < |w.sessions| => Remember(m, e, w, j)))
  }

  function ActAll(g: Handler, norm: Codec, m: System, script: seq<Event>): System
    decreases |script|
  {
    if script == [] then m else ActAll(g, norm, Act(g, norm, m, script[0]), script[1..])
  }

  function Init(now: int): System {
    System(Start(now), [])
  }

  // ----- handlers that do not notice -----

  /** So far the handler acted on what it holds as it would have on what the store holds. */
  ghost predicate Agreed(g: Handler, norm: Codec, p: seq<Value>) {
    forall k | 0 <= k < |p| :: g(p[..k]) == g(Decoded(norm, p)[..k])
  }

  /** Only the values of steps can differ from what the store holds: wake times and payloads come
      out of the store. */
  ghost predicate OnlyStepsDiffer(g: Handler, norm: Codec, p: seq<Value>) {
    forall k | 0 <= k < |p| && !g(p[..k]).Step? :: Fixed(norm, p[k])
  }

  /** The handler may hold `p` while the store holds a history that can happen, and has done the
      same on both so far. */
  ghost predicate MayHold(g: Handler, norm: Codec, p: seq<Value>) {
    Live(g, Decoded(norm, p)) && Agreed(g, norm, p) && OnlyStepsDiffer(g, norm, p)
  }

  /** The handler never does anything on values in memory that it would not do on the decoded
      ones, except to fail. */
  ghost predicate Tolerant(g: Handler, norm: Codec) {
    forall p: seq<Value> | MayHold(g, norm, p) :: g(p) == g(Decoded(norm, p)) || g(p).Throw?
  }

  /** Everything in the store and on the wire has made the round trip. */
  ghost predicate Normal(norm: Codec, w: World) {
    && (forall n | n in w.task.checkpoints :: Fixed(norm, w.task.checkpoints[n].value))
    && (forall e | e in w.task.events :: Fixed(norm, w.task.events[e]))
    && forall j | 0 <= j < |w.sessions| :: NormalSession(norm, w.sessions[j])
  }

  predicate Fixed(norm: Codec, v: Value) {
    norm(v) == v
  }

  ghost predicate NormalSession(norm: Codec, s: Session) {
    && (forall n | n in s.cache :: Fixed(norm, s.cache[n]))
    && match s.phase
       case Sent(req) => NormalRequest(norm, req)
       case Late(req) => NormalRequest(norm, req)
       case Answered(req, reply) => NormalRequest(norm, req) && (reply.Found? ==> Fixed(norm, reply.value))
       case _ => true
  }

  predicate NormalRequest(norm: Codec, req: Request) {
    req.Persist? ==> Fixed(norm, req.value)
  }

  /** The next action has begun. */
  predicate Acting(p: Phase) {
    match p
    case Missed(_) => true
    case Holding(_) => true
    case Sent(req) => req.Persist? || req.Wait?
    case Answered(req, _) => req.Persist? || req.Wait?
    case _ => false
  }

  ghost predicate MemoryOk(g: Handler, norm: Codec, s: Session, mem: Memory) {
    && s.seen == Decoded(norm, mem.observed)
    && Agreed(g, norm, mem.observed) && OnlyStepsDiffer(g, norm, mem.observed)
    && (Acting(s.phase) ==> g(mem.observed) == g(s.seen))
    && (s.phase.Sent? && s.phase.req.Persist? && g(s.seen).Step? ==> s.phase.req.value == norm(mem.computed))
    && (s.phase.Answered? && s.phase.req.Persist? && g(s.seen).Step? ==> s.phase.req.value == norm(mem.computed))
  }

  ghost predicate Sim(g: Handler, norm: Codec, m: System) {
    && |m.memory| == |m.w.sessions|
    && Normal(norm, m.w)
    && forall j | 0 <= j < |m.memory| :: MemoryOk(g, norm, m.w.sessions[j], m.memory[j])
  }

  lemma AgreedExtends(g: Handler, norm: Codec, p: seq<Value>, v: Value)
    requires Agreed(g, norm, p) && g(p) == g(Decoded(norm, p))
    ensures Decoded(norm, p + [v]) == Decoded(norm, p) + [norm(v)]
    ensures Agreed(g, norm, p + [v])
  {
    var r := p + [v];
    assert Decoded(norm, r) == Decoded(norm, p) + [norm(v)];
    forall k | 0 <= k < |r| ensures g(r[..k]) == g(Decoded(norm, r)[..k]) {
      assert r[..k] == if k < |p| then p[..k] else p;
      assert Decoded(norm, r)[..k] == if k < |p| then Decoded(norm, p)[..k] else Decoded(norm, p);
    }
  }

  lemma StepsExtend(g: Handler, norm: Codec, p: seq<Value>, v: Value)
    requires OnlyStepsDiffer(g, norm, p) && (g(p).Step? || Fixed(norm, v))
    ensures OnlyStepsDiffer(g, norm, p + [v])
  {
    var r := p + [v];
    forall k | 0 <= k < |r| && !g(r[..k]).Step? ensures Fixed(norm, r[k]) {
      assert r[..k] == if k < |p| then p[..k] else p;
    }
  }

  /** The event of the plain protocol that does the same. */
  function Plain(g: Handler, norm: Codec, m: System, e: Event): Event {
    var i := Actor(e);
    if i.None? || i.value >= |m.memory| || i.value >= |m.w.sessions| then Encoded(norm, e)
    else
      var s, mem := m.w.sessions[i.value], m.memory[i.value];
      if g(mem.observed) == g(s.seen) || !(e.Begin? || e.Finish?) then Encoded(norm, e)
      else if e.Finish? && s.phase.Idle? then Raise(e.i)
      else TimePasses(0)
  }

  /** Handlers are asked for their next action only. */
  lemma OnlyNextAction(g: Handler, h: Handler, t: Task, s: Session, e: Event)
    requires g(s.seen) == h(s.seen) || !(e.Begin? || e.Finish? || e.Compute? || e.ReplyArrives?)
    ensures Local(g, t, s, e) == Local(h, t, s, e)
  {
  }

  /** A handler about to fail: sending, receiving and computing do not ask it for anything. */
  lemma NotActing(g: Handler, h: Handler, t: Task, s: Session, e: Event)
    requires !Acting(s.phase) && (e.Compute? || e.ReplyArrives?)
    ensures Local(g, t, s, e) == Local(h, t, s, e)
  {
  }

  lemma NothingHappens(g: Handler, w: World)
    ensures Do(g, w, TimePasses(0)) == w
  {
  }

  lemma PlainWhenAgreed(g: Handler, norm: Codec, m: System, e: Event)
    requires |m.memory| == |m.w.sessions| && IsLocal(e) && e.i < |m.w.sessions|
    requires g(m.memory[e.i].observed) == g(m.w.sessions[e.i].seen)
    ensures Do(View(g, m, e), m.w, Encoded(norm, e)) == Do(g, m.w, Plain(g, norm, m, e))
  {
    OnlyNextAction(g, View(g, m, e), m.w.task, m.w.sessions[e.i], Encoded(norm, e));
  }

  lemma PlainWhenFailing(g: Handler, norm: Codec, m: System, e: Event)
    requires Sim(g, norm, m) && IsLocal(e) && e.i < |m.w.sessions|
    requires g(m.memory[e.i].observed) != g(m.w.sessions[e.i].seen) && g(m.memory[e.i].observed).Throw?
    ensures Do(View(g, m, e), m.w, Encoded(norm, e)) == Do(g, m.w, Plain(g, norm, m, e))
  {
    var s, h, e' := m.w.sessions[e.i], View(g, m, e), Encoded(norm, e);
    if e.Begin? || e.Finish? {
      NothingHappens(g, m.w);
      assert SetSession(m.w, e.i, s) == m.w;
    } else if e.Compute? || e.ReplyArrives? {
      NotActing(g, h, m.w.task, s, e');
    } else {
      OnlyNextAction(g, h, m.w.task, s, e');
    }
  }

  lemma PlainLocal(g: Handler, norm: Codec, m: System, e: Event)
    requires Sim(g, norm, m) && IsLocal(e) && e.i < |m.w.sessions|
    requires g(m.memory[e.i].observed) == g(m.w.sessions[e.i].seen) || g(m.memory[e.i].observed).Throw?
    ensures Do(View(g, m, e), m.w, Encoded(norm, e)) == Do(g, m.w, Plain(g, norm, m, e))
  {
    if g(m.memory[e.i].observed) == g(m.w.sessions[e.i].seen) {
      PlainWhenAgreed(g, norm, m, e);
    } else {
      PlainWhenFailing(g, norm, m, e);
    }
  }

  lemma SessionTolerates(g: Handler, norm: Codec, m: System, H: seq<Value>, j: nat)
    requires Tolerant(g, norm) && Sim(g, norm, m) && Inv(g, m.w, H) && j < |m.memory|
    ensures g(m.memory[j].observed) == g(m.w.sessions[j].seen) || g(m.memory[j].observed).Throw?
  {
    var s := m.w.sessions[j];
    LivePrefix(g, H, |s.seen|);
    assert H[..|s.seen|] == s.seen;
  }

  /** Every event of the lifted protocol is an event of the plain one. */
  lemma ActIsPlain(g: Handler, norm: Codec, m: System, H: seq<Value>, e: Event)
    requires Tolerant(g, norm) && Sim(g, norm, m) && Inv(g, m.w, H)
    ensures Act(g, norm, m, e).w == Do(g, m.w, Plain(g, norm, m, e))
  {
    if IsLocal(e) && e.i < |m.w.sessions| {
      SessionTolerates(g, norm, m, H, e.i);
      PlainLocal(g, norm, m, e);
    }
  }

  // ----- what is stored stays normal -----

  ghost predicate NormalTask(norm: Codec, t: Task) {
    && (forall n | n in t.checkpoints :: Fixed(norm, t.checkpoints[n].value))
    && forall e | e in t.events :: Fixed(norm, t.events[e])
  }

  lemma ExecuteNormal(norm: Codec, t: Task, k: nat, req: Request, lease: int, after: AfterFail)
    requires NormalTask(norm, t) && NormalRequest(norm, req)
    ensures var (t', reply) := Execute(t, k, req, lease, after);
            NormalTask(norm, t') && (reply.Found? ==> Fixed(norm, reply.value))
  {
  }

  /** Events whose values have made the round trip. */
  predicate NormalEvent(norm: Codec, e: Event) {
    (e.Compute? ==> Fixed(norm, e.value)) && (e.Emit? ==> Fixed(norm, e.payload))
  }

  lemma BeginNormal(norm: Codec, s: Session, a: Action, committed: map<string, Value>, proposed: int)
    requires NormalSession(norm, s) && a.Takes() && forall n | n in committed :: Fixed(norm, committed[n])
    ensures NormalSession(norm, BeginAction(s, a, committed, proposed))
  {
  }

  lemma ReceiveNormal(norm: Codec, s: Session, isSleep: bool, fac: bool)
    requires NormalSession(norm, s) && s.phase.Answered?
    ensures NormalSession(norm, Receive(s, isSleep, fac))
  {
  }

  lemma LocalNormal(g: Handler, norm: Codec, t: Task, s: Session, e: Event)
    requires IsRoundTrip(norm) && NormalTask(norm, t) && NormalSession(norm, s) && NormalEvent(norm, e)
    ensures NormalSession(norm, Local(g, t, s, e))
  {
    if e.Begin? && s.phase.Idle? && g(s.seen).Takes() {
      assert forall n | n in Committed(t) :: Fixed(norm, Committed(t)[n]);
      BeginNormal(norm, s, g(s.seen), Committed(t), e.proposed);
    } else if e.ReplyArrives? && s.phase.Answered? {
      ReceiveNormal(norm, s, g(s.seen).Sleep?, e.again);
    }
  }

  lemma QueueNormal(g: Handler, norm: Codec, w: World, e: Event)
    requires Normal(norm, w) && NormalEvent(norm, e) && !IsLocal(e) && !e.Serve? && !e.GiveUp?
    ensures Normal(norm, Do(g, w, e))
  {
    var w' := Do(g, w, e);
    assert NormalTask(norm, w'.task);
    assert w'.sessions == w.sessions
        || w'.sessions == w.sessions + [Session(e.run, map[], map[], [], map[], Preloading)];
  }

  lemma ServeNormal(norm: Codec, w: World, i: nat, lease: int, after: AfterFail)
    requires Normal(norm, w) && i < |w.sessions|
    ensures Normal(norm, ServeOne(w, i, lease, after))
  {
    var s := w.sessions[i];
    if s.phase.Sent? || s.phase.Late? {
      ExecuteNormal(norm, w.task, s.run, s.phase.req, lease, after);
    }
  }

  lemma GiveUpNormal(norm: Codec, w: World, i: nat, fac: bool)
    requires Normal(norm, w) && i < |w.sessions|
    ensures Normal(norm, GiveUpOne(w, i, fac))
  {
  }

  lemma DoNormal(g: Handler, norm: Codec, w: World, e: Event)
    requires IsRoundTrip(norm) && Normal(norm, w) && NormalEvent(norm, e)
    ensures Normal(norm, Do(g, w, e))
  {
    if IsLocal(e) {
      if e.i < |w.sessions| {
        LocalNormal(g, norm, w.task, w.sessions[e.i], e);
      }
    } else if e.Serve? {
      if e.i < |w.sessions| {
        ServeNormal(norm, w, e.i, e.lease, e.after);
      }
    } else if e.GiveUp? {
      if e.i < |w.sessions| {
        GiveUpNormal(norm, w, e.i, e.again);
      }
    } else {
      QueueNormal(g, norm, w, e);
    }
  }

  // ----- memories follow -----

  /** The handler observes one more value; the store holds its decoding. */
  lemma MemoryGrows(g: Handler, norm: Codec, s: Session, mem: Memory, s': Session, v: Value)
    requires MemoryOk(g, norm, s, mem) && g(mem.observed) == g(s.seen)
    requires s'.seen == s.seen + [norm(v)] && s'.phase.Idle? && (g(s.seen).Step? || Fixed(norm, v))
    ensures MemoryOk(g, norm, s', mem.(observed := mem.observed + [v]))
  {
    AgreedExtends(g, norm, mem.observed, v);
    StepsExtend(g, norm, mem.observed, v);
  }

  /** What becomes of one session and its memory. */
  ghost predicate MemoryMoves(g: Handler, norm: Codec, m: System, e: Event, w': World, j: nat) {
    j < |w'.sessions| && MemoryOk(g, norm, w'.sessions[j], Remember(m, e, w', j))
  }

  lemma BeginMemory(g: Handler, norm: Codec, s: Session, mem: Memory, committed: map<string, Value>, proposed: int)
    requires MemoryOk(g, norm, s, mem) && NormalSession(norm, s) && s.phase.Idle? && g(s.seen).Takes()
    requires g(mem.observed) == g(s.seen) && forall n | n in committed :: Fixed(norm, committed[n])
    ensures var s' := BeginAction(s, g(s.seen), committed, proposed);
            MemoryOk(g, norm, s',
                if |s'.seen| > |s.seen| then mem.(observed := mem.observed + [s'.seen[|s.seen|]]) else mem)
  {
    var s' := BeginAction(s, g(s.seen), committed, proposed);
    if s'.phase.Idle? {
      var v := s'.seen[|s.seen|];
      assert Fixed(norm, v);
      MemoryGrows(g, norm, s, mem, s', v);
    }
  }

  /** The actor's session after a beginning, and what it remembers. */
  lemma BeginActs(g: Handler, norm: Codec, m: System, e: Event)
    requires |m.memory| == |m.w.sessions| && e.Begin? && e.i < |m.memory| && m.w.sessions[e.i].phase.Idle?
    requires g(m.memory[e.i].observed).Takes()
    ensures var s, mem, w' := m.w.sessions[e.i], m.memory[e.i], Act(g, norm, m, e).w;
            var s' := BeginAction(s, g(mem.observed), Committed(m.w.task), e.proposed);
            && e.i < |w'.sessions| && w'.sessions[e.i] == s'
            && Remember(m, e, w', e.i)
                == if |s'.seen| > |s.seen| then mem.(observed := mem.observed + [s'.seen[|s.seen|]]) else mem
  {
  }

  lemma BeginRemembers(g: Handler, norm: Codec, m: System, H: seq<Value>, e: Event)
    requires Tolerant(g, norm) && IsRoundTrip(norm) && Sim(g, norm, m) && Inv(g, m.w, H)
    requires e.Begin? && e.i < |m.memory| && m.w.sessions[e.i].phase.Idle?
    ensures MemoryMoves(g, norm, m, e, Act(g, norm, m, e).w, e.i)
  {
    var s, mem := m.w.sessions[e.i], m.memory[e.i];
    if g(mem.observed).Takes() {
      SessionTolerates(g, norm, m, H, e.i);
      assert forall n | n in Committed(m.w.task) :: Fixed(norm, Committed(m.w.task)[n]);
      BeginMemory(g, norm, s, mem, Committed(m.w.task), e.proposed);
      BeginActs(g, norm, m, e);
    }
  }

  lemma ClockRemembers(g: Handler, norm: Codec, m: System, e: Event)
    requires IsRoundTrip(norm) && Sim(g, norm, m)
    requires e.LocalClock? && e.i < |m.memory| && m.w.sessions[e.i].phase.Holding?
    ensures MemoryMoves(g, norm, m, e, Act(g, norm, m, e).w, e.i)
  {
    var s, mem := m.w.sessions[e.i], m.memory[e.i];
    if e.localNow >= s.phase.wake {
      MemoryGrows(g, norm, s, mem, CheckWake(s, e.localNow), Time(s.phase.wake));
    }
  }

  lemma PersistKind(g: Handler, H: seq<Value>, runs: nat, s: Session)
    requires Chain(g, H) && SessionOk(g, H, runs, s) && s.phase.Answered? && s.phase.req.Persist?
    ensures g(s.seen).Step? || (g(s.seen).Sleep? && s.phase.req.value.Time?)
  {
  }

  /** The reply to a step's write shows the computed value, every other reply a decoded one. */
  lemma ReplyMemory(g: Handler, norm: Codec, s: Session, mem: Memory, isSleep: bool, fac: bool)
    requires IsRoundTrip(norm) && MemoryOk(g, norm, s, mem) && NormalSession(norm, s) && s.phase.Answered?
    requires s.phase.req.Persist? ==> g(s.seen).Step? || (g(s.seen).Sleep? && s.phase.req.value.Time?)
    requires Acting(s.phase) ==> isSleep == g(s.seen).Sleep?
    ensures var s' := Receive(s, isSleep, fac);
            var v := if s.phase.req.Persist? then mem.computed else if s.phase.reply.Found? then s.phase.reply.value
                else mem.computed;
            MemoryOk(g, norm, s', if |s'.seen| > |s.seen| then mem.(observed := mem.observed + [v]) else mem)
            && (|s'.seen| > |s.seen| && !s.phase.req.Persist? ==> s'.seen[|s.seen|] == v)
  {
    var req, reply := s.phase.req, s.phase.reply;
    var s' := Receive(s, isSleep, fac);
    if req.Persist? && reply.Done? && g(s.seen).Step? {
      MemoryGrows(g, norm, s, mem, s', mem.computed);
    } else if req.Wait? && reply.Found? {
      MemoryGrows(g, norm, s, mem, s', reply.value);
    }
  }

  lemma ReplyRemembers(g: Handler, norm: Codec, m: System, H: seq<Value>, e: Event)
    requires IsRoundTrip(norm) && Sim(g, norm, m) && Inv(g, m.w, H)
    requires e.ReplyArrives? && e.i < |m.memory| && m.w.sessions[e.i].phase.Answered?
    ensures MemoryMoves(g, norm, m, e, Act(g, norm, m, e).w, e.i)
  {
    var s, mem := m.w.sessions[e.i], m.memory[e.i];
    if s.phase.req.Persist? {
      PersistKind(g, H, |m.w.task.runs|, s);
    }
    ReplyMemory(g, norm, s, mem, g(mem.observed).Sleep?, e.again);
    assert Act(g, norm, m, e).w.sessions[e.i] == Receive(s, g(mem.observed).Sleep?, e.again);
  }

  lemma OtherLocalRemembers(g: Handler, norm: Codec, m: System, e: Event)
    requires Sim(g, norm, m) && IsLocal(e) && e.i < |m.memory|
    requires !e.Begin? && !e.LocalClock? && !e.ReplyArrives?
    ensures MemoryMoves(g, norm, m, e, Act(g, norm, m, e).w, e.i)
  {
  }

  lemma IdleRemembers(g: Handler, norm: Codec, m: System, e: Event)
    requires Sim(g, norm, m) && IsLocal(e) && e.i < |m.memory|
    requires e.Begin? ==> !m.w.sessions[e.i].phase.Idle?
    requires e.LocalClock? ==> !m.w.sessions[e.i].phase.Holding?
    requires e.ReplyArrives? ==> !m.w.sessions[e.i].phase.Answered?
    requires e.Begin? || e.LocalClock? || e.ReplyArrives?
    ensures MemoryMoves(g, norm, m, e, Act(g, norm, m, e).w, e.i)
  {
  }

  lemma ActorRemembers(g: Handler, norm: Codec, m: System, H: seq<Value>, e: Event)
    requires Tolerant(g, norm) && IsRoundTrip(norm) && Sim(g, norm, m) && Inv(g, m.w, H)
    requires IsLocal(e) && e.i < |m.memory|
    ensures MemoryMoves(g, norm, m, e, Act(g, norm, m, e).w, e.i)
  {
    var p := m.w.sessions[e.i].phase;
    if e.Begin? && p.Idle? {
      BeginRemembers(g, norm, m, H, e);
    } else if e.LocalClock? && p.Holding? {
      ClockRemembers(g, norm, m, e);
    } else if e.ReplyArrives? && p.Answered? {
      ReplyRemembers(g, norm, m, H, e);
    } else if e.Begin? || e.LocalClock? || e.ReplyArrives? {
      IdleRemembers(g, norm, m, e);
    } else {
      OtherLocalRemembers(g, norm, m, e);
    }
  }

  /** Sessions that do not act remember what they did. */
  lemma OthersRemember(g: Handler, norm: Codec, m: System, e: Event, j: nat)
    requires Sim(g, norm, m) && IsLocal(e) && j < |m.memory| && j != e.i
    ensures MemoryMoves(g, norm, m, e, Act(g, norm, m, e).w, j)
  {
  }

  /** The store and the clients of lost calls change no memory. */
  lemma StaysRemembered(g: Handler, norm: Codec, m: System, e: Event, j: nat)
    requires Sim(g, norm, m) && !IsLocal(e) && j < |m.memory|
    ensures MemoryMoves(g, norm, m, e, Act(g, norm, m, e).w, j)
  {
  }

  lemma NewRemembers(g: Handler, norm: Codec, m: System, e: Event, j: nat)
    requires Sim(g, norm, m) && !IsLocal(e) && |m.memory| <= j < |Act(g, norm, m, e).w.sessions|
    ensures MemoryMoves(g, norm, m, e, Act(g, norm, m, e).w, j)
  {
    if !e.GiveUp? {
      assert Decoded(norm, []) == [];
    }
  }

  lemma ActKeepsSim(g: Handler, norm: Codec, m: System, H: seq<Value>, e: Event)
    requires Tolerant(g, norm) && IsRoundTrip(norm) && Sim(g, norm, m) && Inv(g, m.w, H)
    ensures Sim(g, norm, Act(g, norm, m, e))
  {
    var m' := Act(g, norm, m, e);
    DoNormal(View(g, m, e), norm, m.w, Encoded(norm, e));
    forall j | 0 <= j < |m'.memory| ensures MemoryOk(g, norm, m'.w.sessions[j], m'.memory[j]) {
      if !IsLocal(e) {
        if j < |m.memory| {
          StaysRemembered(g, norm, m, e, j);
        } else {
          NewRemembers(g, norm, m, e, j);
        }
      } else if j == e.i {
        ActorRemembers(g, norm, m, H, e);
      } else {
        OthersRemember(g, norm, m, e, j);
      }
    }
  }

  /** For a tolerant handler every run of the lifted protocol is a run of the plain one: all laws
      about the store carry over, and each session's values decode to a prefix of the history. */
  lemma {:induction false} RunIsPlain(g: Handler, norm: Codec, m: System, H: seq<Value>, script: seq<Event>)
    returns (plain: seq<Event>)
    requires NoHarmfulCollision(g) && Tolerant(g, norm) && IsRoundTrip(norm) && Sim(g, norm, m) && Inv(g, m.w, H)
    ensures ActAll(g, norm, m, script).w == Exec(g, m.w, plain) && Sim(g, norm, ActAll(g, norm, m, script))
    decreases |script|
  {
    plain := [];
    if script != [] {
      var e := Plain(g, norm, m, script[0]);
      ActIsPlain(g, norm, m, H, script[0]);
      ActKeepsSim(g, norm, m, H, script[0]);
      var K := DoKeeps(g, m.w, H, e);
      var rest := RunIsPlain(g, norm, Act(g, norm, m, script[0]), K, script[1..]);
      plain := [e] + rest;
      ExecCons(g, m.w, e, rest);
    }
  }

  lemma TolerantIsPlain(g: Handler, norm: Codec, now: int, script: seq<Event>) returns (plain: seq<Event>)
    requires NoHarmfulCollision(g) && Tolerant(g, norm) && IsRoundTrip(norm)
    ensures var m := ActAll(g, norm, Init(now), script);
            && m.w == Exec(g, Start(now), plain)
            && |m.memory| == |m.w.sessions|
            && forall j | 0 <= j < |m.memory| ::
                 m.w.sessions[j].seen == Decoded(norm, m.memory[j].observed) && Agreed(g, norm, m.memory[j].observed)
  {
    InitInv(g, now);
    plain := RunIsPlain(g, norm, Init(now), [], script);
  }
}
