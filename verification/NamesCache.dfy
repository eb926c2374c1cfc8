/** Habitat's cache of recent task names: concurrent requests read it, fetch on a miss and store what
    they fetched.  Times are milliseconds of the process's monotonic clock. */
module NamesCache {
  import opened Prelude

  const TTL := 60_000

  datatype Entry = Entry(values: seq<string>, expiresAt: int)

  type Cache = map<string, Entry>

  /** The read under the lock. */
  function Hit(cache: Cache, queue: string, now: int): Option<seq<string>> {
    if queue in cache && now < cache[queue].expiresAt then Some(cache[queue].values) else None
  }

  /** The write under the lock; `now` was read when the request began. */
  function Stored(cache: Cache, queue: string, now: int, values: seq<string>): Cache {
    cache[queue := Entry(values, now + TTL)]
  }

  // ----- concurrent requests -----

  /** What the store would answer for a queue at an instant; no value is a failed query. */
  type Database = (string, int) -> Option<seq<string>>

  datatype Phase =
    | Begun
    | Missed
    | Fetched(values: seq<string>, at: int)
    | Returned(result: seq<string>, done: int)
    | Failed

  /** A request and the time at which it began. */
  datatype Request = Request(queue: string, now: int, phase: Phase)

  datatype World = World(clock: int, cache: Cache, requests: map<nat, Request>)

  datatype Event =
    | Wait(time: nat)
    | Begin(id: nat, queue: string)
    | Read(id: nat)
    | Fetch(id: nat)
    | Store(id: nat)

  function SetPhase(w: World, id: nat, phase: Phase): World
    requires id in w.requests
  {
    w.(requests := w.requests[id := w.requests[id].(phase := phase)])
  }

  /** One atomic step; an event that does not apply changes nothing. */
  function Do(db: Database, w: World, e: Event): World {
    match e
    case Wait(time) => w.(clock := w.clock + time)
    case Begin(id, queue) =>
      if id in w.requests then w else w.(requests := w.requests[id := Request(queue, w.clock, Begun)])
    case Read(id) =>
      if id !in w.requests || w.requests[id].phase != Begun then w
      else
        var r := w.requests[id];
        (match Hit(w.cache, r.queue, r.now)
         case Some(values) => SetPhase(w, id, Returned(values, w.clock))
         case None => SetPhase(w, id, Missed))
    case Fetch(id) =>
      if id !in w.requests || w.requests[id].phase != Missed then w
      else
        (match db(w.requests[id].queue, w.clock)
         case Some(values) => SetPhase(w, id, Fetched(values, w.clock))
         case None => SetPhase(w, id, Failed))
    case Store(id) =>
      if id !in w.requests || !w.requests[id].phase.Fetched? then w
      else
        var r := w.requests[id];
        SetPhase(w, id, Returned(r.phase.values, w.clock))
        .(cache := Stored(w.cache, r.queue, r.now, r.phase.values))
  }

  function Run(db: Database, w: World, events: seq<Event>): World
    decreases |events|
  {
    if events == [] then w else Run(db, Do(db, w, events[0]), events[1..])
  }

  /** `values` are what the store held for the queue at some instant of `[from, to]`. */
  ghost predicate HeldWithin(db: Database, queue: string, values: seq<string>, from: int, to: int) {
    exists f :: from <= f <= to && db(queue, f) == Some(values)
  }

  ghost predicate RequestOk(db: Database, w: World, r: Request) {
    && r.now <= w.clock
    && match r.phase
       case Fetched(values, at) => r.now <= at <= w.clock && db(r.queue, at) == Some(values)
       case Returned(result, done) =>
         r.now <= done <= w.clock && HeldWithin(db, r.queue, result, r.now - TTL + 1, done)
       case _ => true
  }

  ghost predicate EntryOk(db: Database, w: World, queue: string) {
    queue in w.cache ==>
      HeldWithin(db, queue, w.cache[queue].values, w.cache[queue].expiresAt - TTL, w.clock)
  }

  ghost predicate Inv(db: Database, w: World) {
    && (forall id | id in w.requests :: RequestOk(db, w, w.requests[id]))
    && forall queue :: EntryOk(db, w, queue)
  }

  lemma HeldLonger(db: Database, queue: string, values: seq<string>, from: int, to: int, from': int, to': int)
    requires HeldWithin(db, queue, values, from, to) && from' <= from && to <= to'
    ensures HeldWithin(db, queue, values, from', to')
  {
    var f :| from <= f <= to && db(queue, f) == Some(values);
    assert from' <= f <= to';
  }

  lemma WaitKeeps(db: Database, w: World, time: nat)
    requires Inv(db, w)
    ensures Inv(db, Do(db, w, Wait(time)))
  {
    var w' := Do(db, w, Wait(time));
    forall id | id in w'.requests ensures RequestOk(db, w', w'.requests[id]) {
      assert RequestOk(db, w, w.requests[id]);
    }
    forall queue ensures EntryOk(db, w', queue) {
      assert EntryOk(db, w, queue);
      if queue in w.cache {
        var e := w.cache[queue];
        HeldLonger(db, queue, e.values, e.expiresAt - TTL, w.clock, e.expiresAt - TTL, w'.clock);
      }
    }
  }

  /** Any other step moves one request and at most its queue's entry. */
  lemma StepKeeps(db: Database, w: World, w': World, id: nat)
    requires Inv(db, w) && w'.clock == w.clock && w'.requests.Keys == w.requests.Keys + {id}
    requires forall i | i in w.requests && i != id :: w'.requests[i] == w.requests[i]
    requires RequestOk(db, w', w'.requests[id])
    requires forall queue | queue != w'.requests[id].queue :: queue in w'.cache ==>
             queue in w.cache && w'.cache[queue] == w.cache[queue]
    requires EntryOk(db, w', w'.requests[id].queue)
    ensures Inv(db, w')
  {
    forall i | i in w'.requests ensures RequestOk(db, w', w'.requests[i]) {
      if i != id {
        assert RequestOk(db, w, w.requests[i]);
      }
    }
    forall queue ensures EntryOk(db, w', queue) {
      assert EntryOk(db, w, queue);
    }
  }

  lemma ReadKeeps(db: Database, w: World, id: nat)
    requires Inv(db, w) && id in w.requests && w.requests[id].phase == Begun
    ensures Inv(db, Do(db, w, Read(id)))
  {
    var r := w.requests[id];
    assert RequestOk(db, w, r) && EntryOk(db, w, r.queue);
    var w' := Do(db, w, Read(id));
    if Hit(w.cache, r.queue, r.now).Some? {
      var e := w.cache[r.queue];
      HeldLonger(db, r.queue, e.values, e.expiresAt - TTL, w.clock, r.now - TTL + 1, w.clock);
    }
    StepKeeps(db, w, w', id);
  }

  lemma StoreKeeps(db: Database, w: World, id: nat)
    requires Inv(db, w) && id in w.requests && w.requests[id].phase.Fetched?
    ensures Inv(db, Do(db, w, Store(id)))
  {
    var r := w.requests[id];
    assert RequestOk(db, w, r);
    var w' := Do(db, w, Store(id));
    var values := r.phase.values;
    assert r.now <= r.phase.at <= w.clock && db(r.queue, r.phase.at) == Some(values);
    assert HeldWithin(db, r.queue, values, r.now, w.clock);
    HeldLonger(db, r.queue, values, r.now, w.clock, r.now - TTL + 1, w.clock);
    StepKeeps(db, w, w', id);
  }

  lemma DoKeeps(db: Database, w: World, e: Event)
    requires Inv(db, w)
    ensures Inv(db, Do(db, w, e))
  {
    match e
    case Wait(time) => WaitKeeps(db, w, time);
    case Begin(id, queue) =>
      if id !in w.requests {
        assert EntryOk(db, w, queue);
        StepKeeps(db, w, Do(db, w, e), id);
      }
    case Read(id) =>
      if id in w.requests && w.requests[id].phase == Begun {
        ReadKeeps(db, w, id);
      }
    case Fetch(id) =>
      if id in w.requests && w.requests[id].phase == Missed {
        assert RequestOk(db, w, w.requests[id]) && EntryOk(db, w, w.requests[id].queue);
        StepKeeps(db, w, Do(db, w, e), id);
      }
    case Store(id) =>
      if id in w.requests && w.requests[id].phase.Fetched? {
        StoreKeeps(db, w, id);
      }
  }

  lemma {:induction false} RunKeeps(db: Database, w: World, events: seq<Event>)
    requires Inv(db, w)
    ensures Inv(db, Run(db, w, events))
    decreases |events|
  {
    if events != [] {
      DoKeeps(db, w, events[0]);
      RunKeeps(db, Do(db, w, events[0]), events[1..]);
    }
  }

  /** Over all interleavings a request returns what the store held for its queue at an instant less
      than a minute before the request began, or later. */
  lemma ReturnedIsRecent(db: Database, start: int, events: seq<Event>, id: nat)
    ensures var w := Run(db, World(start, map[], map[]), events);
            id in w.requests && w.requests[id].phase.Returned? ==>
              var r := w.requests[id];
              HeldWithin(db, r.queue, r.phase.result, r.now - TTL + 1, r.phase.done)
  {
    RunKeeps(db, World(start, map[], map[]), events);
    var w := Run(db, World(start, map[], map[]), events);
    assert id in w.requests ==> RequestOk(db, w, w.requests[id]);
  }

  /** A store that answers for a queue with the time of the query. */
  function Clocked(stamp: int -> string): Database {
    (queue, at) => Some([stamp(at)])
  }

  /** The bound is exact: a value may be one millisecond short of a minute old, for any queue. */
  lemma AgeBoundIsTight(stamp: int -> string, queue: string, start: int) returns (events: seq<Event>, id: nat)
    ensures
      var w := Run(Clocked(stamp), World(start, map[], map[]), events);
      && id in w.requests
      && w.requests[id].queue == queue
      && w.requests[id].phase.Returned?
      && w.requests[id].phase.result == [stamp(w.requests[id].now - TTL + 1)]
  {
    var db := Clocked(stamp);
    id := 1;
    events := [Begin(0, queue), Read(0), Fetch(0), Store(0), Wait((TTL - 1) as nat), Begin(1, queue), Read(1)];
    var w0 := World(start, map[], map[]);
    var w1 := Do(db, w0, events[0]);
    var w2 := Do(db, w1, events[1]);
    var w3 := Do(db, w2, events[2]);
    var w4 := Do(db, w3, events[3]);
    var w5 := Do(db, w4, events[4]);
    var w6 := Do(db, w5, events[5]);
    var w7 := Do(db, w6, events[6]);
    assert w4.cache[queue] == Entry([stamp(start)], start + TTL);
    assert w6.requests[1] == Request(queue, start + TTL - 1, Begun);
    RunSeven(db, w0, events);
    assert w7 == Run(db, w0, events);
  }

  lemma RunSeven(db: Database, w: World, events: seq<Event>)
    requires |events| == 7
    ensures Run(db, w, events)
         == Do(db, Do(db, Do(db, Do(db, Do(db, Do(db, Do(db, w, events[0]), events[1]), events[2]), events[3]),
             events[4]), events[5]), events[6])
  {
    RunStep(db, w, events);
    RunStep(db, Do(db, w, events[0]), events[1..]);
    var w2 := Do(db, Do(db, w, events[0]), events[1]);
    RunStep(db, w2, events[2..]);
    RunStep(db, Do(db, w2, events[2]), events[3..]);
    var w4 := Do(db, Do(db, w2, events[2]), events[3]);
    RunStep(db, w4, events[4..]);
    RunStep(db, Do(db, w4, events[4]), events[5..]);
    var w6 := Do(db, Do(db, w4, events[4]), events[5]);
    RunStep(db, w6, events[6..]);
    assert events[1..][1..] == events[2..] && events[2..][1..] == events[3..] && events[3..][1..] == events[4..];
    assert events[4..][1..] == events[5..] && events[5..][1..] == events[6..] && events[6..][1..] == [];
  }

  lemma RunStep(db: Database, w: World, events: seq<Event>)
    requires events != []
    ensures Run(db, w, events) == Run(db, Do(db, w, events[0]), events[1..])
  {
  }

  // ----- the slices -----

  /** A cache entry as it lies in memory. */
  datatype Slot = Slot(values: array<string>, expiresAt: int)

  /** Go's `append([]string(nil), s...)`. */
  method Copy(s: array<string>) returns (r: array<string>)
    ensures fresh(r) && r[..] == s[..]
  {
    r := new string[s.Length](i requires 0 <= i < s.Length reads s => s[i]);
  }

  class TaskNames {
    var slots: map<string, Slot>

    /** The arrays the cache owns. */
    ghost function Owned(): set<array<string>>
      reads this
    {
      set queue | queue in slots :: slots[queue].values
    }

    /** What the cache says. */
    ghost function Contents(): Cache
      reads this, Owned()
    {
      map queue | queue in slots :: Entry(slots[queue].values[..], slots[queue].expiresAt)
    }

    constructor ()
      ensures Contents() == map[] && Owned() == {}
    {
      slots := map[];
    }

    /** The hit path: the caller gets an array of its own. */
    method Lookup(queue: string, now: int) returns (hit: bool, names: array<string>)
      ensures hit <==> Hit(Contents(), queue, now).Some?
      ensures hit ==> names[..] == Hit(Contents(), queue, now).value
      ensures fresh(names) && names !in Owned()
    {
      hit := queue in slots && now < slots[queue].expiresAt;
      if hit {
        names := Copy(slots[queue].values);
      } else {
        names := new string[0];
      }
    }

    /** The store after a miss: the cache keeps a copy, the caller keeps what was fetched. */
    method Remember(queue: string, now: int, taskNames: array<string>)
      requires taskNames !in Owned()
      modifies this
      ensures Contents() == Stored(old(Contents()), queue, now, old(taskNames[..]))
      ensures fresh(Owned() - old(Owned())) && taskNames !in Owned()
    {
      var copy := Copy(taskNames);
      slots := slots[queue := Slot(copy, now + TTL)];
    }

    /** getRecentQueueTaskNamesCached without a concurrent request; `fetched` is what the query
        would return, no array when it fails. */
    method GetCached(queue: string, now: int, fetched: array?<string>) returns (ok: bool, names: array<string>)
      requires fetched == null || fetched !in Owned()
      modifies this
      ensures var hit := Hit(old(Contents()), queue, now);
              && (ok <==> hit.Some? || fetched != null)
              && (hit.Some? ==> names[..] == hit.value && Contents() == old(Contents()))
              && (hit.None? && fetched != null ==>
                    names[..] == old(fetched[..]) && Contents() == Stored(old(Contents()), queue, now, names[..]))
              && (!ok ==> Contents() == old(Contents()))
      ensures names !in Owned() && fresh(Owned() - old(Owned()))
    {
      ok, names := Lookup(queue, now);
      if ok {
        return;
      }
      if fetched == null {
        return;
      }
      Remember(queue, now, fetched);
      ok, names := true, fetched;
    }
  }

  /** A caller that overwrites what it was given. */
  method Scribble(names: array<string>, values: seq<string>)
    requires |values| <= names.Length
    modifies names
    ensures names[..] == values + old(names[|values|..])
  {
    var i := 0;
    while i < |values|
      invariant 0 <= i <= |values|
      invariant forall k | 0 <= k < names.Length :: names[k] == if k < i then values[k] else old(names[k])
    {
      names[i] := values[i];
      i := i + 1;
    }
  }

  /** Two requests with a caller that scribbles over its first answer in between: the second answer
      and the cache are as if it had not. */
  method AnswersAreNotShared(cache: TaskNames, queue: string, now: int, later: int, fetched: array<string>,
      junk: seq<string>)
    returns (first: seq<string>, second: seq<string>)
    requires fetched !in cache.Owned() && |junk| <= fetched.Length
    requires Hit(cache.Contents(), queue, now).None? && now <= later < now + TTL
    modifies cache, fetched
    ensures first == old(fetched[..]) && second == first
    ensures cache.Contents() == Stored(old(cache.Contents()), queue, now, first)
  {
    var ok, names := cache.GetCached(queue, now, fetched);
    first := names[..];
    ghost var before := cache.Contents();
    Scribble(fetched, junk);
    assert cache.Contents() == before;
    var hit, again := cache.Lookup(queue, later);
    second := again[..];
    Scribble(again, seq(again.Length, i => ""));
  }
}
