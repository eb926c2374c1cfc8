/** What durable execution promises, over every script of crashes, lost requests and replies,
    takeovers, zombies, cancellations and retries. */
module Durable {
  import opened Store
  import opened Names
  import opened Replay
  import opened History
  import opened Invariant
  import opened Steps
  import opened Safety

  lemma {:induction false} ExecKeeps(h: Handler, w: World, H: seq<Value>, script: seq<Event>) returns (H': seq<Value>)
    requires NoHarmfulCollision(h) && Inv(h, w, H)
    ensures H <= H' && Inv(h, Exec(h, w, script), H')
    decreases |script|
  {
    H' := H;
    if script != [] {
      var K := DoKeeps(h, w, H, script[0]);
      H' := ExecKeeps(h, Do(h, w, script[0]), K, script[1..]);
    }
  }

  lemma {:induction false} ExecAppend(h: Handler, w: World, a: seq<Event>, b: seq<Event>)
    ensures Exec(h, w, a + b) == Exec(h, Exec(h, w, a), b)
    decreases |a|
  {
    if a == [] {
      assert a + b == b;
    } else {
      assert (a + b)[0] == a[0] && (a + b)[1..] == a[1..] + b;
      ExecAppend(h, Do(h, w, a[0]), a[1..], b);
    }
  }

  /** A reachable world and any later one, each with its history. */
  lemma Reach(h: Handler, now: int, script: seq<Event>, more: seq<Event>) returns (H: seq<Value>, H': seq<Value>)
    requires NoHarmfulCollision(h)
    ensures Inv(h, Exec(h, Start(now), script), H)
    ensures Inv(h, Exec(h, Start(now), script + more), H')
    ensures H <= H'
  {
    InitInv(h, now);
    H := ExecKeeps(h, Start(now), [], script);
    H' := ExecKeeps(h, Exec(h, Start(now), script), H, more);
    ExecAppend(h, Start(now), script, more);
  }

  /** The committed checkpoints of any run of the system are one growing history of the handler:
      no committed value ever changes, and what every session has observed, zombies included,
      is a prefix of that history. */
  lemma OneGrowingHistory(h: Handler, now: int, script: seq<Event>, more: seq<Event>)
    returns (H: seq<Value>, H': seq<Value>)
    requires NoHarmfulCollision(h)
    ensures var w, w' := Exec(h, Start(now), script), Exec(h, Start(now), script + more);
            && Live(h, H) && Committed(w.task) == Table(h, H)
            && Live(h, H') && Committed(w'.task) == Table(h, H') && H <= H'
            && (forall n | n in Committed(w.task) ::
                n in Committed(w'.task) && Committed(w'.task)[n] == Committed(w.task)[n])
            && (forall i | 0 <= i < |w.sessions| :: w.sessions[i].seen <= H)
            && (forall i | 0 <= i < |w'.sessions| :: w'.sessions[i].seen <= H')
  {
    H, H' := Reach(h, now, script, more);
    TableGrows(h, H, H');
  }

  /** The history of a world is a function of its checkpoint rows. */
  lemma HistoryIsUnique(h: Handler, w: World, H: seq<Value>, K: seq<Value>)
    requires Inv(h, w, H) && Inv(h, w, K)
    ensures H == K
  {
    SameRowsSameHistory(h, H, K);
  }

  lemma CompletedServe(w: World, i: nat, lease: int, after: AfterFail)
    requires RunsOk(w.task) && w.task.state == Completed && i < |w.sessions|
    ensures var t' := ServeOne(w, i, lease, after).task; t'.state == Completed && t'.result == w.task.result
  {
    if w.sessions[i].run < |w.task.runs| {
      assert w.task.runs[w.sessions[i].run].state in {State.Failed, Completed};
    }
  }

  lemma CompletedQueue(h: Handler, w: World, e: Event)
    requires RunsOk(w.task) && w.task.state == Completed && !IsLocal(e) && !e.Serve? && !e.GiveUp?
    ensures Do(h, w, e).task.state == Completed && Do(h, w, e).task.result == w.task.result
  {
    assert w.task.runs[Newest(w.task)].state == Completed;
    assert forall k | 0 <= k < |w.task.runs| :: w.task.runs[k].state in {State.Failed, Completed};
  }

  lemma CompletedStays(h: Handler, w: World, e: Event)
    requires RunsOk(w.task) && w.task.state == Completed
    ensures Do(h, w, e).task.state == Completed && Do(h, w, e).task.result == w.task.result
  {
    if e.Serve? {
      if e.i < |w.sessions| {
        CompletedServe(w, e.i, e.lease, e.after);
      }
    } else if !e.GiveUp? && !IsLocal(e) {
      CompletedQueue(h, w, e);
    }
  }

  lemma {:induction false} ExecStaysCompleted(h: Handler, w: World, script: seq<Event>)
    requires Sound(h, w) && w.task.state == Completed
    ensures Exec(h, w, script).task.state == Completed && Exec(h, w, script).task.result == w.task.result
    decreases |script|
  {
    if script != [] {
      DoSound(h, w, script[0]);
      CompletedStays(h, w, script[0]);
      ExecStaysCompleted(h, Do(h, w, script[0]), script[1..]);
    }
  }

  /** A task completes at most once, with the handler's own return value on the whole history;
      from then on neither the result nor the history changes. */
  lemma ResultIsFinal(h: Handler, now: int, script: seq<Event>, more: seq<Event>) returns (H: seq<Value>)
    requires NoHarmfulCollision(h)
    requires Exec(h, Start(now), script).task.state == Completed
    ensures var w, w' := Exec(h, Start(now), script), Exec(h, Start(now), script + more);
            && Live(h, H) && Committed(w.task) == Table(h, H)
            && w.task.result.Some? && h(H) == Return(w.task.result.value)
            && w'.task.state == Completed && w'.task.result == w.task.result
            && Committed(w'.task) == Committed(w.task)
  {
    var H';
    H, H' := Reach(h, now, script, more);
    ResultNeverChanges(h, now, script, more);
    ReturnedAtEnd(h, H', H);
  }

  // ----- for every handler, whatever its step names -----

  /** A reachable world and any later one. */
  lemma ReachSound(h: Handler, now: int, script: seq<Event>, more: seq<Event>)
    ensures Sound(h, Exec(h, Start(now), script))
    ensures RowsKept(Exec(h, Start(now), script).task, Exec(h, Start(now), script + more).task)
  {
    InitSound(h, now);
    ExecSound(h, Start(now), script);
    ExecSound(h, Exec(h, Start(now), script), more);
    ExecAppend(h, Start(now), script, more);
  }

  /** No committed value ever changes or disappears. */
  lemma RowsNeverChange(h: Handler, now: int, script: seq<Event>, more: seq<Event>, name: string)
    requires name in Committed(Exec(h, Start(now), script).task)
    ensures var t, t' := Exec(h, Start(now), script).task, Exec(h, Start(now), script + more).task;
            name in Committed(t') && Committed(t')[name] == Committed(t)[name]
  {
    ReachSound(h, now, script, more);
  }

  /** No result without completion, whatever the script. */
  lemma ResultOnlyWhenCompleted(h: Handler, now: int, script: seq<Event>)
    ensures var t := Exec(h, Start(now), script).task; t.result.Some? <==> t.state == Completed
  {
    ReachSound(h, now, script, []);
  }

  /** A task completes at most once: its result is never replaced or withdrawn. */
  lemma ResultNeverChanges(h: Handler, now: int, script: seq<Event>, more: seq<Event>)
    requires Exec(h, Start(now), script).task.state == Completed
    ensures var t, t' := Exec(h, Start(now), script).task, Exec(h, Start(now), script + more).task;
            t'.state == Completed && t'.result == t.result
  {
    ReachSound(h, now, script, []);
    assert script + [] == script;
    ExecStaysCompleted(h, Exec(h, Start(now), script), more);
    ExecAppend(h, Start(now), script, more);
  }

  lemma SoundLookup(h: Handler, w: World, i: nat, name: string)
    requires Sound(h, w) && i < |w.sessions|
    ensures Submap(w.sessions[i].cache, Committed(w.task))
    ensures Lookup(w.sessions[i].cache, Committed(w.task), name) == Lookup(map[], Committed(w.task), name)
  {
  }

  /** Cached lookup refines direct lookup: preloading, reading through and storing after the
      commit leave every cache a part of the store, so each lookup answers as the store would. */
  lemma CachedLookupIsDirect(h: Handler, now: int, script: seq<Event>, i: nat, name: string)
    requires i < |Exec(h, Start(now), script).sessions|
    ensures var w := Exec(h, Start(now), script);
            && Submap(w.sessions[i].cache, Committed(w.task))
            && Lookup(w.sessions[i].cache, Committed(w.task), name) == Lookup(map[], Committed(w.task), name)
  {
    ReachSound(h, now, script, []);
    SoundLookup(h, Exec(h, Start(now), script), i, name);
  }

  /** The row of a sleep the session is past, now and later. */
  ghost predicate SleepRecorded(h: Handler, s: Session, k: nat, t: Task, t': Task, wake: int)
    requires k < |s.seen| && h(s.seen[..k]).Takes()
  {
    var name := NameAt(h, s.seen[..k]);
    && name in Committed(t) && Committed(t)[name] in {Time(wake), Json("")}
    && name in Committed(t') && Committed(t')[name] == Committed(t)[name]
    && k in s.passed && s.passed[k] >= wake
  }

  lemma SoundSleep(h: Handler, w: World, t': Task, i: nat, k: nat)
    requires Sound(h, w) && RowsKept(w.task, t') && i < |w.sessions|
    requires k < |w.sessions[i].seen| && h(w.sessions[i].seen[..k]).Sleep?
    ensures w.sessions[i].seen[k].Time?
    ensures SleepRecorded(h, w.sessions[i], k, w.task, t', w.sessions[i].seen[k].at)
  {
    assert SessionSound(h, w.task, w.sessions[i]);
    assert SleptThrough(h, w.task, w.sessions[i], k);
  }

  /** In a history the row is the time itself. */
  lemma SleepIsTimed(h: Handler, w: World, H: seq<Value>, i: nat, k: nat)
    requires Inv(h, w, H) && i < |w.sessions|
    requires k < |w.sessions[i].seen| && h(w.sessions[i].seen[..k]).Sleep?
    ensures var name := NameAt(h, w.sessions[i].seen[..k]);
            name in Committed(w.task) && Committed(w.task)[name] == w.sessions[i].seen[k]
  {
    var s := w.sessions[i];
    assert s.seen[..k] == H[..k] && s.seen[k] == H[k];
    RowAt(h, H, k);
  }

  /** A session never gets past a sleep before its first recorded wake time by the local clock, and
      that record is never moved, although every replay proposes a new time.  A colliding name may
      answer the sleep with an empty text, for which each replay waits until the time it proposes;
      without harmful collisions the record is always the time. */
  lemma SleepHolds(h: Handler, now: int, script: seq<Event>, more: seq<Event>, i: nat, k: nat) returns (wake: int)
    requires i < |Exec(h, Start(now), script).sessions|
    requires var s := Exec(h, Start(now), script).sessions[i]; k < |s.seen| && h(s.seen[..k]).Sleep?
    ensures var w, t' := Exec(h, Start(now), script), Exec(h, Start(now), script + more).task;
            && w.sessions[i].seen[k] == Time(wake)
            && SleepRecorded(h, w.sessions[i], k, w.task, t', wake)
            && (NoHarmfulCollision(h) ==> Committed(w.task)[NameAt(h, w.sessions[i].seen[..k])] == Time(wake))
  {
    var w := Exec(h, Start(now), script);
    ReachSound(h, now, script, more);
    SoundSleep(h, w, Exec(h, Start(now), script + more).task, i, k);
    wake := w.sessions[i].seen[k].at;
    if NoHarmfulCollision(h) {
      var H, _ := Reach(h, now, script, []);
      SleepIsTimed(h, w, H, i, k);
    }
  }

  /** A request for a run that is over is turned away. */
  lemma ServeEnded(w: World, i: nat, lease: int, after: AfterFail)
    requires i < |w.sessions| && w.sessions[i].run < |w.task.runs|
    requires w.task.runs[w.sessions[i].run].state in {State.Failed, Cancelled}
    requires w.task.runs[w.sessions[i].run].state == Cancelled ==> w.task.state == Cancelled
    ensures ServeOne(w, i, lease, after).task == w.task
  {
  }

  lemma SoundZombie(h: Handler, w: World, i: nat, lease: int, after: AfterFail)
    requires Sound(h, w) && i < |w.sessions|
    ensures var s := w.sessions[i];
            && s.run < |w.task.runs|
            && (s.run < |w.task.runs| - 1 ==> w.task.runs[s.run].state == State.Failed)
            && (w.task.runs[s.run].state in {State.Failed, Cancelled} ==> ServeOne(w, i, lease, after).task == w.task)
  {
    assert SessionSound(h, w.task, w.sessions[i]);
    if w.task.runs[w.sessions[i].run].state in {State.Failed, Cancelled} {
      ServeEnded(w, i, lease, after);
    }
  }

  /** At any time at most the newest run is not failed; requests on behalf of a run that has
      failed or was cancelled, early or late, change nothing in the store. */
  lemma ZombiesChangeNothing(h: Handler, now: int, script: seq<Event>, i: nat, lease: int, after: AfterFail)
    requires i < |Exec(h, Start(now), script).sessions|
    ensures var w := Exec(h, Start(now), script);
            var s := w.sessions[i];
            && s.run < |w.task.runs|
            && (s.run < |w.task.runs| - 1 ==> w.task.runs[s.run].state == State.Failed)
            && (w.task.runs[s.run].state in {State.Failed, Cancelled} ==> ServeOne(w, i, lease, after).task == w.task)
  {
    ReachSound(h, now, script, []);
    assert script + [] == script;
    SoundZombie(h, Exec(h, Start(now), script), i, lease, after);
  }
}
