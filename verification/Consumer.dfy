/**
 One consumer's loop: capacity, reclaim, read, dispatch (broker/consumer.py,
 `StreamConsumer`). Between any two statements separated by an `await`, tasks of
 this consumer may finish and other consumers may use the group; a script says
 what happens at each `await`, and is arbitrary.
 */
module Consumer {
  import opened Wrappers
  import opened Protocol
  import opened Sweep
  import opened Sums

  /** The consumer group as Redis keeps it. */
  datatype Group = Group(length: nat, cursor: EntryId, pel: seq<EntryId>, deliveries: map<EntryId, nat>)

  predicate GroupOk(g: Group) {
    && g.cursor <= g.length
    && Ascending(g.pel)
    && (forall e :: e in g.pel ==> e < g.cursor && e in g.deliveries)
  }

  /** What others do to the group: append, read on, claim and ack, but never un-deliver an entry. */
  predicate Follows(g: Group, g': Group) {
    GroupOk(g') && g.length <= g'.length && g.cursor <= g'.cursor
  }

  /** One `await`: the tasks that pass their `finally`, the done-callbacks that run, the group as others leave it. */
  datatype Pause = Pause(finished: set<TaskId>, retired: set<TaskId>, group: Group, idle: set<EntryId>, raises: bool)

  /** What became of a reclaimed entry. */
  datatype Handled = Skipped | Buried(deliveries: nat) | Dispatched(task: TaskId) | Raised

  function Range(lo: EntryId, hi: EntryId): (es: seq<EntryId>)
    requires lo <= hi
    ensures |es| == hi - lo
    ensures forall i :: 0 <= i < |es| ==> es[i] == lo + i
  {
    seq(hi - lo, i requires 0 <= i => lo + i)
  }

  lemma RangeMembers(lo: EntryId, hi: EntryId)
    requires lo <= hi
    ensures forall e :: e in Range(lo, hi) <==> lo <= e < hi
  {
    forall e ensures e in Range(lo, hi) <==> lo <= e < hi {
      if lo <= e < hi { assert Range(lo, hi)[e - lo] == e; }
    }
  }

  /** `ids` is exactly the entries of the unfinished tasks, and each has one task. */
  ghost predicate Registered(ids: set<EntryId>, running: map<TaskId, EntryId>) {
    && (forall t :: t in running ==> running[t] in ids)
    && (forall e :: e in ids ==> exists t :: t in running && running[t] == e)
    && (forall t, u :: t in running && u in running && running[t] == running[u] ==> t == u)
  }

  function EntriesOf(running: map<TaskId, EntryId>, done: set<TaskId>): set<EntryId> {
    set t | t in done && t in running :: running[t]
  }

  lemma FinishKeepsRegistered(ids: set<EntryId>, running: map<TaskId, EntryId>, done: set<TaskId>)
    requires Registered(ids, running) && done <= running.Keys
    ensures Registered(ids - EntriesOf(running, done), running - done)
  {
    var ids', running' := ids - EntriesOf(running, done), running - done;
    forall e | e in ids' ensures exists t :: t in running' && running'[t] == e {
      var t :| t in running && running[t] == e;
      assert t in running' && running'[t] == e;
    }
  }

  lemma StartKeepsRegistered(ids: set<EntryId>, running: map<TaskId, EntryId>, t: TaskId, e: EntryId)
    requires Registered(ids, running) && e !in ids && t !in running
    ensures Registered(ids + {e}, running[t := e])
  {
    var running' := running[t := e];
    assert running'[t] == e;
    forall i | i in ids ensures exists u :: u in running' && running'[u] == i {
      var u :| u in running && running[u] == i;
      assert u in running' && running'[u] == i;
    }
  }

  class StreamConsumer {
    const concurrency: int
    const maxDeliveryCount: int
    var inFlight: set<TaskId>             // futures whose done-callback has not run
    var inFlightIds: set<EntryId>
    var reclaimCursor: EntryId
    var running: map<TaskId, EntryId>     // tasks not past their `finally`
    var nextTask: TaskId
    var group: Group
    var script: seq<Pause>
    var buried: seq<EntryId>              // entries sent to the dead-letter stream
    ghost var faults: nat                 // calls that raised

    ghost predicate Valid()
      reads this
    {
      && GroupOk(group)
      // the register of ids is exactly the ids of unfinished tasks, one task each
      && Registered(inFlightIds, running)
      // backpressure
      && running.Keys <= inFlight
      && (inFlight == {} || |inFlight| <= concurrency)
      // bookkeeping
      && (forall t :: t in inFlight ==> t < nextTask)
      && (forall t :: t in running ==> running[t] < group.cursor)
    }

    constructor (concurrency: int, maxDeliveryCount: int, group: Group, script: seq<Pause>)
      requires GroupOk(group)
      ensures Valid() && inFlight == {} && running == map[] && reclaimCursor == 0
    {
      this.concurrency, this.maxDeliveryCount := concurrency, maxDeliveryCount;
      this.group, this.script := group, script;
      inFlight, inFlightIds, running, buried := {}, {}, map[], [];
      reclaimCursor, nextTask, faults := 0, 0, 0;
    }

    function FreeCapacity(): (room: int)
      reads this
      ensures room + |inFlight| == concurrency
    {
      concurrency - |inFlight|
    }

    /** Tasks pass their `finally`: their ids leave the register. */
    method FinishTasks(done: set<TaskId>)
      requires Valid() && done <= running.Keys
      modifies this`inFlightIds, this`running
      ensures Valid() && inFlightIds == old(inFlightIds) - EntriesOf(old(running), done)
              && running == old(running) - done
    {
      FinishKeepsRegistered(inFlightIds, running, done);
      inFlightIds := inFlightIds - EntriesOf(running, done);
      running := running - done;
    }

    /** Done-callbacks of finished tasks run: their futures leave the in-flight set. */
    method RetireTasks(retired: set<TaskId>)
      requires Valid() && retired !! running.Keys
      modifies this`inFlight
      ensures Valid() && inFlight == old(inFlight) - retired
    {
      SubsetSize(inFlight - retired, inFlight);
      inFlight := inFlight - retired;
    }

    /** Suspends the loop for one pause: nothing is dispatched meanwhile, so the registers only shrink. */
    method Await() returns (pause: Pause)
      requires Valid()
      modifies this`inFlight, this`inFlightIds, this`running, this`group, this`script, this`faults
      ensures Valid() && inFlight <= old(inFlight) && inFlightIds <= old(inFlightIds)
      ensures running.Keys <= old(running.Keys) && FreeCapacity() >= old(FreeCapacity())
      ensures Follows(old(group), group)
      ensures faults == old(faults) + if pause.raises then 1 else 0
    {
      if script == [] { return Pause({}, {}, group, {}, false); }
      pause, script := script[0], script[1..];
      faults := faults + if pause.raises then 1 else 0;
      FinishTasks(pause.finished * running.Keys);
      RetireTasks(pause.retired - running.Keys);
      SubsetSize(inFlight, old(inFlight));
      if Follows(group, pause.group) { Adopt(pause.group); }
    }

    /** Other consumers have used the group. */
    method Adopt(g: Group)
      requires Valid() && Follows(group, g)
      modifies this`group
      ensures Valid() && group == g
    {
      group := g;
    }

    /** Spawns the task that owns `e`. Synchronous: no one runs in between. */
    method Dispatch(e: EntryId) returns (t: TaskId)
      requires Valid() && e !in inFlightIds && e < group.cursor && FreeCapacity() >= 1
      modifies this`inFlight, this`inFlightIds, this`running, this`nextTask
      ensures Valid()
      ensures t == old(nextTask) && t !in old(inFlight)
      ensures inFlight == old(inFlight) + {t} && inFlightIds == old(inFlightIds) + {e}
      ensures running == old(running)[t := e] && FreeCapacity() == old(FreeCapacity()) - 1
    {
      t := nextTask;
      StartKeepsRegistered(inFlightIds, running, t, e);
      inFlightIds := inFlightIds + {e};
      running := running[t := e];
      inFlight := inFlight + {t};
      nextTask := nextTask + 1;
    }

    // --------------------------------------------------------------- reclaim

    /** XPENDING of one entry: 0 when it is no longer pending. */
    method DeliveryCount(e: EntryId) returns (r: Option<nat>)
      requires Valid()
      modifies this`inFlight, this`inFlightIds, this`running, this`group, this`script, this`faults
      ensures Valid() && inFlightIds <= old(inFlightIds) && FreeCapacity() >= old(FreeCapacity())
      ensures Follows(old(group), group)
      ensures r.Some? && e in group.pel ==> r.value == group.deliveries[e]
      ensures r.Some? && e !in group.pel ==> r.value == 0
      ensures faults == old(faults) + if r.None? then 1 else 0
    {
      var pause := Await();
      r := if pause.raises then None else Some(CountIn(group, e));
    }

    /** Dead letter, then ack: two awaits, either of which may raise. */
    method RouteToDlq(e: EntryId) returns (raised: bool)
      requires Valid()
      modifies this`inFlight, this`inFlightIds, this`running, this`group, this`script, this`faults, this`buried
      ensures Valid() && inFlightIds <= old(inFlightIds) && FreeCapacity() >= old(FreeCapacity())
      ensures Follows(old(group), group)
      ensures !raised ==> e !in group.pel && buried == old(buried) + [e]
      ensures buried == old(buried) || buried == old(buried) + [e]
      ensures faults == old(faults) + if raised then 1 else 0
    {
      var pause := Await();
      if pause.raises { return true; }
      buried := buried + [e];
      pause := Await();
      raised := pause.raises;
      if !raised {
        Without(group.pel, e);
        group := group.(pel := Remove(group.pel, e));
      }
    }

    /**
     A reclaimed entry is skipped, buried or dispatched, by the delivery count
     read; never dispatched beside a task of ours on it.
     */
    method HandleReclaimed(e: EntryId) returns (h: Handled, ghost seen: Group)
      requires Valid() && e < group.cursor && FreeCapacity() >= 1
      modifies this`inFlight, this`inFlightIds, this`running, this`group, this`script, this`nextTask, this`faults,
               this`buried
      ensures Valid() && FreeCapacity() >= old(FreeCapacity()) - (if h.Dispatched? then 1 else 0)
      ensures Follows(old(group), group)
      ensures faults == old(faults) + if h.Raised? then 1 else 0
      ensures h.Skipped? <==> e in old(inFlightIds)
      ensures e in seen.pel ==> e in seen.deliveries
      ensures h.Skipped? ==> group == old(group) && running == old(running) && buried == old(buried)
      ensures h.Buried? ==> h.deliveries == (if e in seen.pel then seen.deliveries[e] else 0) > maxDeliveryCount
      ensures h.Buried? ==> e !in group.pel && buried == old(buried) + [e]
      ensures h.Dispatched? ==> (if e in seen.pel then seen.deliveries[e] else 0) <= maxDeliveryCount
      ensures h.Dispatched? ==> seen == group && h.task in running && running[h.task] == e && buried == old(buried)
      ensures inFlightIds <= old(inFlightIds) + if h.Dispatched? then {e} else {}
    {
      seen := group;
      if e in inFlightIds { return Skipped, seen; }
      var deliveries := DeliveryCount(e);
      seen := group;
      if deliveries.None? { return Raised, seen; }
      if deliveries.value > maxDeliveryCount {
        var raised := RouteToDlq(e);
        h := if raised then Raised else Buried(deliveries.value);
        return;
      }
      var t := Dispatch(e);
      h := Dispatched(t);
    }

    /** One XAUTOCLAIM at the cursor, for as many entries as there is room, then each claimed entry in turn. */
    method ReclaimOrphans()
      returns (claimed: seq<EntryId>, outcomes: seq<Handled>, raised: bool, ghost pass: Option<Pass>,
        ghost round: Round)
      requires Valid()
      modifies this
      ensures Valid() && old(group).cursor <= group.cursor
      ensures pass.Some? ==> pass.value.count == old(FreeCapacity()) >= 1 && Ascending(pass.value.pel)
      ensures pass.Some? ==>
                (claimed, reclaimCursor) == AutoClaim(pass.value.pel, pass.value.idle, old(reclaimCursor),
                  pass.value.count)
      ensures pass.None? ==> claimed == [] && outcomes == [] && reclaimCursor == old(reclaimCursor)
      ensures pass.None? <==> old(FreeCapacity()) <= 0 || (raised && outcomes == [])
      ensures faults >= old(faults) && (raised <==> faults > old(faults))
      ensures FreeCapacity() >= old(FreeCapacity()) - |claimed|
      ensures if raised then |outcomes| <= |claimed| else |outcomes| == |claimed|
      ensures forall i :: 0 <= i < |outcomes| && outcomes[i].Raised? ==> raised && i == |outcomes| - 1
      ensures pass.Some? ==> round.before.pel == pass.value.pel && Claimed(round.before, round.after, claimed)
      ensures pass.Some? ==> |round.seen| == |outcomes|
      ensures forall i :: 0 <= i < |outcomes| && outcomes[i].Skipped? ==> claimed[i] in old(inFlightIds)
      ensures forall i :: 0 <= i < |outcomes| ==> Judged(maxDeliveryCount, round.seen[i], claimed[i], outcomes[i])
    {
      claimed, outcomes, raised, pass := [], [], false, None;
      round := Round(group, group, []);
      var capacity := FreeCapacity();
      if capacity <= 0 { return; }
      var pause := Await();
      if pause.raises { return [], [], true, None, round; }
      var r := AutoClaim(group.pel, pause.idle, reclaimCursor, capacity);
      claimed, reclaimCursor := r.0, r.1;
      pass := Some(Pass(group.pel, pause.idle, capacity));
      ghost var before := group;
      group := group.(deliveries := Redelivered(group.deliveries, claimed));
      assert forall k :: 0 <= k < |claimed| ==> claimed[k] in group.pel;
      ClaimsAscend(group.pel, pause.idle, old(reclaimCursor), capacity);
      round := Round(before, group, []);
      ghost var seen;
      outcomes, raised, seen := HandleAll(claimed);
      round := round.(seen := seen);
    }

    /** Handles one of the claimed entries; the later ones are in flight only if they were. */
    method HandleNext(claimed: seq<EntryId>, i: nat) returns (h: Handled, ghost at: Group)
      requires Valid() && FreeCapacity() >= 1 && Ascending(claimed) && i < |claimed| && claimed[i] < group.cursor
      modifies this`inFlight, this`inFlightIds, this`running, this`group, this`script, this`nextTask, this`faults,
               this`buried
      ensures Valid() && Follows(old(group), group) && FreeCapacity() >= old(FreeCapacity()) - 1
      ensures faults == old(faults) + if h.Raised? then 1 else 0
      ensures Judged(maxDeliveryCount, at, claimed[i], h)
      ensures h.Skipped? ==> claimed[i] in old(inFlightIds)
      ensures forall k :: i < k < |claimed| && claimed[k] in inFlightIds ==> claimed[k] in old(inFlightIds)
    {
      h, at := HandleReclaimed(claimed[i]);
    }

    /** Handles the claimed entries in turn; an exception ends the pass. */
    method HandleAll(claimed: seq<EntryId>) returns (outcomes: seq<Handled>, raised: bool, ghost seen: seq<Group>)
      requires Valid() && FreeCapacity() >= |claimed| && Ascending(claimed)
      requires forall k :: 0 <= k < |claimed| ==> claimed[k] < group.cursor
      modifies this`inFlight, this`inFlightIds, this`running, this`group, this`script, this`nextTask, this`faults,
               this`buried
      ensures Valid() && Follows(old(group), group)
      ensures FreeCapacity() >= old(FreeCapacity()) - |claimed|
      ensures if raised then 1 <= |outcomes| <= |claimed| else |outcomes| == |claimed|
      ensures faults >= old(faults) && (raised <==> faults > old(faults))
      ensures forall i :: 0 <= i < |outcomes| && outcomes[i].Raised? ==> raised && i == |outcomes| - 1
      ensures |seen| == |outcomes|
      ensures forall i :: 0 <= i < |outcomes| ==> Judged(maxDeliveryCount, seen[i], claimed[i], outcomes[i])
      ensures forall i :: 0 <= i < |outcomes| && outcomes[i].Skipped? ==> claimed[i] in old(inFlightIds)
    {
      outcomes, raised, seen := [], false, [];
      for i := 0 to |claimed|
        invariant |outcomes| == i && Valid() && Follows(old(group), group)
        invariant FreeCapacity() >= old(FreeCapacity()) - i && faults == old(faults)
        invariant forall k :: 0 <= k < i ==> !outcomes[k].Raised?
        invariant forall k :: i <= k < |claimed| && claimed[k] in inFlightIds ==> claimed[k] in old(inFlightIds)
        invariant forall k :: 0 <= k < i && outcomes[k].Skipped? ==> claimed[k] in old(inFlightIds)
        invariant |seen| == i && forall k :: 0 <= k < i ==> Judged(maxDeliveryCount, seen[k], claimed[k], outcomes[k])
      {
        var h, at := HandleNext(claimed, i);
        outcomes, seen := outcomes + [h], seen + [at];
        if h.Raised? { return outcomes, true, seen; }
      }
    }

    // ------------------------------------------------------------------ read

    /** XREADGROUP '>': up to `count` entries never delivered before. */
    method ReadNew(count: nat) returns (entries: seq<EntryId>, raised: bool, ghost before: Group)
      requires Valid()
      modifies this`inFlight, this`inFlightIds, this`running, this`group, this`script, this`faults
      ensures Valid() && FreeCapacity() >= old(FreeCapacity()) && |entries| <= count
      ensures |entries| <= group.cursor && entries == Range(group.cursor - |entries|, group.cursor)
      ensures raised ==> entries == []
      ensures !raised && |entries| < count ==> group.cursor == group.length
      ensures faults == old(faults) + if raised then 1 else 0
      ensures forall e :: e in entries ==> e in group.pel && e in group.deliveries && group.deliveries[e] == 1
      ensures old(group).cursor <= group.cursor
      ensures Follows(old(group), before) && before.cursor == group.cursor - |entries| && before.length == group.length
      ensures forall e :: e in group.pel <==> e in before.pel || e in entries
      ensures forall e :: e in before.pel ==> e in group.deliveries && group.deliveries[e] == before.deliveries[e]
      ensures forall i :: 0 <= i < |entries| ==>
                old(group).cursor <= entries[i] < group.cursor && entries[i] !in inFlightIds
    {
      var pause := Await();
      before := group;
      if pause.raises { return [], true, before; }
      raised := false;
      var hi := if group.length - group.cursor <= count then group.length else group.cursor + count;
      entries := Range(group.cursor, hi);
      group := Delivered(group, hi);
    }

    /** Dispatches what was read; no `await` in between, so the capacity computed before still holds. */
    method DispatchAll(entries: seq<EntryId>)
      requires Valid() && Ascending(entries) && FreeCapacity() >= |entries|
      requires forall i :: 0 <= i < |entries| ==> entries[i] < group.cursor && entries[i] !in inFlightIds
      modifies this`inFlight, this`inFlightIds, this`running, this`nextTask
      ensures Valid() && FreeCapacity() == old(FreeCapacity()) - |entries|
      ensures forall i :: 0 <= i < |entries| ==> entries[i] in inFlightIds
      ensures old(inFlightIds) <= inFlightIds
    {
      for i := 0 to |entries|
        invariant Valid() && FreeCapacity() == old(FreeCapacity()) - i
        invariant forall k :: 0 <= k < i ==> entries[k] in inFlightIds
        invariant forall k :: i <= k < |entries| ==> entries[k] !in inFlightIds
        invariant old(inFlightIds) <= inFlightIds
      {
        var t := Dispatch(entries[i]);
      }
    }

    /**
     One pass: reclaim, then read up to the free capacity left, then dispatch.
     A pass that reads less than its budget has emptied the stream; an exception
     anywhere ends it with nothing read.
     */
    method ConsumeOnce() returns (count: nat, raised: bool, ghost pass: Option<Pass>, ghost budget: int)
      requires Valid()
      modifies this
      ensures Valid() && (inFlight == {} || |inFlight| <= concurrency)
      ensures faults >= old(faults) && (raised <==> faults > old(faults))
      ensures pass.Some? ==>
                var p := pass.value;
                p.count == concurrency - |old(inFlight)|
                  && reclaimCursor == AutoClaim(p.pel, p.idle, old(reclaimCursor), p.count).1
      ensures |old(inFlight)| < concurrency && !raised ==>
                pass.Some? && var p := pass.value;
                budget >= old(FreeCapacity()) - |AutoClaim(p.pel, p.idle, old(reclaimCursor), p.count).0|
      ensures !raised && count < budget ==> group.cursor == group.length
      ensures count <= if raised || budget <= 0 then 0 else budget
      ensures count > 0 ==> |inFlight| >= count && group.cursor - count >= old(group).cursor
      ensures forall e :: group.cursor - count <= e < group.cursor ==>
                e in inFlightIds && e in group.pel && e in group.deliveries && group.deliveries[e] == 1
    {
      var claimed, outcomes;
      ghost var round;
      claimed, outcomes, raised, pass, round := ReclaimOrphans();
      count, budget := 0, FreeCapacity();
      if raised { return; }
      var capacity := FreeCapacity();
      if capacity <= 0 { return; }
      count, raised := ReadAndDispatch(capacity);
    }

    /** Steps (3) and (4) of a pass. */
    method ReadAndDispatch(capacity: nat) returns (count: nat, raised: bool)
      requires Valid() && capacity == FreeCapacity()
      modifies this`inFlight, this`inFlightIds, this`running, this`group, this`script, this`nextTask, this`faults
      ensures Valid() && count <= capacity && (raised ==> count == 0)
      ensures faults == old(faults) + if raised then 1 else 0
      ensures !raised && count < capacity ==> group.cursor == group.length
      ensures |inFlight| >= count && group.cursor - count >= old(group).cursor
      ensures forall e :: group.cursor - count <= e < group.cursor ==>
                e in inFlightIds && e in group.pel && e in group.deliveries && group.deliveries[e] == 1
    {
      var entries;
      ghost var before;
      entries, raised, before := ReadNew(capacity);
      DispatchAll(entries);
      count := |entries|;
      assert count > 0 ==> entries[0] < group.cursor;
      forall e | group.cursor - count <= e < group.cursor ensures e in inFlightIds && e in entries {
        assert entries[e - (group.cursor - count)] == e;
      }
    }
  }

  /** The group just before a claim, just after it, and as each claimed entry's count was read. */
  datatype Round = Round(before: Group, after: Group, seen: seq<Group>)

  /** A claim counts one more delivery of each claimed entry, and changes nothing else. */
  ghost predicate Claimed(before: Group, after: Group, claimed: seq<EntryId>) {
    && after.pel == before.pel && after.cursor == before.cursor && after.length == before.length
    && (forall e :: e in before.pel ==>
          e in before.deliveries && e in after.deliveries
          && after.deliveries[e] == before.deliveries[e] + if e in claimed then 1 else 0)
  }

  /** An entry whose count is above the limit is buried, one that is not, or is no longer pending, dispatched. */
  ghost predicate Judged(limit: int, seen: Group, e: EntryId, h: Handled) {
    && (e in seen.pel ==> e in seen.deliveries)
    && (h.Dispatched? && e in seen.pel ==> seen.deliveries[e] <= limit)
    && (h.Dispatched? && e !in seen.pel ==> 0 <= limit)
    && (h.Buried? && e in seen.pel ==> h.deliveries == seen.deliveries[e] > limit)
    && (h.Buried? && e !in seen.pel ==> h.deliveries == 0 > limit)
  }

  /** What XPENDING reports of an entry. */
  function CountIn(g: Group, e: EntryId): nat {
    if e in g.pel && e in g.deliveries then g.deliveries[e] else 0
  }

  function Remove(pel: seq<EntryId>, e: EntryId): seq<EntryId> {
    if pel == [] then [] else if pel[0] == e then pel[1..] else [pel[0]] + Remove(pel[1..], e)
  }

  lemma {:induction false} Without(pel: seq<EntryId>, e: EntryId)
    requires Ascending(pel)
    ensures Ascending(Remove(pel, e)) && e !in Remove(pel, e)
    ensures forall x :: x in Remove(pel, e) <==> x in pel && x != e
  {
    if pel != [] {
      assert pel == [pel[0]] + pel[1..];
      AscendingTail(pel);
      if pel[0] != e {
        Without(pel[1..], e);
        AscendingCons(pel[0], Remove(pel[1..], e));
        assert Remove(pel, e) == [pel[0]] + Remove(pel[1..], e);
      }
    }
  }

  lemma AscendingTail(pel: seq<EntryId>)
    requires Ascending(pel) && pel != []
    ensures Ascending(pel[1..])
    ensures forall x :: x in pel[1..] ==> x in pel && pel[0] < x
  {
  }

  lemma AscendingCons(x: EntryId, pel: seq<EntryId>)
    requires Ascending(pel) && forall y :: y in pel ==> x < y
    ensures Ascending([x] + pel)
  {
    var xs := [x] + pel;
    forall i, j | 0 <= i < j < |xs| ensures xs[i] < xs[j] {
      assert xs[j] == pel[j - 1] && pel[j - 1] in pel;
      if i > 0 { assert xs[i] == pel[i - 1]; }
    }
  }

  function Redelivered(deliveries: map<EntryId, nat>, claimed: seq<EntryId>): map<EntryId, nat> {
    map e | e in deliveries :: deliveries[e] + if e in claimed then 1 else 0
  }

  /** Every entry up to `hi` is pending with a first delivery. */
  function Delivered(g: Group, hi: EntryId): (g': Group)
    requires GroupOk(g) && g.cursor <= hi <= g.length
    ensures GroupOk(g') && g'.cursor == hi && g'.length == g.length
    ensures forall e :: e in g'.pel <==> e in g.pel || g.cursor <= e < hi
    ensures forall e :: e in g.pel ==> g'.deliveries[e] == g.deliveries[e]
    ensures forall e :: g.cursor <= e < hi ==> e in g'.deliveries && g'.deliveries[e] == 1
  {
    var entries := Range(g.cursor, hi);
    assert forall i :: 0 <= i < |g.pel| ==> g.pel[i] in g.pel;
    RangeMembers(g.cursor, hi);
    g.(cursor := hi, pel := g.pel + entries, deliveries := g.deliveries + map e | e in entries :: 1)
  }
}
