/**
 Single ownership over all consumers: however entries are read, claimed and
 claimed again, a consumer never has two unfinished dispatched tasks on one entry.
 `Consumer` proves the same of the loop's own registers.
 */
module Ownership {
  import opened Protocol
  import opened Integrity

  predicate Owned(k: Task, c: ConsumerId, e: EntryId) {
    k.consumer == c && k.entry == e && Dispatched(k.pc)
  }

  ghost predicate SingleOwner(s: State) {
    forall t, u ::
      0 <= t < |s.tasks| && 0 <= u < |s.tasks| && Dispatched(s.tasks[t].pc)
        && Owned(s.tasks[u], s.tasks[t].consumer, s.tasks[t].entry)
      ==> t == u
  }

  /** A step dispatches its task only if it was dispatched already, or nobody of the consumer is on the entry. */
  predicate Entitled(s: State, d: Change) {
    match d.move
    case Stay => true
    case Goto(t, pc) => t < |s.tasks|
      && (Dispatched(pc) ==> Dispatched(s.tasks[t].pc) || !InFlight(s, s.tasks[t].consumer, s.tasks[t].entry))
    case Spawn(c, e, pc) => Dispatched(pc) ==> !InFlight(s, c, e)
  }

  lemma TaskEntitled(c: Config, s: State, step: Step)
    requires Enabled(c, s, step) && OfTask(step)
    ensures Entitled(s, ChangeOf(c, s, step))
  {
  }

  lemma LoopEntitled(c: Config, s: State, step: Step)
    requires Intact(c, s) && Enabled(c, s, step) && !OfTask(step)
    ensures Entitled(s, ChangeOf(c, s, step))
  {
    if step.Read? {
      forall t | 0 <= t < |s.tasks| ensures s.tasks[t].entry != s.cursor { assert TaskOk(c, s, s.tasks[t]); }
    }
  }

  lemma EntitledKeepsSingleOwner(s: State, d: Change)
    requires SingleOwner(s) && Entitled(s, d)
    ensures SingleOwner(Perform(s, d))
  {
    var s' := Perform(s, d);
    forall t, u | 0 <= t < |s'.tasks| && 0 <= u < |s'.tasks| && Dispatched(s'.tasks[t].pc)
                  && Owned(s'.tasks[u], s'.tasks[t].consumer, s'.tasks[t].entry)
      ensures t == u
    {
      if t < |s.tasks| && u < |s.tasks| && t != u {
        assert Dispatched(s.tasks[t].pc) ==> InFlight(s, s.tasks[t].consumer, s.tasks[t].entry);
        assert Dispatched(s.tasks[u].pc) ==> InFlight(s, s.tasks[u].consumer, s.tasks[u].entry);
      }
    }
  }

  lemma {:induction false} RunKeepsSingleOwner(c: Config, s: State, steps: seq<Step>)
    requires Intact(c, s) && SingleOwner(s) && Legal(c, s, steps)
    ensures SingleOwner(Exec(c, s, steps))
    decreases |steps|
  {
    if steps != [] {
      if OfTask(steps[0]) { TaskEntitled(c, s, steps[0]); } else { LoopEntitled(c, s, steps[0]); }
      EntitledKeepsSingleOwner(s, ChangeOf(c, s, steps[0]));
      StepKeepsIntegrity(c, s, steps[0]);
      RunKeepsSingleOwner(c, Apply(c, s, steps[0]), steps[1..]);
    }
  }

  /** In every reachable state, two unfinished tasks of one consumer are on different entries. */
  lemma OneTaskPerConsumerAndEntry(c: Config, steps: seq<Step>, t: TaskId, u: TaskId)
    requires Legal(c, INITIAL, steps)
    requires t < |Exec(c, INITIAL, steps).tasks| && u < |Exec(c, INITIAL, steps).tasks| && t != u
    requires var s := Exec(c, INITIAL, steps); Dispatched(s.tasks[t].pc) && Dispatched(s.tasks[u].pc)
    requires Exec(c, INITIAL, steps).tasks[t].consumer == Exec(c, INITIAL, steps).tasks[u].consumer
    ensures Exec(c, INITIAL, steps).tasks[t].entry != Exec(c, INITIAL, steps).tasks[u].entry
  {
    RunKeepsSingleOwner(c, INITIAL, steps);
  }
}
