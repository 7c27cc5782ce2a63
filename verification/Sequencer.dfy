/** The ordered app-state persistence queue: a ticket dispenser whose completing
    callers drain the queue themselves and hand the rest to a background drainer.

    Every critical section is a function on `Queue`; class `PersistenceSequencer`
    implements each of them in place, and `Step` interleaves them freely with any
    number of owners, drainers and waiters. */
module Sequencer {
  /** A ticket's task: reserved and still unready, or ready with its work. */
  datatype Task<+W> =
    | Reserved(blocksEarlier: bool)
    | Ready(blocksEarlier: bool, run: W)

  datatype Queue<+W> = Queue(next: nat, serving: nat, running: bool, tasks: map<nat, Task<W>>)

  /** The map holds exactly the tickets that are reserved and not yet retired. */
  ghost predicate WellKeyed<W>(q: Queue<W>) {
    forall t :: t in q.tasks <==> q.serving <= t < q.next
  }

  predicate ReadyAt<W>(tasks: map<nat, Task<W>>, t: nat) {
    t in tasks && tasks[t].Ready?
  }

  predicate ReadyOrLiveAt<W>(tasks: map<nat, Task<W>>, t: nat) {
    t in tasks && (tasks[t].Ready? || tasks[t].blocksEarlier)
  }

  // ----- the critical sections -------------------------------------------------

  function ReserveTask<W>(q: Queue<W>, blocksEarlier: bool): Queue<W> {
    q.(next := q.next + 1, tasks := q.tasks[q.next := Reserved(blocksEarlier)])
  }

  predicate Completable<W>(q: Queue<W>, t: nat) {
    t in q.tasks && q.tasks[t].Reserved? && t < q.next
  }

  function MakeReady<W>(q: Queue<W>, t: nat, run: W): map<nat, Task<W>>
    requires Completable(q, t)
  {
    q.tasks[t := Ready(q.tasks[t].blocksEarlier, run)]
  }

  /** Whether the completing caller becomes the drainer. */
  predicate Starts<W>(q: Queue<W>, t: nat) {
    !q.running && t == q.serving
  }

  function CompleteTask<W>(q: Queue<W>, t: nat, run: W): Queue<W>
    requires Completable(q, t)
  {
    q.(tasks := MakeReady(q, t, run), running := q.running || Starts(q, t))
  }

  /** The last ticket of the unbroken run of ready tasks that follows `from`. */
  function DrainFrontier<W>(tasks: map<nat, Task<W>>, from: nat, next: nat): (f: nat)
    requires from < next
    ensures from <= f < next
    decreases next - from
  {
    if from + 1 < next && ReadyAt(tasks, from + 1) then DrainFrontier(tasks, from + 1, next) else from
  }

  /** The last ticket of the unbroken run of ready or live tasks that follows `from`. */
  function WaitFrontier<W>(tasks: map<nat, Task<W>>, from: nat, next: nat): (f: nat)
    requires from < next
    ensures from <= f < next
    decreases next - from
  {
    if from + 1 < next && ReadyOrLiveAt(tasks, from + 1) then WaitFrontier(tasks, from + 1, next) else from
  }

  /** What a drainer does after looking at the head under the lock. */
  datatype Verdict = RunHead | HandOff(frontier: nat) | Exit

  function HeadVerdict<W>(q: Queue<W>, frontier: nat): Verdict
    requires WellKeyed(q)
  {
    if q.serving > frontier then
      if ReadyAt(q.tasks, q.serving) then HandOff(q.next - 1) else Exit
    else if ReadyAt(q.tasks, q.serving) then RunHead
    else Exit
  }

  function LookAtHead<W>(q: Queue<W>, frontier: nat): Queue<W>
    requires WellKeyed(q)
  {
    q.(running := if HeadVerdict(q, frontier).Exit? then false
                  else if HeadVerdict(q, frontier).HandOff? then true
                  else q.running)
  }

  function Advance<W>(q: Queue<W>): Queue<W> {
    q.(tasks := q.tasks - {q.serving}, serving := q.serving + 1)
  }

  // ----- the frontiers, characterised ------------------------------------------

  /** The drain frontier is exactly the ready run: every ticket after `from` up to it
      is ready, and the one after it is not. */
  lemma {:induction false} DrainFrontierIsTheReadyRun<W>(tasks: map<nat, Task<W>>, from: nat, next: nat, f: nat)
    requires from < next
    ensures f == DrainFrontier(tasks, from, next) <==>
            && from <= f < next
            && (forall k :: from < k <= f ==> ReadyAt(tasks, k))
            && (f + 1 < next ==> !ReadyAt(tasks, f + 1))
    decreases next - from
  {
    if from + 1 < next && ReadyAt(tasks, from + 1) {
      DrainFrontierIsTheReadyRun(tasks, from + 1, next, f);
    } else if from < f < next {
      assert ReadyAt(tasks, from + 1) ==> from + 1 < next;
    }
  }

  /** The wait frontier covers only tickets ready or live when the call was made, and
      stops before the first later ticket that is neither. */
  lemma {:induction false} WaitFrontierIsTheLiveRun<W>(tasks: map<nat, Task<W>>, from: nat, next: nat, f: nat)
    requires from < next
    ensures f == WaitFrontier(tasks, from, next) <==>
            && from <= f < next
            && (forall k :: from < k <= f ==> ReadyOrLiveAt(tasks, k))
            && (f + 1 < next ==> !ReadyOrLiveAt(tasks, f + 1))
    decreases next - from
  {
    if from + 1 < next && ReadyOrLiveAt(tasks, from + 1) {
      WaitFrontierIsTheLiveRun(tasks, from + 1, next, f);
    } else if from < f < next {
      assert ReadyOrLiveAt(tasks, from + 1) ==> from + 1 < next;
    }
  }

  /** A caller never waits for less than it drains. */
  lemma {:induction false} DrainWithinWait<W>(tasks: map<nat, Task<W>>, from: nat, next: nat)
    requires from < next
    ensures DrainFrontier(tasks, from, next) <= WaitFrontier(tasks, from, next)
    decreases next - from
  {
    if from + 1 < next && ReadyAt(tasks, from + 1) {
      DrainWithinWait(tasks, from + 1, next);
    }
  }

  // ----- the object ----------------------------------------------------------

  class PersistenceSequencer<W> {
    var next: nat
    var serving: nat
    var running: bool
    var tasks: map<nat, Task<W>>
    var changed: nat   // how many times the broadcast channel was closed and replaced

    function Abs(): Queue<W>
      reads this
    {
      Queue(next, serving, running, tasks)
    }

    constructor ()
      ensures Abs() == Queue(0, 0, false, map[]) && changed == 0
    {
      next, serving, running, tasks, changed := 0, 0, false, map[], 0;
    }

    method Reserve(blocksEarlier: bool) returns (ticket: nat)
      modifies this
      ensures ticket == old(next)
      ensures Abs() == ReserveTask(old(Abs()), blocksEarlier) && changed == old(changed)
    {
      ticket := next;
      next := next + 1;
      tasks := tasks[ticket := Reserved(blocksEarlier)];
    }

    /** The locked part of completeTask. The caller drains through `drain` exactly when `start`. */
    method Complete(ticket: nat, run: W, includeSuccessors: bool) returns (wait: nat, drain: nat, start: bool)
      requires Completable(Abs(), ticket)
      modifies this
      ensures Abs() == CompleteTask(old(Abs()), ticket, run) && changed == old(changed)
      ensures start == Starts(old(Abs()), ticket)
      ensures drain == DrainFrontier(Abs().tasks, ticket, next)
      ensures wait == if includeSuccessors then WaitFrontier(Abs().tasks, ticket, next) else ticket
    {
      tasks := tasks[ticket := Ready(tasks[ticket].blocksEarlier, run)];
      wait, drain := ticket, ticket;
      var drainBlocked := false;
      var candidate := ticket + 1;
      while candidate < next
        invariant ticket < candidate <= next
        invariant drainBlocked ==> includeSuccessors
        invariant if drainBlocked
                  then drain == DrainFrontier(tasks, ticket, next)
                  else drain == candidate - 1 && DrainFrontier(tasks, ticket, next) == DrainFrontier(tasks, drain, next)
        invariant if includeSuccessors
                  then wait == candidate - 1 && WaitFrontier(tasks, ticket, next) == WaitFrontier(tasks, wait, next)
                  else wait == ticket
      {
        if candidate !in tasks { break; }
        var nextTask := tasks[candidate];
        if nextTask.Ready? {
          if !drainBlocked { drain := candidate; }
          if includeSuccessors { wait := candidate; }
        } else if includeSuccessors && nextTask.blocksEarlier {
          wait := candidate;
          drainBlocked := true;
        } else {
          break;
        }
        candidate := candidate + 1;
      }
      start := !running && ticket == serving;
      if start { running := true; }
    }

    /** The drain loop's look at the head under the lock. */
    method Look(frontier: nat) returns (verdict: Verdict)
      requires WellKeyed(Abs())
      modifies this`running
      ensures verdict == HeadVerdict(old(Abs()), frontier)
      ensures Abs() == LookAtHead(old(Abs()), frontier)
    {
      if serving > frontier {
        running := false;
        var handoff := serving in tasks && tasks[serving].Ready?;
        if handoff { running := true; }
        verdict := if handoff then HandOff(next - 1) else Exit;
        return;
      }
      if serving !in tasks || !tasks[serving].Ready? {
        running := false;
        return Exit;
      }
      return RunHead;
    }

    /** The drain loop's bookkeeping after a task ran: retire it and wake every waiter. */
    method Retire()
      modifies this
      ensures Abs() == Advance(old(Abs())) && changed == old(changed) + 1
    {
      tasks := tasks - {serving};
      serving := serving + 1;
      changed := changed + 1;
    }
  }
}
