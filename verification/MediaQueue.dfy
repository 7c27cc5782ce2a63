/** The media queue's counters and its idle fence. */
module MediaQueue {

  /** `token` is the one-place notification channel. */
  datatype Counts = Counts(pending: int, producers: int, accepting: bool, token: bool)

  function Notified(c: Counts): Counts {
    c.(token := true)
  }

  function WithProducer(c: Counts): Counts {
    if c.accepting then Notified(c.(producers := c.producers + 1)) else c
  }

  function WithoutProducer(c: Counts): Counts {
    Notified(c.(producers := c.producers - 1))
  }

  function Announced(c: Counts): Counts {
    c.(pending := c.pending + 1)
  }

  function Done(c: Counts): Counts {
    Notified(c.(pending := c.pending - 1))
  }

  predicate IsIdle(c: Counts) {
    c.pending == 0 && c.producers == 0
  }

  function Checked(c: Counts): Counts {
    c.(accepting := c.accepting && !IsIdle(c))
  }

  class Queue {
    var pending: int
    var producers: int
    var accepting: bool
    var token: bool

    function Abs(): Counts
      reads this
    {
      Counts(pending, producers, accepting, token)
    }

    constructor ()
      ensures Abs() == Counts(0, 0, true, false)
    {
      pending, producers, accepting, token := 0, 0, true, false;
    }

    method BeginProducer() returns (ok: bool)
      modifies this
      ensures ok == old(accepting) && Abs() == WithProducer(old(Abs()))
    {
      if !accepting { return false; }
      producers := producers + 1;
      token := true;
      return true;
    }

    /** A negative count is a panic: callers must hold a producer. */
    method EndProducer()
      requires producers > 0
      modifies this
      ensures Abs() == WithoutProducer(old(Abs()))
    {
      producers := producers - 1;
      token := true;
    }

    method Announce()
      modifies this
      ensures Abs() == Announced(old(Abs()))
    {
      pending := pending + 1;
    }

    method Notify()
      modifies this
      ensures Abs() == Notified(old(Abs()))
    {
      token := true;
    }

    method Finish()
      requires pending > 0
      modifies this
      ensures Abs() == Done(old(Abs()))
    {
      pending := pending - 1;
      token := true;
    }

    /** One locked round of waitIdle. */
    method CheckIdle() returns (idle: bool)
      modifies this
      ensures idle == IsIdle(old(Abs())) && Abs() == Checked(old(Abs()))
    {
      idle := pending == 0 && producers == 0;
      if idle { accepting := false; }
    }
  }

  // ----- every interleaving ---------------------------------------------------------------

  datatype Waiter = NotWaiting | Checking | Sleeping | Returned(idle: bool)

  /** Event handlers are counted by where they are: in their callback, past the increment of
      `pending` but not yet past the notification, or blocked on the full queue. `outside`
      counts callers of enqueue that are not inside a producer. */
  datatype State = State(
    c: Counts,
    callbacks: nat, announced: nat, blocked: nat,
    outsideAnnounced: nat, outsideBlocked: nat,
    queued: nat, capacity: nat, working: nat,
    waiter: Waiter)

  datatype Action =
    | BeginProducer
    | EndProducer
    | Announce(outside: bool)
    | Notify(outside: bool)
    | Send(outside: bool)
    | GiveUp(outside: bool)
    | Take
    | WorkerEnds(panicked: bool)
    | WaitIdle
    | Check
    | Wake
    | CancelWait

  function Init(capacity: nat): State {
    State(Counts(0, 0, true, false), 0, 0, 0, 0, 0, 0, capacity, 0, NotWaiting)
  }

  predicate Enabled(s: State, a: Action) {
    match a
    case BeginProducer => true
    case EndProducer => s.callbacks > 0
    case Announce(outside) => outside || s.callbacks > 0
    case Notify(outside) => if outside then s.outsideAnnounced > 0 else s.announced > 0
    case Send(outside) => s.queued < s.capacity && if outside then s.outsideBlocked > 0 else s.blocked > 0
    case GiveUp(outside) => if outside then s.outsideBlocked > 0 else s.blocked > 0
    case Take => s.queued > 0
    case WorkerEnds(_) => s.working > 0
    case WaitIdle => s.waiter.NotWaiting?
    case Check => s.waiter.Checking?
    case Wake => s.waiter.Sleeping? && s.c.token
    case CancelWait => s.waiter.Sleeping?
  }

  function Do(s: State, a: Action): State
    requires Enabled(s, a)
  {
    match a
    case BeginProducer =>
      s.(c := WithProducer(s.c), callbacks := s.callbacks + if s.c.accepting then 1 else 0)
    case EndProducer => s.(c := WithoutProducer(s.c), callbacks := s.callbacks - 1)
    case Announce(outside) =>
      if outside then s.(c := Announced(s.c), outsideAnnounced := s.outsideAnnounced + 1)
      else s.(c := Announced(s.c), callbacks := s.callbacks - 1, announced := s.announced + 1)
    case Notify(outside) =>
      if outside then s.(c := Notified(s.c), outsideAnnounced := s.outsideAnnounced - 1, outsideBlocked := s.outsideBlocked + 1)
      else s.(c := Notified(s.c), announced := s.announced - 1, blocked := s.blocked + 1)
    case Send(outside) =>
      if outside then s.(outsideBlocked := s.outsideBlocked - 1, queued := s.queued + 1)
      else s.(blocked := s.blocked - 1, callbacks := s.callbacks + 1, queued := s.queued + 1)
    case GiveUp(outside) =>
      if outside then s.(c := Done(s.c), outsideBlocked := s.outsideBlocked - 1)
      else s.(c := Done(s.c), blocked := s.blocked - 1, callbacks := s.callbacks + 1)
    case Take => s.(queued := s.queued - 1, working := s.working + 1)
    case WorkerEnds(_) => s.(c := Done(s.c), working := s.working - 1)
    case WaitIdle => s.(waiter := Checking)
    case Check => s.(c := Checked(s.c), waiter := if IsIdle(s.c) then Returned(true) else Sleeping)
    case Wake => s.(c := s.c.(token := false), waiter := Checking)
    case CancelWait => s.(waiter := Returned(false))
  }

  ghost predicate IsRun(tr: seq<State>, acts: seq<Action>) {
    && |tr| == |acts| + 1
    && tr[0] == Init(tr[0].capacity)
    && forall i :: 0 <= i < |acts| ==> Enabled(tr[i], acts[i]) && tr[i + 1] == Do(tr[i], acts[i])
  }

  /** Jobs that exist: announced, blocked, queued or in a worker. */
  function Jobs(s: State): nat {
    s.announced + s.blocked + s.outsideAnnounced + s.outsideBlocked + s.queued + s.working
  }

  function Handlers(s: State): nat {
    s.callbacks + s.announced + s.blocked
  }

  predicate Inv(s: State) {
    && s.c.pending == Jobs(s)
    && s.c.producers == Handlers(s)
    && (s.waiter.Sleeping? && IsIdle(s.c) ==> s.c.token)
    && (s.waiter == Returned(true) ==> !s.c.accepting)
  }

  lemma StepKeepsInv(s: State, a: Action)
    requires Inv(s) && Enabled(s, a)
    ensures Inv(Do(s, a))
  {
  }

  lemma {:induction false} RunKeepsInv(tr: seq<State>, acts: seq<Action>, n: nat)
    requires IsRun(tr, acts) && n < |tr|
    ensures Inv(tr[n])
  {
    if n > 0 {
      RunKeepsInv(tr, acts, n - 1);
      StepKeepsInv(tr[n - 1], acts[n - 1]);
    }
  }

  /** `pending` is exactly the number of jobs and `producers` of handlers, worker panics and
      cancelled sends included, so neither decrement ever meets a zero count. */
  lemma CountsAreExact(tr: seq<State>, acts: seq<Action>, n: nat)
    requires IsRun(tr, acts) && n < |tr|
    ensures tr[n].c.pending == Jobs(tr[n]) && tr[n].c.producers == Handlers(tr[n])
    ensures n < |acts| && (acts[n].GiveUp? || acts[n].WorkerEnds?) ==> tr[n].c.pending > 0
    ensures n < |acts| && acts[n].EndProducer? ==> tr[n].c.producers > 0
  {
    RunKeepsInv(tr, acts, n);
  }

  /** A single waiter never misses the idle transition: asleep in an idle state, it can wake,
      and its next check returns true unless new work came in between. */
  lemma IdleIsNeverMissed(tr: seq<State>, acts: seq<Action>, n: nat)
    requires IsRun(tr, acts) && n < |tr| && tr[n].waiter.Sleeping? && IsIdle(tr[n].c)
    ensures Enabled(tr[n], Wake) && Do(Do(tr[n], Wake), Check).waiter == Returned(true)
  {
    RunKeepsInv(tr, acts, n);
  }

  lemma {:induction false} FencedStep(tr: seq<State>, acts: seq<Action>, m: nat, n: nat)
    requires IsRun(tr, acts) && m <= n < |tr| && tr[m].waiter == Returned(true) && Jobs(tr[m]) + Handlers(tr[m]) == 0
    requires forall i :: m <= i < n ==> acts[i] != Announce(true)
    ensures tr[n].waiter == Returned(true) && Jobs(tr[n]) + Handlers(tr[n]) == 0
    decreases n
  {
    if n > m {
      FencedStep(tr, acts, m, n - 1);
      RunKeepsInv(tr, acts, n - 1);
    }
  }

  /** After waitIdle has returned true no handler ever runs again, and no job ever exists again
      exactly as long as nobody calls enqueue outside a producer. */
  lemma FenceHoldsExactlyWithoutOutsiders(tr: seq<State>, acts: seq<Action>, m: nat, n: nat)
    requires IsRun(tr, acts) && m < n < |tr| && acts[m].Check? && tr[m + 1].waiter == Returned(true)
    ensures (forall i :: m < i <= n ==> Jobs(tr[i]) == 0) <==> (forall i :: m < i < n ==> acts[i] != Announce(true))
    ensures (forall i :: m < i < n ==> acts[i] != Announce(true)) ==> Handlers(tr[n]) == 0
  {
    RunKeepsInv(tr, acts, m);
    if forall i :: m < i < n ==> acts[i] != Announce(true) {
      forall i | m < i <= n ensures Jobs(tr[i]) == 0 {
        FencedStep(tr, acts, m + 1, i);
      }
      FencedStep(tr, acts, m + 1, n);
    } else {
      var i :| m < i < n && acts[i] == Announce(true);
      assert Jobs(tr[i + 1]) > 0;
    }
  }

  /** waitIdle answers yes exactly when it finds no job and no handler, and until then the queue
      takes in new work: intake is closed only by such an answer. */
  lemma WaitIdleIsExact(tr: seq<State>, acts: seq<Action>, n: nat)
    requires IsRun(tr, acts) && n < |acts|
    ensures acts[n].Check? ==>
              tr[n + 1].waiter == if Jobs(tr[n]) + Handlers(tr[n]) == 0 then Returned(true) else Sleeping
    ensures tr[n].c.accepting && !tr[n + 1].c.accepting ==> tr[n + 1].waiter == Returned(true)
    ensures acts[n].BeginProducer? && tr[n].c.accepting ==> Handlers(tr[n + 1]) == Handlers(tr[n]) + 1
  {
    RunKeepsInv(tr, acts, n);
  }

  /** The channel never holds more jobs than it has room for. */
  lemma {:induction false} QueueFits(tr: seq<State>, acts: seq<Action>, n: nat)
    requires IsRun(tr, acts) && n < |tr|
    ensures tr[n].queued <= tr[n].capacity == tr[0].capacity
  {
    if n > 0 {
      QueueFits(tr, acts, n - 1);
    }
  }

  /** Every change of the counts is announced to the waiter, but for the start of a job, whose
      announcement is a step of its own. */
  lemma ChangesAreAnnounced(tr: seq<State>, acts: seq<Action>, n: nat)
    requires IsRun(tr, acts) && n < |acts| && tr[n + 1].c.pending + tr[n + 1].c.producers != tr[n].c.pending + tr[n].c.producers
    ensures tr[n + 1].c.token || acts[n].Announce?
  {
  }

  /** The waiter: it looks first, uses up the notification that wakes it before it looks again, and
      gives up with no. */
  lemma WaiterSteps(tr: seq<State>, acts: seq<Action>, n: nat)
    requires IsRun(tr, acts) && n < |acts|
    ensures acts[n].WaitIdle? ==> tr[n + 1].waiter == Checking
    ensures acts[n].Wake? ==> tr[n + 1].waiter == Checking && tr[n].c.token && !tr[n + 1].c.token
    ensures acts[n].CancelWait? ==> tr[n + 1].waiter == Returned(false)
    ensures acts[n].Notify? ==> tr[n + 1].c.token
  {
  }
}
