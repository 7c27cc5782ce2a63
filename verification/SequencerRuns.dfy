/** Every interleaving of reservations, completions, drainers and waiters of the
    persistence queue. A step is one critical section of the queue, the start or end
    of one task, or a waiter's check. */
module SequencerRuns {
  import opened Sequencer

  type Owner = nat

  /** A drainer holds the frontier it was started with. `readyAtCall` is what was ready
      when the completing caller became the drainer. */
  datatype Drainer = Drainer(frontier: nat, background: bool, readyAtCall: set<nat>, busy: bool)

  datatype Target = Through(frontier: nat) | Idle

  /** A waiter remembers which broadcast channel it took: the n-th one. */
  datatype Waiting = Waiting(target: Target, seen: nat)

  datatype State<W> = State(
    q: Queue<W>,
    changed: nat,               // broadcasts so far
    drainers: seq<Drainer>,
    given: map<nat, W>,         // the work each ticket was completed with
    started: seq<(nat, W)>,     // tasks started, in order
    finished: seq<nat>,         // tasks finished, in order
    panicked: bool,             // a task panicked inside a recovering event handler
    owner: map<nat, Owner>,     // who reserved each ticket
    waits: map<Owner, Waiting>)

  datatype Action<W> =
    | Reserve(who: Owner, live: bool)
    | Complete(who: Owner, ticket: nat, work: W)
    | Look(i: nat)
    | Finish(i: nat)
    | Panic(i: nat)
    | BeginWait(who: Owner, target: Target)
    | Wake(who: Owner)

  function Init<W>(): State<W> {
    State(Queue(0, 0, false, map[]), 0, [], map[], [], [], false, map[], map[])
  }

  predicate Satisfied<W>(q: Queue<W>, target: Target) {
    match target
    case Through(f) => q.serving > f
    case Idle => q.serving == q.next
  }

  /** A waiter sleeps while the channel it took is still open. */
  predicate Asleep<W>(s: State<W>, who: Owner) {
    who in s.waits && s.waits[who].seen == s.changed
  }

  ghost predicate OwesNothing<W>(s: State<W>, who: Owner) {
    forall t :: t in s.q.tasks && s.q.tasks[t].Reserved? ==> t in s.owner && s.owner[t] != who
  }

  /** Owners complete their own tickets, once, and only wait with none outstanding. A panic
      is survived only on a caller's own stack: in a background drainer it ends the process. */
  ghost predicate Enabled<W>(s: State<W>, a: Action<W>) {
    match a
    case Reserve(who, _) => who !in s.waits
    case Complete(who, t, _) => Completable(s.q, t) && t in s.owner && s.owner[t] == who && who !in s.waits
    case Look(i) => i < |s.drainers| && !s.drainers[i].busy && WellKeyed(s.q)
    case Finish(i) => i < |s.drainers| && s.drainers[i].busy
    case Panic(i) => i < |s.drainers| && s.drainers[i].busy && !s.drainers[i].background
    case BeginWait(who, target) =>
      && who !in s.waits
      && OwesNothing(s, who)
      && (target.Through? ==> target.frontier < s.q.next)
    case Wake(who) => who in s.waits && s.waits[who].seen != s.changed
  }

  function ReadySet<W>(tasks: map<nat, Task<W>>): set<nat> {
    set t | t in tasks && tasks[t].Ready?
  }

  function Without<T>(xs: seq<T>, i: nat): seq<T>
    requires i < |xs|
  {
    xs[..i] + xs[i + 1..]
  }

  ghost function DoLook<W>(s: State<W>, i: nat): State<W>
    requires Enabled(s, Look(i))
  {
    var d := s.drainers[i];
    match HeadVerdict(s.q, d.frontier)
    case Exit => s.(q := LookAtHead(s.q, d.frontier), drainers := Without(s.drainers, i))
    case HandOff(f) =>
      s.(q := LookAtHead(s.q, d.frontier), drainers := Without(s.drainers, i) + [Drainer(f, true, {}, false)])
    case RunHead =>
      s.(q := LookAtHead(s.q, d.frontier),
         drainers := s.drainers[i := d.(busy := true)],
         started := if ReadyAt(s.q.tasks, s.q.serving)
                    then s.started + [(s.q.serving, s.q.tasks[s.q.serving].run)] else s.started)
  }

  ghost function DoWait<W>(s: State<W>, who: Owner, target: Target): State<W> {
    s.(waits := if Satisfied(s.q, target) then s.waits - {who}
                else s.waits[who := Waiting(target, s.changed)])
  }

  ghost function Do<W>(s: State<W>, a: Action<W>): State<W>
    requires Enabled(s, a)
  {
    match a
    case Reserve(who, live) =>
      s.(q := ReserveTask(s.q, live), owner := s.owner[s.q.next := who])
    case Complete(_, t, w) =>
      var q' := CompleteTask(s.q, t, w);
      s.(q := q',
         given := s.given[t := w],
         drainers := if Starts(s.q, t)
                     then s.drainers + [Drainer(DrainFrontier(q'.tasks, t, q'.next), false, ReadySet(q'.tasks), false)]
                     else s.drainers)
    case Look(i) => DoLook(s, i)
    case Finish(i) =>
      s.(q := Advance(s.q), changed := s.changed + 1, finished := s.finished + [s.q.serving],
         drainers := s.drainers[i := s.drainers[i].(busy := false)])
    case Panic(i) => s.(drainers := Without(s.drainers, i), panicked := true)
    case BeginWait(who, target) => DoWait(s, who, target)
    case Wake(who) => DoWait(s, who, s.waits[who].target)
  }

  ghost predicate StepAt<W>(tr: seq<State<W>>, acts: seq<Action<W>>, i: nat)
    requires |tr| == |acts| + 1 && i < |acts|
  {
    Enabled(tr[i], acts[i]) && tr[i + 1] == Do(tr[i], acts[i])
  }

  ghost predicate Follows<W>(tr: seq<State<W>>, acts: seq<Action<W>>) {
    && |tr| == |acts| + 1
    && forall i: nat :: i < |acts| ==> StepAt(tr, acts, i)
  }

  ghost predicate IsRun<W>(tr: seq<State<W>>, acts: seq<Action<W>>) {
    Follows(tr, acts) && tr[0] == Init()
  }

  // ----- what every step keeps ----------------------------------------------

  /** A caller that became the drainer has only ready tasks ahead, all ready when it called. */
  ghost predicate DrainerOk<W>(q: Queue<W>, d: Drainer) {
    && (d.busy ==> ReadyAt(q.tasks, q.serving) && q.serving <= d.frontier)
    && (!d.background ==> d.frontier < q.next)
    && (!d.background ==> forall k :: q.serving <= k <= d.frontier ==> ReadyAt(q.tasks, k) && k in d.readyAtCall)
  }

  ghost predicate DrainerInv<W>(s: State<W>) {
    && |s.drainers| <= 1
    && (s.panicked ==> s.drainers == [] && s.q.running && ReadyAt(s.q.tasks, s.q.serving))
    && (!s.panicked ==> (s.q.running <==> |s.drainers| == 1))
    && (!s.q.running ==> !ReadyAt(s.q.tasks, s.q.serving))
    && forall i :: 0 <= i < |s.drainers| ==>
         DrainerOk(s.q, s.drainers[i])
  }

  /** A task is between its start and its end exactly while a drainer is busy or after a panic. */
  predicate Executing<W>(s: State<W>) {
    s.panicked || exists i :: 0 <= i < |s.drainers| && s.drainers[i].busy
  }

  ghost predicate LogInv<W>(s: State<W>) {
    && |s.finished| == s.q.serving
    && (forall i :: 0 <= i < |s.finished| ==> s.finished[i] == i)
    && |s.started| == s.q.serving + (if Executing(s) then 1 else 0)
    && (forall i :: 0 <= i < |s.started| ==> s.started[i].0 == i && i in s.given && s.started[i].1 == s.given[i])
    && (forall t :: t in s.q.tasks && s.q.tasks[t].Ready? ==> t in s.given && s.given[t] == s.q.tasks[t].run)
    && (forall t :: t in s.given ==> t < s.q.next && !(t in s.q.tasks && s.q.tasks[t].Reserved?))
  }

  ghost predicate WaitInv<W>(s: State<W>) {
    && s.changed == s.q.serving
    && (forall t :: t in s.q.tasks ==> t in s.owner)
    && (forall t :: t in s.q.tasks && s.q.tasks[t].Reserved? && t in s.owner ==> s.owner[t] !in s.waits)
    && forall o :: o in s.waits ==>
         && s.waits[o].seen <= s.changed
         && (s.waits[o].target.Through? ==> s.waits[o].target.frontier < s.q.next)
         && (s.waits[o].seen == s.changed ==> !Satisfied(s.q, s.waits[o].target))
  }

  ghost predicate Inv<W>(s: State<W>) {
    && s.q.serving <= s.q.next
    && WellKeyed(s.q)
    && DrainerInv(s)
    && LogInv(s)
    && WaitInv(s)
  }

  /** Tasks only become ready, and only the head retires. */
  lemma DrainerStaysOk<W>(q: Queue<W>, q': Queue<W>, d: Drainer, d': Drainer)
    requires DrainerOk(q, d)
    requires d' == d.(busy := d'.busy) && (d'.busy ==> d.busy && q'.serving == q.serving)
    requires q.serving <= q'.serving && q.next <= q'.next
    requires forall k :: q'.serving <= k && ReadyAt(q.tasks, k) ==> ReadyAt(q'.tasks, k)
    ensures DrainerOk(q', d')
  {
    if !d.background {
      forall k | q'.serving <= k <= d.frontier ensures ReadyAt(q'.tasks, k) && k in d.readyAtCall {
        assert ReadyAt(q.tasks, k);
      }
    }
  }

  lemma ReserveKeepsInv<W>(s: State<W>, a: Action<W>)
    requires Inv(s) && a.Reserve? && Enabled(s, a)
    ensures Inv(Do(s, a))
  {
    var s' := Do(s, a);
    forall i | 0 <= i < |s.drainers| { DrainerStaysOk(s.q, s'.q, s.drainers[i], s.drainers[i]); }
  }

  lemma CompleteKeepsDrainers<W>(s: State<W>, a: Action<W>)
    requires Inv(s) && a.Complete? && Enabled(s, a)
    ensures DrainerInv(Do(s, a))
  {
    var s' := Do(s, a);
    var t, tasks, next := a.ticket, s'.q.tasks, s'.q.next;
    var f := DrainFrontier(tasks, t, next);
    DrainFrontierIsTheReadyRun(tasks, t, next, f);
    forall k: nat | t <= k <= f ensures ReadyAt(tasks, k) && k in ReadySet(tasks) {
      assert k == t || ReadyAt(tasks, k);
    }
    forall i | 0 <= i < |s.drainers| { DrainerStaysOk(s.q, s'.q, s.drainers[i], s.drainers[i]); }
  }

  lemma CompleteKeepsLogs<W>(s: State<W>, a: Action<W>)
    requires Inv(s) && a.Complete? && Enabled(s, a)
    ensures Do(s, a).q.serving <= Do(s, a).q.next && WellKeyed(Do(s, a).q) && LogInv(Do(s, a)) && WaitInv(Do(s, a))
  {
    assert a.ticket !in s.given;
    assert Executing(Do(s, a)) == Executing(s);
  }

  lemma CompleteKeepsInv<W>(s: State<W>, a: Action<W>)
    requires Inv(s) && a.Complete? && Enabled(s, a)
    ensures Inv(Do(s, a))
  {
    CompleteKeepsDrainers(s, a);
    CompleteKeepsLogs(s, a);
  }

  lemma RunHeadKeepsInv<W>(s: State<W>, i: nat)
    requires Inv(s) && Enabled(s, Look(i)) && HeadVerdict(s.q, s.drainers[i].frontier).RunHead?
    ensures Inv(DoLook(s, i))
  {
    var s' := DoLook(s, i);
    assert i == 0 && |s.drainers| == 1 && !Executing(s);
    assert s'.drainers[0].busy && Executing(s');
  }

  lemma LeaveKeepsInv<W>(s: State<W>, i: nat)
    requires Inv(s) && Enabled(s, Look(i)) && !HeadVerdict(s.q, s.drainers[i].frontier).RunHead?
    ensures Inv(DoLook(s, i))
  {
    assert i == 0 && |s.drainers| == 1 && !Executing(s);
    assert !Executing(DoLook(s, i));
  }

  lemma LookKeepsInv<W>(s: State<W>, a: Action<W>)
    requires Inv(s) && a.Look? && Enabled(s, a)
    ensures Inv(Do(s, a))
  {
    if HeadVerdict(s.q, s.drainers[a.i].frontier).RunHead? { RunHeadKeepsInv(s, a.i); } else { LeaveKeepsInv(s, a.i); }
  }

  lemma TaskEndKeepsInv<W>(s: State<W>, a: Action<W>)
    requires Inv(s) && (a.Finish? || a.Panic?) && Enabled(s, a)
    ensures Inv(Do(s, a))
  {
    assert a.i == 0 && |s.drainers| == 1 && Executing(s);
    var s' := Do(s, a);
    if a.Finish? { DrainerStaysOk(s.q, s'.q, s.drainers[0], s'.drainers[0]); }
  }

  lemma WaitKeepsInv<W>(s: State<W>, a: Action<W>)
    requires Inv(s) && (a.BeginWait? || a.Wake?) && Enabled(s, a)
    ensures Inv(Do(s, a))
  {
    assert Executing(Do(s, a)) == Executing(s);
  }

  lemma StepKeepsInv<W>(s: State<W>, a: Action<W>)
    requires Inv(s) && Enabled(s, a)
    ensures Inv(Do(s, a))
  {
    match a
    case Reserve(_, _) => ReserveKeepsInv(s, a);
    case Complete(_, _, _) => CompleteKeepsInv(s, a);
    case Look(_) => LookKeepsInv(s, a);
    case Finish(_) => TaskEndKeepsInv(s, a);
    case Panic(_) => TaskEndKeepsInv(s, a);
    case BeginWait(_, _) => WaitKeepsInv(s, a);
    case Wake(_) => WaitKeepsInv(s, a);
  }

  lemma {:induction false} RunKeepsInv<W>(tr: seq<State<W>>, acts: seq<Action<W>>, i: nat)
    requires IsRun(tr, acts) && i < |tr|
    ensures Inv(tr[i])
  {
    if i > 0 {
      RunKeepsInv(tr, acts, i - 1);
      assert StepAt(tr, acts, i - 1);
      StepKeepsInv(tr[i - 1], acts[i - 1]);
    }
  }

  // ----- order, exactly once, one at a time ---------------------------------

  /** Tasks start in ticket order 0, 1, 2, ..., each once and with the work its owner gave
      it; at most one is between start and end; and the map's keys are exactly the
      tickets from serving up to next. */
  lemma TasksRunOnceInTicketOrder<W>(tr: seq<State<W>>, acts: seq<Action<W>>, n: nat)
    requires IsRun(tr, acts) && n < |tr|
    ensures forall k :: 0 <= k < |tr[n].started| ==>
              tr[n].started[k].0 == k && k in tr[n].given && tr[n].started[k].1 == tr[n].given[k]
    ensures tr[n].finished == seq(tr[n].q.serving, k => k)
    ensures |tr[n].finished| <= |tr[n].started| <= |tr[n].finished| + 1
    ensures |tr[n].drainers| <= 1
    ensures forall t :: t in tr[n].q.tasks <==> tr[n].q.serving <= t < tr[n].q.next
  {
    RunKeepsInv(tr, acts, n);
  }

  /** A caller that became the drainer never runs a task that was unready at its call. */
  lemma CallerRunsOnlyWhatWasReady<W>(tr: seq<State<W>>, acts: seq<Action<W>>, n: nat, i: nat)
    requires IsRun(tr, acts) && n < |acts| && StepAt(tr, acts, n) && acts[n] == Look(i)
    requires !tr[n].drainers[i].background && |tr[n + 1].started| > |tr[n].started|
    ensures tr[n + 1].started[|tr[n].started|].0 in tr[n].drainers[i].readyAtCall
  {
    assert StepAt(tr, acts, n);
    RunKeepsInv(tr, acts, n);
    assert DrainerOk(tr[n].q, tr[n].drainers[i]);
  }

  // ----- no ready task is stranded, except by a recovered panic ---------------------

  predicate Stranded<W>(s: State<W>) {
    ReadyAt(s.q.tasks, s.q.serving) && s.drainers == []
  }

  /** The head is ready with nobody to run it exactly when a task has panicked inside a
      handler that recovers: `running` then stays set with no drainer behind it. */
  lemma StrandedExactlyAfterPanic<W>(tr: seq<State<W>>, acts: seq<Action<W>>, n: nat)
    requires IsRun(tr, acts) && n < |tr|
    ensures Stranded(tr[n]) <==> tr[n].panicked
    ensures !tr[n].panicked ==> (tr[n].q.running <==> |tr[n].drainers| == 1)
  {
    RunKeepsInv(tr, acts, n);
  }

  lemma PanickedStep<W>(s: State<W>, a: Action<W>)
    requires Inv(s) && s.panicked && Enabled(s, a)
    ensures Do(s, a).panicked && Do(s, a).q.serving == s.q.serving
    ensures Do(s, a).started == s.started && Do(s, a).finished == s.finished && Do(s, a).q.next >= s.q.next
  {
  }

  lemma PanickedHead<W>(tr: seq<State<W>>, acts: seq<Action<W>>, m: nat)
    requires IsRun(tr, acts) && m < |tr| && tr[m].panicked
    ensures tr[m].q.serving < tr[m].q.next
  {
    RunKeepsInv(tr, acts, m);
  }

  /** After such a panic no task ever starts or finishes again, whatever is completed later. */
  lemma {:induction false} PanicStopsTheQueueForever<W>(tr: seq<State<W>>, acts: seq<Action<W>>, m: nat, n: nat)
    requires IsRun(tr, acts) && m <= n < |tr| && tr[m].panicked
    ensures tr[n].panicked
    ensures tr[n].q.serving == tr[m].q.serving && tr[n].started == tr[m].started && tr[n].finished == tr[m].finished
    ensures tr[n].q.serving < tr[n].q.next
    decreases n
  {
    PanickedHead(tr, acts, m);
    if n > m {
      PanicStopsTheQueueForever(tr, acts, m, n - 1);
      assert StepAt(tr, acts, n - 1);
      RunKeepsInv(tr, acts, n - 1);
      PanickedStep(tr[n - 1], acts[n - 1]);
    }
  }

  /** A concrete run: one live event is reserved, completed and started, and its task panics. */
  function PanicRun(): (r: (seq<State<int>>, seq<Action<int>>)) {
    var q1 := Queue(1, 0, false, map[0 := Reserved(true)]);
    var q2 := Queue(1, 0, true, map[0 := Ready(true, 42)]);
    var s0: State<int> := Init();
    var s1 := s0.(q := q1, owner := map[0 := 7]);
    var s2 := s1.(q := q2, given := map[0 := 42], drainers := [Drainer(0, false, {0}, false)]);
    var s3 := s2.(drainers := [Drainer(0, false, {0}, true)], started := [(0, 42)]);
    ([s0, s1, s2, s3, s3.(drainers := [], panicked := true)],
     [Reserve(7, true), Complete(7, 0, 42), Look(0), Panic(0)])
  }

  lemma PanicRunCompletes()
    ensures var (tr, acts) := PanicRun();
            && Enabled(tr[0], acts[0]) && Do(tr[0], acts[0]) == tr[1]
            && Enabled(tr[1], acts[1]) && Do(tr[1], acts[1]) == tr[2]
  {
    var (tr, acts) := PanicRun();
    var q2 := tr[2].q;
    assert Do(tr[0], acts[0]) == tr[1];
    assert CompleteTask(tr[1].q, 0, 42) == q2;
    assert DrainFrontier(q2.tasks, 0, 1) == 0;
    assert ReadySet(q2.tasks) == {0};
  }

  lemma PanicRunPanics()
    ensures var (tr, acts) := PanicRun();
            && Enabled(tr[2], acts[2]) && Do(tr[2], acts[2]) == tr[3]
            && Enabled(tr[3], acts[3]) && Do(tr[3], acts[3]) == tr[4] && Stranded(tr[4])
  {
    var (tr, acts) := PanicRun();
    var q2 := tr[2].q;
    assert WellKeyed(q2);
    assert HeadVerdict(q2, 0) == RunHead && LookAtHead(q2, 0) == q2;
    assert Do(tr[2], acts[2]) == tr[3];
  }

  lemma APanicStrandsTheQueue()
    ensures IsRun(PanicRun().0, PanicRun().1) && Stranded(PanicRun().0[4])
  {
    PanicRunCompletes();
    PanicRunPanics();
    var (tr, acts) := PanicRun();
    assert StepAt(tr, acts, 0) && StepAt(tr, acts, 1) && StepAt(tr, acts, 2) && StepAt(tr, acts, 3);
  }

  // ----- the queue drains -----------------------------------------------------------

  predicate DrainerAction<W>(a: Action<W>) {
    a.Look? || a.Finish?
  }

  ghost predicate AllCompleted<W>(s: State<W>) {
    forall t :: t in s.q.tasks ==> s.q.tasks[t].Ready?
  }

  /** Work left for the drainers. */
  function Measure<W>(s: State<W>): int {
    4 * (s.q.next - s.q.serving)
    + if s.drainers == [] then 0
      else if s.drainers[0].busy then 1
      else if s.q.serving <= s.drainers[0].frontier then 2
      else 3
  }

  lemma LookDecreases<W>(s: State<W>, a: Action<W>)
    requires Inv(s) && !s.panicked && AllCompleted(s) && a.Look? && Enabled(s, a)
    ensures Measure(Do(s, a)) < Measure(s)
    ensures !Do(s, a).panicked && AllCompleted(Do(s, a)) && Do(s, a).q.next == s.q.next
  {
  }

  lemma FinishDecreases<W>(s: State<W>, a: Action<W>)
    requires Inv(s) && !s.panicked && AllCompleted(s) && a.Finish? && Enabled(s, a)
    ensures Measure(Do(s, a)) < Measure(s)
    ensures !Do(s, a).panicked && AllCompleted(Do(s, a)) && Do(s, a).q.next == s.q.next
  {
  }

  lemma DrainerStepDecreases<W>(s: State<W>, a: Action<W>)
    requires Inv(s) && !s.panicked && AllCompleted(s) && DrainerAction(a) && Enabled(s, a)
    ensures Measure(Do(s, a)) < Measure(s)
    ensures !Do(s, a).panicked && AllCompleted(Do(s, a)) && Do(s, a).q.next == s.q.next
  {
    if a.Look? { LookDecreases(s, a); } else { FinishDecreases(s, a); }
  }

  /** With everything completed, the drainers are stuck exactly when nothing is left. */
  lemma StuckOnlyWhenDrained<W>(s: State<W>)
    requires Inv(s) && !s.panicked && AllCompleted(s)
    ensures Measure(s) >= 0
    ensures (forall a :: DrainerAction(a) ==> !Enabled(s, a)) <==> s.q.serving == s.q.next && s.drainers == []
  {
    if s.drainers != [] {
      var a: Action<W> := if s.drainers[0].busy then Finish(0) else Look(0);
      assert DrainerAction(a) && Enabled(s, a);
    } else {
      assert s.q.serving in s.q.tasks <==> s.q.serving < s.q.next;
    }
  }

  lemma FollowsTail<W>(tr: seq<State<W>>, acts: seq<Action<W>>)
    requires Follows(tr, acts) && acts != []
    ensures Follows(tr[1..], acts[1..])
  {
    forall i: nat | i < |acts[1..]| ensures StepAt(tr[1..], acts[1..], i) {
      assert StepAt(tr, acts, i + 1);
    }
  }

  /** Once every reserved ticket is completed, the drainers alone finish every task within
      `Measure` steps: they cannot go on longer, and they cannot stop earlier. */
  lemma {:induction false} CompletedQueueDrains<W>(tr: seq<State<W>>, acts: seq<Action<W>>)
    requires Follows(tr, acts) && Inv(tr[0]) && !tr[0].panicked && AllCompleted(tr[0])
    requires forall i :: 0 <= i < |acts| ==> DrainerAction(acts[i])
    ensures |acts| <= Measure(tr[0])
    ensures (forall a :: DrainerAction(a) ==> !Enabled(tr[|acts|], a)) <==> tr[|acts|].q.serving == tr[0].q.next && tr[|acts|].drainers == []
    decreases |acts|
  {
    if acts == [] {
      StuckOnlyWhenDrained(tr[0]);
    } else {
      assert StepAt(tr, acts, 0);
      DrainerStepDecreases(tr[0], acts[0]);
      StepKeepsInv(tr[0], acts[0]);
      FollowsTail(tr, acts);
      CompletedQueueDrains(tr[1..], acts[1..]);
    }
  }

  // ----- waiters --------------------------------------------------------------------

  /** No lost wakeup: a waiter sleeps only while its condition is still false. */
  lemma NoLostWakeup<W>(tr: seq<State<W>>, acts: seq<Action<W>>, n: nat, who: Owner)
    requires IsRun(tr, acts) && n < |tr| && Asleep(tr[n], who)
    ensures !Satisfied(tr[n].q, tr[n].waits[who].target)
  {
    RunKeepsInv(tr, acts, n);
  }

  /** No cycle of waiters: whoever sleeps is waiting, in the end, for a task some drainer is
      on, or for a ticket whose owner is not itself waiting and so is free to complete it. */
  lemma SleeperWaitsForSomeoneAwake<W>(tr: seq<State<W>>, acts: seq<Action<W>>, n: nat, who: Owner)
    requires IsRun(tr, acts) && n < |tr| && Asleep(tr[n], who) && !tr[n].panicked
    ensures tr[n].q.serving in tr[n].q.tasks
    ensures tr[n].waits[who].target.Through? ==> tr[n].q.serving <= tr[n].waits[who].target.frontier
    ensures if tr[n].q.tasks[tr[n].q.serving].Ready? then |tr[n].drainers| == 1
            else tr[n].q.serving in tr[n].owner && tr[n].owner[tr[n].q.serving] !in tr[n].waits
  {
    RunKeepsInv(tr, acts, n);
    NoLostWakeup(tr, acts, n, who);
  }

  /** A waiter returns only when every ticket it waited for has been run and retired. */
  lemma WaitersReturnOnlyWhenServed<W>(tr: seq<State<W>>, acts: seq<Action<W>>, n: nat, who: Owner)
    requires IsRun(tr, acts) && n < |acts| && StepAt(tr, acts, n) && who !in tr[n + 1].waits
    requires (acts[n].Wake? || acts[n].BeginWait?) && acts[n].who == who
    ensures var target := if acts[n].Wake? then tr[n].waits[who].target else acts[n].target;
            match target
            case Through(f) => forall t: nat :: t <= f ==> t < |tr[n].finished| && tr[n].finished[t] == t
            case Idle => forall t :: t !in tr[n].q.tasks
  {
    assert StepAt(tr, acts, n);
    RunKeepsInv(tr, acts, n);
  }

  /** And once that is so its next check lets it go. */
  lemma ServedWaitersReturn<W>(tr: seq<State<W>>, acts: seq<Action<W>>, n: nat)
    requires IsRun(tr, acts) && n < |acts| && StepAt(tr, acts, n) && acts[n].Wake?
    requires match tr[n].waits[acts[n].who].target
             case Through(f) => f < |tr[n].finished|
             case Idle => forall t :: t !in tr[n].q.tasks
    ensures acts[n].who !in tr[n + 1].waits
  {
    assert StepAt(tr, acts, n);
    RunKeepsInv(tr, acts, n);
    assert tr[n].q.serving < tr[n].q.next ==> tr[n].q.serving in tr[n].q.tasks;
  }

  /** Until then it waits for what it asked for. */
  lemma {:induction false} TargetIsKept<W>(tr: seq<State<W>>, acts: seq<Action<W>>, m: nat, n: nat)
    requires IsRun(tr, acts) && m < n < |tr| && acts[m].BeginWait?
    requires forall i :: m < i <= n ==> acts[m].who in tr[i].waits
    ensures acts[m].who in tr[n].waits && tr[n].waits[acts[m].who].target == acts[m].target
    decreases n
  {
    assert StepAt(tr, acts, n - 1);
    if n > m + 1 {
      TargetIsKept(tr, acts, m, n - 1);
    }
  }

  // ----- the live flag ----------------------------------------------------------------

  lemma StepKeepsFlag<W>(s: State<W>, a: Action<W>, k: nat)
    requires WellKeyed(s.q) && Enabled(s, a) && k < s.q.next && k in Do(s, a).q.tasks
    ensures k in s.q.tasks && Do(s, a).q.tasks[k].blocksEarlier == s.q.tasks[k].blocksEarlier
  {
  }

  lemma NewTicket<W>(tr: seq<State<W>>, acts: seq<Action<W>>, i: nat)
    requires IsRun(tr, acts) && i < |acts| && acts[i].Reserve?
    ensures tr[i].q.next in tr[i + 1].q.tasks && tr[i + 1].q.tasks[tr[i].q.next] == Reserved(acts[i].live)
    ensures tr[i + 1].q.next == tr[i].q.next + 1
  {
    assert StepAt(tr, acts, i);
  }

  lemma {:induction false} TicketsOnlyGrow<W>(tr: seq<State<W>>, acts: seq<Action<W>>, m: nat, n: nat)
    requires IsRun(tr, acts) && m <= n < |tr|
    ensures tr[m].q.next <= tr[n].q.next
    decreases n
  {
    if n > m {
      assert StepAt(tr, acts, n - 1);
      TicketsOnlyGrow(tr, acts, m, n - 1);
    }
  }

  lemma RunStepKeepsFlag<W>(tr: seq<State<W>>, acts: seq<Action<W>>, n: nat, k: nat)
    requires IsRun(tr, acts) && n < |acts| && k < tr[n].q.next && k in tr[n + 1].q.tasks
    ensures k in tr[n].q.tasks && tr[n + 1].q.tasks[k].blocksEarlier == tr[n].q.tasks[k].blocksEarlier
  {
    assert StepAt(tr, acts, n);
    RunKeepsInv(tr, acts, n);
    StepKeepsFlag(tr[n], acts[n], k);
  }

  /** A ticket keeps the live flag it was reserved with for as long as it is in the queue. */
  lemma {:induction false} FlagIsKept<W>(tr: seq<State<W>>, acts: seq<Action<W>>, i: nat, n: nat)
    requires IsRun(tr, acts) && i < n < |tr| && acts[i].Reserve? && tr[i].q.next in tr[n].q.tasks
    ensures tr[n].q.tasks[tr[i].q.next].blocksEarlier == acts[i].live
    decreases n
  {
    NewTicket(tr, acts, i);
    if n > i + 1 {
      TicketsOnlyGrow(tr, acts, i + 1, n - 1);
      RunStepKeepsFlag(tr, acts, n - 1, tr[i].q.next);
      FlagIsKept(tr, acts, i, n - 1);
    }
  }

  /** A completing caller waits past its own ticket exactly for the unbroken run of tickets that
      are ready or were reserved live, and so never for a later unfinished fetch. */
  lemma CallersWaitOnlyForReadyOrLive<W>(tr: seq<State<W>>, acts: seq<Action<W>>, i: nat, n: nat)
    requires IsRun(tr, acts) && i < n < |acts| && acts[i].Reserve? && acts[n].Complete? && acts[n].ticket < tr[i].q.next
    ensures acts[n].ticket < tr[n].q.next && tr[i].q.next < tr[n].q.next
    ensures var k := tr[i].q.next;
            var f := WaitFrontier(tr[n].q.tasks, acts[n].ticket, tr[n].q.next);
            && (k <= f ==> ReadyAt(tr[n].q.tasks, k) || acts[i].live)
            && (k == f + 1 ==> !ReadyAt(tr[n].q.tasks, k) && !acts[i].live)
  {
    assert StepAt(tr, acts, n);
    RunKeepsInv(tr, acts, n);
    NewTicket(tr, acts, i);
    TicketsOnlyGrow(tr, acts, i + 1, n);
    var k, t, next := tr[i].q.next, acts[n].ticket, tr[n].q.next;
    var f := WaitFrontier(tr[n].q.tasks, t, next);
    WaitFrontierIsTheLiveRun(tr[n].q.tasks, t, next, f);
    assert k in tr[n].q.tasks;
    FlagIsKept(tr, acts, i, n);
    if k <= f { assert ReadyOrLiveAt(tr[n].q.tasks, k); }
  }

  /** The drainer a caller hands over to runs in the background and covers every ticket reserved
      so far. */
  lemma HandOverCoversAll<W>(tr: seq<State<W>>, acts: seq<Action<W>>, n: nat)
    requires IsRun(tr, acts) && n < |acts| && StepAt(tr, acts, n) && acts[n].Look?
    requires tr[n].q.serving > tr[n].drainers[acts[n].i].frontier
    ensures ReadyAt(tr[n].q.tasks, tr[n].q.serving) ==>
              && |tr[n + 1].drainers| == 1 && tr[n + 1].drainers[0].background
              && forall t :: t in tr[n].q.tasks ==> t <= tr[n + 1].drainers[0].frontier
  {
    assert StepAt(tr, acts, n);
    RunKeepsInv(tr, acts, n);
  }

  predicate AllReady<W>(tasks: map<nat, Task<W>>, from: nat, to: nat) {
    forall k :: from <= k <= to ==> ReadyAt(tasks, k)
  }

  /** A completing caller becomes a drainer exactly when nobody drains and its own ticket is at the
      head, and then drains the unbroken run of ready tickets and no further. */
  lemma CallersDrainTheReadyRun<W>(tr: seq<State<W>>, acts: seq<Action<W>>, n: nat)
    requires IsRun(tr, acts) && n < |acts| && acts[n].Complete?
    ensures tr[n].q.running || acts[n].ticket != tr[n].q.serving ==> tr[n + 1].drainers == tr[n].drainers
    ensures !tr[n].q.running && acts[n].ticket == tr[n].q.serving ==>
              && tr[n + 1].q.running && tr[n].drainers == [] && |tr[n + 1].drainers| == 1
              && !tr[n + 1].drainers[0].background && !tr[n + 1].drainers[0].busy
              && var f := tr[n + 1].drainers[0].frontier;
                 && tr[n].q.serving <= f < tr[n].q.next
                 && AllReady(tr[n + 1].q.tasks, tr[n].q.serving, f)
                 && (f + 1 < tr[n].q.next ==> !ReadyAt(tr[n + 1].q.tasks, f + 1))
  {
    assert StepAt(tr, acts, n);
    RunKeepsInv(tr, acts, n);
    var q := tr[n + 1].q;
    if acts[n].ticket < q.next {
      DrainFrontierIsTheReadyRun(q.tasks, acts[n].ticket, q.next, DrainFrontier(q.tasks, acts[n].ticket, q.next));
    }
  }
}
