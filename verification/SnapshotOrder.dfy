/** Writes of live events and of recovery snapshots, ordered by the tickets of the shared
    persistence queue. The queue's own order is `SequencerRuns.TasksRunOnceInTicketOrder`;
    here one `Drain` step runs the head task and retires it. */
module SnapshotOrder {
  import opened Wrappers
  import opened Sequencer

  /** One stored chat attribute; every attribute belongs to one app-state collection. */
  datatype Key = Key(collection: nat, item: nat)

  datatype Event = Event(key: Key, value: int)

  type Store = map<Key, int>

  /** A recovery capture. It appends matching events until the sentinel or `stop` finishes it.
      `start` and `end` delimit the dispatches it saw; `callerTicket` is the one its attempt
      reserved before asking the phone. */
  datatype Capture = Capture(
    collection: nat,
    callerTicket: nat,
    start: nat,
    captured: seq<Event>,
    finished: bool,
    sentinel: Option<Sentinel>)

  datatype Sentinel = Sentinel(ticket: nat, end: nat, events: seq<Event>)

  datatype State = State(
    q: Queue<seq<Event>>,
    initial: Store,             // the store when the process started
    store: Store,
    log: seq<Event>,            // events in dispatch order
    liveTicket: seq<nat>,       // the ticket each of them reserved
    captures: map<nat, Capture>,
    role: map<nat, Role>,       // what each ticket was reserved for
    runs: seq<seq<Event>>,      // what each retired ticket wrote
    foreign: set<Key>)          // keys an explicit fetch or local write wrote after their last live event

  datatype Role = LiveOf(i: nat) | CallerOf(id: nat) | SentinelOf(id: nat) | Other

  datatype Action =
    | Dispatch(e: Event, early: bool)
    | CompleteLive(i: nat)
    | StartRecovery(id: nat, collection: nat)
    | SentinelArrives(id: nat)
    | StopCapture(id: nat)
    | CompleteCaller(id: nat, withEvents: bool)
    | CompleteSentinel(id: nat, withEvents: bool)
    | ReserveOther(live: bool)                    // an explicit fetch or a local write
    | CompleteOther(t: nat, writes: seq<Event>)
    | Drain

  function Init(store: Store): State {
    State(Queue(0, 0, false, map[]), store, store, [], [], map[], map[], [], {})
  }

  function Write(store: Store, e: Event): Store {
    store[e.key := e.value]
  }

  function WriteAll(store: Store, es: seq<Event>): Store {
    if es == [] then store else Write(WriteAll(store, es[..|es| - 1]), es[|es| - 1])
  }

  function Lookup(store: Store, k: Key): Option<int> {
    if k in store then Some(store[k]) else None
  }

  /** The value dispatched last for `k`, if any. */
  function LastValue(es: seq<Event>, k: Key): Option<int> {
    if es == [] then None
    else if es[|es| - 1].key == k then Some(es[|es| - 1].value)
    else LastValue(es[..|es| - 1], k)
  }

  /** What a serial execution of every dispatch so far would leave under `k`. */
  function Expected(s: State, k: Key): Option<int> {
    if LastValue(s.log, k).Some? then LastValue(s.log, k) else Lookup(s.initial, k)
  }

  function OfCollection(es: seq<Event>, collection: nat): seq<Event> {
    if es == [] then []
    else
      var rest := OfCollection(es[..|es| - 1], collection);
      if es[|es| - 1].key.collection == collection then rest + [es[|es| - 1]] else rest
  }

  predicate Recoverable(s: State, id: nat) {
    id in s.captures && Completable(s.q, s.captures[id].callerTicket)
  }

  predicate Enabled(s: State, a: Action) {
    match a
    case Dispatch(_, _) => true
    case CompleteLive(i) => i < |s.log| && i < |s.liveTicket| && Completable(s.q, s.liveTicket[i])
    case StartRecovery(id, _) => id !in s.captures
    case SentinelArrives(id) => id in s.captures && !s.captures[id].finished
    case StopCapture(id) => id in s.captures
    case CompleteCaller(id, withEvents) => Recoverable(s, id) && (withEvents ==> s.captures[id].sentinel.Some?)
    case CompleteSentinel(id, _) =>
      id in s.captures && s.captures[id].sentinel.Some? && Completable(s.q, s.captures[id].sentinel.value.ticket)
    case ReserveOther(_) => true
    case CompleteOther(t, _) => Completable(s.q, t) && t in s.role && s.role[t].Other?
    case Drain => ReadyAt(s.q.tasks, s.q.serving)
  }

  function See(c: Capture, e: Event): Capture {
    if !c.finished && e.key.collection == c.collection then c.(captured := c.captured + [e]) else c
  }

  /** An event reaches the persistence handler, which reserves its ticket, and every
      capture. `early` is the extra unordered write made when the durable marker failed. */
  function DoDispatch(s: State, e: Event, early: bool): State {
    s.(q := ReserveTask(s.q, true),
       store := if early then Write(s.store, e) else s.store,
       log := s.log + [e],
       liveTicket := s.liveTicket + [s.q.next],
       captures := map id | id in s.captures :: See(s.captures[id], e),
       role := s.role[s.q.next := LiveOf(|s.log|)])
  }

  function Do(s: State, a: Action): State
    requires Enabled(s, a)
  {
    match a
    case Dispatch(e, early) => DoDispatch(s, e, early)
    case CompleteLive(i) => s.(q := CompleteTask(s.q, s.liveTicket[i], [s.log[i]]))
    case StartRecovery(id, collection) =>
      s.(q := ReserveTask(s.q, false),
         captures := s.captures[id := Capture(collection, s.q.next, |s.log|, [], false, None)],
         role := s.role[s.q.next := CallerOf(id)])
    case SentinelArrives(id) =>
      var c := s.captures[id];
      s.(q := ReserveTask(s.q, false),
         captures := s.captures[id := c.(finished := true, sentinel := Some(Sentinel(s.q.next, |s.log|, c.captured)))],
         role := s.role[s.q.next := SentinelOf(id)])
    case StopCapture(id) => s.(captures := s.captures[id := s.captures[id].(finished := true)])
    case CompleteCaller(id, withEvents) =>
      var c := s.captures[id];
      s.(q := CompleteTask(s.q, c.callerTicket, if withEvents then c.sentinel.value.events else []))
    case CompleteSentinel(id, withEvents) =>
      var sentinel := s.captures[id].sentinel.value;
      s.(q := CompleteTask(s.q, sentinel.ticket, if withEvents then sentinel.events else []))
    case ReserveOther(live) => s.(q := ReserveTask(s.q, live), role := s.role[s.q.next := Other])
    case CompleteOther(t, writes) => s.(q := CompleteTask(s.q, t, writes))
    case Drain =>
      var run := s.q.tasks[s.q.serving].run;
      s.(store := WriteAll(s.store, run), q := Advance(s.q), runs := s.runs + [run],
         foreign := if s.q.serving !in s.role then s.foreign else
                    match s.role[s.q.serving]
                    case Other => s.foreign + KeysOf(run)
                    case LiveOf(_) => s.foreign - KeysOf(run)
                    case _ => s.foreign)
  }

  /** The ordered writes, in the order of their tickets. */
  function Written(runs: seq<seq<Event>>): seq<Event> {
    if runs == [] then [] else Written(runs[..|runs| - 1]) + runs[|runs| - 1]
  }

  function KeysOf(es: seq<Event>): set<Key> {
    set e | e in es :: e.key
  }

  predicate StepAt(tr: seq<State>, acts: seq<Action>, i: nat)
    requires |tr| == |acts| + 1 && i < |acts|
  {
    Enabled(tr[i], acts[i]) && tr[i + 1] == Do(tr[i], acts[i])
  }

  ghost predicate IsRun(tr: seq<State>, acts: seq<Action>) {
    && |tr| == |acts| + 1
    && tr[0] == Init(tr[0].store)
    && forall i: nat :: i < |acts| ==> StepAt(tr, acts, i)
  }

  // ----- sequences of writes -------------------------------------------------------

  lemma {:induction false} WriteAllKeepsTheLast(store: Store, es: seq<Event>, k: Key)
    ensures Lookup(WriteAll(store, es), k) ==
            if LastValue(es, k).Some? then LastValue(es, k) else Lookup(store, k)
  {
    if es != [] {
      WriteAllKeepsTheLast(store, es[..|es| - 1], k);
    }
  }

  lemma {:induction false} LastValueOfConcat(a: seq<Event>, b: seq<Event>, k: Key)
    ensures LastValue(a + b, k) == if LastValue(b, k).Some? then LastValue(b, k) else LastValue(a, k)
  {
    if b == [] {
      assert a + b == a;
    } else {
      assert (a + b)[..|a + b| - 1] == a + b[..|b| - 1];
      LastValueOfConcat(a, b[..|b| - 1], k);
    }
  }

  lemma {:induction false} NoneWithoutTheKey(es: seq<Event>, k: Key)
    ensures LastValue(es, k).None? <==> forall i :: 0 <= i < |es| ==> es[i].key != k
  {
    if es != [] {
      NoneWithoutTheKey(es[..|es| - 1], k);
      if LastValue(es, k).None? {
        forall i | 0 <= i < |es| ensures es[i].key != k {
          if i < |es| - 1 { assert es[..|es| - 1][i].key != k; }
        }
      }
    }
  }

  lemma {:induction false} OfCollectionKeepsTheLast(es: seq<Event>, k: Key, collection: nat)
    ensures LastValue(OfCollection(es, collection), k) ==
            if k.collection == collection then LastValue(es, k) else None
  {
    if es != [] {
      var rest := OfCollection(es[..|es| - 1], collection);
      OfCollectionKeepsTheLast(es[..|es| - 1], k, collection);
      assert forall e: Event :: (rest + [e])[..|rest + [e]| - 1] == rest;
    }
  }

  lemma OfCollectionAppend(es: seq<Event>, e: Event, collection: nat)
    ensures OfCollection(es + [e], collection) ==
            OfCollection(es, collection) + (if e.key.collection == collection then [e] else [])
  {
    assert (es + [e])[..|es + [e]| - 1] == es;
  }

  // ----- what every step keeps --------------------------------------------------------

  ghost predicate TicketsInv(s: State) {
    && s.q.serving <= s.q.next
    && WellKeyed(s.q)
    && |s.liveTicket| == |s.log|
    && (forall t :: t in s.role <==> 0 <= t < s.q.next)
    && (forall i :: 0 <= i < |s.log| ==> s.liveTicket[i] < s.q.next && s.role[s.liveTicket[i]] == LiveOf(i))
    && (forall i, j :: 0 <= i < j < |s.log| ==> s.liveTicket[i] < s.liveTicket[j])
  }

  /** Ticket `t` was reserved between dispatch `pos - 1` and dispatch `pos`. */
  ghost predicate ReservedAt(liveTicket: seq<nat>, t: nat, pos: nat) {
    forall i :: 0 <= i < |liveTicket| ==> (i < pos <==> liveTicket[i] < t)
  }

  ghost predicate CaptureOk(s: State, id: nat, c: Capture)
    requires TicketsInv(s)
  {
    && c.callerTicket < s.q.next && s.role[c.callerTicket] == CallerOf(id)
    && c.start <= |s.log| && ReservedAt(s.liveTicket, c.callerTicket, c.start)
    && (!c.finished ==> c.captured == OfCollection(s.log[c.start..], c.collection))
    && (c.sentinel.Some? ==> SentinelOk(s, id, c, c.sentinel.value))
  }

  ghost predicate SentinelOk(s: State, id: nat, c: Capture, z: Sentinel)
    requires TicketsInv(s)
  {
    && c.finished
    && z.ticket < s.q.next && s.role[z.ticket] == SentinelOf(id)
    && c.start <= z.end <= |s.log| && ReservedAt(s.liveTicket, z.ticket, z.end)
    && z.events == OfCollection(s.log[c.start..z.end], c.collection)
  }

  ghost predicate TaskOk(s: State, t: nat, run: seq<Event>)
    requires TicketsInv(s) && t in s.role
  {
    match s.role[t]
    case LiveOf(i) => i < |s.log| && s.liveTicket[i] == t && run == [s.log[i]]
    case CallerOf(id) =>
      id in s.captures && s.captures[id].callerTicket == t
      && (run == [] || (s.captures[id].sentinel.Some? && run == s.captures[id].sentinel.value.events))
    case SentinelOf(id) =>
      id in s.captures && s.captures[id].sentinel.Some? && s.captures[id].sentinel.value.ticket == t
      && (run == [] || run == s.captures[id].sentinel.value.events)
    case Other => true
  }

  /** Every event on `k` has had its ordered write. */
  ghost predicate Settled(s: State, k: Key)
    requires |s.liveTicket| == |s.log|
  {
    forall i :: 0 <= i < |s.log| && s.log[i].key == k ==> s.liveTicket[i] < s.q.serving
  }

  ghost predicate Converged(s: State, k: Key)
    requires |s.liveTicket| == |s.log|
  {
    Settled(s, k) && k !in s.foreign ==> Lookup(s.store, k) == Expected(s, k)
  }

  /** The value of the last ordered write of `k` by any writer, or the initial one. */
  function LastWritten(s: State, k: Key): Option<int> {
    if LastValue(Written(s.runs), k).Some? then LastValue(Written(s.runs), k) else Lookup(s.initial, k)
  }

  ghost predicate Serial(s: State, k: Key)
    requires |s.liveTicket| == |s.log|
  {
    Settled(s, k) ==> Lookup(s.store, k) == LastWritten(s, k)
  }

  ghost predicate CapturesOk(s: State)
    requires TicketsInv(s)
  {
    forall id :: id in s.captures ==> CaptureOk(s, id, s.captures[id])
  }

  ghost predicate TasksOk(s: State)
    requires TicketsInv(s)
  {
    forall t :: t in s.q.tasks && s.q.tasks[t].Ready? ==> TaskOk(s, t, s.q.tasks[t].run)
  }

  ghost predicate Inv(s: State) {
    && TicketsInv(s)
    && CapturesOk(s)
    && TasksOk(s)
    && (forall k :: Converged(s, k))
    && (forall k :: Serial(s, k))
  }

  lemma DispatchKeepsTickets(s: State, e: Event, early: bool)
    requires TicketsInv(s)
    ensures TicketsInv(DoDispatch(s, e, early))
  {
    var s' := DoDispatch(s, e, early);
    forall i | 0 <= i < |s'.log| ensures s'.liveTicket[i] < s'.q.next && s'.role[s'.liveTicket[i]] == LiveOf(i) {
      if i < |s.log| { assert s'.liveTicket[i] == s.liveTicket[i]; }
    }
  }

  lemma ReservationsStay(liveTicket: seq<nat>, t: nat, pos: nat, next: nat)
    requires ReservedAt(liveTicket, t, pos) && t < next && pos <= |liveTicket|
    ensures ReservedAt(liveTicket + [next], t, pos)
  {
  }

  lemma SliceStays(log: seq<Event>, e: Event, start: nat, end: nat)
    requires start <= end <= |log|
    ensures (log + [e])[start..end] == log[start..end] && (log + [e])[start..] == log[start..] + [e]
  {
  }

  /** An unfinished capture goes on holding its collection's events since its start. */
  lemma BufferGrows(log: seq<Event>, c: Capture, e: Event)
    requires c.start <= |log| && !c.finished && c.captured == OfCollection(log[c.start..], c.collection)
    ensures See(c, e).captured == OfCollection((log + [e])[c.start..], c.collection)
  {
    SliceStays(log, e, c.start, |log|);
    OfCollectionAppend(log[c.start..], e, c.collection);
  }

  lemma DispatchKeepsSentinel(s: State, e: Event, early: bool, id: nat)
    requires TicketsInv(s) && TicketsInv(DoDispatch(s, e, early)) && id in s.captures
    requires s.captures[id].sentinel.Some? && SentinelOk(s, id, s.captures[id], s.captures[id].sentinel.value)
    ensures SentinelOk(DoDispatch(s, e, early), id, See(s.captures[id], e), s.captures[id].sentinel.value)
  {
    var c := s.captures[id];
    var z := c.sentinel.value;
    ReservationsStay(s.liveTicket, z.ticket, z.end, s.q.next);
    SliceStays(s.log, e, c.start, z.end);
  }

  lemma DispatchKeepsCapture(s: State, e: Event, early: bool, id: nat)
    requires TicketsInv(s) && TicketsInv(DoDispatch(s, e, early)) && id in s.captures && CaptureOk(s, id, s.captures[id])
    ensures CaptureOk(DoDispatch(s, e, early), id, See(s.captures[id], e))
  {
    var c := s.captures[id];
    ReservationsStay(s.liveTicket, c.callerTicket, c.start, s.q.next);
    if !c.finished { BufferGrows(s.log, c, e); }
    if c.sentinel.Some? { DispatchKeepsSentinel(s, e, early, id); }
  }

  lemma DispatchUnsettles(s: State, e: Event, early: bool, k: Key)
    requires TicketsInv(s) && Settled(DoDispatch(s, e, early), k)
    ensures k != e.key && Settled(s, k)
  {
    var s' := DoDispatch(s, e, early);
    var n := |s.log|;
    assert s'.log[n] == e && s'.liveTicket[n] == s.q.next;
    forall i | 0 <= i < n && s.log[i].key == k ensures s.liveTicket[i] < s.q.serving {
      assert s'.log[i].key == k && s'.liveTicket[i] == s.liveTicket[i];
    }
  }

  lemma DispatchConverges(s: State, e: Event, early: bool, k: Key)
    requires Inv(s)
    ensures Converged(DoDispatch(s, e, early), k) && Serial(DoDispatch(s, e, early), k)
  {
    var s' := DoDispatch(s, e, early);
    if Settled(s', k) {
      DispatchUnsettles(s, e, early, k);
      assert Converged(s, k) && Serial(s, k);
      assert s'.log[..|s.log|] == s.log;
    }
  }

  lemma DispatchKeepsInv(s: State, e: Event, early: bool)
    requires Inv(s)
    ensures Inv(DoDispatch(s, e, early))
  {
    var s' := DoDispatch(s, e, early);
    DispatchKeepsTickets(s, e, early);
    forall id | id in s'.captures ensures CaptureOk(s', id, s'.captures[id]) {
      DispatchKeepsCapture(s, e, early, id);
    }
    forall t | t in s'.q.tasks && s'.q.tasks[t].Ready? ensures TaskOk(s', t, s'.q.tasks[t].run) {
      assert TaskOk(s, t, s.q.tasks[t].run);
    }
    forall k { DispatchConverges(s, e, early, k); }
  }

  /** A step that dispatches and writes nothing. */
  predicate Quiet(s: State, t: State) {
    t.log == s.log && t.liveTicket == s.liveTicket && t.store == s.store && t.initial == s.initial &&
    t.runs == s.runs && t.foreign == s.foreign && t.q.serving == s.q.serving && s.q.next <= t.q.next
  }

  lemma QuietConverges(s: State, t: State)
    requires Inv(s) && Quiet(s, t)
    ensures forall k :: Converged(t, k)
    ensures forall k :: Serial(t, k)
  {
    forall k ensures Converged(t, k) && Serial(t, k) {
      assert Converged(s, k) && Serial(s, k);
    }
  }

  predicate SameCapture(c: Capture, d: Capture) {
    d.callerTicket == c.callerTicket && (c.sentinel.Some? ==> d.sentinel == c.sentinel)
  }

  /** Ready tasks stay right while roles and captures only grow. */
  lemma QuietKeepsTasks(s: State, t: State)
    requires Inv(s) && Quiet(s, t) && TicketsInv(t)
    requires forall u :: u in s.role ==> u in t.role && t.role[u] == s.role[u]
    requires forall id :: id in s.captures ==> id in t.captures && SameCapture(s.captures[id], t.captures[id])
    requires forall u :: u in t.q.tasks && t.q.tasks[u].Ready? ==> u in s.q.tasks && s.q.tasks[u] == t.q.tasks[u]
    ensures TasksOk(t)
  {
    forall u | u in t.q.tasks && t.q.tasks[u].Ready? ensures TaskOk(t, u, t.q.tasks[u].run) {
      assert TaskOk(s, u, s.q.tasks[u].run);
    }
  }

  predicate SameRoles(s: State, t: State) {
    forall u :: u in s.role ==> u in t.role && t.role[u] == s.role[u]
  }

  lemma QuietKeepsCapture(s: State, t: State, id: nat, c: Capture)
    requires TicketsInv(s) && TicketsInv(t) && Quiet(s, t) && SameRoles(s, t) && CaptureOk(s, id, c)
    ensures CaptureOk(t, id, c)
  {
  }

  /** The one capture a step gives a new value is shown right by itself. */
  lemma QuietKeepsCaptures(s: State, t: State, id: nat)
    requires Inv(s) && TicketsInv(t) && Quiet(s, t) && SameRoles(s, t)
    requires id in t.captures ==> CaptureOk(t, id, t.captures[id])
    requires forall j :: j in t.captures && j != id ==> j in s.captures && t.captures[j] == s.captures[j]
    ensures CapturesOk(t)
  {
    forall j | j in t.captures ensures CaptureOk(t, j, t.captures[j]) {
      if j != id { QuietKeepsCapture(s, t, j, s.captures[j]); }
    }
  }

  lemma ReservingKeepsTickets(s: State, t: State, live: bool, role: Role)
    requires TicketsInv(s) && !role.LiveOf?
    requires t == s.(q := ReserveTask(s.q, live), captures := t.captures, role := s.role[s.q.next := role])
    ensures TicketsInv(t) && Quiet(s, t) && SameRoles(s, t)
  {
  }

  lemma StartKeepsInv(s: State, a: Action)
    requires Inv(s) && a.StartRecovery? && Enabled(s, a)
    ensures Inv(Do(s, a))
  {
    var s' := Do(s, a);
    ReservingKeepsTickets(s, s', false, CallerOf(a.id));
    assert s.log[|s.log|..] == [];
    QuietKeepsCaptures(s, s', a.id);
    QuietKeepsTasks(s, s');
    QuietConverges(s, s');
  }

  lemma OtherKeepsInv(s: State, a: Action)
    requires Inv(s) && a.ReserveOther? && Enabled(s, a)
    ensures Inv(Do(s, a))
  {
    var s' := Do(s, a);
    ReservingKeepsTickets(s, s', a.live, Other);
    AllCapturesStay(s, s');
    QuietKeepsTasks(s, s');
    QuietConverges(s, s');
  }

  lemma AllCapturesStay(s: State, t: State)
    requires Inv(s) && TicketsInv(t) && Quiet(s, t) && SameRoles(s, t) && t.captures == s.captures
    ensures CapturesOk(t)
  {
    forall j | j in t.captures ensures CaptureOk(t, j, t.captures[j]) {
      QuietKeepsCapture(s, t, j, s.captures[j]);
    }
  }

  lemma SentinelCaptureOk(s: State, a: Action)
    requires Inv(s) && a.SentinelArrives? && Enabled(s, a) && TicketsInv(Do(s, a))
    ensures CaptureOk(Do(s, a), a.id, Do(s, a).captures[a.id])
  {
    var c := s.captures[a.id];
    assert CaptureOk(s, a.id, c);
    assert s.log[c.start..|s.log|] == s.log[c.start..];
  }

  lemma SentinelKeepsInv(s: State, a: Action)
    requires Inv(s) && a.SentinelArrives? && Enabled(s, a)
    ensures Inv(Do(s, a))
  {
    var s' := Do(s, a);
    assert CaptureOk(s, a.id, s.captures[a.id]);
    ReservingKeepsTickets(s, s', false, SentinelOf(a.id));
    SentinelCaptureOk(s, a);
    QuietKeepsCaptures(s, s', a.id);
    QuietKeepsTasks(s, s');
    QuietConverges(s, s');
  }

  lemma StopKeepsInv(s: State, a: Action)
    requires Inv(s) && a.StopCapture? && Enabled(s, a)
    ensures Inv(Do(s, a))
  {
    var s' := Do(s, a);
    assert CaptureOk(s, a.id, s.captures[a.id]);
    QuietKeepsCaptures(s, s', a.id);
    QuietKeepsTasks(s, s');
    QuietConverges(s, s');
  }

  predicate CompleteAction(a: Action) {
    a.CompleteLive? || a.CompleteCaller? || a.CompleteSentinel? || a.CompleteOther?
  }

  lemma CompleteKeepsCaptures(s: State, a: Action)
    requires Inv(s) && CompleteAction(a) && Enabled(s, a)
    ensures TicketsInv(Do(s, a)) && CapturesOk(Do(s, a))
  {
    AllCapturesStay(s, Do(s, a));
  }

  lemma CompleteKeepsTasks(s: State, a: Action)
    requires Inv(s) && CompleteAction(a) && Enabled(s, a) && TicketsInv(Do(s, a))
    ensures TasksOk(Do(s, a))
  {
    var s' := Do(s, a);
    forall t | t in s'.q.tasks && s'.q.tasks[t].Ready? ensures TaskOk(s', t, s'.q.tasks[t].run) {
      if s.q.tasks[t].Ready? {
        assert TaskOk(s, t, s.q.tasks[t].run);
      } else if a.CompleteCaller? || a.CompleteSentinel? {
        assert CaptureOk(s, a.id, s.captures[a.id]);
      }
    }
  }

  lemma CompleteKeepsInv(s: State, a: Action)
    requires Inv(s) && CompleteAction(a) && Enabled(s, a)
    ensures Inv(Do(s, a))
  {
    CompleteKeepsCaptures(s, a);
    CompleteKeepsTasks(s, a);
    QuietConverges(s, Do(s, a));
  }

  /** Running a live event's own task settles its key only when it is the last one dispatched. */
  lemma DrainLive(s: State, i: nat, k: Key)
    requires Inv(s) && i < |s.log| && s.liveTicket[i] == s.q.serving
    requires forall j :: 0 <= j < |s.log| && s.log[j].key == k ==> s.liveTicket[j] <= s.q.serving
    requires k !in s.foreign || s.log[i].key == k
    ensures Lookup(Write(s.store, s.log[i]), k) == Expected(s, k)
  {
    if s.log[i].key == k {
      var tail := s.log[i + 1..];
      forall j | 0 <= j < |tail| ensures tail[j].key != k {
        assert s.log[i + 1 + j] == tail[j];
      }
      NoneWithoutTheKey(tail, k);
      assert s.log == s.log[..i + 1] + tail;
      LastValueOfConcat(s.log[..i + 1], tail, k);
      assert s.log[..i + 1][..i] == s.log[..i];
    } else {
      assert Settled(s, k);
      assert Converged(s, k);
    }
  }

  /** With no event on `k` from `end` on, the last one in a range up to `end` is the last of all. */
  lemma LastInRange(log: seq<Event>, start: nat, end: nat, k: Key)
    requires start <= end <= |log| && forall j :: end <= j < |log| ==> log[j].key != k
    ensures LastValue(log[start..end], k).Some? ==> LastValue(log, k) == LastValue(log[start..end], k)
  {
    NoneWithoutTheKey(log[end..], k);
    LastValueOfConcat(log[..end], log[end..], k);
    LastValueOfConcat(log[..start], log[start..end], k);
    assert log[..start] + log[start..end] == log[..end];
    assert log[..end] + log[end..] == log;
  }

  /** Running a late snapshot at its sentinel's ticket leaves every settled key at the value
      dispatched last: all it holds was dispatched before the ticket, in order, up to it. */
  lemma DrainLate(s: State, id: nat, k: Key)
    requires Inv(s) && id in s.captures && s.captures[id].sentinel.Some?
    requires s.captures[id].sentinel.value.ticket == s.q.serving && Settled(s, k)
    requires k !in s.foreign
    ensures Lookup(WriteAll(s.store, s.captures[id].sentinel.value.events), k) == Expected(s, k)
  {
    var c := s.captures[id];
    var z := c.sentinel.value;
    assert CaptureOk(s, id, c);
    var seen := s.log[c.start..z.end];
    LastInRange(s.log, c.start, z.end, k);
    WriteAllKeepsTheLast(s.store, z.events, k);
    OfCollectionKeepsTheLast(seen, k, c.collection);
    assert Converged(s, k);
  }

  /** Running a timely snapshot at the caller's earlier ticket touches only keys whose own
      live writes are still to come. */
  lemma DrainTimely(s: State, id: nat, k: Key)
    requires Inv(s) && id in s.captures && s.captures[id].sentinel.Some?
    requires s.captures[id].callerTicket == s.q.serving && Settled(s, k)
    requires k !in s.foreign
    ensures Lookup(WriteAll(s.store, s.captures[id].sentinel.value.events), k) == Expected(s, k)
  {
    var c := s.captures[id];
    var z := c.sentinel.value;
    assert CaptureOk(s, id, c);
    var seen := s.log[c.start..z.end];
    forall j | 0 <= j < |seen| ensures seen[j].key != k {
      assert s.log[c.start + j] == seen[j];
    }
    NoneWithoutTheKey(seen, k);
    WriteAllKeepsTheLast(s.store, z.events, k);
    OfCollectionKeepsTheLast(seen, k, c.collection);
    assert Converged(s, k);
  }

  lemma DrainLiveConverges(s: State, i: nat, k: Key)
    requires Inv(s) && Enabled(s, Drain) && s.role[s.q.serving] == LiveOf(i)
    ensures Converged(Do(s, Drain), k)
  {
    assert TaskOk(s, s.q.serving, s.q.tasks[s.q.serving].run);
    if Settled(Do(s, Drain), k) && k !in Do(s, Drain).foreign {
      assert WriteAll(s.store, [s.log[i]]) == Write(WriteAll(s.store, []), s.log[i]);
      assert k in s.foreign ==> k in KeysOf([s.log[i]]);
      DrainLive(s, i, k);
    }
  }

  lemma DrainConverges(s: State, k: Key)
    requires Inv(s) && Enabled(s, Drain)
    ensures Converged(Do(s, Drain), k)
  {
    var t := s.q.serving;
    var run := s.q.tasks[t].run;
    assert TaskOk(s, t, run);
    if s.role[t].LiveOf? {
      DrainLiveConverges(s, s.role[t].i, k);
    } else if Settled(Do(s, Drain), k) && k !in Do(s, Drain).foreign {
      OtherTicketsSettle(s, k);
      assert Converged(s, k);
      match s.role[t] {
        case CallerOf(id) => if run != [] { DrainTimely(s, id, k); }
        case SentinelOf(id) => if run != [] { DrainLate(s, id, k); }
        case Other => DrainOther(s, run, k);
      }
    }
  }

  lemma OtherTicketsSettle(s: State, k: Key)
    requires Inv(s) && Enabled(s, Drain) && !s.role[s.q.serving].LiveOf? && Settled(Do(s, Drain), k)
    ensures Settled(s, k)
  {
    forall i | 0 <= i < |s.log| && s.log[i].key == k ensures s.liveTicket[i] < s.q.serving {
      assert s.role[s.liveTicket[i]] == LiveOf(i) && s.liveTicket[i] <= s.q.serving;
    }
  }

  lemma DrainOther(s: State, run: seq<Event>, k: Key)
    requires Inv(s) && Settled(s, k) && k !in s.foreign && k !in KeysOf(run)
    ensures Lookup(WriteAll(s.store, run), k) == Expected(s, k)
  {
    forall i | 0 <= i < |run| ensures run[i].key != k {
      assert run[i] in run;
    }
    NoneWithoutTheKey(run, k);
    WriteAllKeepsTheLast(s.store, run, k);
    assert Converged(s, k);
  }

  /** Whatever the head task is, running it leaves its last write of each key, and the others'
      alone. */
  lemma DrainStaysSerial(s: State, k: Key)
    requires Inv(s) && Enabled(s, Drain)
    ensures Serial(Do(s, Drain), k)
  {
    var t := s.q.serving;
    var run := s.q.tasks[t].run;
    WriteAllKeepsTheLast(s.store, run, k);
    LastValueOfConcat(Written(s.runs), run, k);
    assert (s.runs + [run])[..|s.runs|] == s.runs;
    if Settled(Do(s, Drain), k) && LastValue(run, k).None? {
      assert TaskOk(s, t, run);
      forall i | 0 <= i < |s.log| && s.log[i].key == k ensures s.liveTicket[i] < t {
        assert s.liveTicket[i] <= t;
        assert s.role[s.liveTicket[i]] == LiveOf(i);
        assert [s.log[i]][|[s.log[i]]| - 1].key == k;
      }
      assert Settled(s, k) && Serial(s, k);
    }
  }

  lemma DrainKeepsInv(s: State)
    requires Inv(s) && Enabled(s, Drain)
    ensures Inv(Do(s, Drain))
  {
    var s' := Do(s, Drain);
    forall id | id in s'.captures ensures CaptureOk(s', id, s'.captures[id]) {
      assert CaptureOk(s, id, s.captures[id]);
    }
    forall u | u in s'.q.tasks && s'.q.tasks[u].Ready? ensures TaskOk(s', u, s'.q.tasks[u].run) {
      assert TaskOk(s, u, s.q.tasks[u].run);
    }
    forall k { DrainConverges(s, k); }
    forall k { DrainStaysSerial(s, k); }
  }

  lemma {:induction false} RunKeepsInv(tr: seq<State>, acts: seq<Action>, n: nat)
    requires IsRun(tr, acts) && n < |tr|
    ensures Inv(tr[n])
  {
    if n > 0 {
      RunKeepsInv(tr, acts, n - 1);
      assert StepAt(tr, acts, n - 1);
      match acts[n - 1]
      case Dispatch(e, early) => DispatchKeepsInv(tr[n - 1], e, early);
      case Drain => DrainKeepsInv(tr[n - 1]);
      case CompleteLive(_) => CompleteKeepsInv(tr[n - 1], acts[n - 1]);
      case CompleteCaller(_, _) => CompleteKeepsInv(tr[n - 1], acts[n - 1]);
      case CompleteSentinel(_, _) => CompleteKeepsInv(tr[n - 1], acts[n - 1]);
      case CompleteOther(_, _) => CompleteKeepsInv(tr[n - 1], acts[n - 1]);
      case ReserveOther(_) => OtherKeepsInv(tr[n - 1], acts[n - 1]);
      case StartRecovery(_, _) => StartKeepsInv(tr[n - 1], acts[n - 1]);
      case SentinelArrives(_) => SentinelKeepsInv(tr[n - 1], acts[n - 1]);
      case StopCapture(_) => StopKeepsInv(tr[n - 1], acts[n - 1]);
    }
  }

  // ----- the results -----------------------------------------------------------------

  /** When the queue has drained, every key holds the value written under the last ticket among
      all writers of it: live events, snapshots, explicit fetches and local writes. The early
      unordered writes leave no trace. */
  lemma LastTicketWins(tr: seq<State>, acts: seq<Action>, n: nat, k: Key)
    requires IsRun(tr, acts) && n < |tr| && tr[n].q.serving == tr[n].q.next
    ensures Lookup(tr[n].store, k) == LastWritten(tr[n], k)
  {
    RunKeepsInv(tr, acts, n);
    assert Serial(tr[n], k);
  }

  /** And it is the value dispatched last, whatever mixture of live events, early unordered
      writes, timely and late snapshots produced it, and however long any continuation slept,
      unless an explicit fetch or a local write came under a later ticket than the key's last
      live event. */
  lemma LastDispatchedWins(tr: seq<State>, acts: seq<Action>, n: nat, k: Key)
    requires IsRun(tr, acts) && n < |tr| && tr[n].q.serving == tr[n].q.next && k !in tr[n].foreign
    ensures Lookup(tr[n].store, k) == Expected(tr[n], k)
  {
    RunKeepsInv(tr, acts, n);
    assert Converged(tr[n], k);
  }

  /** Before that, both already hold for every key whose own events have been written. */
  lemma SettledKeyHoldsTheLast(tr: seq<State>, acts: seq<Action>, n: nat, k: Key)
    requires IsRun(tr, acts) && n < |tr|
    requires forall i :: 0 <= i < |tr[n].log| && tr[n].log[i].key == k ==>
               i < |tr[n].liveTicket| && tr[n].liveTicket[i] < tr[n].q.serving
    ensures Lookup(tr[n].store, k) == LastWritten(tr[n], k)
    ensures k !in tr[n].foreign ==> Lookup(tr[n].store, k) == Expected(tr[n], k)
  {
    RunKeepsInv(tr, acts, n);
    assert Settled(tr[n], k);
    assert Converged(tr[n], k) && Serial(tr[n], k);
  }

  /** A late snapshot's ticket comes before every event dispatched after its sentinel and
      after every event dispatched before it, so the snapshot is never replayed over a newer one. */
  lemma SnapshotPrecedesLaterEvents(tr: seq<State>, acts: seq<Action>, n: nat, id: nat, i: nat)
    requires IsRun(tr, acts) && n < |tr| && id in tr[n].captures && tr[n].captures[id].sentinel.Some?
    requires i < |tr[n].log|
    ensures i < |tr[n].liveTicket|
    ensures tr[n].captures[id].sentinel.value.ticket < tr[n].liveTicket[i] <==> tr[n].captures[id].sentinel.value.end <= i
  {
    RunKeepsInv(tr, acts, n);
    assert CaptureOk(tr[n], id, tr[n].captures[id]);
    assert tr[n].role[tr[n].liveTicket[i]] == LiveOf(i);
  }

  // ----- what each ticket writes --------------------------------------------------------------

  /** The run a ticket was completed with, while it waits and once it is retired. */
  predicate Carries(s: State, t: nat, run: seq<Event>) {
    if t < s.q.serving then t < |s.runs| && s.runs[t] == run
    else t in s.q.tasks && s.q.tasks[t].Ready? && s.q.tasks[t].run == run
  }

  lemma StepCarries(s: State, a: Action, t: nat, run: seq<Event>)
    requires TicketsInv(s) && |s.runs| == s.q.serving && Enabled(s, a) && Carries(s, t, run)
    ensures Carries(Do(s, a), t, run)
  {
  }

  lemma {:induction false} OneRunPerTicket(tr: seq<State>, acts: seq<Action>, n: nat)
    requires IsRun(tr, acts) && n < |tr|
    ensures |tr[n].runs| == tr[n].q.serving
  {
    if n > 0 {
      assert StepAt(tr, acts, n - 1);
      OneRunPerTicket(tr, acts, n - 1);
    }
  }

  lemma {:induction false} CompletedRunsAreKept(tr: seq<State>, acts: seq<Action>, m: nat, n: nat, t: nat, run: seq<Event>)
    requires IsRun(tr, acts) && m <= n < |tr| && Carries(tr[m], t, run)
    ensures Carries(tr[n], t, run)
    decreases n
  {
    if n > m {
      CompletedRunsAreKept(tr, acts, m, n - 1, t, run);
      assert StepAt(tr, acts, n - 1);
      RunKeepsInv(tr, acts, n - 1);
      OneRunPerTicket(tr, acts, n - 1);
      StepCarries(tr[n - 1], acts[n - 1], t, run);
    }
  }

  lemma CompletionCarries(tr: seq<State>, acts: seq<Action>, m: nat)
    requires IsRun(tr, acts) && m < |acts|
    ensures acts[m].CompleteLive? ==>
              acts[m].i < |tr[m].log| && acts[m].i < |tr[m].liveTicket| &&
              Carries(tr[m + 1], tr[m].liveTicket[acts[m].i], [tr[m].log[acts[m].i]])
    ensures acts[m].CompleteSentinel? ==>
              acts[m].id in tr[m].captures && tr[m].captures[acts[m].id].sentinel.Some? &&
              var z := tr[m].captures[acts[m].id].sentinel.value;
              Carries(tr[m + 1], z.ticket, if acts[m].withEvents then z.events else [])
    ensures acts[m].CompleteCaller? ==>
              acts[m].id in tr[m].captures && (acts[m].withEvents ==> tr[m].captures[acts[m].id].sentinel.Some?) &&
              Carries(tr[m + 1], tr[m].captures[acts[m].id].callerTicket,
                      if acts[m].withEvents then tr[m].captures[acts[m].id].sentinel.value.events else [])
    ensures acts[m].CompleteOther? ==> Carries(tr[m + 1], acts[m].t, acts[m].writes)
  {
    assert StepAt(tr, acts, m);
    RunKeepsInv(tr, acts, m);
    OneRunPerTicket(tr, acts, m);
  }

  /** Each retired ticket wrote what it was completed with: a live event's its event, and a
      snapshot's, late under its sentinel's ticket or timely under its caller's, every event of
      its collection dispatched between its start and its sentinel, in order. */
  lemma EveryTicketWritesItsOwn(tr: seq<State>, acts: seq<Action>, m: nat, n: nat)
    requires IsRun(tr, acts) && m < |acts| && m < n < |tr| && StepAt(tr, acts, m)
    ensures acts[m].CompleteLive? ==>
              Carries(tr[n], tr[m].liveTicket[acts[m].i], [tr[m].log[acts[m].i]])
    ensures acts[m].CompleteSentinel? || acts[m].CompleteCaller? ==>
              var c := tr[m].captures[acts[m].id];
              var t := if acts[m].CompleteSentinel? then c.sentinel.value.ticket else c.callerTicket;
              if acts[m].withEvents
              then
                && c.sentinel.Some? && c.start <= c.sentinel.value.end <= |tr[m].log|
                && Carries(tr[n], t, OfCollection(tr[m].log[c.start..c.sentinel.value.end], c.collection))
              else Carries(tr[n], t, [])
    ensures acts[m].CompleteOther? ==> Carries(tr[n], acts[m].t, acts[m].writes)
  {
    CompletionCarries(tr, acts, m);
    match acts[m] {
      case CompleteLive(i) => CompletedRunsAreKept(tr, acts, m + 1, n, tr[m].liveTicket[i], [tr[m].log[i]]);
      case CompleteSentinel(id, withEvents) =>
        SnapshotEvents(tr, acts, m, id);
        var z := tr[m].captures[id].sentinel.value;
        CompletedRunsAreKept(tr, acts, m + 1, n, z.ticket, if withEvents then z.events else []);
      case CompleteCaller(id, withEvents) =>
        if withEvents { SnapshotEvents(tr, acts, m, id); }
        var c := tr[m].captures[id];
        CompletedRunsAreKept(tr, acts, m + 1, n, c.callerTicket, if withEvents then c.sentinel.value.events else []);
      case CompleteOther(t, writes) => CompletedRunsAreKept(tr, acts, m + 1, n, t, writes);
      case _ =>
    }
  }

  lemma SnapshotEvents(tr: seq<State>, acts: seq<Action>, m: nat, id: nat)
    requires IsRun(tr, acts) && m < |tr| && id in tr[m].captures && tr[m].captures[id].sentinel.Some?
    ensures var c := tr[m].captures[id];
            && c.start <= c.sentinel.value.end <= |tr[m].log|
            && c.sentinel.value.events == OfCollection(tr[m].log[c.start..c.sentinel.value.end], c.collection)
  {
    RunKeepsInv(tr, acts, m);
    assert CaptureOk(tr[m], id, tr[m].captures[id]);
  }

  /** An event whose marker failed is visible at once, before its ordered write. */
  lemma EarlyWritesAreVisible(tr: seq<State>, acts: seq<Action>, n: nat)
    requires IsRun(tr, acts) && n < |acts| && acts[n].Dispatch?
    ensures acts[n].early ==> Lookup(tr[n + 1].store, acts[n].e.key) == Some(acts[n].e.value)
    ensures !acts[n].early ==> tr[n + 1].store == tr[n].store
    ensures tr[n + 1].log == tr[n].log + [acts[n].e]
  {
    assert StepAt(tr, acts, n);
  }

  /** A stopped capture keeps what it has: no later event or sentinel reaches it. */
  lemma {:induction false} StoppedCapturesSeeNothing(tr: seq<State>, acts: seq<Action>, m: nat, n: nat)
    requires IsRun(tr, acts) && m < n < |tr| && acts[m].StopCapture? && acts[m].id in tr[m].captures
    ensures acts[m].id in tr[n].captures && tr[n].captures[acts[m].id].finished
    ensures tr[n].captures[acts[m].id].captured == tr[m].captures[acts[m].id].captured
    ensures tr[n].captures[acts[m].id].sentinel == tr[m].captures[acts[m].id].sentinel
    decreases n
  {
    assert StepAt(tr, acts, n - 1);
    if n > m + 1 {
      StoppedCapturesSeeNothing(tr, acts, m, n - 1);
    }
  }

  predicate EndsCapture(a: Action, id: nat) {
    a == StopCapture(id) || a == SentinelArrives(id)
  }

  /** A capture goes on collecting from its start until its sentinel or a stop. */
  lemma {:induction false} CapturesEndByStopOrSentinel(tr: seq<State>, acts: seq<Action>, n: nat, id: nat)
    requires IsRun(tr, acts) && n < |tr| && id in tr[n].captures
    ensures tr[n].captures[id].finished ==> exists i :: 0 <= i < n && EndsCapture(acts[i], id)
  {
    if n > 0 {
      assert StepAt(tr, acts, n - 1);
      if !EndsCapture(acts[n - 1], id) && id in tr[n - 1].captures {
        CapturesEndByStopOrSentinel(tr, acts, n - 1, id);
      }
    }
  }

  // ----- the live flags ------------------------------------------------------------------------

  predicate FlagOk(s: State, t: nat) {
    t in s.q.tasks && t in s.role ==>
      match s.role[t]
      case LiveOf(_) => s.q.tasks[t].blocksEarlier
      case Other => true
      case _ => !s.q.tasks[t].blocksEarlier
  }

  lemma StepKeepsFlags(s: State, a: Action, t: nat)
    requires TicketsInv(s) && Enabled(s, a) && FlagOk(s, t)
    ensures FlagOk(Do(s, a), t)
  {
  }

  /** An earlier caller waits for live events and never for a recovery. */
  lemma {:induction false} OnlyEventsHoldCallersBack(tr: seq<State>, acts: seq<Action>, n: nat, t: nat)
    requires IsRun(tr, acts) && n < |tr| && t in tr[n].q.tasks
    ensures t in tr[n].role
    ensures tr[n].role[t].LiveOf? ==> ReadyOrLiveAt(tr[n].q.tasks, t)
    ensures tr[n].role[t].CallerOf? || tr[n].role[t].SentinelOf? ==>
              (ReadyOrLiveAt(tr[n].q.tasks, t) <==> ReadyAt(tr[n].q.tasks, t))
  {
    RunKeepsInv(tr, acts, n);
    RunKeepsFlags(tr, acts, n, t);
  }

  lemma {:induction false} RunKeepsFlags(tr: seq<State>, acts: seq<Action>, n: nat, t: nat)
    requires IsRun(tr, acts) && n < |tr|
    ensures FlagOk(tr[n], t)
  {
    if n > 0 {
      assert StepAt(tr, acts, n - 1);
      RunKeepsInv(tr, acts, n - 1);
      RunKeepsFlags(tr, acts, n - 1, t);
      StepKeepsFlags(tr[n - 1], acts[n - 1], t);
    }
  }

  // ----- the keys that others wrote last --------------------------------------------------------

  /** Ticket `t`, an explicit fetch's or a local write's, wrote the key, and no live event did
      after it. */
  ghost predicate ForeignAt(s: State, t: nat, k: Key) {
    && t < |s.runs| && t in s.role && s.role[t].Other? && k in KeysOf(s.runs[t])
    && forall u: nat :: t < u < |s.runs| && u in s.role && s.role[u].LiveOf? ==> k !in KeysOf(s.runs[u])
  }

  lemma OthersKeepForeign(s: State, a: Action, k: Key)
    requires TicketsInv(s) && |s.runs| == s.q.serving && Enabled(s, a) && !a.Drain?
    requires k in s.foreign <==> exists t: nat :: ForeignAt(s, t, k)
    ensures k in Do(s, a).foreign <==> exists t: nat :: ForeignAt(Do(s, a), t, k)
  {
    assert Do(s, a).runs == s.runs && Do(s, a).foreign == s.foreign;
    assert forall t :: 0 <= t < s.q.serving ==> t in s.role && t in Do(s, a).role && s.role[t] == Do(s, a).role[t];
    forall t: nat ensures ForeignAt(s, t, k) <==> ForeignAt(Do(s, a), t, k) {}
  }

  lemma DrainKeepsForeign(s: State, k: Key)
    requires TicketsInv(s) && |s.runs| == s.q.serving && Enabled(s, Drain)
    requires k in s.foreign <==> exists t: nat :: ForeignAt(s, t, k)
    ensures k in Do(s, Drain).foreign <==> exists t: nat :: ForeignAt(Do(s, Drain), t, k)
  {
    var s', head := Do(s, Drain), s.q.serving;
    var run := s.q.tasks[head].run;
    var byLive := s.role[head].LiveOf? && k in KeysOf(run);
    forall t: nat | t < head ensures ForeignAt(s', t, k) <==> ForeignAt(s, t, k) && !byLive {
      assert forall u: nat :: u < head ==> s'.runs[u] == s.runs[u];
      assert s'.runs[head] == run;
    }
    assert ForeignAt(s', head, k) <==> s.role[head].Other? && k in KeysOf(run);
    assert forall t: nat :: ForeignAt(s', t, k) ==> t <= head;
  }

  /** The keys excepted from the rule that the last dispatch wins are exactly those whose last
      ordered write, live events and others alone considered, was another's. */
  lemma {:induction false} ForeignIsExact(tr: seq<State>, acts: seq<Action>, n: nat, k: Key)
    requires IsRun(tr, acts) && n < |tr|
    ensures k in tr[n].foreign <==> exists t: nat :: ForeignAt(tr[n], t, k)
  {
    if n > 0 {
      assert StepAt(tr, acts, n - 1);
      RunKeepsInv(tr, acts, n - 1);
      OneRunPerTicket(tr, acts, n - 1);
      ForeignIsExact(tr, acts, n - 1, k);
      if acts[n - 1].Drain? { DrainKeepsForeign(tr[n - 1], k); }
      else { OthersKeepForeign(tr[n - 1], acts[n - 1], k); }
    }
  }
}
