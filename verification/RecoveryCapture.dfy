/** The life of recovery captures: the sentinel race, the timed-out attempt handing its
    capture to a background continuation, supersession, timers and shutdown.

    One step is one mutex-held section, one channel operation or one queue call. */
module RecoveryCapture {
  import opened Wrappers
  import opened Sequencer

  // ----- the capture object ------------------------------------------------------------

  datatype Notice<E> = SyncComplete(recovery: bool, name: nat) | Mutation(collections: set<nat>, event: E)

  datatype Completion<E> = Completion(events: seq<E>, ticket: nat)

  predicate IsSentinel<E>(n: Notice<E>, collection: nat) {
    n.SyncComplete? && n.recovery && n.name == collection
  }

  /** The event handler's effect on what has been captured so far. */
  function Captured<E>(notices: seq<Notice<E>>, collection: nat): seq<E> {
    if notices == [] then []
    else
      var rest := Captured(notices[..|notices| - 1], collection);
      var n := notices[|notices| - 1];
      if n.Mutation? && collection in n.collections then rest + [n.event] else rest
  }

  lemma CapturedAppend<E>(notices: seq<Notice<E>>, n: Notice<E>, collection: nat)
    ensures Captured(notices + [n], collection) ==
            Captured(notices, collection) + (if n.Mutation? && collection in n.collections then [n.event] else [])
  {
    assert (notices + [n])[..|notices|] == notices;
  }

  /** `completed` is a channel with room for one completion. */
  class Capture<E(0)> {
    const collection: nat
    const persist: PersistenceSequencer<seq<E>>
    ghost var seen: seq<Notice<E>>   // notices handled before the capture finished
    var captured: seq<E>
    var finished: bool
    var completed: Option<Completion<E>>

    ghost predicate Valid()
      reads this
    {
      && captured == Captured(seen, collection)
      && (forall i :: 0 <= i < |seen| ==> !IsSentinel(seen[i], collection))
      && (completed.Some? ==> finished && completed.value.events == captured)
    }

    constructor (collection: nat, persist: PersistenceSequencer<seq<E>>)
      ensures Valid() && !finished && completed.None? && seen == []
      ensures this.collection == collection && this.persist == persist
    {
      this.collection := collection;
      this.persist := persist;
      seen, captured, finished, completed := [], [], false, None;
    }

    /** Runs inside the dispatcher: it never blocks, because the channel is empty whenever it sends. */
    method Handle(n: Notice<E>)
      requires Valid()
      modifies this, persist
      ensures Valid()
      ensures old(finished) ==> unchanged(this) && unchanged(persist)
      ensures !old(finished) && n != SyncComplete(true, collection) ==>
                !finished && seen == old(seen) + [n] && completed == old(completed) && unchanged(persist)
      ensures !old(finished) && n == SyncComplete(true, collection) ==>
                && finished && seen == old(seen)
                && old(completed).None?
                && completed == Some(Completion(Captured(seen, collection), old(persist.next)))
                && persist.Abs() == ReserveTask(old(persist.Abs()), false)
    {
      if finished { return; }
      if n.SyncComplete? && n.recovery && n.name == collection {
        Fire();
      } else {
        Note(n);
      }
    }

    /** The sentinel: finish, reserve a ticket and hand over what was captured. */
    method Fire()
      requires Valid() && !finished
      modifies this, persist
      ensures Valid() && finished && seen == old(seen) && old(completed).None?
      ensures completed == Some(Completion(Captured(seen, collection), old(persist.next)))
      ensures persist.Abs() == ReserveTask(old(persist.Abs()), false)
    {
      finished := true;
      var ticket := persist.Reserve(false);
      completed := Some(Completion(captured, ticket));
    }

    /** Any other event: keep it if it belongs to the collection. */
    method Note(n: Notice<E>)
      requires Valid() && !finished && !IsSentinel(n, collection)
      modifies this
      ensures Valid() && !finished && seen == old(seen) + [n] && completed == old(completed)
    {
      CapturedAppend(seen, n, collection);
      if n.Mutation? && collection in n.collections {
        captured := captured + [n.event];
      }
      seen := seen + [n];
    }

    /** `stop`: finish, then take back a completion nobody consumed and release its ticket. */
    method Stop()
      requires Valid()
      requires completed.Some? ==> Completable(persist.Abs(), completed.value.ticket)
      modifies this, persist
      ensures Valid() && finished && completed.None? && seen == old(seen)
      ensures old(completed).None? ==> unchanged(persist)
      ensures old(completed).Some? ==>
                persist.Abs() == CompleteTask(old(persist.Abs()), old(completed).value.ticket, [])
    {
      finished := true;
      if completed.Some? {
        var ticket := completed.value.ticket;
        completed := None;
        var _, _, _ := persist.Complete(ticket, [], true);
      }
    }
  }

  // ----- every interleaving ------------------------------------------------------------

  /** What the owner of a capture does once `stop` has returned. */
  datatype After =
    | Quit
    | Release(ticket: nat)                  // timely answer: its ticket carries no work
    | Unregister(late: Option<nat>)         // continuation: leave the registry, then persist

  datatype Phase =
    | Requesting
    | Waiting
    | Adopting                              // timed out, handing the capture over
    | Continuing                            // background continuation
    | Stopping(after: After)
    | Draining(after: After)                // finished is set; about to poll the channel
    | Releasing(ticket: nat, after: After)  // stop took back a completion
    | Unregistering(late: Option<nat>)
    | Closing(ticket: nat, withEvents: bool)
    | Ended

  datatype Cap = Cap(
    collection: nat,
    generation: int,
    finished: bool,
    channel: Option<nat>,        // the ticket of the completion in the channel
    fired: Option<nat>,          // the ticket its sentinel reserved
    completions: nat,            // how often that ticket was completed
    phase: Phase,
    closes: nat,                 // how often its superseded channel was closed
    supersededBy: Option<Attempt>)

  /** The attempt that closed a superseded channel. */
  datatype Attempt = Attempt(collection: nat, generation: int)

  datatype State = State(
    q: Queue<bool>,
    caps: map<nat, Cap>,
    late: map<nat, nat>,         // registered continuation of each collection
    closing: bool,
    stopOpen: bool,              // the shared stop channel exists and is open
    stopCloses: nat)

  /** A step of the owning goroutine that touches only its own capture. */
  datatype Move =
    | RequestFailed
    | RequestSent
    | Receive
    | TimeOut
    | SeeSuperseded
    | SeeStopOrTimer
    | SetFinished
    | Poll

  datatype Action =
    | Own(id: nat, move: Move)
    | Adopt(id: nat)
    | ReleaseOwn(id: nat)
    | LeaveRegistry(id: nat)
    | CompleteLast(id: nat)
    | NewCapture(id: nat, collection: nat, generation: int)
    | SentinelArrives(id: nat)
    | CloseApp
    | OtherReserve(live: bool)
    | OtherComplete(ticket: nat)
    | Retire

  function Init(): State {
    State(Queue(0, 0, false, map[]), map[], map[], false, false, 0)
  }

  /** Steps taken by the goroutine that owns capture `id`. */
  predicate OwnStep(a: Action, id: nat) {
    (a.Own? || a.Adopt? || a.ReleaseOwn? || a.LeaveRegistry? || a.CompleteLast?) && a.id == id
  }

  predicate CanMove(c: Cap, m: Move) {
    match m
    case RequestFailed => c.phase.Requesting?
    case RequestSent => c.phase.Requesting?
    case Receive => (c.phase.Waiting? || c.phase.Continuing?) && c.channel.Some?
    case TimeOut => c.phase.Waiting?
    case SeeSuperseded => c.phase.Continuing? && c.closes > 0
    case SeeStopOrTimer => c.phase.Continuing?
    case SetFinished => c.phase.Stopping?
    case Poll => c.phase.Draining?
  }

  ghost predicate Enabled(s: State, a: Action) {
    match a
    case Own(id, m) => id in s.caps && CanMove(s.caps[id], m)
    case Adopt(id) => id in s.caps && s.caps[id].phase.Adopting?
    case ReleaseOwn(id) =>
      id in s.caps && s.caps[id].phase.Releasing? && Completable(s.q, s.caps[id].phase.ticket)
    case LeaveRegistry(id) => id in s.caps && s.caps[id].phase.Unregistering?
    case CompleteLast(id) =>
      id in s.caps && s.caps[id].phase.Closing? && Completable(s.q, s.caps[id].phase.ticket)
    case NewCapture(id, _, _) => id !in s.caps
    case SentinelArrives(id) => id in s.caps
    case CloseApp => true
    case OtherReserve(_) => true
    case OtherComplete(t) => Completable(s.q, t) && forall id :: id in s.caps ==> s.caps[id].fired != Some(t)
    case Retire => ReadyAt(s.q.tasks, s.q.serving)
  }

  function Next(after: After): Phase {
    match after
    case Quit => Ended
    case Release(t) => Closing(t, false)
    case Unregister(late) => Unregistering(late)
  }

  function Moved(c: Cap, m: Move): Cap
    requires CanMove(c, m)
  {
    match m
    case RequestFailed => c.(phase := Stopping(Quit))
    case RequestSent => c.(phase := Waiting)
    case Receive =>
      c.(channel := None,
         phase := Stopping(if c.phase.Waiting? then Release(c.channel.value) else Unregister(c.channel)))
    case TimeOut => c.(phase := Adopting)
    case SeeSuperseded => c.(phase := Stopping(Quit))
    case SeeStopOrTimer => c.(phase := Stopping(Unregister(None)))
    case SetFinished => c.(finished := true, phase := Draining(c.phase.after))
    case Poll =>
      if c.channel.Some? then c.(channel := None, phase := Releasing(c.channel.value, c.phase.after))
      else c.(phase := Next(c.phase.after))
  }

  function With(s: State, id: nat, c: Cap): State {
    s.(caps := s.caps[id := c])
  }

  /** The continuation currently registered for the collection of `id`. */
  function Existing(s: State, id: nat): Option<nat>
    requires id in s.caps
  {
    var k := s.caps[id].collection;
    if k in s.late && s.late[k] in s.caps then Some(s.late[k]) else None
  }

  predicate Refused(s: State, id: nat)
    requires id in s.caps
  {
    s.closing || (Existing(s, id).Some? && s.caps[Existing(s, id).value].generation >= s.caps[id].generation)
  }

  function SupersededCap(previous: Cap, newer: Cap): Cap {
    previous.(closes := previous.closes + 1, supersededBy := Some(Attempt(newer.collection, newer.generation)))
  }

  function DoAdopt(s: State, id: nat): State
    requires id in s.caps
  {
    var c := s.caps[id];
    if Refused(s, id) then With(s, id, c.(phase := Stopping(Quit)))
    else
      var caps := if Existing(s, id).Some?
                  then s.caps[Existing(s, id).value := SupersededCap(s.caps[Existing(s, id).value], c)]
                  else s.caps;
      s.(caps := caps[id := c.(phase := Continuing)], late := s.late[c.collection := id], stopOpen := true)
  }

  ghost function Do(s: State, a: Action): State
    requires Enabled(s, a)
  {
    match a
    case Own(id, m) => With(s, id, Moved(s.caps[id], m))
    case Adopt(id) => DoAdopt(s, id)
    case ReleaseOwn(id) =>
      var c := s.caps[id];
      With(s.(q := CompleteTask(s.q, c.phase.ticket, false)), id,
           c.(completions := c.completions + 1, phase := Next(c.phase.after)))
    case LeaveRegistry(id) =>
      var c := s.caps[id];
      var late := if c.collection in s.late && s.late[c.collection] == id then s.late - {c.collection} else s.late;
      With(s.(late := late), id,
           c.(phase := if c.phase.late.Some? then Closing(c.phase.late.value, true) else Ended))
    case CompleteLast(id) =>
      var c := s.caps[id];
      With(s.(q := CompleteTask(s.q, c.phase.ticket, c.phase.withEvents)), id,
           c.(completions := c.completions + 1, phase := Ended))
    case NewCapture(id, collection, generation) =>
      With(s, id, Cap(collection, generation, false, None, None, 0, Requesting, 0, None))
    case SentinelArrives(id) =>
      var c := s.caps[id];
      if c.finished then s
      else With(s.(q := ReserveTask(s.q, false)), id,
                c.(finished := true, channel := Some(s.q.next), fired := Some(s.q.next)))
    case CloseApp =>
      s.(closing := true, stopOpen := false, stopCloses := s.stopCloses + if s.stopOpen then 1 else 0)
    case OtherReserve(live) => s.(q := ReserveTask(s.q, live))
    case OtherComplete(t) => s.(q := CompleteTask(s.q, t, true))
    case Retire => s.(q := Advance(s.q))
  }

  ghost predicate StepAt(tr: seq<State>, acts: seq<Action>, i: nat)
    requires |tr| == |acts| + 1 && i < |acts|
  {
    Enabled(tr[i], acts[i]) && tr[i + 1] == Do(tr[i], acts[i])
  }

  ghost predicate IsRun(tr: seq<State>, acts: seq<Action>) {
    && |tr| == |acts| + 1
    && tr[0] == Init()
    && forall i: nat :: i < |acts| ==> StepAt(tr, acts, i)
  }

  // ----- what every step keeps ------------------------------------------------------------

  function Carried(after: After): Option<nat> {
    match after
    case Quit => None
    case Release(t) => Some(t)
    case Unregister(late) => late
  }

  /** The ticket the owning goroutine still has to complete. */
  function Held(phase: Phase): Option<nat> {
    match phase
    case Stopping(after) => Carried(after)
    case Draining(after) => Carried(after)
    case Releasing(t, _) => Some(t)
    case Unregistering(late) => late
    case Closing(t, _) => Some(t)
    case _ => None
  }

  /** A finished capture that has polled its channel can never be given another completion. */
  predicate Polled(phase: Phase) {
    phase.Releasing? || phase.Unregistering? || phase.Closing? || phase.Ended?
  }

  predicate MayBeRegistered(phase: Phase) {
    || phase.Continuing?
    || ((phase.Stopping? || phase.Draining? || phase.Releasing?) && phase.after.Unregister?)
    || phase.Unregistering?
  }

  /** Until it is completed, the ticket is in exactly one place: the channel or its owner. */
  predicate CustodyOk(q: Queue<bool>, c: Cap) {
    && (c.channel.None? || Held(c.phase).None?)
    && (c.phase.Releasing? ==> Carried(c.phase.after).None?)
    && (c.channel.Some? ==> c.fired == c.channel)
    && (Held(c.phase).Some? ==> c.fired == Held(c.phase))
    && (c.fired.None? ==> c.completions == 0)
    && (c.fired.Some? ==>
          && c.finished
          && c.fired.value < q.next
          && c.completions == (if c.channel.None? && Held(c.phase).None? then 1 else 0)
          && (c.completions == 0 <==> Completable(q, c.fired.value)))
  }

  predicate CapOk(q: Queue<bool>, c: Cap) {
    && (c.phase.Draining? || Polled(c.phase) ==> c.finished)
    && (Polled(c.phase) ==> c.channel.None?)
    && (c.phase.Requesting? || c.phase.Waiting? || c.phase.Adopting? ==> c.closes == 0)
    && c.closes <= 1
    && (c.closes == 1 <==> c.supersededBy.Some?)
    && (c.supersededBy.Some? ==>
          c.supersededBy.value.collection == c.collection && c.supersededBy.value.generation > c.generation)
    && CustodyOk(q, c)
  }

  ghost predicate Distinct(caps: map<nat, Cap>) {
    forall i, j :: i in caps && j in caps && i != j && caps[i].fired.Some? ==> caps[i].fired != caps[j].fired
  }

  ghost predicate RegistryOk(s: State) {
    && (forall k :: k in s.late ==>
          && s.late[k] in s.caps
          && s.caps[s.late[k]].collection == k
          && s.caps[s.late[k]].closes == 0
          && MayBeRegistered(s.caps[s.late[k]].phase))
    && (forall id :: id in s.caps && s.caps[id].phase.Continuing? && s.caps[id].closes == 0 ==>
          s.caps[id].collection in s.late && s.late[s.caps[id].collection] == id)
    && (s.stopOpen ==> !s.closing && s.stopCloses == 0)
    && s.stopCloses <= (if s.closing then 1 else 0)
  }

  ghost predicate Inv(s: State) {
    && s.q.serving <= s.q.next
    && WellKeyed(s.q)
    && (forall id :: id in s.caps ==> CapOk(s.q, s.caps[id]))
    && Distinct(s.caps)
    && RegistryOk(s)
  }

  /** The queue moved without touching any ticket a capture other than `id` fired. */
  ghost predicate SparesOthers(s: State, q': Queue<bool>, id: nat) {
    && s.q.next <= q'.next
    && q'.serving <= q'.next
    && WellKeyed(q')
    && forall j, t :: j in s.caps && j != id && s.caps[j].fired == Some(t) ==> (Completable(q', t) <==> Completable(s.q, t))
  }

  /** One capture changes and keeps its identity; everything else in the registry stays. */
  ghost predicate OneChange(s: State, s': State, id: nat, c': Cap) {
    && id in s.caps
    && s' == s.(q := s'.q, late := s'.late, caps := s.caps[id := c'])
    && SparesOthers(s, s'.q, id) && CapOk(s'.q, c')
    && (c'.fired == s.caps[id].fired || c'.fired == Some(s.q.next))
    && c'.collection == s.caps[id].collection && c'.generation == s.caps[id].generation
    && c'.closes == s.caps[id].closes && c'.supersededBy == s.caps[id].supersededBy
  }

  predicate RegistryFollows(s: State, s': State, id: nat, c': Cap)
    requires id in s.caps
  {
    && (c'.phase.Continuing? ==> s.caps[id].phase.Continuing?)
    && (|| s'.late == s.late
        || (!c'.phase.Continuing? && c'.collection in s.late && s.late[c'.collection] == id
            && s'.late == s.late - {c'.collection}))
    && (c'.collection in s'.late && s'.late[c'.collection] == id ==> MayBeRegistered(c'.phase))
  }

  lemma OneChangeKeepsCaps(s: State, s': State, id: nat, c': Cap)
    requires Inv(s) && OneChange(s, s', id, c')
    ensures (forall j :: j in s'.caps ==> CapOk(s'.q, s'.caps[j])) && Distinct(s'.caps)
  {
    forall j | j in s'.caps ensures CapOk(s'.q, s'.caps[j]) {
      if j != id { assert CapOk(s.q, s.caps[j]); }
    }
    forall i, j | i in s'.caps && j in s'.caps && i != j && s'.caps[i].fired.Some?
      ensures s'.caps[i].fired != s'.caps[j].fired
    {
      assert CapOk(s.q, s.caps[i]) && CapOk(s.q, s.caps[j]);
    }
  }

  lemma OneChangeKeepsRegistry(s: State, s': State, id: nat, c': Cap)
    requires Inv(s) && OneChange(s, s', id, c') && RegistryFollows(s, s', id, c')
    ensures RegistryOk(s')
  {
  }

  lemma OneCaptureChanges(s: State, s': State, id: nat, c': Cap)
    requires Inv(s) && OneChange(s, s', id, c') && RegistryFollows(s, s', id, c')
    ensures Inv(s')
  {
    OneChangeKeepsCaps(s, s', id, c');
    OneChangeKeepsRegistry(s, s', id, c');
  }

  /** Steps the owning goroutine still has to take, at most. */
  function Remaining(phase: Phase): nat {
    match phase
    case Requesting => 9
    case Waiting => 8
    case Adopting => 7
    case Continuing => 6
    case Stopping(_) => 5
    case Draining(_) => 4
    case Releasing(_, _) => 3
    case Unregistering(_) => 2
    case Closing(_, _) => 1
    case Ended => 0
  }

  lemma MoveKeepsCap(q: Queue<bool>, c: Cap, m: Move)
    requires CapOk(q, c) && CanMove(c, m)
    ensures CapOk(q, Moved(c, m))
    ensures MayBeRegistered(c.phase) ==> MayBeRegistered(Moved(c, m).phase) || m.SeeSuperseded?
  {
  }

  lemma MoveAdvances(c: Cap, m: Move)
    requires CanMove(c, m)
    ensures Remaining(Moved(c, m).phase) < Remaining(c.phase)
  {
  }

  lemma MoveKeepsInv(s: State, id: nat, m: Move)
    requires Inv(s) && Enabled(s, Own(id, m))
    ensures Inv(Do(s, Own(id, m)))
  {
    MoveKeepsCap(s.q, s.caps[id], m);
    OneCaptureChanges(s, Do(s, Own(id, m)), id, Moved(s.caps[id], m));
  }

  lemma LeaveKeepsInv(s: State, id: nat)
    requires Inv(s) && Enabled(s, LeaveRegistry(id))
    ensures Inv(Do(s, LeaveRegistry(id)))
  {
    var s' := Do(s, LeaveRegistry(id));
    assert CapOk(s.q, s.caps[id]);
    OneCaptureChanges(s, s', id, s'.caps[id]);
  }

  lemma ReleaseKeepsCap(q: Queue<bool>, c: Cap)
    requires CapOk(q, c) && c.phase.Releasing? && Completable(q, c.phase.ticket)
    ensures CapOk(CompleteTask(q, c.phase.ticket, false), c.(completions := c.completions + 1, phase := Next(c.phase.after)))
  {
  }

  lemma LastKeepsCap(q: Queue<bool>, c: Cap, work: bool)
    requires CapOk(q, c) && c.phase.Closing? && Completable(q, c.phase.ticket)
    ensures CapOk(CompleteTask(q, c.phase.ticket, work), c.(completions := c.completions + 1, phase := Ended))
  {
  }

  lemma CompletionSpares(s: State, id: nat, work: bool)
    requires Inv(s) && id in s.caps && (s.caps[id].phase.Releasing? || s.caps[id].phase.Closing?)
    requires Completable(s.q, s.caps[id].phase.ticket)
    ensures SparesOthers(s, CompleteTask(s.q, s.caps[id].phase.ticket, work), id)
  {
    var c := s.caps[id];
    assert CapOk(s.q, c);
    var q' := CompleteTask(s.q, c.phase.ticket, work);
    assert c.fired == Some(c.phase.ticket);
    forall j, t | j in s.caps && j != id && s.caps[j].fired == Some(t)
      ensures Completable(q', t) <==> Completable(s.q, t)
    {
      assert t != c.phase.ticket;
    }
  }

  lemma CompletionKeepsInv(s: State, a: Action, id: nat)
    requires Inv(s) && OwnStep(a, id) && Enabled(s, a)
    requires a.ReleaseOwn? || a.CompleteLast?
    ensures Inv(Do(s, a))
  {
    var c := s.caps[id];
    assert CapOk(s.q, c);
    if a.ReleaseOwn? {
      ReleaseKeepsCap(s.q, c);
      CompletionSpares(s, id, false);
    } else {
      LastKeepsCap(s.q, c, c.phase.withEvents);
      CompletionSpares(s, id, c.phase.withEvents);
    }
    OneCaptureChanges(s, Do(s, a), id, Do(s, a).caps[id]);
  }

  lemma SentinelKeepsInv(s: State, a: Action)
    requires Inv(s) && a.SentinelArrives? && Enabled(s, a)
    ensures Inv(Do(s, a))
  {
    var c := s.caps[a.id];
    assert CapOk(s.q, c);
    if !c.finished {
      var s' := Do(s, a);
      forall j, t | j in s.caps && j != a.id && s.caps[j].fired == Some(t)
        ensures Completable(s'.q, t) <==> Completable(s.q, t)
      {
        assert CapOk(s.q, s.caps[j]);
      }
      OneCaptureChanges(s, s', a.id, s'.caps[a.id]);
    }
  }

  lemma RefusalKeepsInv(s: State, id: nat)
    requires Inv(s) && Enabled(s, Adopt(id)) && Refused(s, id)
    ensures Inv(DoAdopt(s, id))
  {
    assert CapOk(s.q, s.caps[id]);
    OneCaptureChanges(s, DoAdopt(s, id), id, s.caps[id].(phase := Stopping(Quit)));
  }

  lemma AdoptionKeepsCap(s: State, id: nat, j: nat)
    requires Inv(s) && Enabled(s, Adopt(id)) && !Refused(s, id) && j in DoAdopt(s, id).caps
    ensures j in s.caps && CapOk(s.q, DoAdopt(s, id).caps[j]) && DoAdopt(s, id).caps[j].fired == s.caps[j].fired
  {
    assert j in s.caps && CapOk(s.q, s.caps[j]);
  }

  lemma AdoptionKeepsCaps(s: State, id: nat)
    requires Inv(s) && Enabled(s, Adopt(id)) && !Refused(s, id)
    ensures forall j :: j in DoAdopt(s, id).caps ==> CapOk(s.q, DoAdopt(s, id).caps[j])
    ensures Distinct(DoAdopt(s, id).caps)
  {
    forall j | j in DoAdopt(s, id).caps
      ensures j in s.caps && CapOk(s.q, DoAdopt(s, id).caps[j]) && DoAdopt(s, id).caps[j].fired == s.caps[j].fired
    {
      AdoptionKeepsCap(s, id, j);
    }
  }

  lemma AdoptionKeepsRegistry(s: State, id: nat)
    requires Inv(s) && Enabled(s, Adopt(id)) && !Refused(s, id)
    ensures RegistryOk(DoAdopt(s, id))
  {
    var s' := DoAdopt(s, id);
    var k0 := s.caps[id].collection;
    forall k | k in s'.late
      ensures && s'.late[k] in s'.caps && s'.caps[s'.late[k]].collection == k && s'.caps[s'.late[k]].closes == 0
              && MayBeRegistered(s'.caps[s'.late[k]].phase)
    {
      assert CapOk(s.q, s.caps[id]);
      assert k != k0 ==> s.late[k] != id && Existing(s, id) != Some(s.late[k]);
    }
    forall j | j in s'.caps && s'.caps[j].phase.Continuing? && s'.caps[j].closes == 0
      ensures s'.caps[j].collection in s'.late && s'.late[s'.caps[j].collection] == j
    {
      assert j != id ==> Existing(s, id) != Some(j);
    }
  }

  lemma AdoptKeepsInv(s: State, id: nat)
    requires Inv(s) && Enabled(s, Adopt(id))
    ensures Inv(Do(s, Adopt(id)))
  {
    if Refused(s, id) {
      RefusalKeepsInv(s, id);
    } else {
      AdoptionKeepsCaps(s, id);
      AdoptionKeepsRegistry(s, id);
    }
  }

  predicate OutsideStep(a: Action) {
    a.NewCapture? || a.CloseApp? || a.OtherReserve? || a.OtherComplete? || a.Retire?
  }

  lemma OutsideStepKeepsCaps(s: State, a: Action)
    requires Inv(s) && Enabled(s, a) && OutsideStep(a)
    ensures forall j :: j in Do(s, a).caps ==> CapOk(Do(s, a).q, Do(s, a).caps[j])
  {
    var s' := Do(s, a);
    forall j | j in s'.caps ensures CapOk(s'.q, s'.caps[j]) {
      if j in s.caps { assert CapOk(s.q, s.caps[j]); }
    }
  }

  lemma OutsideStepKeepsRegistry(s: State, a: Action)
    requires RegistryOk(s) && Enabled(s, a) && OutsideStep(a)
    ensures RegistryOk(Do(s, a))
  {
    assert forall j :: j in s.caps ==> Do(s, a).caps[j] == s.caps[j];
  }

  lemma OutsideStepKeepsInv(s: State, a: Action)
    requires Inv(s) && Enabled(s, a) && OutsideStep(a)
    ensures Inv(Do(s, a))
  {
    OutsideStepKeepsCaps(s, a);
    OutsideStepKeepsRegistry(s, a);
  }

  lemma StepKeepsInv(s: State, a: Action)
    requires Inv(s) && Enabled(s, a)
    ensures Inv(Do(s, a))
  {
    match a
    case Own(id, m) => MoveKeepsInv(s, id, m);
    case Adopt(id) => AdoptKeepsInv(s, id);
    case ReleaseOwn(id) => CompletionKeepsInv(s, a, id);
    case LeaveRegistry(id) => LeaveKeepsInv(s, id);
    case CompleteLast(id) => CompletionKeepsInv(s, a, id);
    case SentinelArrives(_) => SentinelKeepsInv(s, a);
    case _ => OutsideStepKeepsInv(s, a);
  }

  lemma {:induction false} RunKeepsInv(tr: seq<State>, acts: seq<Action>, n: nat)
    requires IsRun(tr, acts) && n < |tr|
    ensures Inv(tr[n])
  {
    if n > 0 {
      RunKeepsInv(tr, acts, n - 1);
      assert StepAt(tr, acts, n - 1);
      StepKeepsInv(tr[n - 1], acts[n - 1]);
    }
  }

  // ----- the results ------------------------------------------------------------------------

  /** Whatever the sentinel, the timeout, supersession, the timer and shutdown do, a sentinel's
      ticket is completed at most once, and exactly once when its owner has ended. A capture
      whose owner has ended can never reserve another. */
  lemma SentinelTicketCompletedExactlyOnce(tr: seq<State>, acts: seq<Action>, n: nat, id: nat)
    requires IsRun(tr, acts) && n < |tr| && id in tr[n].caps
    ensures tr[n].caps[id].completions <= if tr[n].caps[id].fired.Some? then 1 else 0
    ensures tr[n].caps[id].phase.Ended? ==>
              && tr[n].caps[id].completions == (if tr[n].caps[id].fired.Some? then 1 else 0)
              && (tr[n].caps[id].fired.Some? ==> !Completable(tr[n].q, tr[n].caps[id].fired.value))
              && tr[n].caps[id].channel.None?
              && Do(tr[n], SentinelArrives(id)) == tr[n]
  {
    RunKeepsInv(tr, acts, n);
    assert CapOk(tr[n].q, tr[n].caps[id]);
  }

  /** Whenever the code completes a capture's ticket, that ticket is reserved and unready: the
      queue never sees a second completion or a retired ticket. */
  lemma CompletionsAreAlwaysLegal(tr: seq<State>, acts: seq<Action>, n: nat, id: nat)
    requires IsRun(tr, acts) && n < |tr| && id in tr[n].caps
    ensures tr[n].caps[id].phase.Releasing? || tr[n].caps[id].phase.Closing? ==>
              Completable(tr[n].q, tr[n].caps[id].phase.ticket) && tr[n].caps[id].fired == Some(tr[n].caps[id].phase.ticket)
  {
    RunKeepsInv(tr, acts, n);
    assert CapOk(tr[n].q, tr[n].caps[id]);
  }

  /** At most one continuation of a collection is waiting unsuperseded; a superseded channel
      is closed once, by an attempt of the same collection with a strictly higher generation;
      the shared stop channel is closed at most once. */
  lemma OneContinuationPerCollection(tr: seq<State>, acts: seq<Action>, n: nat, i: nat, j: nat)
    requires IsRun(tr, acts) && n < |tr| && i in tr[n].caps && j in tr[n].caps
    ensures (&& tr[n].caps[i].phase.Continuing? && tr[n].caps[i].closes == 0
             && tr[n].caps[j].phase.Continuing? && tr[n].caps[j].closes == 0
             && tr[n].caps[i].collection == tr[n].caps[j].collection)
            ==> i == j
    ensures tr[n].caps[i].closes <= 1 && tr[n].stopCloses <= 1
    ensures tr[n].caps[i].closes == 1 ==>
              && tr[n].caps[i].supersededBy.Some?
              && tr[n].caps[i].supersededBy.value.collection == tr[n].caps[i].collection
              && tr[n].caps[i].supersededBy.value.generation > tr[n].caps[i].generation
    ensures tr[n].caps[i].phase.Ended? ==> forall k :: k in tr[n].late ==> tr[n].late[k] != i
  {
    RunKeepsInv(tr, acts, n);
    assert CapOk(tr[n].q, tr[n].caps[i]);
  }

  function OwnNext(s: State, id: nat): Action
    requires id in s.caps
  {
    match s.caps[id].phase
    case Requesting => Own(id, RequestSent)
    case Waiting => Own(id, TimeOut)
    case Adopting => Adopt(id)
    case Continuing => Own(id, SeeStopOrTimer)
    case Stopping(_) => Own(id, SetFinished)
    case Draining(_) => Own(id, Poll)
    case Releasing(_, _) => ReleaseOwn(id)
    case Unregistering(_) => LeaveRegistry(id)
    case Closing(_, _) => CompleteLast(id)
    case Ended => Retire
  }

  lemma OwnStepAdvances(s: State, a: Action, id: nat)
    requires Enabled(s, a) && OwnStep(a, id)
    ensures id in Do(s, a).caps && Remaining(Do(s, a).caps[id].phase) < Remaining(s.caps[id].phase)
  {
    if a.Own? { MoveAdvances(s.caps[id], a.move); }
  }

  lemma OthersLeaveThePhase(s: State, a: Action, id: nat)
    requires Enabled(s, a) && !OwnStep(a, id) && id in s.caps
    ensures id in Do(s, a).caps && Do(s, a).caps[id].phase == s.caps[id].phase
  {
  }

  /** No owner can get stuck or run on: until it has ended it always has a step of its own,
      each own step brings it closer to its end, and nobody else's step changes its phase. */
  lemma OwnersAlwaysEnd(tr: seq<State>, acts: seq<Action>, n: nat, id: nat)
    requires IsRun(tr, acts) && n < |tr| && id in tr[n].caps
    ensures !tr[n].caps[id].phase.Ended? ==> OwnStep(OwnNext(tr[n], id), id) && Enabled(tr[n], OwnNext(tr[n], id))
    ensures n < |acts| && OwnStep(acts[n], id) ==>
              id in tr[n + 1].caps && Remaining(tr[n + 1].caps[id].phase) < Remaining(tr[n].caps[id].phase)
    ensures n < |acts| && !OwnStep(acts[n], id) ==>
              id in tr[n + 1].caps && tr[n + 1].caps[id].phase == tr[n].caps[id].phase
  {
    RunKeepsInv(tr, acts, n);
    CompletionsAreAlwaysLegal(tr, acts, n, id);
    if n < |acts| {
      assert StepAt(tr, acts, n);
      if OwnStep(acts[n], id) { OwnStepAdvances(tr[n], acts[n], id); }
      else { OthersLeaveThePhase(tr[n], acts[n], id); }
    }
  }

  // ----- what an attempt leads to -----------------------------------------------------------

  lemma CapturesStay(s: State, a: Action, id: nat)
    requires Enabled(s, a)
    ensures id in s.caps ==>
              id in Do(s, a).caps && Do(s, a).caps[id].collection == s.caps[id].collection &&
              Do(s, a).caps[id].generation == s.caps[id].generation
  {
  }

  lemma NewCaptureOf(s: State, a: Action)
    requires Enabled(s, a) && a.NewCapture?
    ensures a.id in Do(s, a).caps && Do(s, a).caps[a.id].collection == a.collection && Do(s, a).caps[a.id].generation == a.generation
  {
  }

  /** Every capture belongs to the attempt that made it. */
  lemma {:induction false} CapturesKeepTheirAttempt(tr: seq<State>, acts: seq<Action>, m: nat, n: nat)
    requires IsRun(tr, acts) && m < n < |tr| && acts[m].NewCapture?
    ensures var id := acts[m].id;
            id in tr[n].caps && tr[n].caps[id].collection == acts[m].collection && tr[n].caps[id].generation == acts[m].generation
    decreases n
  {
    assert StepAt(tr, acts, n - 1);
    if n > m + 1 {
      CapturesKeepTheirAttempt(tr, acts, m, n - 1);
      CapturesStay(tr[n - 1], acts[n - 1], acts[m].id);
    } else {
      NewCaptureOf(tr[m], acts[m]);
    }
  }

  /** A sentinel that finds its capture unfinished reserves the next ticket, as no live one, and
      hands it over in the channel. */
  lemma SentinelsAreNeverLost(tr: seq<State>, acts: seq<Action>, n: nat)
    requires IsRun(tr, acts) && n < |acts| && acts[n].SentinelArrives? && acts[n].id in tr[n].caps
    requires !tr[n].caps[acts[n].id].finished
    ensures var t := tr[n].q.next;
            && acts[n].id in tr[n + 1].caps && tr[n + 1].caps[acts[n].id].channel == Some(t)
            && t in tr[n + 1].q.tasks && tr[n + 1].q.tasks[t] == Reserved(false) && tr[n + 1].q.next == t + 1
  {
    assert StepAt(tr, acts, n);
  }

  /** An attempt that timed out is offered for adoption, and is adopted if and only if the app is
      not closing and no continuation of the collection of the same or a higher generation is
      registered. The one it takes over from is told so, and nobody else is. */
  lemma TimedOutAttemptsAreAdopted(tr: seq<State>, acts: seq<Action>, n: nat, id: nat)
    requires IsRun(tr, acts) && n < |acts| && id in tr[n].caps && id in tr[n + 1].caps
    ensures acts[n] == Own(id, TimeOut) ==> tr[n + 1].caps[id].phase == Adopting
    ensures acts[n] == Adopt(id) ==>
              var k := tr[n].caps[id].collection;
              var taken := !tr[n].closing &&
                           (k in tr[n].late ==> tr[n].late[k] in tr[n].caps && tr[n].caps[tr[n].late[k]].generation < tr[n].caps[id].generation);
              && (tr[n + 1].caps[id].phase == Continuing <==> taken)
              && (k in tr[n + 1].late && tr[n + 1].late[k] == id <==> taken)
              && (!taken ==> tr[n + 1].caps[id].phase == Stopping(Quit) && tr[n + 1].late == tr[n].late)
              && forall j :: j in tr[n].caps && j != id ==>
                   j in tr[n + 1].caps &&
                   (tr[n + 1].caps[j].closes > tr[n].caps[j].closes <==> taken && k in tr[n].late && tr[n].late[k] == j)
  {
    assert StepAt(tr, acts, n);
    RunKeepsInv(tr, acts, n);
    if acts[n] == Adopt(id) {
      AdoptionIsExact(tr[n], id);
    }
  }

  lemma AdoptionIsExact(s: State, id: nat)
    requires RegistryOk(s) && id in s.caps && s.caps[id].phase.Adopting?
    ensures var k := s.caps[id].collection;
            var t := DoAdopt(s, id);
            var taken := !s.closing && (k in s.late ==> s.caps[s.late[k]].generation < s.caps[id].generation);
            && (t.caps[id].phase == Continuing <==> taken)
            && (k in t.late && t.late[k] == id <==> taken)
            && (!taken ==> t.caps[id].phase == Stopping(Quit) && t.late == s.late)
            && forall j :: j in s.caps && j != id ==>
                 j in t.caps && (t.caps[j].closes > s.caps[j].closes <==> taken && k in s.late && s.late[k] == j)
  {
    var k := s.caps[id].collection;
    if k in s.late { assert s.late[k] in s.caps && MayBeRegistered(s.caps[s.late[k]].phase); }
  }

  /** Once the app is closing it stays so, and nothing is adopted any more. */
  lemma {:induction false} ClosingIsFinal(tr: seq<State>, acts: seq<Action>, m: nat, n: nat)
    requires IsRun(tr, acts) && m < n < |tr| && acts[m].CloseApp?
    ensures tr[n].closing && !tr[n].stopOpen
    decreases n
  {
    assert StepAt(tr, acts, n - 1);
    RunKeepsInv(tr, acts, n);
    if n > m + 1 {
      ClosingIsFinal(tr, acts, m, n - 1);
    }
  }

  /** The queue is shared: other writers reserve with their own live flag, complete with their own
      work and retire in order, and no capture notices. */
  lemma OthersShareTheQueue(tr: seq<State>, acts: seq<Action>, n: nat)
    requires IsRun(tr, acts) && n < |acts|
    ensures acts[n].OtherReserve? ==>
              var t := tr[n].q.next;
              t in tr[n + 1].q.tasks && tr[n + 1].q.tasks[t] == Reserved(acts[n].live) && tr[n + 1].q.next == t + 1
    ensures acts[n].OtherComplete? ==>
              var t := acts[n].ticket;
              t in tr[n + 1].q.tasks && tr[n + 1].q.tasks[t].Ready? && tr[n + 1].q.tasks[t].run
    ensures acts[n].Retire? ==> tr[n + 1].q.serving == tr[n].q.serving + 1 && tr[n].q.serving !in tr[n + 1].q.tasks
    ensures acts[n].OtherReserve? || acts[n].OtherComplete? || acts[n].Retire? ==>
              tr[n + 1].caps == tr[n].caps && tr[n + 1].late == tr[n].late && tr[n + 1].closing == tr[n].closing
  {
    assert StepAt(tr, acts, n);
  }

  // ----- what the tickets are completed with ------------------------------------------------

  /** The owner holds a completion its background continuation received. */
  predicate HoldsLateWork(phase: Phase) {
    match phase
    case Stopping(after) => after.Unregister? && after.late.Some?
    case Draining(after) => after.Unregister? && after.late.Some?
    case Releasing(_, after) => after.Unregister? && after.late.Some?
    case Unregistering(late) => late.Some?
    case Closing(_, withEvents) => withEvents
    case _ => false
  }

  predicate ReceivesLate(s: State, a: Action, id: nat) {
    a == Own(id, Receive) && id in s.caps && s.caps[id].phase.Continuing?
  }

  lemma StepKeepsLateWork(s: State, a: Action, id: nat)
    requires Enabled(s, a) && id in s.caps && id in Do(s, a).caps && !Do(s, a).caps[id].phase.Ended?
    ensures !s.caps[id].phase.Ended?
    ensures HoldsLateWork(Do(s, a).caps[id].phase) <==> HoldsLateWork(s.caps[id].phase) || ReceivesLate(s, a, id)
  {
    if !OwnStep(a, id) {
      OthersLeaveThePhase(s, a, id);
    }
  }

  lemma NewCapturesHoldNothing(s: State, a: Action, id: nat)
    requires Enabled(s, a) && id !in s.caps && id in Do(s, a).caps
    ensures Do(s, a).caps[id].phase.Requesting?
  {
  }

  lemma {:induction false} LateWorkIsWhatWasReceivedLate(tr: seq<State>, acts: seq<Action>, n: nat, id: nat)
    requires IsRun(tr, acts) && n < |tr| && id in tr[n].caps && !tr[n].caps[id].phase.Ended?
    ensures HoldsLateWork(tr[n].caps[id].phase) <==> exists i :: 0 <= i < n && ReceivesLate(tr[i], acts[i], id)
  {
    if n > 0 {
      assert StepAt(tr, acts, n - 1);
      if id in tr[n - 1].caps {
        StepKeepsLateWork(tr[n - 1], acts[n - 1], id);
        LateWorkIsWhatWasReceivedLate(tr, acts, n - 1, id);
      } else {
        NewCapturesHoldNothing(tr[n - 1], acts[n - 1], id);
        NothingReceivedBefore(tr, acts, n - 1, id);
      }
    }
  }

  lemma {:induction false} NothingReceivedBefore(tr: seq<State>, acts: seq<Action>, n: nat, id: nat)
    requires IsRun(tr, acts) && n < |tr| && id !in tr[n].caps
    ensures forall i :: 0 <= i < n ==> !ReceivesLate(tr[i], acts[i], id)
  {
    if n > 0 {
      assert StepAt(tr, acts, n - 1);
      CapturesStay(tr[n - 1], acts[n - 1], id);
      NothingReceivedBefore(tr, acts, n - 1, id);
    }
  }

  /** A sentinel's ticket is completed with its snapshot's events if and only if a background
      continuation received them; a timely answer's ticket and a released one carry no work. */
  lemma OnlyLateSnapshotsAreWritten(tr: seq<State>, acts: seq<Action>, n: nat, id: nat)
    requires IsRun(tr, acts) && n < |acts| && (acts[n] == CompleteLast(id) || acts[n] == ReleaseOwn(id))
    ensures id in tr[n].caps && tr[n].caps[id].fired.Some?
    ensures var t := tr[n].caps[id].fired.value;
            t in tr[n + 1].q.tasks && tr[n + 1].q.tasks[t].Ready? &&
            (tr[n + 1].q.tasks[t].run <==>
               acts[n].CompleteLast? && exists i :: 0 <= i < n && ReceivesLate(tr[i], acts[i], id))
  {
    assert StepAt(tr, acts, n);
    CompletionsAreAlwaysLegal(tr, acts, n, id);
    LateWorkIsWhatWasReceivedLate(tr, acts, n, id);
  }

  // ----- why an owner stops ------------------------------------------------------------------

  /** What an owner that has stopped waiting is going to do. */
  function Goal(phase: Phase): Option<After> {
    match phase
    case Stopping(after) => Some(after)
    case Draining(after) => Some(after)
    case Releasing(_, after) => Some(after)
    case Unregistering(late) => Some(Unregister(late))
    case _ => None
  }

  /** The step that decides it. */
  predicate Decides(s: State, a: Action, id: nat, after: After) {
    id in s.caps &&
    match after
    case Quit => a == Own(id, RequestFailed) || a == Own(id, SeeSuperseded) || a == Adopt(id)
    case Release(t) => a == Own(id, Receive) && s.caps[id].phase.Waiting? && s.caps[id].channel == Some(t)
    case Unregister(None) => a == Own(id, SeeStopOrTimer)
    case Unregister(Some(t)) => a == Own(id, Receive) && s.caps[id].phase.Continuing? && s.caps[id].channel == Some(t)
  }

  lemma StepDecides(s: State, a: Action, id: nat, after: After)
    requires Enabled(s, a) && id in Do(s, a).caps && Goal(Do(s, a).caps[id].phase) == Some(after)
    ensures (id in s.caps && Goal(s.caps[id].phase) == Some(after)) || Decides(s, a, id, after)
  {
    if id !in s.caps {
      NewCapturesHoldNothing(s, a, id);
    } else if !OwnStep(a, id) {
      OthersLeaveThePhase(s, a, id);
    }
  }

  /** An owner gives up only after a failed request, a newer attempt or a refused adoption; leaves
      the registry empty-handed only after the stop or the timer; and else it has received the
      completion it goes on to release or to persist. */
  lemma {:induction false} OwnersStopForACause(tr: seq<State>, acts: seq<Action>, n: nat, id: nat, after: After)
    requires IsRun(tr, acts) && n < |tr| && id in tr[n].caps && Goal(tr[n].caps[id].phase) == Some(after)
    ensures exists i :: 0 <= i < n && Decides(tr[i], acts[i], id, after)
  {
    if n > 0 {
      assert StepAt(tr, acts, n - 1);
      StepDecides(tr[n - 1], acts[n - 1], id, after);
      if !Decides(tr[n - 1], acts[n - 1], id, after) {
        OwnersStopForACause(tr, acts, n - 1, id, after);
      }
    }
  }

  lemma StepKeepsStoppable(s: State, a: Action, id: nat)
    requires Enabled(s, a) && RegistryOk(s)
    requires id in s.caps && s.caps[id].phase.Continuing? ==> Stoppable(s)
    requires id in Do(s, a).caps && Do(s, a).caps[id].phase.Continuing?
    ensures Stoppable(Do(s, a))
  {
  }

  predicate Stoppable(s: State) {
    if s.closing then s.stopCloses == 1 else s.stopOpen
  }

  /** Closing the app reaches every continuation: while the app is open their shared stop channel
      is open, and once it is closing the channel has been closed, once. */
  lemma {:induction false} ContinuationsCanBeStopped(tr: seq<State>, acts: seq<Action>, n: nat, id: nat)
    requires IsRun(tr, acts) && n < |tr| && id in tr[n].caps && tr[n].caps[id].phase.Continuing?
    ensures if tr[n].closing then tr[n].stopCloses == 1 else tr[n].stopOpen
  {
    if n > 0 {
      assert StepAt(tr, acts, n - 1);
      RunKeepsInv(tr, acts, n - 1);
      if id in tr[n - 1].caps && tr[n - 1].caps[id].phase.Continuing? {
        ContinuationsCanBeStopped(tr, acts, n - 1, id);
      }
      StepKeepsStoppable(tr[n - 1], acts[n - 1], id);
    }
  }
}
