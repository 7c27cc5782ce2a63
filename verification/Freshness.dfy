/** Whether a sync may record itself as fresh: two atomic loads against handlers that are
    still persisting. */
module Freshness {
  import opened Wrappers

  /** The two atomics. */
  datatype Limits = Limits(pending: int, failed: bool)

  function Counting(l: Limits): Limits {
    l.(pending := l.pending + 1)
  }

  function Flagging(l: Limits, ok: bool): Limits {
    l.(failed := l.failed || !ok)
  }

  function Uncounting(l: Limits): Limits {
    l.(pending := l.pending - 1)
  }

  class SyncLimits {
    var appStatePending: int
    var persistenceFailed: bool
    ghost var seen: seq<Limits>   // what the two atomics held after each store of this object

    function Abs(): Limits
      reads this
    {
      Limits(appStatePending, persistenceFailed)
    }

    constructor ()
      ensures Abs() == Limits(0, false) && seen == []
    {
      appStatePending, persistenceFailed, seen := 0, false, [];
    }

    method Count()
      modifies this
      ensures Abs() == Counting(old(Abs())) && seen == old(seen) + [Abs()]
    {
      appStatePending := appStatePending + 1;
      seen := seen + [Abs()];
    }

    /** The completion callback of one event: the failure first, then the count. */
    method Report(ok: bool)
      modifies this
      ensures Abs() == Uncounting(Flagging(old(Abs()), ok))
      ensures seen == old(seen) + [Flagging(old(Abs()), ok), Abs()]
    {
      if !ok { persistenceFailed := true; }
      seen := seen + [Abs()];
      appStatePending := appStatePending - 1;
      seen := seen + [Abs()];
    }

    /** Other handlers, between two steps of this one: any change of the count, failures stick. */
    method Others()
      modifies `appStatePending, `persistenceFailed
      ensures old(persistenceFailed) ==> persistenceFailed
    {
      appStatePending := *;
      var failed: bool := *;
      persistenceFailed := persistenceFailed || failed;
    }

    /** Two loads with other handlers in between. */
    method CanRecordFreshness() returns (isFresh: bool)
      modifies `appStatePending, `persistenceFailed
      ensures isFresh <==> old(appStatePending) == 0 && !persistenceFailed
      ensures isFresh ==> !old(persistenceFailed)
    {
      if appStatePending != 0 { return false; }
      Others();
      isFresh := !persistenceFailed;
    }
  }

  /** An app-state event: counted, then its write has a result, then a failure is flagged,
      then it is uncounted. */
  datatype Phase = Counted | Written(ok: bool) | Flagged(ok: bool) | Uncounted(ok: bool)

  datatype Reader = NotReading | PendingWasZero(counted: set<nat>) | Answered(isFresh: bool, counted: set<nat>)

  datatype State = State(
    limits: Limits,
    events: map<nat, Phase>,
    messageFailed: bool,        // some message store, event or handler failed outside the queue
    reader: Reader)

  datatype Action =
    | Count(e: nat)
    | Write(e: nat, ok: bool)
    | Flag(e: nat)
    | Uncount(e: nat)
    | OtherFailure              // a failed message store, or a recovered handler panic
    | LoadPending
    | LoadFailed
    | ReadAgain

  function Init(): State {
    State(Limits(0, false), map[], false, NotReading)
  }

  predicate Enabled(s: State, a: Action) {
    match a
    case Count(e) => e !in s.events
    case Write(e, _) => e in s.events && s.events[e].Counted?
    case Flag(e) => e in s.events && s.events[e].Written?
    case Uncount(e) => e in s.events && s.events[e].Flagged?
    case OtherFailure => true
    case LoadPending => s.reader.NotReading?
    case LoadFailed => s.reader.PendingWasZero?
    case ReadAgain => s.reader.Answered?
  }

  function Do(s: State, a: Action): State
    requires Enabled(s, a)
  {
    match a
    case Count(e) => s.(limits := Counting(s.limits), events := s.events[e := Counted])
    case Write(e, ok) => s.(events := s.events[e := Written(ok)])
    case Flag(e) => s.(limits := Flagging(s.limits, s.events[e].ok), events := s.events[e := Flagged(s.events[e].ok)])
    case Uncount(e) => s.(limits := Uncounting(s.limits), events := s.events[e := Uncounted(s.events[e].ok)])
    case OtherFailure => s.(limits := Flagging(s.limits, false), messageFailed := true)
    case LoadPending =>
      s.(reader := if s.limits.pending == 0 then PendingWasZero(s.events.Keys) else Answered(false, s.events.Keys))
    case LoadFailed => s.(reader := Answered(!s.limits.failed, s.reader.counted))
    case ReadAgain => s.(reader := NotReading)
  }

  ghost predicate IsRun(tr: seq<State>, acts: seq<Action>) {
    && |tr| == |acts| + 1
    && tr[0] == Init()
    && forall i :: 0 <= i < |acts| ==> Enabled(tr[i], acts[i]) && tr[i + 1] == Do(tr[i], acts[i])
  }

  function StillCounted(events: map<nat, Phase>): set<nat> {
    set e | e in events && !events[e].Uncounted?
  }

  predicate EventOk(s: State, e: nat)
    requires e in s.events
  {
    match s.events[e]
    case Flagged(ok) => ok || s.limits.failed
    case Uncounted(ok) => ok || s.limits.failed
    case _ => true
  }

  ghost predicate Inv(s: State) {
    && s.limits.pending == |StillCounted(s.events)|
    && (forall e :: e in s.events ==> EventOk(s, e))
    && (s.messageFailed ==> s.limits.failed)
    && ReaderOk(s)
  }

  ghost predicate ReaderOk(s: State) {
    && (s.reader.PendingWasZero? ==> forall e :: e in s.reader.counted ==> e in s.events && s.events[e].Uncounted?)
    && (s.reader.Answered? && s.reader.isFresh ==>
          forall e :: e in s.reader.counted ==> e in s.events && s.events[e] == Uncounted(true))
  }

  /** `pending` is the number of events still counted. */
  lemma StepKeepsCount(s: State, a: Action)
    requires s.limits.pending == |StillCounted(s.events)| && Enabled(s, a)
    ensures Do(s, a).limits.pending == |StillCounted(Do(s, a).events)|
  {
    var events := Do(s, a).events;
    match a {
      case Count(e) => assert StillCounted(events) == StillCounted(s.events) + {e};
      case Uncount(e) => assert StillCounted(events) == StillCounted(s.events) - {e};
      case _ => assert StillCounted(events) == StillCounted(s.events);
    }
  }

  lemma StepKeepsEvent(s: State, a: Action, e: nat)
    requires Enabled(s, a) && e in Do(s, a).events && (e in s.events ==> EventOk(s, e))
    ensures EventOk(Do(s, a), e)
    ensures e in s.events && s.events[e].Uncounted? ==> Do(s, a).events[e] == s.events[e]
  {
  }

  lemma NothingStillCounted(s: State)
    requires Inv(s) && s.limits.pending == 0
    ensures forall e :: e in s.events ==> s.events[e].Uncounted?
  {
    forall e | e in s.events ensures s.events[e].Uncounted? {
      assert e !in StillCounted(s.events);
    }
  }

  lemma StepKeepsReader(s: State, a: Action)
    requires Inv(s) && Enabled(s, a)
    ensures ReaderOk(Do(s, a))
  {
    if a.LoadPending? && s.limits.pending == 0 { NothingStillCounted(s); }
    if a.LoadFailed? && !s.limits.failed {
      forall e | e in s.reader.counted ensures s.events[e] == Uncounted(true) {
        assert EventOk(s, e);
      }
    }
  }

  lemma StepKeepsInv(s: State, a: Action)
    requires Inv(s) && Enabled(s, a)
    ensures Inv(Do(s, a))
  {
    StepKeepsCount(s, a);
    StepKeepsReader(s, a);
    forall e | e in Do(s, a).events ensures EventOk(Do(s, a), e) {
      StepKeepsEvent(s, a, e);
    }
  }

  lemma {:induction false} RunKeepsInv(tr: seq<State>, acts: seq<Action>, n: nat)
    requires IsRun(tr, acts) && n < |tr|
    ensures Inv(tr[n])
  {
    if n > 0 {
      RunKeepsInv(tr, acts, n - 1);
      StepKeepsInv(tr[n - 1], acts[n - 1]);
    }
  }

  /** When canRecordFreshness answers true, every event counted before its first load has been
      persisted without error, whatever handlers ran between its two loads, and no other
      failure was flagged before its second. */
  lemma FreshMeansPersisted(tr: seq<State>, acts: seq<Action>, m: nat, n: nat, e: nat)
    requires IsRun(tr, acts) && m < n < |acts| && acts[m].LoadPending? && acts[n].LoadFailed?
    requires forall i :: m < i < n ==> !acts[i].LoadPending? && !acts[i].LoadFailed? && !acts[i].ReadAgain?
    requires tr[n + 1].reader.Answered? && tr[n + 1].reader.isFresh && e in tr[m].events
    ensures e in tr[n + 1].events && tr[n + 1].events[e] == Uncounted(true)
    ensures !tr[n].messageFailed
  {
    ReaderHoldsItsSnapshot(tr, acts, m, n);
    RunKeepsInv(tr, acts, n);
    RunKeepsInv(tr, acts, n + 1);
  }

  lemma {:induction false} ReaderHoldsItsSnapshot(tr: seq<State>, acts: seq<Action>, m: nat, n: nat)
    requires IsRun(tr, acts) && m < n < |tr| && acts[m].LoadPending?
    requires forall i :: m < i < n ==> !acts[i].LoadPending? && !acts[i].LoadFailed? && !acts[i].ReadAgain?
    ensures !tr[n].reader.NotReading? && tr[n].reader.counted == tr[m].events.Keys
    decreases n
  {
    if n > m + 1 {
      ReaderHoldsItsSnapshot(tr, acts, m, n - 1);
    }
  }

  /** A failure is on record before its event leaves the count, and stays there. */
  lemma FlagPrecedesUncount(tr: seq<State>, acts: seq<Action>, n: nat, e: nat)
    requires IsRun(tr, acts) && n < |tr| && e in tr[n].events && tr[n].events[e] == Uncounted(false)
    ensures tr[n].limits.failed
  {
    RunKeepsInv(tr, acts, n);
    assert EventOk(tr[n], e);
  }

  /** The answer is no only for a reason: an event still counted at the first load, or a failure
      on record at the second. */
  lemma AnswersAreExact(tr: seq<State>, acts: seq<Action>, n: nat)
    requires IsRun(tr, acts) && n < |acts|
    ensures acts[n].LoadPending? ==>
              tr[n + 1].reader ==
              if exists e :: e in tr[n].events && !tr[n].events[e].Uncounted? then Answered(false, tr[n].events.Keys)
              else PendingWasZero(tr[n].events.Keys)
    ensures acts[n].LoadFailed? ==> tr[n + 1].reader.Answered? && (tr[n + 1].reader.isFresh <==> !tr[n].limits.failed)
  {
    RunKeepsInv(tr, acts, n);
    if acts[n].LoadPending? {
      if tr[n].limits.pending == 0 {
        NothingStillCounted(tr[n]);
      } else {
        var e :| e in StillCounted(tr[n].events);
        assert e in tr[n].events;
      }
      if e :| e in tr[n].events && !tr[n].events[e].Uncounted? {
        assert e in StillCounted(tr[n].events);
      }
    }
  }

  predicate RecordsAFailure(s: State, a: Action) {
    a.OtherFailure? || (a.Flag? && a.e in s.events && s.events[a.e] == Written(false))
  }

  /** And a failure is on record exactly when one was recorded: a failed event, a failed message
      store or a recovered panic. */
  lemma {:induction false} FailuresHaveACause(tr: seq<State>, acts: seq<Action>, n: nat)
    requires IsRun(tr, acts) && n < |tr|
    ensures tr[n].limits.failed <==> exists i :: 0 <= i < n && RecordsAFailure(tr[i], acts[i])
  {
    if n > 0 {
      FailuresHaveACause(tr, acts, n - 1);
    }
  }

  /** The result of an event's write, once there is one. */
  function ResultOf(phase: Phase): Option<bool> {
    match phase
    case Counted => None
    case Written(ok) => Some(ok)
    case Flagged(ok) => Some(ok)
    case Uncounted(ok) => Some(ok)
  }

  /** An event is flagged and uncounted by the result its write had. */
  lemma {:induction false} ResultsAreKept(tr: seq<State>, acts: seq<Action>, n: nat, e: nat, ok: bool)
    requires IsRun(tr, acts) && n < |tr| && e in tr[n].events && ResultOf(tr[n].events[e]) == Some(ok)
    ensures exists i :: 0 <= i < n && acts[i] == Write(e, ok)
  {
    if n > 0 && acts[n - 1] != Write(e, ok) {
      ResultsAreKept(tr, acts, n - 1, e, ok);
    }
  }

  /** Failures outside the queue are remembered as such, and each reading starts anew. */
  lemma {:induction false} OtherFailuresAreKept(tr: seq<State>, acts: seq<Action>, n: nat)
    requires IsRun(tr, acts) && n < |tr|
    ensures tr[n].messageFailed <==> exists i :: 0 <= i < n && acts[i].OtherFailure?
    ensures n > 0 && acts[n - 1].ReadAgain? ==> tr[n].reader.NotReading?
  {
    if n > 0 {
      OtherFailuresAreKept(tr, acts, n - 1);
    }
  }
}
