/** The group-info cache: shared lookups, invalidation while a lookup is in flight, and
    snapshots stored once. A step is one section under the cache mutex. */
module GroupInfo {
  import opened Wrappers

  type Jid = nat

  /** Milliseconds an answer is reused. */
  const REUSE: int := 10 * 60 * 1000
  const FAILURE_REUSE: int := 60 * 1000

  /** A cached answer. `info` names the lookup that produced the snapshot, or None for a
      failed lookup; `open` is whether its ready channel is still open. */
  datatype Answer = Answer(info: Option<nat>, expires: int, stored: bool, open: bool, closes: nat)

  function Fresh(): Answer {
    Answer(None, 0, false, true, 0)
  }

  /** `finish`: close the channel unless it is closed already. */
  function Finish(a: Answer): Answer {
    if a.open then a.(open := false, closes := a.closes + 1) else a
  }

  function Settle(a: Answer, info: Option<nat>, now: int): Answer {
    Finish(a.(info := info, expires := now + if info.Some? then REUSE else FAILURE_REUSE))
  }

  /** What a caller does with the entry it finds under the lock. */
  datatype Consulted = Wait | Use(info: Option<nat>, unstored: bool) | LookUp

  function Consult(found: Option<Answer>, now: int): Consulted {
    if found.Some? && found.value.open then Wait
    else if found.Some? && now < found.value.expires then
      Use(found.value.info, found.value.info.Some? && !found.value.stored)
    else LookUp
  }

  /** Whether storeGroupChat may act on the answer it finds, having been given `info`. */
  predicate Usable(found: Option<Answer>, info: Option<nat>, now: int) {
    found.Some? && !found.value.open && found.value.info == info && now < found.value.expires
  }

  function Get<V>(m: map<Jid, V>, j: Jid): Option<V> {
    if j in m then Some(m[j]) else None
  }

  // ----- the objects -----------------------------------------------------------------------

  class GroupAnswer {
    var info: Option<nat>
    var expires: int
    var stored: bool
    var open: bool
    var closes: nat

    function Value(): Answer
      reads this
    {
      Answer(info, expires, stored, open, closes)
    }

    constructor ()
      ensures Value() == Fresh()
    {
      info, expires, stored, open, closes := None, 0, false, true, 0;
    }

    method FinishNow()
      modifies this
      ensures Value() == Finish(old(Value()))
    {
      if open {
        open := false;
        closes := closes + 1;
      }
    }
  }

  class GroupInfoCache {
    var answers: map<Jid, GroupAnswer>

    ghost predicate Valid()
      reads this
    {
      forall i, j :: i in answers && j in answers && i != j ==> answers[i] != answers[j]
    }

    function Found(j: Jid): Option<Answer>
      reads this, if j in answers then {answers[j]} else {}
    {
      if j in answers then Some(answers[j].Value()) else None
    }

    method Ask(j: Jid, now: int) returns (c: Consulted, mine: GroupAnswer?)
      requires Valid()
      modifies this
      ensures Valid()
      ensures c == Consult(old(Found(j)), now)
      ensures !c.LookUp? ==> mine == null && answers == old(answers)
      ensures c.LookUp? ==> mine != null && fresh(mine) && mine.Value() == Fresh() && answers == old(answers)[j := mine]
    {
      mine := null;
      if j in answers {
        var ans := answers[j];
        if ans.open { return Wait, null; }
        if now < ans.expires { return Use(ans.info, ans.info.Some? && !ans.stored), null; }
      }
      var ans := new GroupAnswer();
      answers := answers[j := ans];
      return LookUp, ans;
    }

    /** The section after a lookup. `kept` is whether its answer is still the current one. */
    method Return(j: Jid, mine: GroupAnswer, info: Option<nat>, cancelled: bool, now: int) returns (kept: bool)
      requires Valid()
      modifies this, mine
      ensures Valid()
      ensures kept <==> old(j in answers && answers[j] == mine) && !cancelled
      ensures kept ==> answers == old(answers) && mine.Value() == Settle(old(mine.Value()), info, now)
      ensures !kept ==> mine.Value() == Finish(old(mine.Value()))
      ensures !kept && old(j in answers && answers[j] == mine) ==> answers == old(answers) - {j}
      ensures old(j !in answers || answers[j] != mine) ==> answers == old(answers)
    {
      if j !in answers || answers[j] != mine {
        mine.FinishNow();
        return false;
      }
      if cancelled {
        answers := answers - {j};
        mine.FinishNow();
        return false;
      }
      mine.info := info;
      mine.expires := now + if info.Some? then REUSE else FAILURE_REUSE;
      mine.FinishNow();
      return true;
    }

    method Forget(j: Jid)
      requires Valid()
      modifies this, if j in answers then {answers[j]} else {}
      ensures Valid() && answers == old(answers) - {j}
      ensures j in old(answers) ==> old(answers)[j].Value() == Finish(old(answers[j].Value()))
    {
      if j in answers {
        answers[j].FinishNow();
        answers := answers - {j};
      }
    }

    method ForgetAll()
      requires Valid()
      modifies this, answers.Values
      ensures Valid() && answers == map[]
      ensures forall j :: j in old(answers) ==> old(answers)[j].Value() == Finish(old(answers[j].Value()))
    {
      var left := answers.Keys;
      while left != {}
        invariant left <= answers.Keys && answers == old(answers)
        invariant forall j :: j in answers ==>
                    answers[j].Value() == if j in left then old(answers[j].Value()) else Finish(old(answers[j].Value()))
        decreases left
      {
        var j :| j in left;
        answers[j].FinishNow();
        left := left - {j};
      }
      answers := map[];
    }
  }

  // ----- every interleaving -----------------------------------------------------------------

  /** A lookup and the entry it fills. `epoch` counts the invalidations of its group before it
      started; `looker` is the call that runs it. */
  datatype Entry = Entry(jid: Jid, epoch: nat, looker: nat, answer: Answer, stores: nat)

  datatype Phase =
    | Checking
    | Waiting(entry: nat)
    | Fetching(entry: nat)
    | Given(info: Option<nat>)    // cachedGroupInfo returned this
    | Stored(info: Option<nat>)   // storeGroupChat returned, having named the chat from this
    | Failed

  datatype Call = Call(jid: Jid, storing: bool, cancelled: bool, phase: Phase)

  datatype State = State(
    now: int,
    forgotAll: nat,
    forgot: map<Jid, nat>,
    answers: map<Jid, nat>,     // current entry of each group
    entries: map<nat, Entry>,
    calls: map<nat, Call>)

  datatype Action =
    | NewCall(t: nat, jid: Jid, storing: bool)
    | Cancel(t: nat)
    | Check(t: nat, entry: nat)                 // `entry` is the new object, if one is made
    | Wake(t: nat, ready: bool)                 // it may see either its channel or its own end
    | Answered(t: nat, ok: bool)
    | StoreChat(t: nat, chatOk: bool, infoOk: bool)
    | Forget(jid: Jid)
    | ForgetAll
    | Tick(ms: nat)

  function Init(): State {
    State(0, 0, map[], map[], map[], map[])
  }

  /** How often the group has been invalidated. */
  function Epoch(s: State, j: Jid): nat {
    s.forgotAll + if j in s.forgot then s.forgot[j] else 0
  }

  function FoundAt(s: State, j: Jid): Option<Answer> {
    if j in s.answers && s.answers[j] in s.entries then Some(s.entries[s.answers[j]].answer) else None
  }

  predicate Enabled(s: State, a: Action) {
    match a
    case NewCall(t, _, _) => t !in s.calls
    case Cancel(t) => t in s.calls
    case Check(t, e) => t in s.calls && s.calls[t].phase.Checking? && e !in s.entries
    case Wake(t, ready) =>
      t in s.calls && s.calls[t].phase.Waiting? && s.calls[t].phase.entry in s.entries
      && if ready then !s.entries[s.calls[t].phase.entry].answer.open else s.calls[t].cancelled
    case Answered(t, _) => t in s.calls && s.calls[t].phase.Fetching? && s.calls[t].phase.entry in s.entries
    case StoreChat(t, _, _) => t in s.calls && s.calls[t].phase.Given? && s.calls[t].storing
    case Forget(_) => true
    case ForgetAll => true
    case Tick(_) => true
  }

  /** A cancelled lookup gives its caller nothing; storeGroupChat goes on with that. */
  function Abandoned(c: Call): Phase {
    if c.storing then Given(None) else Failed
  }

  function SetPhase(s: State, t: nat, phase: Phase): State
    requires t in s.calls
  {
    s.(calls := s.calls[t := s.calls[t].(phase := phase)])
  }

  function SetAnswer(s: State, e: nat, answer: Answer): State
    requires e in s.entries
  {
    s.(entries := s.entries[e := s.entries[e].(answer := answer)])
  }

  function DoCheck(s: State, t: nat, e: nat): State
    requires Enabled(s, Check(t, e))
  {
    var j := s.calls[t].jid;
    match Consult(FoundAt(s, j), s.now)
    case Wait => SetPhase(s, t, Waiting(s.answers[j]))
    case Use(info, _) => SetPhase(s, t, Given(info))
    case LookUp =>
      SetPhase(s.(answers := s.answers[j := e],
                  entries := s.entries[e := Entry(j, Epoch(s, j), t, Fresh(), 0)]), t, Fetching(e))
  }

  function DoAnswered(s: State, t: nat, ok: bool): State
    requires Enabled(s, Answered(t, ok))
  {
    var c := s.calls[t];
    var e := c.phase.entry;
    var answer := s.entries[e].answer;
    if c.jid !in s.answers || s.answers[c.jid] != e then
      SetPhase(SetAnswer(s, e, Finish(answer)), t, if c.cancelled then Abandoned(c) else Checking)
    else if c.cancelled then
      SetPhase(SetAnswer(s, e, Finish(answer)).(answers := s.answers - {c.jid}), t, Abandoned(c))
    else
      var info := if ok then Some(e) else None;
      SetPhase(SetAnswer(s, e, Settle(answer, info, s.now)), t, Given(info))
  }

  function DoStore(s: State, t: nat, chatOk: bool, infoOk: bool): State
    requires Enabled(s, StoreChat(t, chatOk, infoOk))
  {
    var c := s.calls[t];
    var found := FoundAt(s, c.jid);
    if Usable(found, c.phase.info, s.now) then
      var e := s.answers[c.jid];
      var s1 := if chatOk && c.phase.info.Some? && !found.value.stored && infoOk
                then s.(entries := s.entries[e := s.entries[e].(answer := found.value.(stored := true),
                                                                stores := s.entries[e].stores + 1)])
                else s;
      SetPhase(s1, t, Stored(c.phase.info))
    else if !c.cancelled then SetPhase(s, t, Checking)
    else SetPhase(s, t, Stored(if found.Some? && !found.value.open && s.now < found.value.expires
                               then found.value.info else None))
  }

  function DoForget(s: State, j: Jid): State {
    var s1 := s.(forgot := s.forgot[j := 1 + if j in s.forgot then s.forgot[j] else 0]);
    if j in s.answers && s.answers[j] in s.entries then
      SetAnswer(s1, s.answers[j], Finish(s.entries[s.answers[j]].answer)).(answers := s.answers - {j})
    else s1
  }

  function Do(s: State, a: Action): State
    requires Enabled(s, a)
  {
    match a
    case NewCall(t, j, storing) => s.(calls := s.calls[t := Call(j, storing, false, Checking)])
    case Cancel(t) => s.(calls := s.calls[t := s.calls[t].(cancelled := true)])
    case Check(t, e) => DoCheck(s, t, e)
    case Wake(t, ready) => SetPhase(s, t, if ready then Checking else Abandoned(s.calls[t]))
    case Answered(t, ok) => DoAnswered(s, t, ok)
    case StoreChat(t, chatOk, infoOk) => DoStore(s, t, chatOk, infoOk)
    case Forget(j) => DoForget(s, j)
    case ForgetAll =>
      s.(forgotAll := s.forgotAll + 1,
         answers := map[],
         entries := map e | e in s.entries ::
                      if s.entries[e].jid in s.answers && s.answers[s.entries[e].jid] == e
                      then s.entries[e].(answer := Finish(s.entries[e].answer)) else s.entries[e])
    case Tick(ms) => s.(now := s.now + ms)
  }

  predicate StepAt(tr: seq<State>, acts: seq<Action>, i: nat)
    requires |tr| == |acts| + 1 && i < |acts|
  {
    Enabled(tr[i], acts[i]) && tr[i + 1] == Do(tr[i], acts[i])
  }

  ghost predicate IsRun(tr: seq<State>, acts: seq<Action>) {
    && |tr| == |acts| + 1
    && tr[0] == Init()
    && forall i: nat :: i < |acts| ==> StepAt(tr, acts, i)
  }

  // ----- what every step keeps ---------------------------------------------------------------

  predicate IsCurrent(s: State, e: nat)
    requires e in s.entries
  {
    s.entries[e].jid in s.answers && s.answers[s.entries[e].jid] == e
  }

  predicate EntryOk(s: State, e: nat)
    requires e in s.entries
  {
    var x := s.entries[e];
    && x.epoch <= Epoch(s, x.jid)
    && (IsCurrent(s, e) ==> x.epoch == Epoch(s, x.jid))
    && x.answer.closes == (if x.answer.open then 0 else 1)
    && x.stores == (if x.answer.stored then 1 else 0)
    && (x.answer.info.Some? ==> x.answer.info.value == e && !x.answer.open)
    && (x.answer.open ==> IsCurrent(s, e) && x.looker in s.calls && s.calls[x.looker].phase == Fetching(e))
  }

  predicate CallOk(s: State, t: nat)
    requires t in s.calls
  {
    var c := s.calls[t];
    match c.phase
    case Waiting(e) => e in s.entries && s.entries[e].jid == c.jid
    case Fetching(e) => e in s.entries && s.entries[e].jid == c.jid && s.entries[e].looker == t && s.entries[e].answer.info.None?
    case Given(info) => info.Some? ==> info.value in s.entries && s.entries[info.value].jid == c.jid
    case _ => true
  }

  predicate AnswerOk(s: State, j: Jid) {
    j in s.answers ==> s.answers[j] in s.entries && s.entries[s.answers[j]].jid == j
  }

  ghost predicate Inv(s: State) {
    && (forall j :: j in s.answers ==> AnswerOk(s, j))
    && (forall e :: e in s.entries ==> EntryOk(s, e))
    && (forall t :: t in s.calls ==> CallOk(s, t))
  }

  lemma CallStepKeepsInv(s: State, a: Action)
    requires Inv(s) && Enabled(s, a) && (a.NewCall? || a.Cancel? || a.Wake? || a.Tick?)
    ensures Inv(Do(s, a))
  {
    var s' := Do(s, a);
    forall e | e in s'.entries ensures EntryOk(s', e) {
      if e in s.entries { assert EntryOk(s, e); }
    }
    forall t | t in s'.calls ensures CallOk(s', t) {
      if t in s.calls { assert CallOk(s, t); }
    }
  }

  lemma CheckKeepsEntry(s: State, a: Action, e: nat)
    requires a.Check? && Enabled(s, a)
    requires e in s.entries && EntryOk(s, e)
    requires a.t in s.calls && CallOk(s, a.t) && AnswerOk(s, s.calls[a.t].jid)
    ensures e in Do(s, a).entries && EntryOk(Do(s, a), e)
  {
  }

  lemma CheckKeepsCall(s: State, a: Action, t: nat)
    requires a.Check? && Enabled(s, a)
    requires t in s.calls && CallOk(s, t)
    requires a.t in s.calls && CallOk(s, a.t) && AnswerOk(s, s.calls[a.t].jid)
    requires s.calls[a.t].jid in s.answers ==> EntryOk(s, s.answers[s.calls[a.t].jid])
    ensures t in Do(s, a).calls && CallOk(Do(s, a), t)
  {
  }

  lemma AnsweredKeepsOwnEntry(s: State, t: nat, ok: bool)
    requires Enabled(s, Answered(t, ok)) && CallOk(s, t) && EntryOk(s, s.calls[t].phase.entry)
    ensures var e, u := s.calls[t].phase.entry, DoAnswered(s, t, ok); e in u.entries && EntryOk(u, e)
  {
  }

  lemma AnsweredKeepsOtherEntry(s: State, t: nat, ok: bool, e: nat)
    requires Enabled(s, Answered(t, ok)) && CallOk(s, t)
    requires e in s.entries && EntryOk(s, e) && e != s.calls[t].phase.entry
    ensures var u := DoAnswered(s, t, ok); e in u.entries && EntryOk(u, e)
  {
  }

  lemma AnsweredKeepsCall(s: State, t: nat, ok: bool, c: nat)
    requires Enabled(s, Answered(t, ok))
    requires c in s.calls && CallOk(s, c) && CallOk(s, t) && AnswerOk(s, s.calls[t].jid)
    requires EntryOk(s, s.calls[t].phase.entry)
    ensures var u := DoAnswered(s, t, ok); c in u.calls && CallOk(u, c)
  {
  }

  lemma StoreKeepsEntry(s: State, a: Action, e: nat)
    requires a.StoreChat? && Enabled(s, a)
    requires e in s.entries && EntryOk(s, e)
    requires a.t in s.calls && CallOk(s, a.t) && AnswerOk(s, s.calls[a.t].jid)
    ensures e in Do(s, a).entries && EntryOk(Do(s, a), e)
  {
  }

  lemma StoreKeepsCall(s: State, a: Action, t: nat)
    requires a.StoreChat? && Enabled(s, a)
    requires t in s.calls && CallOk(s, t)
    requires a.t in s.calls && CallOk(s, a.t) && AnswerOk(s, s.calls[a.t].jid)
    requires s.calls[a.t].jid in s.answers ==> EntryOk(s, s.answers[s.calls[a.t].jid])
    ensures t in Do(s, a).calls && CallOk(Do(s, a), t)
  {
  }

  lemma ForgetKeepsEntry(s: State, a: Action, e: nat)
    requires (a.Forget? || a.ForgetAll?) && Enabled(s, a)
    requires e in s.entries && EntryOk(s, e)
    requires a.Forget? ==> AnswerOk(s, a.jid)
    ensures e in Do(s, a).entries && EntryOk(Do(s, a), e)
  {
  }

  lemma ForgetKeepsCall(s: State, a: Action, t: nat)
    requires (a.Forget? || a.ForgetAll?) && Enabled(s, a)
    requires t in s.calls && CallOk(s, t)
    requires a.Forget? ==> AnswerOk(s, a.jid)
    ensures t in Do(s, a).calls && CallOk(Do(s, a), t)
  {
  }

  lemma CheckKeepsInv(s: State, a: Action)
    requires Inv(s) && Enabled(s, a) && a.Check?
    ensures Inv(Do(s, a))
  {
    var s' := Do(s, a);
    assert CallOk(s, a.t) && AnswerOk(s, s.calls[a.t].jid);
    forall e | e in s'.entries ensures EntryOk(s', e) {
      if e in s.entries { CheckKeepsEntry(s, a, e); }
    }
    forall t | t in s'.calls ensures CallOk(s', t) {
      CheckKeepsCall(s, a, t);
    }
  }

  lemma AnsweredKeepsInv(s: State, a: Action)
    requires Inv(s) && Enabled(s, a) && a.Answered?
    ensures Inv(Do(s, a))
  {
    var s' := Do(s, a);
    assert CallOk(s, a.t) && AnswerOk(s, s.calls[a.t].jid) && EntryOk(s, s.calls[a.t].phase.entry);
    forall e | e in s'.entries ensures EntryOk(s', e) {
      if e == s.calls[a.t].phase.entry { AnsweredKeepsOwnEntry(s, a.t, a.ok); }
      else { AnsweredKeepsOtherEntry(s, a.t, a.ok, e); }
    }
    forall t | t in s'.calls ensures CallOk(s', t) {
      AnsweredKeepsCall(s, a.t, a.ok, t);
    }
  }

  lemma StoreKeepsInv(s: State, a: Action)
    requires Inv(s) && Enabled(s, a) && a.StoreChat?
    ensures Inv(Do(s, a))
  {
    var s' := Do(s, a);
    assert CallOk(s, a.t) && AnswerOk(s, s.calls[a.t].jid);
    forall e | e in s'.entries ensures EntryOk(s', e) {
      if e in s.entries { StoreKeepsEntry(s, a, e); }
    }
    forall t | t in s'.calls ensures CallOk(s', t) {
      StoreKeepsCall(s, a, t);
    }
  }

  lemma ForgetKeepsInv(s: State, a: Action)
    requires Inv(s) && Enabled(s, a) && (a.Forget? || a.ForgetAll?)
    ensures Inv(Do(s, a))
  {
    var s' := Do(s, a);
    assert a.Forget? ==> AnswerOk(s, a.jid);
    forall e | e in s'.entries ensures EntryOk(s', e) {
      if e in s.entries { ForgetKeepsEntry(s, a, e); }
    }
    forall t | t in s'.calls ensures CallOk(s', t) {
      ForgetKeepsCall(s, a, t);
    }
  }

  lemma StepKeepsInv(s: State, a: Action)
    requires Inv(s) && Enabled(s, a)
    ensures Inv(Do(s, a))
  {
    match a
    case Check(_, _) => CheckKeepsInv(s, a);
    case Answered(_, _) => AnsweredKeepsInv(s, a);
    case StoreChat(_, _, _) => StoreKeepsInv(s, a);
    case Forget(_) => ForgetKeepsInv(s, a);
    case ForgetAll => ForgetKeepsInv(s, a);
    case _ => CallStepKeepsInv(s, a);
  }

  lemma {:induction false} RunKeepsInv(tr: seq<State>, acts: seq<Action>, n: nat)
    requires IsRun(tr, acts) && n < |tr|
    ensures Inv(tr[n])
  {
    if n > 0 {
      RunKeepsInv(tr, acts, n - 1);
      assert StepAt(tr, acts, n - 1);
      StepKeepsInv(tr[n - 1], acts[n - 1]);
    }
  }

  // ----- the results --------------------------------------------------------------------------

  predicate Invalidates(a: Action, j: Jid) {
    a.ForgetAll? || (a.Forget? && a.jid == j)
  }

  /** The lookup of entry `e` started at step `m`, and its group was not invalidated up to step `n`. */
  ghost predicate StartedSinceLastInvalidation(tr: seq<State>, acts: seq<Action>, m: nat, n: nat, e: nat, j: Jid) {
    && m < n <= |acts| && n < |tr|
    && acts[m].Check? && acts[m].entry == e && e !in tr[m].entries
    && e in tr[n].entries && tr[n].entries[e].jid == j
    && forall i :: m <= i < n ==> !Invalidates(acts[i], j)
  }

  ghost predicate FreshAt(tr: seq<State>, acts: seq<Action>, n: nat, e: nat, j: Jid) {
    exists m :: StartedSinceLastInvalidation(tr, acts, m, n, e, j)
  }

  lemma StepEpoch(s: State, a: Action, j: Jid)
    requires Enabled(s, a)
    ensures Epoch(Do(s, a), j) == Epoch(s, j) + if Invalidates(a, j) then 1 else 0
  {
  }

  lemma StepKeepsEntryIdentity(s: State, a: Action, e: nat)
    requires Enabled(s, a)
    ensures e in s.entries ==> e in Do(s, a).entries && Do(s, a).entries[e].jid == s.entries[e].jid && Do(s, a).entries[e].epoch == s.entries[e].epoch
    ensures e !in s.entries && e in Do(s, a).entries ==>
              a.Check? && a.entry == e && Do(s, a).entries[e].epoch == Epoch(s, Do(s, a).entries[e].jid)
  {
  }

  lemma FreshnessGoesOn(tr: seq<State>, acts: seq<Action>, n: nat, e: nat, j: Jid)
    requires 0 < n < |tr| && |tr| == |acts| + 1 && FreshAt(tr, acts, n - 1, e, j)
    requires e in tr[n].entries && tr[n].entries[e].jid == j && !Invalidates(acts[n - 1], j)
    ensures FreshAt(tr, acts, n, e, j)
  {
    var m :| StartedSinceLastInvalidation(tr, acts, m, n - 1, e, j);
    assert StartedSinceLastInvalidation(tr, acts, m, n, e, j);
  }

  lemma FreshnessStarts(tr: seq<State>, acts: seq<Action>, n: nat, e: nat, j: Jid)
    requires 0 < n < |tr| && |tr| == |acts| + 1 && acts[n - 1].Check? && acts[n - 1].entry == e
    requires e !in tr[n - 1].entries && e in tr[n].entries && tr[n].entries[e].jid == j
    ensures FreshAt(tr, acts, n, e, j)
  {
    assert StartedSinceLastInvalidation(tr, acts, n - 1, n, e, j);
  }

  predicate CurrentIn(s: State, e: nat) {
    e in s.entries && s.entries[e].epoch == Epoch(s, s.entries[e].jid)
  }

  /** One step back, `t` being the state after it: the entry was current already and its group was
      not invalidated, or the entry was just made. */
  lemma OneStepBack(s: State, a: Action, t: State, e: nat)
    requires Enabled(s, a) && t == Do(s, a) && CurrentIn(t, e)
    requires e in s.entries ==> s.entries[e].epoch <= Epoch(s, s.entries[e].jid)
    ensures e in s.entries ==> CurrentIn(s, e) && s.entries[e].jid == t.entries[e].jid && !Invalidates(a, t.entries[e].jid)
    ensures e !in s.entries ==> a.Check? && a.entry == e
  {
    StepKeepsEntryIdentity(s, a, e);
    StepEpoch(s, a, t.entries[e].jid);
  }

  lemma EpochBound(tr: seq<State>, acts: seq<Action>, n: nat, e: nat)
    requires IsRun(tr, acts) && n < |tr| && e in tr[n].entries
    ensures n > 0 && tr[n].entries[e].epoch <= Epoch(tr[n], tr[n].entries[e].jid)
  {
    RunKeepsInv(tr, acts, n);
    assert EntryOk(tr[n], e);
  }

  lemma LastStepBack(tr: seq<State>, acts: seq<Action>, n: nat, e: nat)
    requires IsRun(tr, acts) && 0 < n < |tr| && CurrentIn(tr[n], e)
    requires e in tr[n - 1].entries ==> tr[n - 1].entries[e].epoch <= Epoch(tr[n - 1], tr[n - 1].entries[e].jid)
    ensures e in tr[n - 1].entries ==>
              && CurrentIn(tr[n - 1], e) && tr[n - 1].entries[e].jid == tr[n].entries[e].jid
              && !Invalidates(acts[n - 1], tr[n].entries[e].jid)
    ensures e !in tr[n - 1].entries ==> acts[n - 1].Check? && acts[n - 1].entry == e
  {
    assert StepAt(tr, acts, n - 1);
    OneStepBack(tr[n - 1], acts[n - 1], tr[n], e);
  }

  /** An entry whose epoch is current was looked up after the last invalidation. */
  lemma {:induction false} CurrentEpochMeansFresh(tr: seq<State>, acts: seq<Action>, n: nat, e: nat)
    requires IsRun(tr, acts) && n < |tr| && CurrentIn(tr[n], e)
    ensures FreshAt(tr, acts, n, e, tr[n].entries[e].jid)
  {
    EpochBound(tr, acts, n, e);
    if e in tr[n - 1].entries { EpochBound(tr, acts, n - 1, e); }
    LastStepBack(tr, acts, n, e);
    if e in tr[n - 1].entries {
      CurrentEpochMeansFresh(tr, acts, n - 1, e);
      FreshnessGoesOn(tr, acts, n, e, tr[n].entries[e].jid);
    } else {
      FreshnessStarts(tr, acts, n, e, tr[n].entries[e].jid);
    }
  }

  lemma OnlyLookupsGive(s: State, a: Action, t: nat)
    requires Enabled(s, a) && t in s.calls && !s.calls[t].phase.Given?
    requires t in Do(s, a).calls && Do(s, a).calls[t].phase.Given? && Do(s, a).calls[t].phase.info.Some?
    ensures (a.Check? || a.Answered?) && a.t == t
  {
  }

  /** What a lookup hands its caller is the current entry's info. */
  lemma GivenIsCurrent(s: State, a: Action, t: nat)
    requires Enabled(s, a) && (a.Check? || a.Answered?) && a.t == t && CallOk(s, t) && AnswerOk(s, s.calls[t].jid)
    requires s.calls[t].jid in s.answers ==> EntryOk(s, s.answers[s.calls[t].jid])
    requires Do(s, a).calls[t].phase.Given? && Do(s, a).calls[t].phase.info.Some?
    ensures var e := Do(s, a).calls[t].phase.info.value;
            e in Do(s, a).entries && IsCurrent(Do(s, a), e) && Do(s, a).entries[e].jid == s.calls[t].jid
  {
  }

  /** Whatever cachedGroupInfo returns at a step came from a lookup started after the last
      invalidation of its group. */
  lemma ReturnedInfoIsFresh(tr: seq<State>, acts: seq<Action>, n: nat, t: nat)
    requires IsRun(tr, acts) && n < |acts| && t in tr[n].calls && t in tr[n + 1].calls
    requires !tr[n].calls[t].phase.Given? && tr[n + 1].calls[t].phase.Given? && tr[n + 1].calls[t].phase.info.Some?
    ensures FreshAt(tr, acts, n + 1, tr[n + 1].calls[t].phase.info.value, tr[n].calls[t].jid)
  {
    RunKeepsInv(tr, acts, n);
    assert StepAt(tr, acts, n);
    OnlyLookupsGive(tr[n], acts[n], t);
    assert CallOk(tr[n], t) && AnswerOk(tr[n], tr[n].calls[t].jid);
    GivenIsCurrent(tr[n], acts[n], t);
    RunKeepsInv(tr, acts, n + 1);
    var e := tr[n + 1].calls[t].phase.info.value;
    assert EntryOk(tr[n + 1], e);
    CurrentEpochMeansFresh(tr, acts, n + 1, e);
  }

  /** Whatever storeGroupChat names a chat from came from such a lookup too, also for a caller
      whose own lookup was cancelled. */
  lemma StoredNameIsFresh(tr: seq<State>, acts: seq<Action>, n: nat, t: nat)
    requires IsRun(tr, acts) && n < |acts| && acts[n].StoreChat? && acts[n].t == t
    requires t in tr[n + 1].calls && tr[n + 1].calls[t].phase.Stored? && tr[n + 1].calls[t].phase.info.Some?
    requires t in tr[n].calls
    ensures FreshAt(tr, acts, n + 1, tr[n + 1].calls[t].phase.info.value, tr[n].calls[t].jid)
  {
    RunKeepsInv(tr, acts, n);
    assert StepAt(tr, acts, n);
    RunKeepsInv(tr, acts, n + 1);
    assert AnswerOk(tr[n], tr[n].calls[t].jid);
    var cur := tr[n].answers[tr[n].calls[t].jid];
    assert EntryOk(tr[n], cur) && EntryOk(tr[n + 1], cur);
    CurrentEpochMeansFresh(tr, acts, n + 1, cur);
  }

  lemma StoresOnlyCurrent(s: State, a: Action, e: nat)
    requires Enabled(s, a) && e in s.entries && e in Do(s, a).entries
    requires a.StoreChat? ==> AnswerOk(s, s.calls[a.t].jid)
    requires Do(s, a).entries[e].stores > s.entries[e].stores
    ensures IsCurrent(s, e)
  {
  }

  /** A snapshot is written only from the current, fresh answer, and each answer's at most once. */
  lemma SnapshotStoredOnceAndFresh(tr: seq<State>, acts: seq<Action>, n: nat, e: nat)
    requires IsRun(tr, acts) && n < |tr| && e in tr[n].entries
    ensures tr[n].entries[e].stores <= 1
    ensures n < |acts| && e in tr[n + 1].entries && tr[n + 1].entries[e].stores > tr[n].entries[e].stores ==>
              FreshAt(tr, acts, n, e, tr[n].entries[e].jid)
  {
    RunKeepsInv(tr, acts, n);
    if n < |acts| { assert StepAt(tr, acts, n); }
    assert EntryOk(tr[n], e);
    if n < |acts| && e in tr[n + 1].entries && tr[n + 1].entries[e].stores > tr[n].entries[e].stores {
      StoresOnlyCurrent(tr[n], acts[n], e);
      CurrentEpochMeansFresh(tr, acts, n, e);
    }
  }

  /** Of all the lookups in flight for a group, at most one is current. */
  lemma OneCurrentLookup(tr: seq<State>, acts: seq<Action>, n: nat, t: nat, u: nat)
    requires IsRun(tr, acts) && n < |tr| && t in tr[n].calls && u in tr[n].calls
    requires tr[n].calls[t].phase.Fetching? && tr[n].calls[u].phase.Fetching? && tr[n].calls[t].jid == tr[n].calls[u].jid
    ensures tr[n].calls[t].phase.entry in tr[n].entries && tr[n].calls[u].phase.entry in tr[n].entries
    ensures IsCurrent(tr[n], tr[n].calls[t].phase.entry) && IsCurrent(tr[n], tr[n].calls[u].phase.entry) ==> t == u
  {
    RunKeepsInv(tr, acts, n);
    assert CallOk(tr[n], t) && CallOk(tr[n], u);
  }

  /** Each ready channel is closed at most once, and no waiter is forgotten: the lookup behind an
      open channel is still running, and a waiter on a closed one can go on. */
  lemma WaitersAlwaysWake(tr: seq<State>, acts: seq<Action>, n: nat, t: nat)
    requires IsRun(tr, acts) && n < |tr| && t in tr[n].calls && tr[n].calls[t].phase.Waiting?
    ensures var e := tr[n].calls[t].phase.entry;
            && e in tr[n].entries
            && tr[n].entries[e].answer.closes <= 1
            && if tr[n].entries[e].answer.open
               then tr[n].entries[e].looker in tr[n].calls && tr[n].calls[tr[n].entries[e].looker].phase == Fetching(e)
                    && forall ok :: Enabled(tr[n], Answered(tr[n].entries[e].looker, ok))
               else Enabled(tr[n], Wake(t, true))
  {
    RunKeepsInv(tr, acts, n);
    assert CallOk(tr[n], t);
    assert EntryOk(tr[n], tr[n].calls[t].phase.entry);
  }

  /** When that lookup returns, the channel is closed, whatever happened meanwhile. */
  lemma AnsweringClosesTheChannel(tr: seq<State>, acts: seq<Action>, n: nat, t: nat, ok: bool)
    requires IsRun(tr, acts) && n < |acts| && acts[n] == Answered(t, ok)
    ensures Enabled(tr[n], acts[n])
    ensures var e := tr[n].calls[t].phase.entry;
            e in tr[n + 1].entries && !tr[n + 1].entries[e].answer.open && tr[n + 1].entries[e].answer.closes == 1
  {
    assert StepAt(tr, acts, n);
    RunKeepsInv(tr, acts, n + 1);
    assert EntryOk(tr[n + 1], tr[n].calls[t].phase.entry);
  }

  // ----- how long an answer is reused ---------------------------------------------------------------

  predicate CurrentEntry(s: State, e: nat) {
    e in s.entries && IsCurrent(s, e)
  }

  /** How long the answer of a lookup may be reused, in milliseconds. */
  function Limit(ok: bool): int {
    if ok then 600000 else 60000
  }

  /** The answer entry `e` holds at step `n` is the one its lookup brought at step `m`. */
  predicate SettledAt(tr: seq<State>, acts: seq<Action>, m: nat, n: nat, e: nat)
    requires |tr| == |acts| + 1
  {
    && m < n <= |acts|
    && acts[m].Answered? && acts[m].t in tr[m].calls && tr[m].calls[acts[m].t].phase == Fetching(e)
    && e in tr[n].entries && !tr[n].entries[e].answer.open
    && tr[n].entries[e].answer.info == (if acts[m].ok then Some(e) else None)
    && tr[n].entries[e].answer.expires == tr[m].now + Limit(acts[m].ok)
  }

  predicate SettlesNow(s: State, a: Action, e: nat) {
    && a.Answered? && a.t in s.calls && s.calls[a.t].phase == Fetching(e)
    && Enabled(s, a) && e in Do(s, a).entries
    && Do(s, a).entries[e].answer.info == (if a.ok then Some(e) else None)
    && Do(s, a).entries[e].answer.expires == s.now + Limit(a.ok)
  }

  predicate SameAnswer(s: State, t: State, e: nat) {
    && CurrentEntry(s, e) && e in t.entries && !s.entries[e].answer.open
    && t.entries[e].answer.info == s.entries[e].answer.info && t.entries[e].answer.expires == s.entries[e].answer.expires
  }

  lemma ClosedStep(s: State, a: Action, e: nat)
    requires Enabled(s, a) && CurrentEntry(Do(s, a), e) && !Do(s, a).entries[e].answer.open
    requires (a.Forget? ==> AnswerOk(s, a.jid)) && (a.Answered? ==> CallOk(s, a.t))
    ensures SameAnswer(s, Do(s, a), e) || SettlesNow(s, a, e)
  {
  }

  lemma {:induction false} ClosedMeansSettled(tr: seq<State>, acts: seq<Action>, n: nat, e: nat) returns (m: nat)
    requires IsRun(tr, acts) && n < |tr| && CurrentEntry(tr[n], e) && !tr[n].entries[e].answer.open
    ensures SettledAt(tr, acts, m, n, e)
  {
    EpochBound(tr, acts, n, e);
    assert StepAt(tr, acts, n - 1);
    RunKeepsInv(tr, acts, n - 1);
    ClosedStep(tr[n - 1], acts[n - 1], e);
    if SameAnswer(tr[n - 1], tr[n], e) {
      m := ClosedMeansSettled(tr, acts, n - 1, e);
    } else {
      m := n - 1;
    }
  }

  lemma CheckIsExact(s: State, t: nat, e: nat)
    requires Enabled(s, Check(t, e)) && AnswerOk(s, s.calls[t].jid)
    ensures var j := s.calls[t].jid;
            var phase := DoCheck(s, t, e).calls[t].phase;
            if j !in s.answers then phase == Fetching(e)
            else
              var x := s.entries[s.answers[j]];
              phase == if x.answer.open then Waiting(s.answers[j])
                       else if s.now < x.answer.expires then Given(x.answer.info)
                       else Fetching(e)
  {
  }

  /** A call that asks waits for a lookup in flight, reuses its answer for less than ten minutes
      when it succeeded and less than one when it failed, and otherwise looks up anew. `m` is the
      step that brought the answer it finds. */
  lemma AnswersAreReusedExactlyInTime(tr: seq<State>, acts: seq<Action>, n: nat, t: nat, e: nat) returns (m: nat)
    requires IsRun(tr, acts) && n < |acts| && acts[n] == Check(t, e) && StepAt(tr, acts, n)
    ensures t in tr[n + 1].calls
    ensures var j := tr[n].calls[t].jid;
            var phase := tr[n + 1].calls[t].phase;
            if j !in tr[n].answers then phase == Fetching(e)
            else
              var cur := tr[n].answers[j];
              cur in tr[n].entries &&
              if tr[n].entries[cur].answer.open then phase == Waiting(cur)
              else
                && SettledAt(tr, acts, m, n, cur)
                && phase == if tr[n].now - tr[m].now < (if acts[m].ok then 600000 else 60000)
                            then Given(if acts[m].ok then Some(cur) else None)
                            else Fetching(e)
  {
    RunKeepsInv(tr, acts, n);
    var j := tr[n].calls[t].jid;
    assert AnswerOk(tr[n], j);
    CheckIsExact(tr[n], t, e);
    m := 0;
    if j in tr[n].answers && !tr[n].entries[tr[n].answers[j]].answer.open {
      m := ClosedMeansSettled(tr, acts, n, tr[n].answers[j]);
    }
  }

  /** And the caller is told that the snapshot is unstored exactly while nobody has stored it. */
  lemma UnstoredMeansNeverStored(tr: seq<State>, acts: seq<Action>, n: nat, j: Jid)
    requires IsRun(tr, acts) && n < |tr| && Consult(FoundAt(tr[n], j), tr[n].now).Use?
    ensures j in tr[n].answers && tr[n].answers[j] in tr[n].entries
    ensures var x := tr[n].entries[tr[n].answers[j]];
            Consult(FoundAt(tr[n], j), tr[n].now).unstored <==> x.answer.info.Some? && x.stores == 0
  {
    RunKeepsInv(tr, acts, n);
    assert AnswerOk(tr[n], j);
    assert EntryOk(tr[n], tr[n].answers[j]);
  }

  /** What a lookup's end leads to: a current one's answer is kept and given to the caller, a
      cancelled one's is dropped, and a stale one's is thrown away and asked for again. */
  lemma LookupsEndAsTheyShould(tr: seq<State>, acts: seq<Action>, n: nat, t: nat, ok: bool)
    requires IsRun(tr, acts) && n < |acts| && acts[n] == Answered(t, ok) && StepAt(tr, acts, n)
    ensures t in tr[n + 1].calls
    ensures var c := tr[n].calls[t];
            var e := c.phase.entry;
            var current := c.jid in tr[n].answers && tr[n].answers[c.jid] == e;
            && (current && !c.cancelled ==>
                  && tr[n + 1].calls[t].phase == Given(if ok then Some(e) else None)
                  && tr[n + 1].answers == tr[n].answers && SettledAt(tr, acts, n, n + 1, e))
            && (current && c.cancelled ==> c.jid !in tr[n + 1].answers)
            && (!current ==> tr[n + 1].answers == tr[n].answers)
            && (!current && !c.cancelled ==> tr[n + 1].calls[t].phase == Checking)
            && (c.cancelled ==> tr[n + 1].calls[t].phase == if c.storing then Given(None) else Failed)
  {
  }

  lemma StoreIsExact(s: State, t: nat, chatOk: bool, infoOk: bool)
    requires Enabled(s, StoreChat(t, chatOk, infoOk)) && AnswerOk(s, s.calls[t].jid)
    ensures var c := s.calls[t];
            var u := DoStore(s, t, chatOk, infoOk);
            if c.jid in s.answers && !s.entries[s.answers[c.jid]].answer.open
               && s.entries[s.answers[c.jid]].answer.info == c.phase.info && s.now < s.entries[s.answers[c.jid]].answer.expires
            then
              var x := s.entries[s.answers[c.jid]];
              && u.calls[t].phase == Stored(c.phase.info)
              && s.answers[c.jid] in u.entries
              && u.entries[s.answers[c.jid]].stores ==
                 x.stores + if chatOk && infoOk && c.phase.info.Some? && !x.answer.stored then 1 else 0
            else
              && u.entries == s.entries
              && u.calls[t].phase ==
                 Otherwise(c, if c.jid in s.answers && !s.entries[s.answers[c.jid]].answer.open
                                 && s.now < s.entries[s.answers[c.jid]].answer.expires
                              then s.entries[s.answers[c.jid]].answer.info else None)
  {
  }

  /** Without the answer it was given a live call asks again; a cancelled one goes on with `info`. */
  function Otherwise(c: Call, info: Option<nat>): Phase {
    if c.cancelled then Stored(info) else Checking
  }

  /** storeGroupChat writes the chat and an unstored snapshot while the answer it was given is
      still the one in the cache and young enough, and asks again otherwise; a cancelled call then
      names the chat from a current answer, if there is one, and stores no snapshot. */
  lemma SnapshotsAreStoredInTime(tr: seq<State>, acts: seq<Action>, n: nat, t: nat, chatOk: bool, infoOk: bool) returns (m: nat)
    requires IsRun(tr, acts) && n < |acts| && acts[n] == StoreChat(t, chatOk, infoOk) && StepAt(tr, acts, n)
    ensures t in tr[n + 1].calls
    ensures var c := tr[n].calls[t];
            if c.jid !in tr[n].answers then tr[n + 1].calls[t].phase == Otherwise(c, None) && tr[n + 1].entries == tr[n].entries
            else
              var cur := tr[n].answers[c.jid];
              cur in tr[n].entries &&
              if tr[n].entries[cur].answer.open then
                tr[n + 1].calls[t].phase == Otherwise(c, None) && tr[n + 1].entries == tr[n].entries
              else
                && SettledAt(tr, acts, m, n, cur)
                && var young := tr[n].now - tr[m].now < if acts[m].ok then 600000 else 60000;
                   var info := if acts[m].ok then Some(cur) else None;
                   if young && c.phase.info == info
                   then
                     && tr[n + 1].calls[t].phase == Stored(c.phase.info) && cur in tr[n + 1].entries
                     && (chatOk && infoOk && acts[m].ok ==> tr[n + 1].entries[cur].stores == 1)
                     && (!chatOk || !infoOk || !acts[m].ok ==> tr[n + 1].entries[cur].stores == tr[n].entries[cur].stores)
                   else
                     && tr[n + 1].calls[t].phase == Otherwise(c, if young then info else None)
                     && tr[n + 1].entries == tr[n].entries
  {
    RunKeepsInv(tr, acts, n);
    var j := tr[n].calls[t].jid;
    assert AnswerOk(tr[n], j);
    StoreIsExact(tr[n], t, chatOk, infoOk);
    m := 0;
    if j in tr[n].answers && !tr[n].entries[tr[n].answers[j]].answer.open {
      m := ClosedMeansSettled(tr, acts, n, tr[n].answers[j]);
      assert EntryOk(tr[n], tr[n].answers[j]);
    }
  }

  // ----- calls, cancellations and the clock ---------------------------------------------------------

  predicate CancelsAt(acts: seq<Action>, i: nat, t: nat) {
    i < |acts| && acts[i] == Cancel(t)
  }

  /** The call `t` is as before, but for its phase and for being cancelled now. */
  predicate SameCall(s: State, u: State, t: nat, cancels: bool)
    requires t in s.calls
  {
    && t in u.calls && u.calls[t].jid == s.calls[t].jid && u.calls[t].storing == s.calls[t].storing
    && (u.calls[t].cancelled <==> s.calls[t].cancelled || cancels)
  }

  lemma CheckKeepsCalls(s: State, t: nat, u: nat, e: nat)
    requires t in s.calls && Enabled(s, Check(u, e))
    ensures SameCall(s, DoCheck(s, u, e), t, false)
  {
  }

  lemma AnsweredKeepsCalls(s: State, t: nat, u: nat, ok: bool)
    requires t in s.calls && Enabled(s, Answered(u, ok))
    ensures SameCall(s, DoAnswered(s, u, ok), t, false)
  {
  }

  lemma StoreKeepsCalls(s: State, t: nat, u: nat, chatOk: bool, infoOk: bool)
    requires t in s.calls && Enabled(s, StoreChat(u, chatOk, infoOk))
    ensures SameCall(s, DoStore(s, u, chatOk, infoOk), t, false)
  {
  }

  lemma CallStays(s: State, a: Action, t: nat)
    requires Enabled(s, a) && t in s.calls
    ensures SameCall(s, Do(s, a), t, a == Cancel(t))
  {
    match a {
      case Check(u, e) => CheckKeepsCalls(s, t, u, e);
      case Answered(u, ok) => AnsweredKeepsCalls(s, t, u, ok);
      case StoreChat(u, chatOk, infoOk) => StoreKeepsCalls(s, t, u, chatOk, infoOk);
      case _ =>
    }
  }

  /** A call stays as it was made, and counts as cancelled exactly once it was. */
  lemma {:induction false} CallsStayAsMade(tr: seq<State>, acts: seq<Action>, m: nat, n: nat, t: nat, jid: Jid, storing: bool)
    requires IsRun(tr, acts) && m < n < |tr| && acts[m] == NewCall(t, jid, storing)
    ensures t in tr[n].calls && tr[n].calls[t].jid == jid && tr[n].calls[t].storing == storing
    ensures tr[n].calls[t].cancelled <==> exists i: nat :: m < i < n && CancelsAt(acts, i, t)
    ensures n == m + 1 ==> tr[n].calls[t].phase == Checking
    decreases n
  {
    assert StepAt(tr, acts, n - 1);
    if n > m + 1 {
      CallsStayAsMade(tr, acts, m, n - 1, t, jid, storing);
      CallStays(tr[n - 1], acts[n - 1], t);
      assert CancelsAt(acts, n - 1, t) <==> acts[n - 1] == Cancel(t);
    }
  }

  /** A waiting call that sees its lookup end asks again; one that sees its own end first is
      abandoned, which storeGroupChat survives. */
  lemma WakesAreExact(tr: seq<State>, acts: seq<Action>, n: nat, t: nat, ready: bool)
    requires IsRun(tr, acts) && n < |acts| && acts[n] == Wake(t, ready)
    ensures t in tr[n].calls && t in tr[n + 1].calls
    ensures ready ==> tr[n + 1].calls[t].phase == Checking
    ensures !ready ==> tr[n].calls[t].cancelled && tr[n + 1].calls[t].phase == if tr[n].calls[t].storing then Given(None) else Failed
  {
    assert StepAt(tr, acts, n);
  }

  function Elapsed(acts: seq<Action>): nat {
    if acts == [] then 0
    else Elapsed(acts[..|acts| - 1]) + if acts[|acts| - 1].Tick? then acts[|acts| - 1].ms else 0
  }

  /** The clock shows exactly the time that has passed. */
  lemma {:induction false} TheClockIsExact(tr: seq<State>, acts: seq<Action>, n: nat)
    requires IsRun(tr, acts) && n < |tr|
    ensures tr[n].now == Elapsed(acts[..n])
  {
    if n > 0 {
      assert StepAt(tr, acts, n - 1);
      TheClockIsExact(tr, acts, n - 1);
      assert acts[..n][..n - 1] == acts[..n - 1];
    }
  }
}
