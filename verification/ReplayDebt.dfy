/** Durable replay debt of one app-state collection.

    `head` counts the mutations on the server's log of the collection. A mutation is admitted
    under the generation whose intent was written ahead of it, and `known` are the mutations
    whose effect is in wacli.db. Intents, admissions and the database survive a crash; jobs,
    continuations and queued tasks do not. */
module ReplayDebt {
  import opened Wrappers

  datatype Kind = Live | Local | Fetched

  datatype Admission = Admission(gen: nat, kind: Kind)

  /** A synchronisation under the chat-state lock. `required` is what BeginAppStateRecovery
      reported: other intents were standing. */
  datatype Job = Job(gen: nat, required: bool, phase: Phase)

  datatype Phase =
    | Begun
    | Fetching(batch: set<nat>, verified: bool)   // incremental events fetched, not yet written
    | Written(verified: bool)
    | Replaying                                   // must be covered by a full replay or a snapshot
    | Partial(batch: set<nat>)                    // a full replay failed after fetching these
    | Asked(floor: nat)                           // full replay or snapshot requested at `floor`
    | Answered(upTo: nat)
    | Covered(upTo: nat)                          // the answer is written

  datatype Late = LateAsked(floor: nat) | LateCovered(upTo: nat, floor: nat)

  datatype LocalWrite = LocalWrite(gen: nat, sent: Option<nat>)

  datatype State = State(
    nextGen: nat,
    intents: set<nat>,
    head: nat,
    admitted: map<nat, Admission>,
    known: set<nat>,
    undercut: set<nat>,          // fetched under a generation its own late continuation cleared
    live: map<nat, bool>,        // live events in this process; true once written
    job: Option<Job>,
    local: Option<LocalWrite>,
    lates: map<nat, Late>,       // continuations by generation
    handed: set<nat>)            // generations that ever had a continuation

  datatype Action =
    | ServerAppend
    | AdmitLive(p: nat)
    | LiveWrite(p: nat, ok: bool)
    | LiveClear(p: nat)
    | BeginJob
    | FetchIncremental(batch: set<nat>, verified: bool)
    | WriteFetched(ok: bool)
    | ClearOwn
    | ClearThroughIncremental
    | StartReplay
    | Ask
    | Answer(upTo: nat, fetched: bool)
    | AskTimedOut
    | FetchPartial(batch: set<nat>)
    | WritePartial(ok: bool)
    | WriteAnswer(ok: bool)
    | ClearThroughCovered
    | GiveUp
    | LateAnswer(gen: nat, upTo: nat, ok: bool)
    | LateClear(gen: nat)
    | BeginLocal
    | SendLocal
    | LocalWritten
    | EndLocal
    | Crash

  function Init(): State {
    State(1, {}, 0, map[], {}, {}, map[], None, None, map[], {})
  }

  ghost predicate Enabled(s: State, a: Action) {
    match a
    case ServerAppend => true
    case AdmitLive(p) => p < s.head && p !in s.admitted
    case LiveWrite(p, _) => p in s.live && !s.live[p]
    case LiveClear(p) => p in s.live && s.live[p] && p in s.admitted
    case BeginJob => s.job.None? && s.local.None?
    case FetchIncremental(batch, _) =>
      s.job.Some? && s.job.value.phase.Begun? && forall p :: p in batch ==> p < s.head && p !in s.admitted
    case WriteFetched(_) => s.job.Some? && s.job.value.phase.Fetching?
    case ClearOwn => s.job.Some? && s.job.value.phase.Written? && s.job.value.phase.verified && s.job.value.required
    case ClearThroughIncremental =>
      s.job.Some? && s.job.value.phase.Written? && s.job.value.phase.verified && !s.job.value.required
    case StartReplay =>
      s.job.Some? && (s.job.value.phase.Begun? || (s.job.value.phase.Written? && !s.job.value.phase.verified))
    case Ask => s.job.Some? && s.job.value.phase.Replaying?
    case Answer(upTo, _) =>
      s.job.Some? && s.job.value.phase.Asked? && s.job.value.phase.floor <= upTo <= s.head
    case AskTimedOut => s.job.Some? && s.job.value.phase.Asked?
    case FetchPartial(batch) =>
      s.job.Some? && s.job.value.phase.Asked? && forall p :: p in batch ==> p < s.head && p !in s.admitted
    case WritePartial(_) => s.job.Some? && s.job.value.phase.Partial?
    case WriteAnswer(_) => s.job.Some? && s.job.value.phase.Answered?
    case ClearThroughCovered => s.job.Some? && s.job.value.phase.Covered?
    case GiveUp => s.job.Some?
    case LateAnswer(g, upTo, _) => g in s.lates && s.lates[g].LateAsked? && s.lates[g].floor <= upTo <= s.head
    case LateClear(g) => g in s.lates && s.lates[g].LateCovered?
    case BeginLocal => s.job.None? && s.local.None?
    case SendLocal => s.local.Some? && s.local.value.sent.None?
    case LocalWritten => s.local.Some? && s.local.value.sent.Some?
    case EndLocal => s.local.Some?
    case Crash => true
  }

  // ----- the durable intents table -----------------------------------------------------

  /** ClearAppStateRecoveryGeneration: this generation and every older one. */
  function ClearGeneration(intents: set<nat>, gen: nat): set<nat> {
    set g | g in intents && g > gen
  }

  /** ClearAppStateRecoveryIntent: exactly one. */
  function ClearIntent(intents: set<nat>, gen: nat): set<nat> {
    intents - {gen}
  }

  /** An event fetched under a generation without a standing intent has no cover. */
  function Uncovered(s: State, gen: nat, batch: set<nat>): set<nat> {
    if gen in s.intents then {} else batch
  }

  function Unadmitted(s: State, upTo: nat): set<nat> {
    Prefix(upTo) - s.admitted.Keys
  }

  function AdmitAll(admitted: map<nat, Admission>, batch: set<nat>, gen: nat): map<nat, Admission> {
    map p | p in admitted.Keys + batch :: if p in admitted then admitted[p] else Admission(gen, Fetched)
  }

  /** The mutations a replay or snapshot taken at log position `upTo` contains. */
  function Prefix(upTo: nat): (r: set<nat>)
    ensures forall p: nat :: p in r <==> p < upTo
  {
    if upTo == 0 then {} else Prefix(upTo - 1) + {upTo - 1}
  }

  /** What clearing `gen` and older leaves without an intent although it is not written yet. */
  function LeftBehind(s: State, gen: nat): set<nat> {
    set p | p in s.admitted && s.admitted[p] == Admission(gen, Fetched) && p !in s.known
  }

  function SetPhase(s: State, phase: Phase): State
    requires s.job.Some?
  {
    s.(job := Some(s.job.value.(phase := phase)))
  }

  ghost function Do(s: State, a: Action): State
    requires Enabled(s, a)
  {
    match a
    case ServerAppend => s.(head := s.head + 1)
    case AdmitLive(p) =>
      s.(nextGen := s.nextGen + 1, intents := s.intents + {s.nextGen},
         admitted := s.admitted[p := Admission(s.nextGen, Live)], live := s.live[p := false])
    case LiveWrite(p, ok) =>
      if ok then s.(known := s.known + {p}, live := s.live[p := true]) else s.(live := s.live - {p})
    case LiveClear(p) =>
      s.(intents := ClearIntent(s.intents, s.admitted[p].gen), live := s.live - {p})
    case BeginJob =>
      s.(nextGen := s.nextGen + 1, intents := s.intents + {s.nextGen},
         job := Some(Job(s.nextGen, s.intents != {}, Begun)))
    case FetchIncremental(batch, verified) =>
      SetPhase(s.(admitted := AdmitAll(s.admitted, batch, s.job.value.gen),
                  undercut := s.undercut + Uncovered(s, s.job.value.gen, batch)),
               Fetching(batch, verified))
    case WriteFetched(ok) =>
      if ok then SetPhase(s.(known := s.known + s.job.value.phase.batch), Written(s.job.value.phase.verified))
      else s.(job := None)
    case ClearOwn => s.(intents := ClearIntent(s.intents, s.job.value.gen), job := None)
    case ClearThroughIncremental => s.(intents := ClearGeneration(s.intents, s.job.value.gen), job := None)
    case StartReplay => SetPhase(s, Replaying)
    case Ask => SetPhase(s, Asked(s.head))
    case Answer(upTo, fetched) =>
      if fetched then
        var batch := Unadmitted(s, upTo);
        SetPhase(s.(admitted := AdmitAll(s.admitted, batch, s.job.value.gen),
                    undercut := s.undercut + Uncovered(s, s.job.value.gen, batch)),
                 Answered(upTo))
      else SetPhase(s, Answered(upTo))
    case AskTimedOut =>
      SetPhase(s.(lates := s.lates[s.job.value.gen := LateAsked(s.job.value.phase.floor)],
                  handed := s.handed + {s.job.value.gen}), Replaying)
    case FetchPartial(batch) =>
      SetPhase(s.(admitted := AdmitAll(s.admitted, batch, s.job.value.gen),
                  undercut := s.undercut + Uncovered(s, s.job.value.gen, batch)),
               Partial(batch))
    case WritePartial(ok) =>
      if ok then SetPhase(s.(known := s.known + s.job.value.phase.batch), Replaying) else s.(job := None)
    case WriteAnswer(ok) =>
      if ok then SetPhase(s.(known := s.known + Prefix(s.job.value.phase.upTo)), Covered(s.job.value.phase.upTo))
      else s.(job := None)
    case ClearThroughCovered => s.(intents := ClearGeneration(s.intents, s.job.value.gen), job := None)
    case GiveUp => s.(job := None)
    case LateAnswer(g, upTo, ok) =>
      if ok then s.(known := s.known + Prefix(upTo), lates := s.lates[g := LateCovered(upTo, s.lates[g].floor)])
      else s.(lates := s.lates - {g})
    case LateClear(g) =>
      s.(intents := ClearGeneration(s.intents, g), lates := s.lates - {g}, undercut := s.undercut + LeftBehind(s, g))
    case BeginLocal =>
      s.(nextGen := s.nextGen + 1, intents := s.intents + {s.nextGen}, local := Some(LocalWrite(s.nextGen, None)))
    case SendLocal =>
      s.(head := s.head + 1, admitted := s.admitted[s.head := Admission(s.local.value.gen, Local)],
         local := Some(s.local.value.(sent := Some(s.head))))
    case LocalWritten => s.(known := s.known + {s.local.value.sent.value})
    case EndLocal => s.(local := None)
    case Crash => s.(job := None, local := None, lates := map[], live := map[])
  }

  ghost predicate StepAt(tr: seq<State>, acts: seq<Action>, i: nat)
    requires |tr| == |acts| + 1 && i < |acts|
  {
    Enabled(tr[i], acts[i]) && tr[i + 1] == Do(tr[i], acts[i])
  }

  ghost predicate IsRun(tr: seq<State>, acts: seq<Action>) {
    && |tr| == |acts| + 1
    && tr[0] == Init()
    && forall i: nat :: i < |acts| ==> StepAt(tr, acts, i)
  }

  // ----- what every step keeps -------------------------------------------------------------

  /** A mutation the job's answer is bound to contain lies below this log position. */
  function Floor(s: State, phase: Phase): nat {
    match phase
    case Asked(floor) => floor
    case Answered(upTo) => upTo
    case Covered(upTo) => upTo
    case _ => s.head
  }

  /** Phases in which every mutation fetched so far is in `Batch` or written. */
  predicate Early(phase: Phase) {
    phase.Begun? || phase.Fetching? || phase.Written?
  }

  function Batch(phase: Phase): set<nat> {
    if phase.Fetching? then phase.batch else {}
  }

  /** The property: an admitted mutation that is not in wacli.db still has its intent, unless
      it was fetched under a generation that its own late continuation cleared. */
  predicate DebtStands(s: State, p: nat)
    requires p in s.admitted
  {
    && (p !in s.known ==> (s.admitted[p].gen in s.intents <==> p !in s.undercut))
    && (p in s.undercut ==> s.admitted[p].kind == Fetched)
  }

  predicate JobCovers(s: State, j: Job, p: nat)
    requires p in s.admitted
  {
    var a := s.admitted[p];
    && (a.gen <= j.gen ==> p < Floor(s, j.phase))
    && (a.gen == j.gen ==> a.kind == Fetched && (Early(j.phase) ==> p in Batch(j.phase) || p in s.known))
    && (a.gen < j.gen && !j.required ==> p in s.known || p in s.undercut)
  }

  predicate AdmissionOk(s: State, p: nat)
    requires p in s.admitted
  {
    var a := s.admitted[p];
    && p < s.head && a.gen < s.nextGen
    && DebtStands(s, p)
    && (s.job.Some? ==> JobCovers(s, s.job.value, p))
    && (s.local.Some? && a.gen == s.local.value.gen ==>
          a.kind == Local && s.local.value.sent == Some(p))
    && (p in s.live ==> a.kind == Live && (s.live[p] ==> p in s.known))
  }

  predicate LateCovers(s: State, g: nat, l: Late, p: nat)
    requires p in s.admitted
  {
    && (s.admitted[p].gen < g ==> p < l.floor)
    && (s.admitted[p].gen == g ==> s.admitted[p].kind == Fetched)
  }

  ghost predicate KnownBelow(s: State, upTo: nat) {
    forall p: nat :: p < upTo ==> p in s.known
  }

  ghost predicate LateOk(s: State, g: nat, l: Late) {
    && g < s.nextGen
    && l.floor <= s.head
    && (l.LateCovered? ==> l.floor <= l.upTo && KnownBelow(s, l.upTo))
    && (s.job.Some? ==> g <= s.job.value.gen)
    && (s.local.Some? ==> g < s.local.value.gen)
  }

  /** A live event is alone under its generation. */
  predicate AloneUnder(s: State, p: nat, r: nat)
    requires p in s.admitted && r in s.admitted
  {
    s.admitted[p].kind == Live && p != r ==> s.admitted[p].gen != s.admitted[r].gen
  }

  ghost predicate AdmissionsOk(s: State) {
    && (forall p :: p in s.admitted ==> AdmissionOk(s, p))
    && (forall p, r :: p in s.admitted && r in s.admitted ==> AloneUnder(s, p, r))
  }

  ghost predicate LatesOk(s: State) {
    && (forall g :: g in s.lates ==> LateOk(s, g, s.lates[g]))
    && (forall g, p :: g in s.lates && p in s.admitted ==> LateCovers(s, g, s.lates[g], p))
  }

  ghost predicate BooksOk(s: State) {
    && (forall g :: g in s.intents ==> g < s.nextGen && (s.job.Some? && !s.job.value.required ==> s.job.value.gen <= g))
    && s.undercut <= s.admitted.Keys && s.live.Keys <= s.admitted.Keys
    && !(s.job.Some? && s.local.Some?)
    && (s.job.Some? ==> s.job.value.gen < s.nextGen && Floor(s, s.job.value.phase) <= s.head)
    && (s.job.Some? && s.job.value.phase.Covered? ==> KnownBelow(s, s.job.value.phase.upTo))
    && (s.local.Some? ==> s.local.value.gen < s.nextGen && s.local.value.gen in s.intents)
    && (s.local.Some? && s.local.value.sent.Some? ==> s.local.value.sent.value in s.admitted)
  }

  ghost predicate Inv(s: State) {
    AdmissionsOk(s) && LatesOk(s) && BooksOk(s)
  }

  predicate LiveAction(a: Action) {
    a.AdmitLive? || a.LiveWrite? || a.LiveClear?
  }

  lemma AdmitKeepsAdmissions(s: State, a: Action)
    requires Inv(s) && Enabled(s, a) && a.AdmitLive?
    ensures AdmissionsOk(Do(s, a))
  {
    var s' := Do(s, a);
    forall p | p in s'.admitted ensures AdmissionOk(s', p) {
      if p in s.admitted { assert AdmissionOk(s, p); }
    }
  }

  lemma AdmitKeepsBooks(s: State, a: Action)
    requires Inv(s) && Enabled(s, a) && a.AdmitLive?
    ensures LatesOk(Do(s, a)) && BooksOk(Do(s, a))
  {
  }

  lemma LiveWriteKeepsAdmissions(s: State, a: Action)
    requires Inv(s) && Enabled(s, a) && a.LiveWrite?
    ensures AdmissionsOk(Do(s, a))
  {
    var s' := Do(s, a);
    forall p | p in s'.admitted ensures AdmissionOk(s', p) {
      if p in s.admitted { assert AdmissionOk(s, p); }
    }
  }

  lemma LiveWriteKeepsBooks(s: State, a: Action)
    requires Inv(s) && Enabled(s, a) && a.LiveWrite?
    ensures LatesOk(Do(s, a)) && BooksOk(Do(s, a))
  {
  }

  lemma LiveClearKeepsAdmissions(s: State, a: Action)
    requires Inv(s) && Enabled(s, a) && a.LiveClear?
    ensures AdmissionsOk(Do(s, a))
  {
    var s' := Do(s, a);
    forall p | p in s'.admitted ensures AdmissionOk(s', p) {
      if p in s.admitted { assert AdmissionOk(s, p); }
      assert AloneUnder(s, a.p, p);
    }
  }

  lemma LiveClearKeepsBooks(s: State, a: Action)
    requires Inv(s) && Enabled(s, a) && a.LiveClear?
    ensures LatesOk(Do(s, a)) && BooksOk(Do(s, a))
  {
  }

  predicate ProgressAction(a: Action) {
    a.BeginJob? || a.WriteFetched? || a.StartReplay? || a.Ask?
  }

  lemma BeginKeepsAdmissions(s: State, a: Action)
    requires Inv(s) && Enabled(s, a) && a.BeginJob?
    ensures AdmissionsOk(Do(s, a))
  {
    var s' := Do(s, a);
    forall p | p in s'.admitted ensures AdmissionOk(s', p) {
      if p in s.admitted { assert AdmissionOk(s, p); }
    }
  }

  lemma ProgressKeepsAdmissions(s: State, a: Action)
    requires Inv(s) && Enabled(s, a) && ProgressAction(a) && !a.BeginJob?
    ensures AdmissionsOk(Do(s, a))
  {
    var s' := Do(s, a);
    forall p | p in s'.admitted ensures AdmissionOk(s', p) {
      if p in s.admitted { assert AdmissionOk(s, p); }
    }
  }

  lemma ProgressKeepsBooks(s: State, a: Action)
    requires Inv(s) && Enabled(s, a) && ProgressAction(a)
    ensures LatesOk(Do(s, a)) && BooksOk(Do(s, a))
  {
  }

  predicate WriteAction(a: Action) {
    a.WriteAnswer? || a.WritePartial? || a.GiveUp?
  }

  lemma HandoverKeepsAdmissions(s: State, a: Action)
    requires Inv(s) && Enabled(s, a) && a.AskTimedOut?
    ensures AdmissionsOk(Do(s, a))
  {
    var s' := Do(s, a);
    forall p | p in s'.admitted ensures AdmissionOk(s', p) {
      if p in s.admitted { assert AdmissionOk(s, p); }
    }
  }

  lemma HandoverKeepsBooks(s: State, a: Action)
    requires Inv(s) && Enabled(s, a) && a.AskTimedOut?
    ensures LatesOk(Do(s, a)) && BooksOk(Do(s, a))
  {
  }

  lemma WriteAnswerKeepsAdmissions(s: State, a: Action)
    requires Inv(s) && Enabled(s, a) && a.WriteAnswer?
    ensures AdmissionsOk(Do(s, a))
  {
    var s' := Do(s, a);
    forall p | p in s'.admitted ensures AdmissionOk(s', p) {
      if p in s.admitted { assert AdmissionOk(s, p); }
    }
  }

  lemma WriteRestKeepsAdmissions(s: State, a: Action)
    requires Inv(s) && Enabled(s, a) && (a.WritePartial? || a.GiveUp?)
    ensures AdmissionsOk(Do(s, a))
  {
    var s' := Do(s, a);
    forall p | p in s'.admitted ensures AdmissionOk(s', p) {
      if p in s.admitted { assert AdmissionOk(s, p); }
    }
  }

  lemma WriteKeepsLates(s: State, a: Action)
    requires LatesOk(s) && BooksOk(s) && AdmissionsOk(s) && Enabled(s, a) && WriteAction(a)
    ensures LatesOk(Do(s, a))
  {
  }

  lemma WriteKeepsBooks(s: State, a: Action)
    requires BooksOk(s) && Enabled(s, a) && WriteAction(a)
    ensures BooksOk(Do(s, a))
  {
  }

  predicate FetchAction(a: Action) {
    a.FetchIncremental? || a.FetchPartial?
  }

  lemma FetchKeepsAdmissions(s: State, a: Action)
    requires Inv(s) && Enabled(s, a) && FetchAction(a)
    ensures AdmissionsOk(Do(s, a))
  {
    var s' := Do(s, a);
    forall p | p in s'.admitted ensures AdmissionOk(s', p) {
      if p in s.admitted { assert AdmissionOk(s, p); }
    }
  }

  lemma FetchKeepsBooks(s: State, a: Action)
    requires Inv(s) && Enabled(s, a) && FetchAction(a)
    ensures LatesOk(Do(s, a)) && BooksOk(Do(s, a))
  {
  }

  predicate AnswerAction(a: Action) {
    a.Answer?
  }

  lemma ReplayedKeepsAdmissions(s: State, a: Action)
    requires Inv(s) && Enabled(s, a) && a.Answer? && a.fetched
    ensures AdmissionsOk(Do(s, a))
  {
    var s' := Do(s, a);
    forall p | p in s'.admitted ensures AdmissionOk(s', p) {
      if p in s.admitted { assert AdmissionOk(s, p); }
    }
  }

  lemma SnapshotKeepsAdmissions(s: State, a: Action)
    requires Inv(s) && Enabled(s, a) && a.Answer? && !a.fetched
    ensures AdmissionsOk(Do(s, a))
  {
    var s' := Do(s, a);
    forall p | p in s'.admitted ensures AdmissionOk(s', p) {
      if p in s.admitted { assert AdmissionOk(s, p); }
    }
  }

  lemma AnswerKeepsBooks(s: State, a: Action)
    requires Inv(s) && Enabled(s, a) && AnswerAction(a)
    ensures LatesOk(Do(s, a)) && BooksOk(Do(s, a))
  {
  }

  predicate ClearAction(a: Action) {
    a.ClearOwn? || a.ClearThroughIncremental? || a.ClearThroughCovered?
  }

  lemma ClearKeepsAdmissions(s: State, a: Action)
    requires Inv(s) && Enabled(s, a) && ClearAction(a)
    ensures AdmissionsOk(Do(s, a))
  {
    var s' := Do(s, a);
    forall p | p in s'.admitted ensures AdmissionOk(s', p) {
      if p in s.admitted { assert AdmissionOk(s, p); }
    }
  }

  lemma ClearKeepsBooks(s: State, a: Action)
    requires Inv(s) && Enabled(s, a) && ClearAction(a)
    ensures LatesOk(Do(s, a)) && BooksOk(Do(s, a))
  {
  }

  lemma LateAnswerKeepsAdmissions(s: State, a: Action)
    requires Inv(s) && Enabled(s, a) && a.LateAnswer?
    ensures AdmissionsOk(Do(s, a))
  {
    var s' := Do(s, a);
    forall p | p in s'.admitted ensures AdmissionOk(s', p) {
      assert AdmissionOk(s, p);
      assert LateCovers(s, a.gen, s.lates[a.gen], p);
    }
  }

  lemma LateClearKeepsAdmissions(s: State, a: Action)
    requires Inv(s) && Enabled(s, a) && a.LateClear?
    ensures AdmissionsOk(Do(s, a))
  {
    var s' := Do(s, a);
    forall p | p in s'.admitted ensures AdmissionOk(s', p) {
      assert AdmissionOk(s, p);
      assert LateCovers(s, a.gen, s.lates[a.gen], p);
    }
  }

  lemma LateAnswerKeepsBooks(s: State, a: Action)
    requires Inv(s) && Enabled(s, a) && a.LateAnswer?
    ensures LatesOk(Do(s, a)) && BooksOk(Do(s, a))
  {
  }

  lemma LateClearKeepsBooks(s: State, a: Action)
    requires Inv(s) && Enabled(s, a) && a.LateClear?
    ensures LatesOk(Do(s, a)) && BooksOk(Do(s, a))
  {
  }

  predicate LocalAction(a: Action) {
    a.ServerAppend? || a.BeginLocal? || a.SendLocal? || a.LocalWritten? || a.EndLocal? || a.Crash?
  }

  lemma LocalKeepsAdmissions(s: State, a: Action)
    requires Inv(s) && Enabled(s, a) && LocalAction(a)
    ensures AdmissionsOk(Do(s, a))
  {
    var s' := Do(s, a);
    forall p | p in s'.admitted ensures AdmissionOk(s', p) {
      if p in s.admitted { assert AdmissionOk(s, p); }
    }
  }

  lemma LocalKeepsLates(s: State, a: Action)
    requires LatesOk(s) && BooksOk(s) && AdmissionsOk(s) && Enabled(s, a) && LocalAction(a)
    ensures LatesOk(Do(s, a))
  {
  }

  lemma LocalKeepsBooks(s: State, a: Action)
    requires BooksOk(s) && Enabled(s, a) && LocalAction(a)
    ensures BooksOk(Do(s, a))
  {
  }

  lemma StepKeepsInv(s: State, a: Action)
    requires Inv(s) && Enabled(s, a)
    ensures Inv(Do(s, a))
  {
    if a.AdmitLive? { AdmitKeepsAdmissions(s, a); AdmitKeepsBooks(s, a); }
    else if a.LiveWrite? { LiveWriteKeepsAdmissions(s, a); LiveWriteKeepsBooks(s, a); }
    else if a.LiveClear? { LiveClearKeepsAdmissions(s, a); LiveClearKeepsBooks(s, a); }
    else if ProgressAction(a) {
      if a.BeginJob? { BeginKeepsAdmissions(s, a); } else { ProgressKeepsAdmissions(s, a); }
      ProgressKeepsBooks(s, a);
    }
    else if a.AskTimedOut? { HandoverKeepsAdmissions(s, a); HandoverKeepsBooks(s, a); }
    else if WriteAction(a) {
      if a.WriteAnswer? { WriteAnswerKeepsAdmissions(s, a); } else { WriteRestKeepsAdmissions(s, a); }
      WriteKeepsLates(s, a);
      WriteKeepsBooks(s, a);
    }
    else if FetchAction(a) { FetchKeepsAdmissions(s, a); FetchKeepsBooks(s, a); }
    else if AnswerAction(a) {
      if a.fetched { ReplayedKeepsAdmissions(s, a); } else { SnapshotKeepsAdmissions(s, a); }
      AnswerKeepsBooks(s, a);
    }
    else if ClearAction(a) { ClearKeepsAdmissions(s, a); ClearKeepsBooks(s, a); }
    else if a.LateAnswer? { LateAnswerKeepsAdmissions(s, a); LateAnswerKeepsBooks(s, a); }
    else if a.LateClear? { LateClearKeepsAdmissions(s, a); LateClearKeepsBooks(s, a); }
    else { LocalKeepsAdmissions(s, a); LocalKeepsLates(s, a); LocalKeepsBooks(s, a); }
  }

  lemma {:induction false} RunKeepsInv(tr: seq<State>, acts: seq<Action>, n: nat)
    requires IsRun(tr, acts) && n < |tr|
    ensures Inv(tr[n])
  {
    if n > 0 {
      RunKeepsInv(tr, acts, n - 1);
      assert StepAt(tr, acts, n - 1);
      StepKeepsInv(tr[n - 1], acts[n - 1]);
    }
  }

  // ----- the results ------------------------------------------------------------------------

  /** Crash safety: in every state of every run, crashes included, a live event or local write
      that was admitted and is not known to be in wacli.db has its durable intent. */
  lemma AdmittedDebtSurvives(tr: seq<State>, acts: seq<Action>, n: nat, p: nat)
    requires IsRun(tr, acts) && n < |tr| && p in tr[n].admitted && tr[n].admitted[p].kind != Fetched
    ensures p in tr[n].known || tr[n].admitted[p].gen in tr[n].intents
  {
    RunKeepsInv(tr, acts, n);
    assert AdmissionOk(tr[n], p);
  }

  /** What an action adds to the admitted mutations by fetching. */
  function FetchedBy(s: State, a: Action): set<nat> {
    match a
    case FetchIncremental(batch, _) => batch
    case FetchPartial(batch) => batch
    case Answer(upTo, fetched) => if fetched then Unadmitted(s, upTo) else {}
    case _ => {}
  }

  /** The two ways a mutation loses its cover: a continuation clears the generation it was
      fetched under before it is written, or it is fetched under a generation already cleared. */
  predicate Exposes(s: State, a: Action, p: nat) {
    || (a.LateClear? && p in LeftBehind(s, a.gen))
    || (s.job.Some? && s.job.value.gen !in s.intents && p in FetchedBy(s, a))
  }

  predicate HasCover(s: State, p: nat)
    requires p in s.admitted
  {
    p in s.known || s.admitted[p].gen in s.intents
  }

  lemma UndercutGrows(s: State, a: Action, p: nat)
    requires Enabled(s, a)
    ensures p in Do(s, a).undercut <==> p in s.undercut || Exposes(s, a, p)
  {
  }

  /** No step of any kind takes the cover of an admitted mutation, except that a continuation's
      clear takes it from exactly the unwritten ones fetched under its generation. */
  lemma CoverFallsOnlyToALateClear(tr: seq<State>, acts: seq<Action>, n: nat, p: nat)
    requires IsRun(tr, acts) && n < |acts| && p in tr[n].admitted && HasCover(tr[n], p)
    ensures p in tr[n + 1].admitted
    ensures !HasCover(tr[n + 1], p) <==> acts[n].LateClear? && p in LeftBehind(tr[n], acts[n].gen)
  {
    RunKeepsInv(tr, acts, n);
    RunKeepsInv(tr, acts, n + 1);
    assert StepAt(tr, acts, n);
    UndercutGrows(tr[n], acts[n], p);
    assert AdmissionOk(tr[n], p);
    AdmissionStays(tr[n], acts[n], p);
    if p in tr[n].known { KnownStays(tr[n], acts[n], p); }
    assert AdmissionOk(tr[n + 1], p);
    if Exposes(tr[n], acts[n], p) && !acts[n].LateClear? {
      FetchesAreNew(tr[n], acts[n], p);
    }
  }

  lemma AdmissionStays(s: State, a: Action, p: nat)
    requires Enabled(s, a) && p in s.admitted && p < s.head
    ensures p in Do(s, a).admitted && Do(s, a).admitted[p] == s.admitted[p]
  {
    if a.Answer? && a.fetched { AdmitAllKeeps(s.admitted, Unadmitted(s, a.upTo), s.job.value.gen, p); }
    else if FetchAction(a) { AdmitAllKeeps(s.admitted, a.batch, s.job.value.gen, p); }
  }

  lemma AdmitAllKeeps(admitted: map<nat, Admission>, batch: set<nat>, gen: nat, p: nat)
    requires p in admitted
    ensures p in AdmitAll(admitted, batch, gen) && AdmitAll(admitted, batch, gen)[p] == admitted[p]
  {
  }

  lemma KnownStays(s: State, a: Action, p: nat)
    requires Enabled(s, a) && p in s.known
    ensures p in Do(s, a).known
  {
  }

  lemma FetchesAreNew(s: State, a: Action, p: nat)
    requires Enabled(s, a) && p in FetchedBy(s, a)
    ensures p !in s.admitted
  {
  }

  /** A newly admitted mutation is without cover exactly when it was fetched while the attempt's
      own intent was no longer standing. */
  lemma NewcomersAreCoveredUnlessFetchedTooLate(tr: seq<State>, acts: seq<Action>, n: nat, p: nat)
    requires IsRun(tr, acts) && n < |acts| && p !in tr[n].admitted && p in tr[n + 1].admitted
    ensures !HasCover(tr[n + 1], p) <==>
            tr[n].job.Some? && tr[n].job.value.gen !in tr[n].intents && p in FetchedBy(tr[n], acts[n]) && p !in tr[n].known
  {
    RunKeepsInv(tr, acts, n);
    RunKeepsInv(tr, acts, n + 1);
    assert StepAt(tr, acts, n);
    UndercutGrows(tr[n], acts[n], p);
    assert AdmissionOk(tr[n + 1], p);
  }

  /** What would have to be checked at a step: a late generation is cleared only when nothing
      fetched under it is unwritten, and nothing unwritten is fetched once the attempt's own intent
      is gone. */
  predicate Guarded(s: State, a: Action) {
    && (a.LateClear? ==> LeftBehind(s, a.gen) == {})
    && (s.job.Some? && s.job.value.gen !in s.intents ==> FetchedBy(s, a) <= s.known)
  }

  ghost predicate AllCovered(s: State) {
    forall p :: p in s.admitted ==> HasCover(s, p)
  }

  lemma AGuardedStepKeepsAllCovered(tr: seq<State>, acts: seq<Action>, n: nat)
    requires IsRun(tr, acts) && n < |acts| && AllCovered(tr[n])
    ensures AllCovered(tr[n + 1]) <==> Guarded(tr[n], acts[n])
  {
    assert StepAt(tr, acts, n);
    var s, a, s' := tr[n], acts[n], tr[n + 1];
    forall p | p in s'.admitted && Guarded(s, a) ensures HasCover(s', p) {
      if p in s.admitted { CoverFallsOnlyToALateClear(tr, acts, n, p); }
      else { NewcomersAreCoveredUnlessFetchedTooLate(tr, acts, n, p); }
    }
    if a.LateClear? && LeftBehind(s, a.gen) != {} {
      var p :| p in LeftBehind(s, a.gen);
      CoverFallsOnlyToALateClear(tr, acts, n, p);
    } else if !Guarded(s, a) {
      var p :| p in FetchedBy(s, a) && p !in s.known;
      FetchesAreNew(s, a, p);
      FetchesAreAdmitted(s, a, p);
      NewcomersAreCoveredUnlessFetchedTooLate(tr, acts, n, p);
    }
  }

  lemma FetchesAreAdmitted(s: State, a: Action, p: nat)
    requires Enabled(s, a) && p in FetchedBy(s, a)
    ensures p in Do(s, a).admitted
  {
  }

  /** Crash safety for mutations of every kind holds throughout a run if and only if every step
      of it meets the two guards. */
  lemma {:induction false} DebtStandsExactlyWhenGuarded(tr: seq<State>, acts: seq<Action>, n: nat)
    requires IsRun(tr, acts) && n < |tr|
    ensures (forall i :: 0 <= i <= n ==> AllCovered(tr[i])) <==> (forall i :: 0 <= i < n ==> Guarded(tr[i], acts[i]))
  {
    if n == 0 {
      assert AllCovered(tr[0]);
    } else {
      DebtStandsExactlyWhenGuarded(tr, acts, n - 1);
      if AllCovered(tr[n - 1]) {
        AGuardedStepKeepsAllCovered(tr, acts, n - 1);
      }
    }
  }

  lemma {:induction false} UndercutIsWhatWasExposed(tr: seq<State>, acts: seq<Action>, n: nat, p: nat)
    requires IsRun(tr, acts) && n < |tr|
    ensures p in tr[n].undercut <==> exists i :: 0 <= i < n && Exposes(tr[i], acts[i], p)
  {
    if n > 0 {
      UndercutIsWhatWasExposed(tr, acts, n - 1, p);
      assert StepAt(tr, acts, n - 1);
      UndercutGrows(tr[n - 1], acts[n - 1], p);
    }
  }

  /** Mutation by mutation: one that is not written has its intent if and only if no step so far
      exposed it. */
  lemma FetchedDebtSurvivesUnlessExposed(tr: seq<State>, acts: seq<Action>, n: nat, p: nat)
    requires IsRun(tr, acts) && n < |tr| && p in tr[n].admitted && p !in tr[n].known
    ensures tr[n].admitted[p].gen in tr[n].intents <==> !exists i :: 0 <= i < n && Exposes(tr[i], acts[i], p)
  {
    RunKeepsInv(tr, acts, n);
    assert AdmissionOk(tr[n], p);
    UndercutIsWhatWasExposed(tr, acts, n, p);
  }

  predicate Covering(a: Action) {
    a.ClearThroughCovered? || a.LateClear?
  }

  /** The actor removes the intent of its own generation: a live event's or a job's. */
  predicate ClearsItsOwn(s: State, a: Action, g: nat) {
    || (a.LiveClear? && a.p in s.admitted && s.admitted[a.p].gen == g)
    || ((a.ClearOwn? || a.ClearThroughIncremental?) && s.job.Some? && s.job.value.gen == g)
  }

  lemma OnlyClearsRemoveIntents(s: State, a: Action, g: nat)
    requires BooksOk(s) && Enabled(s, a) && g in s.intents && g !in Do(s, a).intents
    ensures Covering(a) || ClearsItsOwn(s, a, g)
  {
  }

  lemma LocalIntentsAreNobodysOwn(s: State, a: Action, g: nat, p: nat)
    requires Inv(s) && Enabled(s, a) && p in s.admitted && s.admitted[p] == Admission(g, Local)
    ensures !ClearsItsOwn(s, a, g)
  {
    assert AdmissionOk(s, p);
    if a.LiveClear? {
      assert AdmissionOk(s, a.p) && AloneUnder(s, a.p, p);
    }
  }

  /** A generation that is not the actor's own falls only to a written replay or snapshot: the
      degraded path leaves all older debt standing, and a local write's intent outlives its
      own success. */
  lemma OlderDebtFallsOnlyToACover(tr: seq<State>, acts: seq<Action>, n: nat, g: nat)
    requires IsRun(tr, acts) && n < |acts| && g in tr[n].intents && g !in tr[n + 1].intents
    ensures Covering(acts[n]) || ClearsItsOwn(tr[n], acts[n], g)
    ensures (exists p :: p in tr[n].admitted && tr[n].admitted[p] == Admission(g, Local)) ==> Covering(acts[n])
  {
    RunKeepsInv(tr, acts, n);
    assert StepAt(tr, acts, n);
    OnlyClearsRemoveIntents(tr[n], acts[n], g);
    if p :| p in tr[n].admitted && tr[n].admitted[p] == Admission(g, Local) {
      LocalIntentsAreNobodysOwn(tr[n], acts[n], g, p);
    }
  }

  /** And it falls only once everything admitted under it is written (or was exposed). */
  lemma IntentsFallOnlyWhenWritten(tr: seq<State>, acts: seq<Action>, n: nat, g: nat, p: nat)
    requires IsRun(tr, acts) && n < |tr| && p in tr[n].admitted && g == tr[n].admitted[p].gen && g !in tr[n].intents
    ensures p in tr[n].known || exists i :: 0 <= i < n && Exposes(tr[i], acts[i], p)
  {
    RunKeepsInv(tr, acts, n);
    assert AdmissionOk(tr[n], p);
    UndercutIsWhatWasExposed(tr, acts, n, p);
  }

  // ----- what is paid is cleared ------------------------------------------------------------------

  predicate NewerOnly(intents: set<nat>, gen: nat) {
    forall g :: g in intents ==> g > gen
  }

  /** Every actor that has done its work clears its own intent: a written live event's is gone
      after its clear, a degraded attempt's after its own, and after a verified replay or snapshot
      neither the attempt's nor any older one is left. */
  lemma PaidDebtIsCleared(tr: seq<State>, acts: seq<Action>, n: nat)
    requires IsRun(tr, acts) && n < |acts|
    ensures acts[n].LiveClear? ==>
              acts[n].p in tr[n].admitted && tr[n].admitted[acts[n].p].gen !in tr[n + 1].intents && acts[n].p !in tr[n + 1].live
    ensures acts[n].ClearOwn? ==> tr[n].job.Some? && tr[n].job.value.gen !in tr[n + 1].intents && tr[n + 1].job.None?
    ensures acts[n].ClearThroughIncremental? || acts[n].ClearThroughCovered? ==>
              tr[n].job.Some? && tr[n + 1].job.None? && NewerOnly(tr[n + 1].intents, tr[n].job.value.gen)
    ensures acts[n].LateClear? ==>
              acts[n].gen !in tr[n + 1].lates && NewerOnly(tr[n + 1].intents, acts[n].gen)
  {
    assert StepAt(tr, acts, n);
  }

  /** An attempt asks for more than an incremental fetch exactly when some other intent stood. */
  lemma AttemptsSeeStandingDebt(tr: seq<State>, acts: seq<Action>, n: nat)
    requires IsRun(tr, acts) && n < |acts| && acts[n].BeginJob?
    ensures tr[n + 1].job.Some? && tr[n + 1].job.value.gen in tr[n + 1].intents && tr[n + 1].job.value.phase == Begun
    ensures tr[n + 1].job.value.required <==> exists g :: g in tr[n].intents
  {
    assert StepAt(tr, acts, n);
    RunKeepsInv(tr, acts, n);
  }

  /** What an attempt and its continuation have to show for each of their writes. */
  lemma WritesLeadOn(tr: seq<State>, acts: seq<Action>, n: nat)
    requires IsRun(tr, acts) && n < |acts|
    ensures acts[n] == WriteFetched(true) ==>
              && tr[n].job.Some? && tr[n].job.value.phase.Fetching? && tr[n].job.value.phase.batch <= tr[n + 1].known
              && tr[n + 1].job == Some(tr[n].job.value.(phase := Written(tr[n].job.value.phase.verified)))
    ensures acts[n] == WritePartial(true) ==>
              && tr[n].job.Some? && tr[n].job.value.phase.Partial? && tr[n].job.value.phase.batch <= tr[n + 1].known
              && tr[n + 1].job == Some(tr[n].job.value.(phase := Replaying))
    ensures acts[n] == WriteAnswer(true) ==>
              && tr[n].job.Some? && tr[n].job.value.phase.Answered? && KnownBelow(tr[n + 1], tr[n].job.value.phase.upTo)
              && tr[n + 1].job == Some(tr[n].job.value.(phase := Covered(tr[n].job.value.phase.upTo)))
    ensures acts[n].AskTimedOut? ==>
              && tr[n].job.Some? && tr[n + 1].job == Some(tr[n].job.value.(phase := Replaying))
              && tr[n].job.value.phase.Asked? && tr[n].job.value.gen in tr[n + 1].lates
              && tr[n + 1].lates[tr[n].job.value.gen] == LateAsked(tr[n].job.value.phase.floor)
    ensures acts[n].LateAnswer? && acts[n].ok ==>
              acts[n].gen in tr[n + 1].lates && tr[n + 1].lates[acts[n].gen].LateCovered? && KnownBelow(tr[n + 1], acts[n].upTo)
    ensures acts[n].LateAnswer? && !acts[n].ok ==> acts[n].gen !in tr[n + 1].lates
    ensures acts[n].LocalWritten? ==>
              tr[n].local.Some? && tr[n].local.value.sent.Some? && tr[n].local.value.sent.value in tr[n + 1].known
  {
    assert StepAt(tr, acts, n);
  }

  /** What an attempt holds after each of its fetches: exactly what it fetched, on record as admitted
      before any of it is written, and as trustworthy as the server said. */
  lemma FetchesLeadOn(tr: seq<State>, acts: seq<Action>, n: nat)
    requires IsRun(tr, acts) && n < |acts| && tr[n].job.Some?
    ensures acts[n].FetchIncremental? ==>
              && tr[n + 1].job == Some(tr[n].job.value.(phase := Fetching(acts[n].batch, acts[n].verified)))
              && acts[n].batch <= tr[n + 1].admitted.Keys
    ensures acts[n].FetchPartial? ==>
              && tr[n + 1].job == Some(tr[n].job.value.(phase := Partial(acts[n].batch)))
              && acts[n].batch <= tr[n + 1].admitted.Keys
    ensures acts[n].Answer? ==> tr[n + 1].job == Some(tr[n].job.value.(phase := Answered(acts[n].upTo)))
    ensures acts[n].Ask? ==> tr[n + 1].job == Some(tr[n].job.value.(phase := Asked(tr[n].head)))
    ensures acts[n].FetchIncremental? || acts[n].FetchPartial? || acts[n].Answer? || acts[n].Ask? ==>
              tr[n + 1].known == tr[n].known && tr[n + 1].intents == tr[n].intents
  {
    assert StepAt(tr, acts, n);
  }

  /** Somebody is still at work under the generation. */
  predicate AtWork(s: State, g: nat) {
    || (s.job.Some? && s.job.value.gen == g)
    || (s.local.Some? && s.local.value.gen == g)
    || (exists p :: p in s.live && p in s.admitted && s.admitted[p].gen == g)
  }

  /** The step ends the work under `g` without a clear: a failed write, an attempt given up, a
      local write (which leaves its intent on purpose) or a crash. */
  predicate Abandons(s: State, a: Action, g: nat) {
    match a
    case LiveWrite(p, ok) => !ok && p in s.admitted && s.admitted[p].gen == g
    case WriteFetched(ok) => !ok && s.job.Some? && s.job.value.gen == g
    case WritePartial(ok) => !ok && s.job.Some? && s.job.value.gen == g
    case WriteAnswer(ok) => !ok && s.job.Some? && s.job.value.gen == g
    case GiveUp => s.job.Some? && s.job.value.gen == g
    case EndLocal => s.local.Some? && s.local.value.gen == g
    case Crash => true
    case _ => false
  }

  /** Abandoned work is not taken up again: nobody is at work under its generation afterwards, its
      intent is left standing, and a crash ends every continuation too. */
  lemma AbandonedWorkIsOver(tr: seq<State>, acts: seq<Action>, n: nat, g: nat)
    requires IsRun(tr, acts) && n < |acts| && Abandons(tr[n], acts[n], g)
    ensures !AtWork(tr[n + 1], g)
    ensures tr[n + 1].intents == tr[n].intents && tr[n + 1].known == tr[n].known
    ensures acts[n].Crash? ==> tr[n + 1].lates == map[]
  {
    assert StepAt(tr, acts, n);
    RunKeepsInv(tr, acts, n);
    var s' := tr[n + 1];
    forall p | p in s'.live && p in s'.admitted ensures s'.admitted[p].gen != g {
      assert AdmissionOk(tr[n], p);
      if acts[n].LiveWrite? { assert AdmissionOk(tr[n], acts[n].p) && AloneUnder(tr[n], acts[n].p, p); }
    }
  }

  lemma LiveWorkStays(s: State, a: Action, g: nat, p: nat)
    requires Inv(s) && Enabled(s, a) && g in Do(s, a).intents && !Abandons(s, a, g)
    requires p in s.live && p in s.admitted && s.admitted[p].gen == g
    ensures p in Do(s, a).live && p in Do(s, a).admitted && Do(s, a).admitted[p].gen == g
  {
    assert AdmissionOk(s, p);
    AdmissionStays(s, a, p);
  }

  lemma JobStays(s: State, a: Action, g: nat)
    requires Enabled(s, a) && g in Do(s, a).intents && !Abandons(s, a, g) && s.job.Some? && s.job.value.gen == g
    ensures Do(s, a).job.Some? && Do(s, a).job.value.gen == g
  {
  }

  lemma LocalStays(s: State, a: Action, g: nat)
    requires BooksOk(s) && Enabled(s, a) && !Abandons(s, a, g) && s.local.Some? && s.local.value.gen == g
    ensures Do(s, a).local.Some? && Do(s, a).local.value.gen == g
  {
  }

  lemma NewIntentsAreWorkedOn(s: State, a: Action, g: nat)
    requires Enabled(s, a) && g !in s.intents && g in Do(s, a).intents
    ensures AtWork(Do(s, a), g)
  {
    if a.AdmitLive? {
      assert a.p in Do(s, a).live && Do(s, a).admitted[a.p].gen == g;
    }
  }

  /** No intent outlives its purpose: one that stands is being worked on, or its work was
      abandoned on the way. So once every actor has written and cleared, and none was abandoned,
      no debt is left and no recovery is asked for. */
  lemma {:induction false} StandingIntentsHaveAReason(tr: seq<State>, acts: seq<Action>, n: nat, g: nat)
    requires IsRun(tr, acts) && n < |tr| && g in tr[n].intents
    ensures AtWork(tr[n], g) || exists i :: 0 <= i < n && Abandons(tr[i], acts[i], g)
  {
    if n > 0 {
      var s, a := tr[n - 1], acts[n - 1];
      assert StepAt(tr, acts, n - 1);
      RunKeepsInv(tr, acts, n - 1);
      if g in s.intents {
        StandingIntentsHaveAReason(tr, acts, n - 1, g);
        if !Abandons(s, a, g) && AtWork(s, g) { AtWorkStays(s, a, g); }
      } else {
        NewIntentsAreWorkedOn(s, a, g);
      }
    }
  }

  lemma AtWorkStays(s: State, a: Action, g: nat)
    requires Inv(s) && Enabled(s, a) && g in Do(s, a).intents && !Abandons(s, a, g) && AtWork(s, g)
    ensures AtWork(Do(s, a), g)
  {
    if p :| p in s.live && p in s.admitted && s.admitted[p].gen == g {
      LiveWorkStays(s, a, g, p);
    } else if s.job.Some? && s.job.value.gen == g {
      JobStays(s, a, g);
    } else {
      LocalStays(s, a, g);
    }
  }

  /** An attempt that fetches a full replay, or part of one, after handing its capture to a
      continuation. */
  predicate RefetchesAfterHandover(s: State, a: Action) {
    ((a.Answer? && a.fetched) || a.FetchPartial?) && s.job.Some? && s.job.value.gen in s.handed
  }

  ghost predicate NothingUndercut(s: State) {
    && s.undercut == {}
    && s.lates.Keys <= s.handed
    && (forall g :: g in s.handed ==> g < s.nextGen)
    && (s.job.Some? && s.job.value.gen !in s.handed ==> s.job.value.gen in s.intents)
    && (s.job.Some? && Early(s.job.value.phase) ==> s.job.value.gen !in s.handed)
    && forall g, p :: g in s.lates && p in s.admitted && s.admitted[p].gen <= g ==> p < s.lates[g].floor
  }

  lemma NothingUndercutClear(s: State, a: Action)
    requires Inv(s) && NothingUndercut(s) && Enabled(s, a) && a.LateClear?
    ensures NothingUndercut(Do(s, a))
  {
    forall p | p in s.admitted && s.admitted[p] == Admission(a.gen, Fetched) ensures p in s.known {
      assert p < s.lates[a.gen].floor;
    }
    assert LeftBehind(s, a.gen) == {};
  }

  lemma NothingUndercutHandover(s: State, a: Action)
    requires Inv(s) && NothingUndercut(s) && Enabled(s, a) && a.AskTimedOut?
    ensures NothingUndercut(Do(s, a))
  {
    forall p | p in s.admitted && s.admitted[p].gen <= s.job.value.gen ensures p < s.job.value.phase.floor {
      assert AdmissionOk(s, p);
    }
  }

  lemma NothingUndercutFetch(s: State, a: Action)
    requires Inv(s) && NothingUndercut(s) && Enabled(s, a) && !RefetchesAfterHandover(s, a)
    requires FetchAction(a) || AnswerAction(a)
    ensures NothingUndercut(Do(s, a))
  {
    var s' := Do(s, a);
    forall g, p | g in s'.lates && p in s'.admitted && s'.admitted[p].gen <= g ensures p < s'.lates[g].floor {
      assert LateOk(s, g, s.lates[g]);
    }
  }

  lemma NothingUndercutProgress(s: State, a: Action)
    requires Inv(s) && NothingUndercut(s) && Enabled(s, a) && ProgressAction(a)
    ensures NothingUndercut(Do(s, a))
  {
  }

  lemma NothingUndercutWrite(s: State, a: Action)
    requires NothingUndercut(s) && Enabled(s, a) && WriteAction(a)
    ensures NothingUndercut(Do(s, a))
  {
  }

  lemma NothingUndercutLateAnswer(s: State, a: Action)
    requires Inv(s) && NothingUndercut(s) && Enabled(s, a) && a.LateAnswer?
    ensures NothingUndercut(Do(s, a))
  {
  }

  lemma NothingUndercutJobClear(s: State, a: Action)
    requires Inv(s) && NothingUndercut(s) && Enabled(s, a) && ClearAction(a)
    ensures NothingUndercut(Do(s, a))
  {
  }

  lemma NothingUndercutLocal(s: State, a: Action)
    requires Inv(s) && NothingUndercut(s) && Enabled(s, a) && LocalAction(a)
    ensures NothingUndercut(Do(s, a))
  {
  }

  lemma NothingUndercutLive(s: State, a: Action)
    requires Inv(s) && NothingUndercut(s) && Enabled(s, a) && LiveAction(a)
    ensures NothingUndercut(Do(s, a))
  {
    if a.LiveClear? { assert AdmissionOk(s, a.p); }
  }

  lemma NothingUndercutStep(s: State, a: Action)
    requires Inv(s) && NothingUndercut(s) && Enabled(s, a) && !RefetchesAfterHandover(s, a)
    ensures NothingUndercut(Do(s, a))
  {
    if a.LateClear? { NothingUndercutClear(s, a); }
    else if a.AskTimedOut? { NothingUndercutHandover(s, a); }
    else if FetchAction(a) || AnswerAction(a) { NothingUndercutFetch(s, a); }
    else if LiveAction(a) { NothingUndercutLive(s, a); }
    else if ClearAction(a) { NothingUndercutJobClear(s, a); }
    else if LocalAction(a) { NothingUndercutLocal(s, a); }
    else if ProgressAction(a) { NothingUndercutProgress(s, a); }
    else if WriteAction(a) { NothingUndercutWrite(s, a); }
    else { NothingUndercutLateAnswer(s, a); }
  }

  /** The exposure needs a second fetch: in a run where no attempt fetches a full replay after
      it handed its capture over, no mutation of any kind is ever without cover. */
  lemma {:induction false} NoRefetchNoExposure(tr: seq<State>, acts: seq<Action>, n: nat)
    requires IsRun(tr, acts) && n < |tr|
    requires forall i :: 0 <= i < n ==> !RefetchesAfterHandover(tr[i], acts[i])
    ensures NothingUndercut(tr[n])
    ensures forall p :: p in tr[n].admitted ==> p in tr[n].known || tr[n].admitted[p].gen in tr[n].intents
  {
    RunKeepsInv(tr, acts, n);
    if n > 0 {
      NoRefetchNoExposure(tr, acts, n - 1);
      RunKeepsInv(tr, acts, n - 1);
      assert StepAt(tr, acts, n - 1);
      NothingUndercutStep(tr[n - 1], acts[n - 1]);
    }
    forall p | p in tr[n].admitted ensures p in tr[n].known || tr[n].admitted[p].gen in tr[n].intents {
      assert AdmissionOk(tr[n], p);
    }
  }

  ghost predicate ClearsExposeNothing(tr: seq<State>, acts: seq<Action>)
    requires |tr| == |acts| + 1
  {
    forall i :: 0 <= i < |acts| && acts[i].LateClear? ==> LeftBehind(tr[i], acts[i].gen) == {}
  }

  lemma ExtendRun(tr: seq<State>, acts: seq<Action>, a: Action, t: State) returns (tr': seq<State>, acts': seq<Action>)
    requires IsRun(tr, acts) && Enabled(tr[|acts|], a) && t == Do(tr[|acts|], a)
    ensures tr' == tr + [t] && acts' == acts + [a] && IsRun(tr', acts') && tr'[|acts'|] == t
    ensures ClearsExposeNothing(tr, acts) && (a.LateClear? ==> LeftBehind(tr[|acts|], a.gen) == {}) ==>
              ClearsExposeNothing(tr', acts')
  {
    tr', acts' := tr + [t], acts + [a];
    forall i: nat | i < |acts'| ensures StepAt(tr', acts', i) {
      if i < |acts| { assert StepAt(tr, acts, i); }
    }
  }

  /** An attempt begins and finds that it needs a replay. */
  lemma AttemptBegins() returns (tr: seq<State>, acts: seq<Action>)
    ensures IsRun(tr, acts) && ClearsExposeNothing(tr, acts)
    ensures tr[|acts|] == State(2, {1}, 0, map[], {}, {}, map[], Some(Job(1, false, Replaying)), None, map[], {})
  {
    var s1 := Init().(nextGen := 2, intents := {1}, job := Some(Job(1, false, Begun)));
    assert s1 == Do(Init(), BeginJob);
    tr, acts := ExtendRun([Init()], [], BeginJob, s1);
    tr, acts := ExtendRun(tr, acts, StartReplay, s1.(job := Some(Job(1, false, Replaying))));
  }

  /** It asks for a snapshot, times out and leaves a continuation behind. */
  lemma AttemptHandsOver() returns (tr: seq<State>, acts: seq<Action>)
    ensures IsRun(tr, acts) && ClearsExposeNothing(tr, acts)
    ensures tr[|acts|] == State(2, {1}, 0, map[], {}, {}, map[], Some(Job(1, false, Replaying)), None, map[1 := LateAsked(0)], {1})
  {
    tr, acts := AttemptBegins();
    var s2 := tr[|acts|];
    tr, acts := ExtendRun(tr, acts, Ask, s2.(job := Some(Job(1, false, Asked(0)))));
    var s4 := s2.(lates := map[1 := LateAsked(0)], handed := {1});
    tr, acts := ExtendRun(tr, acts, AskTimedOut, s4);
  }

  /** The server takes one more mutation and the attempt asks for a full replay. */
  lemma ServerMovesOn(tr0: seq<State>, acts0: seq<Action>) returns (tr: seq<State>, acts: seq<Action>)
    requires IsRun(tr0, acts0) && tr0[|acts0|].head == 0 && tr0[|acts0|].job == Some(Job(1, false, Replaying))
    ensures IsRun(tr, acts) && (ClearsExposeNothing(tr0, acts0) ==> ClearsExposeNothing(tr, acts))
    ensures tr[|acts|] == tr0[|acts0|].(head := 1, job := Some(Job(1, false, Asked(1))))
  {
    var s := tr0[|acts0|];
    tr, acts := ExtendRun(tr0, acts0, ServerAppend, s.(head := 1));
    tr, acts := ExtendRun(tr, acts, Ask, s.(head := 1, job := Some(Job(1, false, Asked(1)))));
  }

  lemma OneNewcomer(s: State)
    requires s.admitted == map[]
    ensures Prefix(0) == {} && Unadmitted(s, 1) == {0} && AdmitAll(s.admitted, {0}, 1) == map[0 := Admission(1, Fetched)]
  {
    assert Prefix(0) == {} && Prefix(1) == {0};
  }

  /** The replay fetches it. */
  lemma AttemptRefetches() returns (tr: seq<State>, acts: seq<Action>)
    ensures IsRun(tr, acts)
    ensures tr[|acts|] == State(2, {1}, 1, map[0 := Admission(1, Fetched)], {}, {}, map[], Some(Job(1, false, Answered(1))),
                                None, map[1 := LateAsked(0)], {1})
  {
    tr, acts := AttemptHandsOver();
    tr, acts := ServerMovesOn(tr, acts);
    var s := tr[|acts|];
    OneNewcomer(s);
    tr, acts := ExtendRun(tr, acts, Answer(1, true),
                          s.(job := Some(Job(1, false, Answered(1))), admitted := map[0 := Admission(1, Fetched)]));
  }

  /** The late snapshot, older than that mutation, arrives and clears the shared generation. */
  lemma LateSnapshotUndercuts() returns (tr: seq<State>, acts: seq<Action>)
    ensures IsRun(tr, acts)
    ensures tr[|acts|] == State(2, {}, 1, map[0 := Admission(1, Fetched)], {}, {0}, map[], Some(Job(1, false, Answered(1))),
                                None, map[], {1})
  {
    tr, acts := AttemptRefetches();
    var s7 := tr[|acts|];
    assert Prefix(0) == {};
    var s8 := s7.(lates := map[1 := LateCovered(0, 0)]);
    tr, acts := ExtendRun(tr, acts, LateAnswer(1, 0, true), s8);
    assert LeftBehind(s8, 1) == {0};
    tr, acts := ExtendRun(tr, acts, LateClear(1), s8.(intents := {}, lates := map[], undercut := {0}));
  }

  /** The replay's own database write then fails: nothing stands for the mutation any more. */
  lemma AFetchedMutationCanBeExposed() returns (tr: seq<State>, acts: seq<Action>)
    ensures IsRun(tr, acts)
    ensures 0 in tr[|acts|].admitted && 0 !in tr[|acts|].known && tr[|acts|].intents == {}
    ensures tr[|acts|].job.None? && tr[|acts|].lates == map[]
  {
    tr, acts := LateSnapshotUndercuts();
    tr, acts := ExtendRun(tr, acts, WriteAnswer(false), tr[|acts|].(job := None));
  }

  /** The other route: the late snapshot comes first and clears the generation with nothing
      fetched under it, so that clear exposes nothing. */
  lemma GenerationClearedEarly() returns (tr: seq<State>, acts: seq<Action>)
    ensures IsRun(tr, acts) && ClearsExposeNothing(tr, acts)
    ensures tr[|acts|] == State(2, {}, 0, map[], {}, {}, map[], Some(Job(1, false, Replaying)), None, map[], {1})
  {
    tr, acts := AttemptHandsOver();
    var s4 := tr[|acts|];
    assert Prefix(0) == {};
    var s5 := s4.(lates := map[1 := LateCovered(0, 0)]);
    tr, acts := ExtendRun(tr, acts, LateAnswer(1, 0, true), s5);
    assert LeftBehind(s5, 1) == {};
    tr, acts := ExtendRun(tr, acts, LateClear(1), s5.(intents := {}, lates := map[]));
  }

  /** The attempt then fetches a new mutation under the cleared generation, and its database
      write fails: again nothing stands for the mutation, although no clear ever exposed
      anything. */
  lemma AFetchTooLateCanBeExposed() returns (tr: seq<State>, acts: seq<Action>)
    ensures IsRun(tr, acts) && ClearsExposeNothing(tr, acts)
    ensures 0 in tr[|acts|].admitted && 0 !in tr[|acts|].known && tr[|acts|].intents == {}
    ensures tr[|acts|].job.None? && tr[|acts|].lates == map[]
  {
    tr, acts := GenerationClearedEarly();
    tr, acts := ServerMovesOn(tr, acts);
    var s := tr[|acts|];
    OneNewcomer(s);
    var t := s.(job := Some(Job(1, false, Answered(1))), admitted := map[0 := Admission(1, Fetched)], undercut := {0});
    tr, acts := ExtendRun(tr, acts, Answer(1, true), t);
    tr, acts := ExtendRun(tr, acts, WriteAnswer(false), t.(job := None));
  }
}
