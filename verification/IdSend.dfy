/** The retry guard of a send under a caller-chosen id: the stored-message check, the pending
    row written before the wire, and the way each outcome closes it. */
module IdSend {
  import opened Strings
  import opened Wrappers

  datatype Kind = Text | File | Voice | Sticker | Location | Poll | React | Forward

  /** `to` is the recipient as typed. Only the fields the content check reads are kept. */
  datatype Request = Request(kind: Kind, to: string, message: string, caption: string, question: string, name: string)

  /** A stored message of this account. */
  datatype OwnRef = OwnRef(chat: string, mediaType: string, text: string)

  datatype RowState = InFlight | Sent | Done

  /** `hash` stands for the stored digest; see ContentHash. */
  datatype Row = Row(chat: string, typedTo: string, kind: Kind, hash: Hash, state: RowState, createdAt: int)

  /** The digest covers exactly the kind and the trimmed text. */
  datatype Hash = Hash(kind: Kind, text: string)

  const RETENTION_SECONDS := 7 * 24 * 60 * 60

  function ContentHash(kind: Kind, text: string): Hash {
    Hash(kind, TrimSpace(text))
  }

  function RequestText(r: Request): string {
    if r.message != "" then r.message
    else if r.caption != "" then r.caption
    else if r.question != "" then r.question
    else r.name
  }

  function RequestHash(r: Request): Hash {
    ContentHash(r.kind, RequestText(r))
  }

  // ----- the guard ---------------------------------------------------------------------

  datatype Answer =
    | Continue
    | AlreadySent(to: string)
    | IdReused
    | OutcomeUnknown

  predicate ReusedForAnother(r: Request, ref: OwnRef) {
    r.kind.Text? && (TrimSpace(ref.text) != TrimSpace(r.message) || TrimSpace(ref.mediaType) != "")
  }

  /** First half: what the stored message, or a row in state "sent", already answers. */
  function StoredCheck(stored: Option<OwnRef>, row: Option<Row>, r: Request): Answer {
    match stored
    case Some(ref) => if ReusedForAnother(r, ref) then IdReused else AlreadySent(ref.chat)
    case None =>
      if row.None? || !row.value.state.Sent? then Continue
      else if row.value.kind != r.kind || row.value.hash != RequestHash(r) then IdReused
      else AlreadySent(row.value.chat)
  }

  function NewRow(r: Request, now: int): Row {
    Row(TrimSpace(r.to), TrimSpace(r.to), r.kind, RequestHash(r), InFlight, now)
  }

  /** Second half: record the send before anything goes on the wire. A finished row whose
      message is gone is removed first; `removed` says whether that delete worked. */
  function BeginCheck(row: Option<Row>, r: Request, removed: bool): Answer {
    if row.None? || (row.value.state.Done? && removed) then Continue
    else if row.value.kind != r.kind || row.value.hash != RequestHash(r) then IdReused
    else OutcomeUnknown
  }

  function BeginRow(row: Option<Row>, r: Request, now: int, removed: bool): Option<Row> {
    if BeginCheck(row, r, removed).Continue? then Some(NewRow(r, now)) else row
  }

  /** `ServerReply`: the server's own error answer. `ContextEnded`: deadline or cancellation. */
  datatype SendError = ServerReply | ContextEnded | OtherError

  /** How the row is closed. `phase` is the dispatch mark, when the kind carries one. */
  function FinishRow(row: Option<Row>, err: Option<SendError>, storeWarning: bool, phase: Option<bool>, chat: string): Option<Row> {
    if row.None? then None
    else
      var kept := if chat != "" then row.value.(chat := chat) else row.value;
      match err
      case None => Some(kept.(state := if storeWarning then Sent else Done))
      case Some(e) =>
        if phase == Some(true) && !e.ServerReply? then row
        else if phase.None? && e.ContextEnded? then row
        else None
  }

  /** A spent id is never resent: the send goes on exactly when no message is stored under the
      id and no row stands but one whose stored message has since been purged. */
  lemma SendsExactlyWhenIdIsFree(stored: Option<OwnRef>, row: Option<Row>, r: Request, removed: bool)
    ensures StoredCheck(stored, row, r).Continue? && BeginCheck(row, r, removed).Continue?
            <==> stored.None? && (row.None? || (row.value.state.Done? && removed))
  {
  }

  // ----- the two tables ------------------------------------------------------------------

  function Get<V>(m: map<string, V>, id: string): Option<V> {
    if id in m then Some(m[id]) else None
  }

  class SendLedger {
    var messages: map<string, OwnRef>
    var pending: map<string, Row>

    /** The rows left by the expiry statement, which may fail unnoticed. */
    function Swept(now: int, swept: bool): map<string, Row>
      reads this
    {
      if swept then map id | id in pending && pending[id].createdAt >= now - RETENTION_SECONDS :: pending[id] else pending
    }

    method CheckStored(id: string, r: Request) returns (a: Answer)
      ensures a == StoredCheck(Get(messages, id), Get(pending, id), r)
    {
      if id !in messages {
        if id !in pending || !pending[id].state.Sent? { return Continue; }
        if pending[id].kind != r.kind || pending[id].hash != RequestHash(r) { return IdReused; }
        return AlreadySent(pending[id].chat);
      }
      if ReusedForAnother(r, messages[id]) { return IdReused; }
      return AlreadySent(messages[id].chat);
    }

    method InsertOrGet(id: string, row: Row, now: int, swept: bool) returns (existing: Row, inserted: bool)
      modifies this`pending
      ensures inserted <==> id !in old(Swept(now, swept))
      ensures inserted ==> pending == old(Swept(now, swept))[id := row]
      ensures !inserted ==> pending == old(Swept(now, swept)) && existing == pending[id]
      // Rows are kept for seven days, and no longer once the expiry statement has run.
      ensures forall k :: k in old(pending) && old(pending)[k].createdAt + 604800 >= now ==> k in pending && pending[k] == old(pending)[k]
      ensures swept ==> forall k :: k in pending && k != id ==> pending[k].createdAt + 604800 >= now
    {
      if swept {
        pending := map k | k in pending && pending[k].createdAt >= now - RETENTION_SECONDS :: pending[k];
      }
      if id in pending { return pending[id], false; }
      pending := pending[id := row];
      return row, true;
    }

    /** Whether a finished row is out of the way for the second insert: deleted by name, or by the
        second expiry statement. */
    predicate Gone(id: string, now: int, removed: bool, sweptAgain: bool)
      reads this
    {
      removed || (sweptAgain && id in pending && pending[id].createdAt < now - RETENTION_SECONDS)
    }

    predicate Finished(id: string, now: int, swept: bool)
      reads this
    {
      id in Swept(now, swept) && Swept(now, swept)[id].state.Done?
    }

    method Begin(id: string, r: Request, now: int, swept: bool, removed: bool, sweptAgain: bool) returns (a: Answer)
      modifies this`pending
      ensures a == BeginCheck(Get(old(Swept(now, swept)), id), r, old(Gone(id, now, removed, sweptAgain)))
      ensures Get(pending, id) ==
              BeginRow(Get(old(Swept(now, swept)), id), r, now, old(Gone(id, now, removed, sweptAgain)))
      ensures forall k :: k != id ==>
                Get(pending, k) == Get(old(Swept(now, swept || (sweptAgain && Finished(id, now, swept)))), k)
    {
      var row := NewRow(r, now);
      var existing, inserted := InsertOrGet(id, row, now, swept);
      if !inserted && existing.state.Done? {
        if removed { pending := pending - {id}; }
        existing, inserted := InsertOrGet(id, row, now, sweptAgain);
      }
      if inserted { return Continue; }
      if existing.kind != row.kind || existing.hash != row.hash { return IdReused; }
      return OutcomeUnknown;
    }

    /** `written` says whether the closing statement reached the database. */
    method Finish(id: string, err: Option<SendError>, storeWarning: bool, phase: Option<bool>, chat: string, written: bool)
      modifies this`pending
      ensures Get(pending, id) ==
              if written then FinishRow(Get(old(pending), id), err, storeWarning, phase, chat) else Get(old(pending), id)
      ensures forall k :: k != id ==> Get(pending, k) == Get(old(pending), k)
    {
      if !written || id !in pending { return; }
      if err.None? {
        var row := if chat != "" then pending[id].(chat := chat) else pending[id];
        pending := pending[id := row.(state := if storeWarning then Sent else Done)];
      } else if phase == Some(true) && !err.value.ServerReply? {
      } else if phase.None? && err.value.ContextEnded? {
      } else {
        pending := pending - {id};
      }
    }
  }

  // ----- one id over every run -------------------------------------------------------------

  /** What a send without a store warning leaves behind. */
  predicate Leaves(r: Request, ref: OwnRef) {
    match r.kind
    case Text => ref.mediaType == "" && ref.text == r.message
    case Poll => ref.mediaType == "" && ref.text == "Poll: " + r.question
    case React => ref.mediaType == "" && ref.text == ""
    case Forward => true
    case _ => TrimSpace(ref.mediaType) != ""
  }

  /** The attempt that holds the send slot. */
  datatype Stage =
    | Free
    | Checked(r: Request)
    | Begun(r: Request, tries: nat, marked: bool)
    | OnWire(r: Request)
    | Closing(r: Request, err: Option<SendError>, storeWarning: bool, marked: bool)

  datatype State = State(
    stored: Option<OwnRef>,
    storedBy: Option<Request>,  // the request that left the stored message
    row: Option<Row>,
    stage: Stage,
    accepted: set<Request>,     // requests the server accepted under this id
    exposed: nat,               // attempts accepted or unknown since the last release or purge
    last: Option<(Request, Answer)>)

  datatype Action =
    | Start(r: Request)
    | Begin(now: int, removed: bool, failed: bool)
    | FailBeforeWire(marked: bool, retry: bool)
    | Dispatch
    | ServerRejects
    | ServerAccepts(ref: OwnRef, storedOk: bool)
    | NoAnswer(reallyAccepted: bool, err: SendError)
    | Finish(chat: string, written: bool)
    | Crash(reallyAccepted: bool)
    | Deliver(r: Request, ref: OwnRef)
    | Purge      // the stored message is deleted
    | Release    // the row is cleared by hand or has expired

  function Init(): State {
    State(None, None, None, Free, {}, 0, None)
  }

  /** The client puts a text in the message field and nothing else. */
  predicate WellFormed(r: Request) {
    r.kind.Text? ==> r.caption == "" && r.question == "" && r.name == ""
  }

  predicate Enabled(s: State, a: Action) {
    match a
    case Start(r) => s.stage.Free? && WellFormed(r)
    case Begin(_, _, _) => s.stage.Checked?
    case FailBeforeWire(_, retry) => s.stage.Begun? && (retry ==> s.stage.tries == 0)
    case Dispatch => s.stage.Begun?
    case ServerRejects => s.stage.OnWire? && s.exposed > 0
    case ServerAccepts(ref, _) => s.stage.OnWire? && Leaves(s.stage.r, ref)
    case NoAnswer(_, err) => s.stage.OnWire? && !err.ServerReply?
    case Finish(_, _) => s.stage.Closing?
    case Crash(_) => true
    case Deliver(r, ref) => r in s.accepted && s.stored.None? && Leaves(r, ref)
    case Purge => s.stored.Some?
    case Release => s.stage.Free? || s.stage.Checked?
  }

  function Do(s: State, a: Action): State
    requires Enabled(s, a)
  {
    match a
    case Start(r) =>
      var answer := StoredCheck(s.stored, s.row, r);
      s.(stage := if answer.Continue? then Checked(r) else Free, last := Some((r, answer)))
    case Begin(now, removed, failed) =>
      if failed then s.(stage := Free)
      else
        var answer := BeginCheck(s.row, s.stage.r, removed);
        s.(row := BeginRow(s.row, s.stage.r, now, removed),
           stage := if answer.Continue? then Begun(s.stage.r, 0, false) else Free,
           last := Some((s.stage.r, answer)))
    case FailBeforeWire(marked, retry) =>
      if retry then s.(stage := Begun(s.stage.r, 1, s.stage.marked || marked))
      else s.(stage := Closing(s.stage.r, Some(OtherError), false, s.stage.marked || marked))
    case Dispatch => s.(stage := OnWire(s.stage.r), exposed := s.exposed + 1)
    case ServerRejects => s.(stage := Closing(s.stage.r, Some(ServerReply), false, true), exposed := s.exposed - 1)
    case ServerAccepts(ref, storedOk) =>
      s.(stage := Closing(s.stage.r, None, !storedOk, true),
         stored := if storedOk then Some(ref) else s.stored,
         storedBy := if storedOk then Some(s.stage.r) else s.storedBy,
         accepted := s.accepted + {s.stage.r})
    case NoAnswer(reallyAccepted, err) =>
      s.(stage := Closing(s.stage.r, Some(err), false, true),
         accepted := if reallyAccepted then s.accepted + {s.stage.r} else s.accepted)
    case Finish(chat, written) =>
      s.(stage := Free,
         row := if written then FinishRow(s.row, s.stage.err, s.stage.storeWarning, Some(s.stage.marked), chat) else s.row)
    case Crash(reallyAccepted) =>
      s.(stage := Free,
         accepted := if reallyAccepted && s.stage.OnWire? then s.accepted + {s.stage.r} else s.accepted)
    case Deliver(r, ref) => s.(stored := Some(ref), storedBy := Some(r))
    case Purge => s.(stored := None, storedBy := None, exposed := 0)
    case Release => s.(row := None, exposed := if s.stored.Some? && s.stage.Free? then s.exposed else 0)
  }

  predicate StepAt(tr: seq<State>, acts: seq<Action>, i: nat)
    requires |tr| == |acts| + 1 && i < |acts|
  {
    Enabled(tr[i], acts[i]) && tr[i + 1] == Do(tr[i], acts[i])
  }

  ghost predicate IsRun(tr: seq<State>, acts: seq<Action>) {
    && |tr| == |acts| + 1
    && tr[0] == Init()
    && forall i: nat :: i < |acts| ==> StepAt(tr, acts, i)
  }

  /** Something local still says the id is spent. */
  predicate Evidence(s: State) {
    s.stored.Some? || (s.row.Some? && !s.row.value.state.Done?)
  }

  predicate InFlightRow(s: State) {
    s.row.Some? && s.row.value.state.InFlight?
  }

  ghost predicate ExposureOk(s: State) {
    && s.exposed <= 1
    && match s.stage
       case Free => s.exposed == 1 ==> Evidence(s)
       case Checked(_) => (s.row.Some? ==> !s.row.value.state.Sent?) && (s.exposed == 1 ==> InFlightRow(s))
       case Begun(_, _, _) => s.exposed == 0 && InFlightRow(s)
       case OnWire(_) => InFlightRow(s)
       case Closing(_, err, warning, marked) =>
         && InFlightRow(s)
         && match err
            case None => !warning ==> s.stored.Some? || s.exposed == 0
            case Some(ServerReply) => s.exposed == 0
            case Some(_) => s.exposed == 1 ==> marked
  }

  ghost predicate ProvenanceOk(s: State) {
    && (s.stored.Some? <==> s.storedBy.Some?)
    && (s.stored.Some? ==> s.storedBy.value in s.accepted && Leaves(s.storedBy.value, s.stored.value))
    && (s.row.Some? && !s.row.value.state.InFlight? ==>
          exists r :: r in s.accepted && r.kind == s.row.value.kind && RequestHash(r) == s.row.value.hash)
    && (s.stage.Begun? || s.stage.OnWire? || s.stage.Closing? ==>
          s.row.Some? && s.row.value.kind == s.stage.r.kind && s.row.value.hash == RequestHash(s.stage.r))
    && (s.stage.Closing? && s.stage.err.None? ==> s.stage.r in s.accepted)
    && (forall r :: r in s.accepted ==> WellFormed(r))
    && (!s.stage.Free? ==> WellFormed(s.stage.r))
  }

  lemma StepKeepsExposure(s: State, a: Action)
    requires ExposureOk(s) && Enabled(s, a)
    ensures ExposureOk(Do(s, a))
  {
  }

  lemma StepKeepsProvenance(s: State, a: Action)
    requires ExposureOk(s) && ProvenanceOk(s) && Enabled(s, a)
    ensures ProvenanceOk(Do(s, a))
  {
    var s' := Do(s, a);
    assert s.accepted <= s'.accepted;
    if a.ServerAccepts? {
      assert s.stage.r in s'.accepted;
    }
  }

  lemma {:induction false} RunKeepsInv(tr: seq<State>, acts: seq<Action>, n: nat)
    requires IsRun(tr, acts) && n < |tr|
    ensures ExposureOk(tr[n]) && ProvenanceOk(tr[n])
  {
    if n > 0 {
      RunKeepsInv(tr, acts, n - 1);
      assert StepAt(tr, acts, n - 1);
      StepKeepsExposure(tr[n - 1], acts[n - 1]);
      StepKeepsProvenance(tr[n - 1], acts[n - 1]);
    }
  }

  /** Over any sequence of attempts, crashes, lost answers and database failures, at most one
      attempt with an accepted or unknown outcome reaches the wire between two releases. */
  lemma AtMostOneReachesTheWire(tr: seq<State>, acts: seq<Action>, n: nat)
    requires IsRun(tr, acts) && n < |tr|
    ensures tr[n].exposed <= 1
    ensures tr[n].stage.Free? && tr[n].exposed == 1 ==> Evidence(tr[n])
    ensures n < |acts| && acts[n].Dispatch? ==> tr[n].exposed == 0
  {
    if n < |acts| { assert StepAt(tr, acts, n); }
    RunKeepsInv(tr, acts, n);
  }

  predicate SaysTheSame(r: Request, s: Request) {
    r.kind.Text? && s.kind.Text? && TrimSpace(r.message) == TrimSpace(s.message)
  }

  /** A text answered already_sent from the stored message is what that message says if and only
      if a text left it; answered from the pending row, it was always sent. */
  lemma AlreadySentIsTrueExactlyForTexts(tr: seq<State>, acts: seq<Action>, n: nat, q: Request)
    requires IsRun(tr, acts) && n < |acts| && acts[n] == Start(q) && q.kind.Text?
    requires StoredCheck(tr[n].stored, tr[n].row, q).AlreadySent?
    ensures tr[n].stored.Some? ==>
              && tr[n].storedBy.Some? && tr[n].storedBy.value in tr[n].accepted
              && (SaysTheSame(tr[n].storedBy.value, q) <==> tr[n].storedBy.value.kind.Text?)
    ensures tr[n].stored.None? ==> exists r :: r in tr[n].accepted && SaysTheSame(r, q)
  {
    assert StepAt(tr, acts, n);
    RunKeepsInv(tr, acts, n);
    var s := tr[n];
    if s.stored.None? {
      var r :| r in s.accepted && r.kind == s.row.value.kind && RequestHash(r) == s.row.value.hash;
      assert SaysTheSame(r, q);
    }
  }

  /** What the other kinds must look like to be taken for the text. */
  lemma AlreadySentIsTrue(tr: seq<State>, acts: seq<Action>, n: nat, q: Request)
    requires IsRun(tr, acts) && n < |acts| && acts[n] == Start(q) && q.kind.Text?
    requires StoredCheck(tr[n].stored, tr[n].row, q).AlreadySent?
    ensures exists r :: r in tr[n].accepted &&
              (|| SaysTheSame(r, q)
               || (r.kind.Poll? && TrimSpace("Poll: " + r.question) == TrimSpace(q.message))
               || r.kind.Forward?
               || (r.kind.React? && TrimSpace(q.message) == ""))
    ensures tr[n].stored.None? || (forall r :: r in tr[n].accepted ==> r.kind.Text?) ==>
              exists r :: r in tr[n].accepted && SaysTheSame(r, q)
  {
    assert StepAt(tr, acts, n);
    RunKeepsInv(tr, acts, n);
    AlreadySentIsTrueExactlyForTexts(tr, acts, n, q);
    assert TrimSpace("") == "";
    if tr[n].stored.Some? {
      assert tr[n].storedBy.value in tr[n].accepted;
    }
  }

  lemma ExtendRun(tr: seq<State>, acts: seq<Action>, a: Action) returns (tr': seq<State>, acts': seq<Action>)
    requires IsRun(tr, acts) && Enabled(tr[|acts|], a)
    ensures tr' == tr + [Do(tr[|acts|], a)] && acts' == acts + [a] && IsRun(tr', acts')
    ensures tr'[|acts'|] == Do(tr[|acts|], a)
  {
    tr', acts' := tr + [Do(tr[|acts|], a)], acts + [a];
    forall i: nat | i < |acts'| ensures StepAt(tr', acts', i) {
      if i < |acts| { assert StepAt(tr, acts, i); }
    }
  }

  /** A poll is sent under an id and stored. */
  lemma APollIsSent(poll: Request, ref: OwnRef) returns (tr: seq<State>, acts: seq<Action>)
    requires poll.kind.Poll? && Leaves(poll, ref)
    ensures IsRun(tr, acts)
    ensures var s := tr[|acts|]; s.stage.Free? && s.stored == Some(ref) && s.storedBy == Some(poll) && s.accepted == {poll}
  {
    tr, acts := [Init()], [];
    tr, acts := ExtendRun(tr, acts, Start(poll));
    tr, acts := ExtendRun(tr, acts, Begin(0, false, false));
    tr, acts := ExtendRun(tr, acts, Dispatch);
    tr, acts := ExtendRun(tr, acts, ServerAccepts(ref, true));
    tr, acts := ExtendRun(tr, acts, Finish("", true));
  }

  /** The exception is reached: a poll "X" is sent under an id, and then the text "Poll: X" under
      the same id is answered already_sent although no text was ever sent. */
  lemma APollAnswersForAText() returns (tr: seq<State>, acts: seq<Action>, text: Request)
    ensures IsRun(tr, acts) && text == Request(Text, "", "Poll: X", "", "", "")
    ensures tr[|acts|].last == Some((text, AlreadySent("")))
    ensures tr[|acts|].accepted == {Request(Poll, "", "", "", "X", "")}
    ensures forall r :: r in tr[|acts|].accepted ==> !SaysTheSame(r, text)
  {
    text := Request(Text, "", "Poll: X", "", "", "");
    tr, acts := APollIsSent(Request(Poll, "", "", "", "X", ""), OwnRef("", "", "Poll: X"));
    tr, acts := ExtendRun(tr, acts, Start(text));
  }

  /** While a message is stored or unfinished under the id, a different text is neither sent
      nor answered already_sent: it is refused, before or at the pending row. */
  lemma DifferentTextIsRefused(stored: Option<OwnRef>, row: Option<Row>, q: Request, removed: bool)
    requires q.kind.Text? && WellFormed(q)
    requires stored.Some? ==> TrimSpace(stored.value.text) != TrimSpace(q.message)
    requires stored.None? ==> row.Some? && !row.value.state.Done? && row.value.hash.text != TrimSpace(q.message)
    ensures StoredCheck(stored, row, q).IdReused?
            || (StoredCheck(stored, row, q).Continue? && BeginCheck(row, q, removed).IdReused?)
  {
  }

  /** The id is purged, or its row is released and no stored message stands in for it. */
  predicate Frees(s: State, a: Action) {
    a.Purge? || (a.Release? && (s.stored.None? || !s.stage.Free?))
  }

  /** Over runs: from an idle state with a message stored or unfinished under the id, nothing is
      dispatched under it, no matter what is asked or delivered, until it is purged or released. */
  lemma {:induction false} ASpentIdStaysSpent(tr: seq<State>, acts: seq<Action>, m: nat, n: nat)
    requires IsRun(tr, acts) && m <= n < |tr| && tr[m].stage.Free? && Evidence(tr[m])
    requires forall i :: m <= i < n ==> !Frees(tr[i], acts[i])
    ensures tr[n].stage.Free? || tr[n].stage.Checked?
    ensures Evidence(tr[n])
    ensures tr[n].stage.Checked? ==> tr[n].row.Some? && tr[n].row.value.state.InFlight?
    ensures n < |acts| ==> !acts[n].Dispatch?
    decreases n
  {
    if n < |acts| { assert StepAt(tr, acts, n); }
    if n > m {
      assert StepAt(tr, acts, n - 1);
      ASpentIdStaysSpent(tr, acts, m, n - 1);
    }
  }

  /** The text a check compares with: the stored message's at the first one, if there is one, and
      otherwise the standing row's. */
  function OnRecord(s: State, a: Action): Option<string> {
    if a.Start? && s.stored.Some? then Some(TrimSpace(s.stored.value.text))
    else if s.row.Some? then Some(s.row.value.hash.text)
    else None
  }

  /** And every text asked for meanwhile that reads differently from what is on record is refused
      at its first check or goes on to its second, which refuses it. */
  lemma DifferentTextsAreRefusedMeanwhile(tr: seq<State>, acts: seq<Action>, m: nat, n: nat, q: Request)
    requires IsRun(tr, acts) && m <= n < |acts| && tr[m].stage.Free? && Evidence(tr[m])
    requires forall i :: m <= i < n ==> !Frees(tr[i], acts[i])
    requires q.kind.Text? && StepAt(tr, acts, n)
    requires acts[n] == Start(q) || (acts[n].Begin? && tr[n].stage.r == q && !acts[n].failed)
    requires OnRecord(tr[n], acts[n]) != Some(TrimSpace(q.message))
    ensures tr[n + 1].last.Some? && tr[n + 1].last.value.0 == q
    ensures tr[n + 1].last.value.1.IdReused? || (acts[n] == Start(q) && tr[n + 1].stage == Checked(q))
    ensures tr[n + 1].stage.Free? || tr[n + 1].stage.Checked?
  {
    assert StepAt(tr, acts, n);
    ASpentIdStaysSpent(tr, acts, m, n);
    RunKeepsInv(tr, acts, n);
  }

  /** Between any two dispatches under the id the first one was rejected by the server, or the
      id was purged or released. */
  lemma DispatchesAreSeparated(tr: seq<State>, acts: seq<Action>, i: nat, n: nat)
    requires IsRun(tr, acts) && i < n < |acts| && acts[i].Dispatch? && acts[n].Dispatch?
    ensures exists k :: i < k < n && (acts[k].ServerRejects? || Frees(tr[k], acts[k]))
  {
    AtMostOneReachesTheWire(tr, acts, n);
    if forall k :: i < k < n ==> !acts[k].ServerRejects? && !Frees(tr[k], acts[k]) {
      ExposureLasts(tr, acts, i, n);
      assert false;
    }
  }

  lemma {:induction false} ExposureLasts(tr: seq<State>, acts: seq<Action>, i: nat, n: nat)
    requires IsRun(tr, acts) && i < n < |tr| && acts[i].Dispatch?
    requires forall k :: i < k < n ==> !acts[k].ServerRejects? && !Frees(tr[k], acts[k])
    ensures tr[n].exposed > 0
    decreases n
  {
    assert StepAt(tr, acts, n - 1);
    if n > i + 1 {
      ExposureLasts(tr, acts, i, n - 1);
    }
  }

  // ----- what a retry is answered ------------------------------------------------------------------

  /** The content compared is the message, else the caption, else the question, else the name. */
  lemma ContentIsTheFirstField(r: Request, q: Request)
    ensures RequestHash(r) == RequestHash(q) <==>
            r.kind == q.kind && TrimSpace(RequestText(r)) == TrimSpace(RequestText(q))
    ensures r.message != "" ==> RequestText(r) == r.message
    ensures r.message == "" && r.caption != "" ==> RequestText(r) == r.caption
    ensures r.message == r.caption == "" && r.question != "" ==> RequestText(r) == r.question
    ensures r.message == r.caption == r.question == "" ==> RequestText(r) == r.name
  {
  }

  predicate SameContent(r: Request, q: Request) {
    r.kind == q.kind && TrimSpace(RequestText(r)) == TrimSpace(RequestText(q))
  }

  /** The server answered the error, or the attempt never reached the point of no return. */
  predicate KnownNotSent(stage: Stage) {
    stage.Closing? && stage.err.Some? && (stage.err.value.ServerReply? || !stage.marked)
  }

  predicate OutcomeIsUnknown(stage: Stage) {
    stage.Closing? && stage.err.Some? && !stage.err.value.ServerReply? && stage.marked
  }

  /** What asking `q` next is answered at its first check. */
  function Asked(s: State, q: Request): State
    requires s.stage.Free? && WellFormed(q)
  {
    Do(s, Start(q))
  }

  /** A send known to have failed frees its id: whatever is asked next goes out, under a new row. */
  lemma AFailedSendFreesItsId(tr: seq<State>, acts: seq<Action>, n: nat, q: Request, now: int, removed: bool)
    requires IsRun(tr, acts) && n < |acts| && acts[n].Finish? && acts[n].written
    requires KnownNotSent(tr[n].stage) && tr[n].stored.None? && WellFormed(q)
    ensures tr[n + 1].stage.Free? && tr[n + 1].row.None?
    ensures Asked(tr[n + 1], q).stage == Checked(q)
    ensures var s := Do(Asked(tr[n + 1], q), Begin(now, removed, false));
            && s.stage == Begun(q, 0, false)
            && s.row == Some(Row(TrimSpace(q.to), TrimSpace(q.to), q.kind, ContentHash(q.kind, RequestText(q)), InFlight, now))
  {
    assert StepAt(tr, acts, n);
  }

  /** An attempt whose outcome is unknown blocks its id: the same request is told so, any other is
      refused, and nothing is sent. */
  lemma AnUnknownOutcomeBlocksItsId(tr: seq<State>, acts: seq<Action>, n: nat, q: Request, now: int, removed: bool)
    requires IsRun(tr, acts) && n < |acts| && acts[n].Finish?
    requires OutcomeIsUnknown(tr[n].stage) && tr[n].stored.None? && WellFormed(q)
    ensures tr[n + 1].stage.Free? && Asked(tr[n + 1], q).stage == Checked(q)
    ensures var s := Do(Asked(tr[n + 1], q), Begin(now, removed, false));
            && s.stage.Free? && s.row == tr[n].row
            && s.last == Some((q, if SameContent(tr[n].stage.r, q) then OutcomeUnknown else IdReused))
  {
    assert StepAt(tr, acts, n);
    RunKeepsInv(tr, acts, n);
    ContentIsTheFirstField(tr[n].stage.r, q);
  }

  /** A send that went out but was not stored answers for itself: the same request is already
      sent, to the chat the send reported, and any other is refused. */
  lemma ASentRowAnswersARetry(tr: seq<State>, acts: seq<Action>, n: nat, q: Request)
    requires IsRun(tr, acts) && n < |acts| && acts[n].Finish? && acts[n].written && tr[n].stage.Closing?
    requires tr[n].stage.err.None? && tr[n].stage.storeWarning && tr[n].stored.None? && WellFormed(q)
    ensures tr[n].row.Some? && tr[n + 1].stage.Free?
    ensures var to := if acts[n].chat != "" then acts[n].chat else tr[n].row.value.chat;
            Asked(tr[n + 1], q).last ==
            Some((q, if SameContent(tr[n].stage.r, q) then AlreadySent(to) else IdReused))
    ensures Asked(tr[n + 1], q).stage.Free?
  {
    assert StepAt(tr, acts, n);
    RunKeepsInv(tr, acts, n);
    ContentIsTheFirstField(tr[n].stage.r, q);
  }

  /** A send that went out and was stored answers with the stored chat, for every kind but a
      different text; and once its message is purged its finished row gives way. */
  lemma AStoredMessageAnswersARetry(tr: seq<State>, acts: seq<Action>, n: nat, q: Request, now: int)
    requires IsRun(tr, acts) && n < |acts| && acts[n].Finish? && acts[n].written && tr[n].stage.Closing?
    requires tr[n].stage.err.None? && !tr[n].stage.storeWarning && tr[n].stored.Some? && WellFormed(q)
    ensures tr[n + 1].stage.Free? && tr[n + 1].stored == tr[n].stored
    ensures var ref := tr[n].stored.value;
            var differs := q.kind.Text? && (TrimSpace(ref.text) != TrimSpace(q.message) || TrimSpace(ref.mediaType) != "");
            Asked(tr[n + 1], q).last == Some((q, if differs then IdReused else AlreadySent(ref.chat)))
    ensures var purged := Do(tr[n + 1], Purge);
            && Asked(purged, q).stage == Checked(q)
            && Do(Asked(purged, q), Begin(now, true, false)).stage == Begun(q, 0, false)
  {
    assert StepAt(tr, acts, n);
    RunKeepsInv(tr, acts, n);
  }

  /** A kind that carries no dispatch mark: its row is kept only when its context ended. */
  lemma ClosingWithoutAMark(row: Row, e: SendError, storeWarning: bool, chat: string)
    ensures FinishRow(Some(row), Some(e), storeWarning, None, chat) == if e.ContextEnded? then Some(row) else None
    ensures FinishRow(Some(row), Some(e), storeWarning, Some(true), chat) == if e.ServerReply? then None else Some(row)
    ensures FinishRow(Some(row), Some(e), storeWarning, Some(false), chat) == None
  {
  }

  /** One request makes at most two attempts: between two retries another request was begun. */
  lemma AtMostTwoAttempts(tr: seq<State>, acts: seq<Action>, i: nat, n: nat)
    requires IsRun(tr, acts) && i < n < |acts|
    requires acts[i].FailBeforeWire? && acts[i].retry && acts[n].FailBeforeWire? && acts[n].retry
    ensures exists k :: i < k < n && acts[k].Begin?
  {
    assert StepAt(tr, acts, n);
    if forall k :: i < k < n ==> !acts[k].Begin? {
      TheRetryIsSpent(tr, acts, i, n);
      assert false;
    }
  }

  lemma {:induction false} TheRetryIsSpent(tr: seq<State>, acts: seq<Action>, i: nat, n: nat)
    requires IsRun(tr, acts) && i < n < |tr| && acts[i].FailBeforeWire? && acts[i].retry
    requires forall k :: i < k < n ==> !acts[k].Begin?
    ensures tr[n].stage.Begun? ==> tr[n].stage.tries > 0
    decreases n
  {
    assert StepAt(tr, acts, n - 1);
    if n > i + 1 {
      TheRetryIsSpent(tr, acts, i, n - 1);
    }
  }

  // ----- what is recorded of each step --------------------------------------------------------------

  /** Since its row was written, the attempt was marked as dispatched or reached the wire. */
  function Marked(acts: seq<Action>): bool {
    if acts == [] then false
    else
      match acts[|acts| - 1]
      case Begin(_, _, _) => false
      case FailBeforeWire(marked, _) => marked || Marked(acts[..|acts| - 1])
      case Dispatch => true
      case _ => Marked(acts[..|acts| - 1])
  }

  /** The mark that decides how a failed send is closed: set by either of its tries, and always
      once it was on the wire. */
  lemma {:induction false} TheMarkIsExact(tr: seq<State>, acts: seq<Action>, n: nat)
    requires IsRun(tr, acts) && n < |tr|
    ensures tr[n].stage.Begun? || tr[n].stage.Closing? ==> (tr[n].stage.marked <==> Marked(acts[..n]))
    ensures tr[n].stage.OnWire? ==> Marked(acts[..n])
  {
    if n > 0 {
      assert StepAt(tr, acts, n - 1);
      TheMarkIsExact(tr, acts, n - 1);
      assert acts[..n][..n - 1] == acts[..n - 1];
    }
  }

  /** How the attempt ended, as its closing step sees it. */
  lemma OutcomesAreKept(tr: seq<State>, acts: seq<Action>, n: nat)
    requires IsRun(tr, acts) && n < |acts|
    ensures acts[n].ServerRejects? || acts[n].ServerAccepts? || acts[n].NoAnswer? ==>
              tr[n].stage.OnWire? && tr[n + 1].stage.Closing? && tr[n + 1].stage.r == tr[n].stage.r
    ensures acts[n].ServerRejects? ==> tr[n + 1].stage.err == Some(ServerReply)
    ensures acts[n].NoAnswer? ==> tr[n + 1].stage.err == Some(acts[n].err)
    ensures acts[n].ServerAccepts? ==>
              tr[n + 1].stage.err == None && (tr[n + 1].stage.storeWarning <==> !acts[n].storedOk)
    ensures acts[n].FailBeforeWire? && !acts[n].retry ==> tr[n + 1].stage.Closing? && tr[n + 1].stage.err == Some(OtherError)
  {
    assert StepAt(tr, acts, n);
  }

  predicate AcceptsAt(s: State, a: Action, r: Request) {
    s.stage == OnWire(r) && (a.ServerAccepts? || ((a.NoAnswer? || a.Crash?) && a.reallyAccepted))
  }

  /** The server has accepted exactly what it accepted from the wire, answered or not. */
  lemma {:induction false} AcceptedIsExact(tr: seq<State>, acts: seq<Action>, n: nat, r: Request)
    requires IsRun(tr, acts) && n < |tr|
    ensures r in tr[n].accepted <==> exists i :: 0 <= i < n && AcceptsAt(tr[i], acts[i], r)
  {
    if n > 0 {
      assert StepAt(tr, acts, n - 1);
      AcceptedIsExact(tr, acts, n - 1, r);
    }
  }

  predicate Stores(a: Action, ref: OwnRef) {
    (a.Deliver? && a.ref == ref) || (a.ServerAccepts? && a.storedOk && a.ref == ref)
  }

  predicate Restores(a: Action) {
    a.Deliver? || (a.ServerAccepts? && a.storedOk) || a.Purge?
  }

  predicate StoredAt(acts: seq<Action>, i: nat, n: nat, ref: OwnRef) {
    i < n <= |acts| && Stores(acts[i], ref) && forall j :: i < j < n ==> !Restores(acts[j])
  }

  /** The stored message is the one delivered or stored last, since the last purge. */
  lemma {:induction false} StoredIsTheLast(tr: seq<State>, acts: seq<Action>, n: nat, ref: OwnRef)
    requires IsRun(tr, acts) && n < |tr|
    ensures tr[n].stored == Some(ref) <==> exists i: nat :: StoredAt(acts, i, n, ref)
  {
    if n > 0 {
      assert StepAt(tr, acts, n - 1);
      StoredIsTheLast(tr, acts, n - 1, ref);
      if Restores(acts[n - 1]) {
        assert StoredAt(acts, n - 1, n, ref) <==> Stores(acts[n - 1], ref);
      } else {
        var before := n - 1;
        forall i: nat ensures StoredAt(acts, i, n, ref) <==> StoredAt(acts, i, before, ref) {}
      }
    }
  }

  /** An outcome that could not be written down counts as unknown, whatever it was: unless its
      message is stored, the same request is told so and nothing is sent. */
  lemma AnUnrecordedOutcomeBlocksItsId(tr: seq<State>, acts: seq<Action>, n: nat, q: Request, now: int, removed: bool)
    requires IsRun(tr, acts) && n < |acts| && acts[n].Finish? && !acts[n].written
    requires tr[n].stored.None? && WellFormed(q)
    ensures tr[n].stage.Closing? && tr[n + 1].stage.Free? && Asked(tr[n + 1], q).stage == Checked(q)
    ensures var s := Do(Asked(tr[n + 1], q), Begin(now, removed, false));
            s.stage.Free? && s.last == Some((q, if SameContent(tr[n].stage.r, q) then OutcomeUnknown else IdReused))
  {
    assert StepAt(tr, acts, n);
    RunKeepsInv(tr, acts, n);
    ContentIsTheFirstField(tr[n].stage.r, q);
  }

  /** Clearing the row by hand frees an id without a stored message. */
  lemma AReleaseFreesTheId(tr: seq<State>, acts: seq<Action>, n: nat, q: Request, now: int)
    requires IsRun(tr, acts) && n < |acts| && acts[n].Release? && tr[n].stage.Free? && tr[n].stored.None? && WellFormed(q)
    ensures tr[n + 1].stage.Free? && Asked(tr[n + 1], q).stage == Checked(q)
    ensures Do(Asked(tr[n + 1], q), Begin(now, false, false)).stage == Begun(q, 0, false)
  {
    assert StepAt(tr, acts, n);
  }
}
