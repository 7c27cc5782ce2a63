/** The observer of a client's login state and the durable logout marker it owns. */
module Session {
  import opened Wrappers

  /** `marker` is the SESSION_REVOKED file. */
  datatype State = State(
    revoked: bool,
    confirmed: bool,
    terminal: Option<string>,
    persistenceFailed: bool,
    marker: bool)

  datatype Action =
    | PrepareConnect(connected: bool)
    | Confirm(clearOk: bool)
    | Reject(error: string, revokes: bool, markOk: bool)
    | Disconnect

  /** Before any event; the marker may be left over from an earlier client. */
  predicate Fresh(s: State) {
    !s.revoked && !s.confirmed && s.terminal.None? && !s.persistenceFailed
  }

  function Do(s: State, a: Action): State {
    match a
    case PrepareConnect(connected) =>
      if s.revoked || connected then s
      else s.(confirmed := false, terminal := None, persistenceFailed := false)
    case Confirm(clearOk) =>
      if s.revoked || s.confirmed then s
      else s.(terminal := None, persistenceFailed := !clearOk, confirmed := clearOk, marker := s.marker && !clearOk)
    case Reject(error, revokes, markOk) =>
      var t := s.(confirmed := false, terminal := if s.terminal.None? || revokes then Some(error) else s.terminal);
      if revokes then t.(revoked := true, persistenceFailed := !markOk, marker := s.marker || markOk) else t
    case Disconnect => s.(confirmed := false)
  }

  /** What waitForLogin sees: an error, a login, or a reason to keep waiting. */
  datatype Wait = Login | Refused | Waiting

  function Seen(s: State): Wait {
    if s.terminal.Some? || s.persistenceFailed then Refused
    else if s.confirmed then Login
    else Waiting
  }

  ghost predicate IsRun(tr: seq<State>, acts: seq<Action>) {
    && |tr| == |acts| + 1
    && Fresh(tr[0])
    && forall i :: 0 <= i < |acts| ==> tr[i + 1] == Do(tr[i], acts[i])
  }

  predicate Inv(s: State) {
    && (s.revoked ==> !s.confirmed && s.terminal.Some? && (s.marker || s.persistenceFailed))
    && (s.confirmed ==> s.terminal.None? && !s.persistenceFailed && !s.marker)
  }

  lemma {:induction false} RunKeepsInv(tr: seq<State>, acts: seq<Action>, n: nat)
    requires IsRun(tr, acts) && n < |tr|
    ensures Inv(tr[n])
  {
    if n > 0 {
      RunKeepsInv(tr, acts, n - 1);
    }
  }

  /** Once revoked, a client stays revoked and never logs in again, whatever late callbacks come,
      and a marker on disk is never cleared. */
  lemma {:induction false} RevocationIsTerminal(tr: seq<State>, acts: seq<Action>, m: nat, n: nat)
    requires IsRun(tr, acts) && m <= n < |tr| && tr[m].revoked
    ensures tr[n].revoked && !tr[n].confirmed && Seen(tr[n]).Refused?
    ensures tr[m].marker ==> tr[n].marker
    ensures tr[n].marker || tr[n].persistenceFailed
    decreases n
  {
    RunKeepsInv(tr, acts, n);
    if n > m {
      RevocationIsTerminal(tr, acts, m, n - 1);
    }
  }

  /** A login is reported exactly while it is confirmed, and then the marker is gone. */
  lemma LoginMeansCleared(tr: seq<State>, acts: seq<Action>, n: nat)
    requires IsRun(tr, acts) && n < |tr|
    ensures Seen(tr[n]).Login? <==> tr[n].confirmed
    ensures Seen(tr[n]).Login? ==> !tr[n].marker && !tr[n].revoked
  {
    RunKeepsInv(tr, acts, n);
  }

  class SessionObservation {
    var revoked: bool
    var confirmed: bool
    var terminalErr: Option<string>
    var persistenceFailed: bool
    var marker: bool

    function Abs(): State
      reads this
    {
      State(revoked, confirmed, terminalErr, persistenceFailed, marker)
    }

    constructor (marker: bool)
      ensures Fresh(Abs()) && this.marker == marker
    {
      revoked, confirmed, terminalErr, persistenceFailed, this.marker := false, false, None, false, marker;
    }

    method Prepare(connected: bool) returns (err: Option<string>)
      modifies this
      ensures Abs() == Do(old(Abs()), PrepareConnect(connected))
      ensures err == if revoked then terminalErr else None
    {
      if revoked { return terminalErr; }
      if !connected { confirmed, terminalErr, persistenceFailed := false, None, false; }
      return None;
    }

    method ConfirmLogin(clearOk: bool)
      modifies this
      ensures Abs() == Do(old(Abs()), Confirm(clearOk))
    {
      if revoked || confirmed { return; }
      terminalErr := None;
      if clearOk { marker := false; }
      persistenceFailed := !clearOk;
      confirmed := !persistenceFailed;
    }

    method RejectLogin(error: string, revokes: bool, markOk: bool)
      modifies this
      ensures Abs() == Do(old(Abs()), Reject(error, revokes, markOk))
    {
      confirmed := false;
      if terminalErr.None? || revokes { terminalErr := Some(error); }
      if revokes {
        revoked := true;
        if markOk { marker := true; }
        persistenceFailed := !markOk;
      }
    }

    method Disconnected()
      modifies this
      ensures Abs() == Do(old(Abs()), Disconnect)
    {
      confirmed := false;
    }
  }

  // ----- what each event leads to -----------------------------------------------------------------

  /** A login is confirmed as soon as the marker is gone, a rejection ends it, and only a
      revocation writes the marker. */
  lemma EventsLeadOn(tr: seq<State>, acts: seq<Action>, n: nat)
    requires IsRun(tr, acts) && n < |acts|
    ensures acts[n].Confirm? && !tr[n].revoked && !tr[n].confirmed ==>
              && (tr[n + 1].confirmed <==> acts[n].clearOk) && tr[n + 1].terminal.None?
              && (acts[n].clearOk ==> Seen(tr[n + 1]).Login? && !tr[n + 1].marker)
              && (!acts[n].clearOk ==> Seen(tr[n + 1]).Refused? && tr[n + 1].marker == tr[n].marker)
    ensures acts[n].Reject? ==>
              && !tr[n + 1].confirmed && tr[n + 1].terminal.Some? && Seen(tr[n + 1]).Refused?
              && (tr[n + 1].revoked <==> tr[n].revoked || acts[n].revokes)
              && (tr[n + 1].marker <==> tr[n].marker || (acts[n].revokes && acts[n].markOk))
              && (acts[n].revokes ==> tr[n + 1].persistenceFailed == !acts[n].markOk)
    ensures acts[n].Confirm? && (tr[n].revoked || tr[n].confirmed) ==> tr[n + 1] == tr[n]
    ensures tr[n].marker && !tr[n + 1].marker ==> acts[n] == Confirm(true) && tr[n + 1].confirmed
    ensures acts[n].Disconnect? ==> !tr[n + 1].confirmed && tr[n + 1].marker == tr[n].marker && tr[n + 1].terminal == tr[n].terminal
    ensures acts[n].PrepareConnect? && !tr[n].revoked && !acts[n].connected ==> Seen(tr[n + 1]).Waiting?
    ensures acts[n].PrepareConnect? && (tr[n].revoked || acts[n].connected) ==> tr[n + 1] == tr[n]
  {
  }

  predicate StartsOver(a: Action) {
    a.PrepareConnect? || a.Confirm? || (a.Reject? && a.revokes)
  }

  /** Of several rejections the first one is reported, unless a revocation comes or the client
      starts over. */
  lemma {:induction false} TheFirstErrorStays(tr: seq<State>, acts: seq<Action>, m: nat, n: nat)
    requires IsRun(tr, acts) && m < n < |tr| && acts[m].Reject? && tr[m].terminal.None?
    requires forall i :: m < i < n ==> !StartsOver(acts[i])
    ensures tr[n].terminal == Some(acts[m].error)
    decreases n
  {
    if n > m + 1 {
      TheFirstErrorStays(tr, acts, m, n - 1);
    }
  }

  /** A revocation's own reason replaces an earlier error. */
  lemma ARevocationIsReported(tr: seq<State>, acts: seq<Action>, n: nat)
    requires IsRun(tr, acts) && n < |acts| && acts[n].Reject? && acts[n].revokes
    ensures tr[n + 1].terminal == Some(acts[n].error)
  {
  }
}
