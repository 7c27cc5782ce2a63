/** Asking the phone for older messages: batches of anchored requests, the identity and anchor
    fallbacks, and when the next batch may start. */
module Backfill {
  import opened Wrappers

  const DEFAULT_COUNT := 50
  const DEFAULT_REQUESTS := 1
  const MAX_COUNT := 500
  const MAX_REQUESTS := 100

  /** A chat address; `isPN` says it is on the phone-number server. */
  datatype Address = Address(user: string, isPN: bool)

  datatype Reply =
    | Response(messages: int, complete: bool)
    | TimedOut
    | Ended          // the context ended
    | SendFailed

  /** One request that went out. */
  datatype Try = Try(anchor: string, address: Address, reply: Reply)

  datatype Lookup = Found(id: string) | NoRows | Unreadable

  /** One pass of the loop: the oldest row it read first, the requests it sent, what they came to,
      whether the next local row could be read if it was needed, and the oldest row afterwards. */
  datatype Batch = Batch(oldest: string, tries: seq<Try>, reply: Reply, readable: bool, newOldest: Lookup)

  datatype RunError = NoMessages | Database | Unanswered(reply: Reply)

  datatype Options = Options(count: int, requests: int)

  function Normalized(o: Options): Options {
    Options(if o.count <= 0 then DEFAULT_COUNT else o.count, if o.requests <= 0 then DEFAULT_REQUESTS else o.requests)
  }

  predicate Valid(o: Options) {
    o.count <= MAX_COUNT && o.requests <= MAX_REQUESTS
  }

  /** Options given are kept, missing ones get their defaults, and the limits hold. */
  lemma OptionsAreBounded(o: Options)
    ensures Normalized(o).count > 0 && Normalized(o).requests > 0
    ensures o.count > 0 ==> Normalized(o).count == o.count
    ensures o.requests > 0 ==> Normalized(o).requests == o.requests
    ensures o.count <= 0 ==> Normalized(o).count == 50
    ensures o.requests <= 0 ==> Normalized(o).requests == 1
    ensures Valid(o) <==> o.count <= 500 && o.requests <= 100
  {
  }

  // ----- what a batch may look like -----------------------------------------------------------

  /** Requests for one anchor: the second only after the first timed out, to the other address. */
  predicate AnchorTries(tries: seq<Try>, anchor: string) {
    && |tries| <= 2
    && (forall t :: t in tries ==> t.anchor == anchor)
    && (|tries| == 2 ==> tries[0].reply.TimedOut? && tries[0].address != tries[1].address)
  }

  /** At most two anchors, the second only after every request for the first timed out. */
  ghost predicate WellAsked(oldest: string, tries: seq<Try>) {
    exists next: string, n: nat :: Halves(oldest, next, tries, n)
  }

  predicate Halves(oldest: string, next: string, tries: seq<Try>, n: nat) {
    && n <= |tries|
    && AnchorTries(tries[..n], oldest)
    && AnchorTries(tries[n..], next)
    && (n < |tries| ==> forall t :: t in tries[..n] ==> t.reply.TimedOut?)
  }

  /** Another batch may follow this one. */
  predicate Continues(b: Batch) {
    && b.tries != [] && b.tries[|b.tries| - 1].reply.Response?
    && b.tries[|b.tries| - 1].reply.messages > 0
    && !b.tries[|b.tries| - 1].reply.complete
    && b.newOldest != Found(b.oldest)
  }

  /** What the requests came to: the last one's reply, unless the context ended after a silent one. */
  predicate Ends(reply: Reply, tries: seq<Try>) {
    if tries == [] then reply.Ended?
    else reply == tries[|tries| - 1].reply || (reply.Ended? && tries[|tries| - 1].reply.TimedOut?)
  }

  ghost predicate WellRun(log: seq<Batch>) {
    && (forall i :: 0 <= i < |log| ==> WellAsked(log[i].oldest, log[i].tries))
    && (forall i :: 0 <= i < |log| - 1 ==> Continues(log[i]))
  }

  function Sent(log: seq<Batch>): nat {
    if log == [] then 0 else Sent(log[..|log| - 1]) + |log[|log| - 1].tries|
  }

  function Answers(tries: seq<Try>): nat {
    if tries == [] then 0
    else Answers(tries[..|tries| - 1]) + (if tries[|tries| - 1].reply.Response? then 1 else 0)
  }

  function Answered(log: seq<Batch>): nat {
    if log == [] then 0 else Answered(log[..|log| - 1]) + Answers(log[|log| - 1].tries)
  }

  lemma {:induction false} AnswersAppend(a: seq<Try>, b: seq<Try>)
    ensures Answers(a + b) == Answers(a) + Answers(b)
  {
    if b == [] {
      assert a + b == a;
    } else {
      var n := |b| - 1;
      assert (a + b)[..|a + b| - 1] == a + b[..n];
      AnswersAppend(a, b[..n]);
    }
  }

  lemma {:induction false} SilentTries(tries: seq<Try>)
    requires forall t :: t in tries ==> t.reply.TimedOut?
    ensures Answers(tries) == 0
  {
    if tries != [] {
      SilentTries(tries[..|tries| - 1]);
    }
  }

  lemma AnchorBounds(tries: seq<Try>, anchor: string)
    requires AnchorTries(tries, anchor)
    ensures Answers(tries) <= 1
  {
    if |tries| == 2 {
      AnswersAppend(tries[..1], tries[1..]);
      assert tries[..1] + tries[1..] == tries;
    }
  }

  /** A batch sends at most four requests and sees at most one response. */
  lemma BatchBounds(oldest: string, tries: seq<Try>)
    requires WellAsked(oldest, tries)
    ensures |tries| <= 4 && Answers(tries) <= 1
  {
    var next: string, n: nat :| Halves(oldest, next, tries, n);
    assert tries == tries[..n] + tries[n..];
    AnswersAppend(tries[..n], tries[n..]);
    AnchorBounds(tries[..n], oldest);
    AnchorBounds(tries[n..], next);
    if n < |tries| {
      SilentTries(tries[..n]);
    }
  }

  /** A whole run sends at most four requests per batch and sees at most one response in each. */
  lemma {:induction false} RunBounds(log: seq<Batch>)
    requires WellRun(log)
    ensures Sent(log) <= 4 * |log| && Answered(log) <= |log|
  {
    if log != [] {
      var n := |log| - 1;
      assert forall i :: 0 <= i < n ==> log[..n][i] == log[i];
      RunBounds(log[..n]);
      BatchBounds(log[n].oldest, log[n].tries);
    }
  }

  predicate AllContinue(log: seq<Batch>) {
    forall i :: 0 <= i < |log| ==> Continues(log[i])
  }

  lemma LogGrows(log: seq<Batch>, b: Batch)
    requires WellRun(log) && AllContinue(log) && WellAsked(b.oldest, b.tries)
    ensures WellRun(log + [b])
    ensures AllContinue(log + [b]) <==> Continues(b)
    ensures Sent(log + [b]) == Sent(log) + |b.tries| && Answered(log + [b]) == Answered(log) + Answers(b.tries)
  {
    assert (log + [b])[..|log|] == log;
    assert (log + [b])[|log|] == b;
  }

  lemma TwoAnchors(oldest: string, first: seq<Try>, next: string, second: seq<Try>)
    requires AnchorTries(first, oldest) && AnchorTries(second, next)
    requires second != [] ==> forall t :: t in first ==> t.reply.TimedOut?
    ensures WellAsked(oldest, first + second)
    ensures Answers(first + second) == Answers(first) + Answers(second)
  {
    var tries := first + second;
    assert tries[..|first|] == first && tries[|first|..] == second;
    assert Halves(oldest, next, tries, |first|);
    AnswersAppend(first, second);
  }

  lemma OneAnchor(oldest: string, tries: seq<Try>)
    requires AnchorTries(tries, oldest)
    ensures WellAsked(oldest, tries)
  {
    TwoAnchors(oldest, tries, oldest, []);
    assert tries + [] == tries;
  }

  /** The last request answered, right after one that timed out. */
  predicate Fallback(tries: seq<Try>) {
    |tries| >= 2 && tries[|tries| - 1].reply.Response? && tries[|tries| - 2].reply.TimedOut?
  }

  lemma FallbackLast(before: seq<Try>, more: seq<Try>)
    requires Fallback(more)
    ensures Fallback(before + more) && (before + more)[|before + more| - 1] == more[|more| - 1]
  {
  }

  lemma LastOf(before: seq<Try>, more: seq<Try>, anchor: string)
    requires AnchorTries(more, anchor) && more != []
    ensures (before + more)[|before + more| - 1] == more[|more| - 1] && more[|more| - 1].anchor == anchor
    ensures before + more != []
  {
    assert more[|more| - 1] in more;
  }

  /** The run's result is what the last look at the rows and the last batch call for. */
  ghost predicate Justified(err: Option<RunError>, oldest: Lookup, log: seq<Batch>) {
    match oldest
    case NoRows => err == Some(NoMessages)
    case Unreadable => err == Some(Database)
    case Found(id) =>
      && log != []
      && var last := log[|log| - 1];
         && last.oldest == id && Ends(last.reply, last.tries)
         && err == if !last.readable then Some(Database)
                   else if !last.reply.Response? then Some(Unanswered(last.reply))
                   else None
  }

  lemma LastJustifies(err: Option<RunError>, log: seq<Batch>, b: Batch)
    requires Ends(b.reply, b.tries)
    requires err == if !b.readable then Some(Database) else if !b.reply.Response? then Some(Unanswered(b.reply)) else None
    ensures Justified(err, Found(b.oldest), log + [b])
  {
  }

  /** A second anchor's requests decide, or, with none of them made, the context ended. */
  lemma NextEnds(before: seq<Try>, more: seq<Try>, reply: Reply)
    requires Ends(reply, more) && forall t :: t in before ==> t.reply.TimedOut?
    ensures Ends(reply, before + more)
  {
    if more == [] && before != [] {
      assert before + more == before && before[|before| - 1] in before;
    }
  }

  /** The second anchor's requests `more`, put after the first one's. */
  lemma NextJoined(oldest: string, next: string, before: seq<Try>, more: seq<Try>, reply: Reply)
    requires AnchorTries(before, oldest) && AnchorTries(more, next) && Ends(reply, more)
    requires forall t :: t in before ==> t.reply.TimedOut?
    ensures var tries := before + more;
            && WellAsked(oldest, tries) && Ends(reply, tries) && Answers(tries) == Answers(before) + Answers(more)
            && (more != [] ==> tries[|tries| - 1] == more[|more| - 1] && more[|more| - 1].anchor == next)
            && (Fallback(more) ==> Fallback(tries))
  {
    TwoAnchors(oldest, before, next, more);
    NextEnds(before, more, reply);
    if Fallback(more) { FallbackLast(before, more); }
    if more != [] { LastOf(before, more, next); }
  }

  // ----- the runner -----------------------------------------------------------------------------

  class Runner {
    const requests: nat
    var requestsSent: nat
    var responsesSeen: nat
    var preferPN: bool
    var ended: bool
    ghost var log: seq<Batch>

    constructor (o: Options)
      requires Valid(Normalized(o))
      ensures requests == Normalized(o).requests <= MAX_REQUESTS
      ensures requestsSent == responsesSeen == 0 && !preferPN && !ended && log == []
    {
      requests := Normalized(o).requests;
      requestsSent, responsesSeen, preferPN, ended, log := 0, 0, false, false, [];
    }

    /** The context may have ended at any time, and stays ended. */
    method LookAtContext()
      modifies `ended
      ensures old(ended) ==> ended
    {
      var gone: bool := *;
      ended := ended || gone;
    }

    method Request(anchor: string, address: Address) returns (reply: Reply, ghost tries: seq<Try>)
      modifies `requestsSent, `responsesSeen, `ended
      ensures tries == [] || tries == [Try(anchor, address, reply)]
      ensures tries == [] ==> reply.Ended?
      ensures old(ended) ==> tries == [] && ended
      ensures requestsSent == old(requestsSent) + |tries| && responsesSeen == old(responsesSeen) + Answers(tries)
    {
      LookAtContext();
      if ended { return Ended, []; }
      requestsSent := requestsSent + 1;
      reply := *;
      if reply.Ended? { ended := true; }
      if reply.Response? { responsesSeen := responsesSeen + 1; }
      tries := [Try(anchor, address, reply)];
      assert tries[..0] == [];
    }

    /** One anchor, by its addresses in order. The preference moves only when the second address
        answers, and then to that address. */
    method RequestAnchor(anchor: string) returns (reply: Reply, ghost tries: seq<Try>, ghost lid: Address, ghost pn: Address)
      modifies `requestsSent, `responsesSeen, `ended, `preferPN
      ensures AnchorTries(tries, anchor)
      ensures Ends(reply, tries) && (old(ended) ==> tries == [] && ended)
      ensures reply.TimedOut? ==> forall t :: t in tries ==> t.reply.TimedOut?
      ensures reply.Response? ==> tries != [] && tries[|tries| - 1].reply == reply
      ensures requestsSent == old(requestsSent) + |tries| && responsesSeen == old(responsesSeen) + Answers(tries)
      ensures preferPN != old(preferPN) ==> Fallback(tries) && preferPN == tries[|tries| - 1].address.isPN
      ensures |tries| == 2 && reply.Response? ==> preferPN == tries[1].address.isPN
      // The preferred address first; the other one too, if there is one and the context lives on.
      ensures tries != [] ==> tries[0].address == if old(preferPN) then pn else lid
      ensures |tries| == 2 ==> lid != pn && tries[1].address == if old(preferPN) then lid else pn
      ensures reply.TimedOut? && lid != pn ==> |tries| == 2 || ended
    {
      var lidChat: Address := *;
      var pnChat: Address := *;
      lid, pn := lidChat, pnChat;
      var first, second := if preferPN then pnChat else lidChat, if preferPN then lidChat else pnChat;
      if lidChat == pnChat { first := lidChat; }
      reply, tries := Request(anchor, first);
      LookAtContext();
      if lidChat == pnChat || !reply.TimedOut? || ended { return; }
      ghost var before := tries;
      ghost var more;
      reply, more := Request(anchor, second);
      tries := before + more;
      AnswersAppend(before, more);
      if reply.Response? { preferPN := second.isPN; }
    }

    /** The oldest row first, and when every request for it timed out the next local row. */
    method RequestBatch(oldest: string) returns (reply: Reply, readable: bool, ghost tries: seq<Try>, ghost next: Lookup)
      modifies `requestsSent, `responsesSeen, `ended, `preferPN
      ensures WellAsked(oldest, tries)
      ensures reply.Response? ==> tries != [] && tries[|tries| - 1].reply == reply
      ensures requestsSent == old(requestsSent) + |tries| && responsesSeen == old(responsesSeen) + Answers(tries)
      ensures preferPN != old(preferPN) ==> Fallback(tries) && preferPN == tries[|tries| - 1].address.isPN
      // A silent oldest row is not the end while there is a next one and the context lives on.
      ensures Ends(reply, tries) && (old(ended) ==> tries == [] && ended)
      ensures reply.TimedOut? && next.Found? && !ended ==> tries[|tries| - 1].anchor == next.id
      ensures !readable <==> reply.TimedOut? && next.Unreadable? && !ended
    {
      readable := true;
      var following: Lookup := *;
      next := following;
      ghost var lid, pn;
      reply, tries, lid, pn := RequestAnchor(oldest);
      OneAnchor(oldest, tries);
      LookAtContext();
      if !reply.TimedOut? || ended { return; }
      if following.Unreadable? { return reply, false, tries, next; }
      if !following.Found? { return; }
      reply, tries := RequestNext(oldest, following.id, tries);
    }

    /** The second anchor, after all of `before` timed out. */
    method RequestNext(ghost oldest: string, next: string, ghost before: seq<Try>) returns (reply: Reply, ghost tries: seq<Try>)
      requires AnchorTries(before, oldest) && forall t :: t in before ==> t.reply.TimedOut?
      modifies `requestsSent, `responsesSeen, `ended, `preferPN
      ensures WellAsked(oldest, tries) && |before| <= |tries|
      ensures |tries| == |before| ==> reply.Ended?
      ensures Ends(reply, tries)
      ensures |tries| > |before| ==> tries[|tries| - 1].anchor == next
      ensures reply.Response? ==> tries != [] && tries[|tries| - 1].reply == reply
      ensures requestsSent == old(requestsSent) + |tries| - |before|
      ensures responsesSeen == old(responsesSeen) + Answers(tries) - Answers(before)
      ensures preferPN != old(preferPN) ==> Fallback(tries) && preferPN == tries[|tries| - 1].address.isPN
    {
      ghost var more, lid, pn;
      reply, more, lid, pn := RequestAnchor(next);
      NextJoined(oldest, next, before, more, reply);
      tries := before + more;
    }

    /** One pass of the loop; `more` is whether it goes on. */
    method RunBatch() returns (more: bool, err: Option<RunError>, ghost oldest: Lookup)
      requires WellRun(log) && AllContinue(log)
      modifies this
      ensures WellRun(log) && Justified(err, oldest, log)
      ensures |log| == |old(log)| + if oldest.Found? then 1 else 0
      ensures requestsSent - Sent(log) == old(requestsSent - Sent(log))
      ensures responsesSeen - Answered(log) == old(responsesSeen - Answered(log))
      ensures more ==> err == None && oldest.Found? && AllContinue(log)
      ensures !more && err == None ==> log != [] && !Continues(log[|log| - 1])
    {
      var found: Lookup := *;
      if !found.Found? { return false, Some(if found.NoRows? then NoMessages else Database), found; }
      var reply, readable, tries, next := RequestBatch(found.id);
      var newOldest: Lookup := *;
      ghost var batch := Batch(found.id, tries, reply, readable, newOldest);
      LogGrows(log, batch);
      LastJustifies(if !readable then Some(Database) else if !reply.Response? then Some(Unanswered(reply)) else None, log, batch);
      log := log + [batch];
      if !readable { return false, Some(Database), found; }
      if !reply.Response? { return false, Some(Unanswered(reply)), found; }
      if newOldest == Found(found.id) { return false, None, found; }
      if reply.messages <= 0 { return false, None, found; }
      if reply.complete { return false, None, found; }
      return true, None, found;
    }

    /** The batch loop. `oldest` is what it found on its last look at the local rows. */
    method Run() returns (err: Option<RunError>, ghost oldest: Lookup)
      requires log == []
      modifies this
      ensures WellRun(log) && |log| <= requests
      ensures requestsSent == old(requestsSent) + Sent(log) <= old(requestsSent) + 4 * requests
      ensures responsesSeen == old(responsesSeen) + Answered(log) <= old(responsesSeen) + requests
      ensures requests > 0 ==> Justified(err, oldest, log)
      ensures err == None && |log| < requests ==> !Continues(log[|log| - 1])
    {
      oldest := NoRows;
      for i := 0 to requests
        invariant WellRun(log) && AllContinue(log) && |log| == i
        invariant i > 0 ==> Justified(None, oldest, log)
        invariant requestsSent == old(requestsSent) + Sent(log) && responsesSeen == old(responsesSeen) + Answered(log)
      {
        var more;
        more, err, oldest := RunBatch();
        RunBounds(log);
        if !more { return; }
      }
      RunBounds(log);
      return None, oldest;
    }
  }
}
