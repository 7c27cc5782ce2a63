/** The delegate server's time discipline: the request budget, the spacing flag, the pacer, and
    the single send slot over every run. Durations and instants are integers of nanoseconds. */
module DelegateServer {
  import opened Strings
  import opened Wrappers

  const MAX_INT64 := 0x7FFF_FFFF_FFFF_FFFF
  const MILLISECOND := 1_000_000
  const DEFAULT_TIMEOUT := 5 * 60 * 1000 * MILLISECOND
  const REPLY_MARGIN := 500 * MILLISECOND

  /** Two's-complement truncation to 64 bits. */
  function Wrap64(x: int): int {
    (x + MAX_INT64 + 1) % (2 * (MAX_INT64 + 1)) - (MAX_INT64 + 1)
  }

  // ----- the budget of a request ---------------------------------------------------------

  function MillisDuration(ms: int): int {
    if ms <= 0 then DEFAULT_TIMEOUT else Wrap64(ms * MILLISECOND)
  }

  function DurationMillis(d: int): int {
    if d <= 0 then 0 else d / MILLISECOND
  }

  /** The request's own timeout, capped by the caller's absolute deadline. */
  function UncutDeadline(now: int, timeoutMs: int, callerMs: int): int {
    var own := now + MillisDuration(timeoutMs);
    if callerMs > 0 && callerMs * MILLISECOND < own then callerMs * MILLISECOND else own
  }

  function Min(a: int, b: int): int {
    if a <= b then a else b
  }

  /** `now` and `later` are the two clock readings; `parent` is the server context's deadline. */
  function Deadline(now: int, later: int, timeoutMs: int, callerMs: int, parent: Option<int>): int {
    var uncut := UncutDeadline(now, timeoutMs, callerMs);
    var remaining := uncut - later;
    var own := if remaining > 0 then uncut - Min(REPLY_MARGIN, remaining / 10) else uncut;
    if parent.Some? then Min(own, parent.value) else own
  }

  /** The budget never passes the caller's deadline, keeps at least nine tenths of the time that
      is left, gives up at most the margin, and is in the future exactly when any time is left. */
  lemma BudgetIsHonest(now: int, later: int, timeoutMs: int, callerMs: int, parent: Option<int>)
    ensures var d := Deadline(now, later, timeoutMs, callerMs, parent);
            var uncut := UncutDeadline(now, timeoutMs, callerMs);
            && (callerMs > 0 ==> d <= callerMs * MILLISECOND)
            && (parent.Some? ==> d <= parent.value)
            && (later < d <==> later < uncut && (parent.Some? ==> later < parent.value))
            && (later < uncut && parent.None? ==> d >= uncut - REPLY_MARGIN && 10 * (d - later) >= 9 * (uncut - later))
  {
  }

  /** And it is exact: the earlier of the request's own timeout and the caller's deadline, less the
      smaller of half a second and a tenth of the time left, and never later than the server's. */
  lemma BudgetIsExact(now: int, later: int, timeoutMs: int, callerMs: int, parent: Option<int>)
    ensures var own := now + if timeoutMs <= 0 then 300_000_000_000 else Wrap64(timeoutMs * 1_000_000);
            var uncut := UncutDeadline(now, timeoutMs, callerMs);
            var left := uncut - later;
            var margin := if left <= 0 then 0 else if left / 10 < 500_000_000 then left / 10 else 500_000_000;
            var d := Deadline(now, later, timeoutMs, callerMs, parent);
            && (callerMs <= 0 ==> uncut == own)
            && (callerMs > 0 ==> uncut <= own && uncut <= callerMs * 1_000_000 && (uncut == own || uncut == callerMs * 1_000_000))
            && (parent.None? || uncut - margin <= parent.value ==> d == uncut - margin)
            && (parent.Some? && parent.value < uncut - margin ==> d == parent.value)
  {
  }

  /** A timeout in milliseconds is honoured exactly up to 9223372036854; above that the
      product wraps. */
  lemma TimeoutIsExactBelowTheWrap(ms: int)
    requires 0 < ms <= MAX_INT64
    ensures MillisDuration(ms) == ms * MILLISECOND <==> ms <= 9_223_372_036_854
  {
    if ms <= 9_223_372_036_854 {
      assert 0 < ms * MILLISECOND <= MAX_INT64;
    } else {
      assert ms * MILLISECOND > MAX_INT64 >= Wrap64(ms * MILLISECOND);
    }
  }

  /** The first value past the bound is already a deadline in the past. */
  lemma AWrappedTimeoutIsOver(now: int)
    ensures UncutDeadline(now, 9_223_372_036_855, 0) < now
  {
  }

  /** The client's timeout crosses the wire rounded down to the millisecond, and below one
      millisecond it turns into the server's default. */
  lemma TimeoutCrossesTheWire(d: int)
    requires d <= MAX_INT64
    ensures MillisDuration(DurationMillis(d)) == if d < MILLISECOND then DEFAULT_TIMEOUT else d - d % MILLISECOND
  {
    if d >= MILLISECOND {
      assert DurationMillis(d) * MILLISECOND == d - d % MILLISECOND;
    }
  }

  // ----- the spacing flag ----------------------------------------------------------------

  datatype Spacing = Spacing(min: int, max: int)

  /** A spacing the flag can produce. */
  predicate Sound(s: Spacing) {
    0 <= s.min <= s.max <= MAX_INT64
  }

  predicate SpacingEnabled(s: Spacing) {
    s.max > 0
  }

  /** The text before and after the first hyphen, if there is one. */
  function Cut(s: string): (parts: (string, Option<string>)) {
    if s == "" then ("", None)
    else if s[0] == '-' then ("", Some(s[1..]))
    else var rest := Cut(s[1..]); ([s[0]] + rest.0, rest.1)
  }

  /** `parse` is the duration parser. */
  function ParseSpacing(raw: string, parse: string -> Option<int>): Result<Spacing, string> {
    var text := TrimSpace(raw);
    if text == "" then Success(Spacing(0, 0))
    else
      var (lo, hi) := Cut(text);
      var low := parse(TrimSpace(lo));
      var high := if hi.Some? then parse(TrimSpace(hi.value)) else low;
      if low.None? || high.None? then Failure("invalid")
      else if low.value < 0 || high.value < 0 then Failure("negative")
      else if high.value < low.value then Failure("order")
      else Success(Spacing(low.value, high.value))
  }

  lemma {:induction false} CutAtTheFirstHyphen(before: string, after: string)
    requires '-' !in before
    ensures Cut(before + "-" + after) == (before, Some(after))
    ensures Cut(before) == (before, None)
  {
    var s := before + "-" + after;
    if before == "" {
      assert s == "-" + after;
    } else {
      assert s[0] == before[0] && s[1..] == before[1..] + "-" + after;
      CutAtTheFirstHyphen(before[1..], after);
      assert [s[0]] + before[1..] == before;
    }
  }

  /** A written range reads back as its two bounds, whatever white space surrounds them,
      exactly when they are non-negative and in order. */
  lemma RangeReadsBack(p: string, lo: string, q: string, r: string, hi: string, t: string, parse: string -> Option<int>)
    requires AllSpace(p) && AllSpace(q) && AllSpace(r) && AllSpace(t)
    requires Word(lo) && '-' !in lo && Word(hi)
    ensures var out := ParseSpacing(p + (lo + q + "-" + r + hi) + t, parse);
            if parse(lo).Some? && parse(hi).Some? && 0 <= parse(lo).value <= parse(hi).value
            then out == Success(Spacing(parse(lo).value, parse(hi).value))
            else out.Failure?
  {
    var inner := lo + q + "-" + r + hi;
    TrimUnpads(p, inner, t);
    CutRange(lo, q, r, hi);
  }

  lemma NoHyphenInPadding(word: string, pad: string)
    requires '-' !in word && AllSpace(pad)
    ensures '-' !in word + pad
  {
    assert !IsSpace('-');
  }

  lemma TrimRightPad(word: string, pad: string)
    requires Word(word) && AllSpace(pad)
    ensures TrimSpace(word + pad) == word
  {
    TrimUnpads("", word, pad);
    assert "" + word + pad == word + pad;
  }

  lemma TrimLeftPad(pad: string, word: string)
    requires Word(word) && AllSpace(pad)
    ensures TrimSpace(pad + word) == word
  {
    TrimUnpads(pad, word, "");
    assert pad + word + "" == pad + word;
  }

  lemma Regroup(a: string, b: string, c: string)
    ensures a + b + c == a + (b + c)
  {
  }

  lemma CutRange(lo: string, q: string, r: string, hi: string)
    requires AllSpace(q) && AllSpace(r) && Word(lo) && '-' !in lo && Word(hi)
    ensures var (a, b) := Cut(lo + q + "-" + r + hi);
            TrimSpace(a) == lo && b.Some? && TrimSpace(b.value) == hi
  {
    NoHyphenInPadding(lo, q);
    CutAtTheFirstHyphen(lo + q, r + hi);
    TrimRightPad(lo, q);
    TrimLeftPad(r, hi);
    Regroup(lo + q + "-", r, hi);
  }

  /** A single duration is a fixed gap, exactly when it is non-negative. */
  lemma SingleReadsBack(p: string, gap: string, t: string, parse: string -> Option<int>)
    requires AllSpace(p) && Word(gap) && '-' !in gap && AllSpace(t)
    ensures var out := ParseSpacing(p + gap + t, parse);
            if parse(gap).Some? && 0 <= parse(gap).value then out == Success(Spacing(parse(gap).value, parse(gap).value))
            else out.Failure?
  {
    TrimUnpads(p, gap, t);
    CutAtTheFirstHyphen(gap, "");
    TrimRightPad(gap, "");
    assert gap + "" == gap;
  }

  /** A blank flag, and only a range that ends at zero, turns spacing off. */
  lemma BlankIsOff(raw: string, parse: string -> Option<int>)
    ensures AllSpace(raw) ==> ParseSpacing(raw, parse) == Success(Spacing(0, 0))
    ensures var out := ParseSpacing(raw, parse);
            out.Success? ==> 0 <= out.value.min <= out.value.max && (SpacingEnabled(out.value) <==> out.value != Spacing(0, 0))
  {
    if AllSpace(raw) {
      TrimSpaces(raw);
    }
  }

  // ----- the pacer -------------------------------------------------------------------------

  /** The argument given to the random source, which answers in [0, bound). Zero: none is drawn. */
  function DrawBound(s: Spacing): int {
    if s.max <= s.min then 0
    else if s.max - s.min == MAX_INT64 then s.max - s.min
    else s.max - s.min + 1
  }

  predicate Drawn(s: Spacing, draw: int) {
    0 <= draw && (DrawBound(s) > 0 ==> draw < DrawBound(s))
  }

  function Gap(s: Spacing, draw: int): int {
    if s.max <= s.min then s.min else s.min + draw
  }

  /** The bound fits 64 bits and is positive whenever it is used, and the gaps that can be drawn
      are exactly the range, but for the single upper end of the full 64-bit range. */
  lemma GapsAreExactlyTheRange(s: Spacing, g: int)
    requires Sound(s)
    ensures DrawBound(s) <= MAX_INT64 && (s.min < s.max ==> DrawBound(s) > 0)
    ensures (exists draw :: Drawn(s, draw) && Gap(s, draw) == g)
            <==> s.min <= g <= s.max && !(g == s.max && s.max - s.min == MAX_INT64)
  {
    if s.min <= g <= s.max && !(g == s.max && s.max - s.min == MAX_INT64) {
      assert Drawn(s, g - s.min) && Gap(s, g - s.min) == g;
    }
  }

  class SendPacer {
    const spacing: Spacing
    var last: int
    var hasLast: bool

    function Last(): Option<int>
      reads this
    {
      if hasLast then Some(last) else None
    }

    constructor (spacing: Spacing)
      ensures this.spacing == spacing && Last() == None
    {
      this.spacing := spacing;
      last, hasLast := 0, false;
    }

    /** How long wait sleeps when its clock reads `now`. */
    method Remaining(now: int, draw: int) returns (sleep: int)
      requires Sound(spacing) && Drawn(spacing, draw)
      ensures sleep >= 0
      ensures SpacingEnabled(spacing) && hasLast ==> now + sleep >= last + spacing.min
      ensures SpacingEnabled(spacing) && hasLast && sleep > 0 ==> now + sleep <= last + spacing.max
      // It sleeps out the drawn gap, or not at all when that has passed.
      ensures SpacingEnabled(spacing) && hasLast ==>
                sleep == if now < last + Gap(spacing, draw) then last + Gap(spacing, draw) - now else 0
      ensures !SpacingEnabled(spacing) || !hasLast ==> sleep == 0
    {
      if !SpacingEnabled(spacing) || !hasLast { return 0; }
      var gap := Gap(spacing, draw);
      sleep := gap - (now - last);
      if sleep < 0 { sleep := 0; }
    }

    method Record(now: int)
      modifies this
      ensures Last() == Recorded(spacing, old(Last()), now)
    {
      if !SpacingEnabled(spacing) { return; }
      last := now;
      hasLast := true;
    }
  }

  function Recorded(s: Spacing, last: Option<int>, now: int): Option<int> {
    if SpacingEnabled(s) then Some(now) else last
  }

  // ----- the send slot over every run --------------------------------------------------------

  /** Between taking the token and giving it back a request is a holder. */
  datatype Stage =
    | Queued
    | Held
    | Pacing(wake: int)
    | Paced
    | Running
    | Finished      // execute returned; completion not recorded yet
    | Leaving       // the deferred return of the token is due
    | Gone

  datatype Req = Req(deadline: int, ctxDone: bool, stage: Stage)

  datatype State = State(now: int, spacing: Spacing, last: Option<int>, free: bool, reqs: map<nat, Req>)

  datatype Action =
    | Tick(d: nat)
    | Arrive(r: nat, deadline: int)
    | EndContext(r: nat)
    | GiveUp(r: nat)
    | Take(r: nat)
    | Check(r: nat, draw: int)
    | Wake(r: nat)
    | Start(r: nat)
    | Complete(r: nat)
    | Record(r: nat)
    | Return(r: nat)

  function Init(now: int, spacing: Spacing): State {
    State(now, spacing, None, true, map[])
  }

  predicate At(s: State, r: nat, stage: Stage) {
    r in s.reqs && s.reqs[r].stage == stage
  }

  predicate Enabled(s: State, a: Action) {
    match a
    case Tick(_) => true
    case Arrive(r, _) => r !in s.reqs
    case EndContext(r) => r in s.reqs
    case GiveUp(r) => At(s, r, Queued) && s.reqs[r].ctxDone
    case Take(r) => At(s, r, Queued) && s.free
    case Check(r, draw) => At(s, r, Held) && Drawn(s.spacing, draw)
    case Wake(r) => r in s.reqs && s.reqs[r].stage.Pacing? && (s.reqs[r].ctxDone || s.now >= s.reqs[r].stage.wake)
    case Start(r) => At(s, r, Paced)
    case Complete(r) => At(s, r, Running)
    case Record(r) => At(s, r, Finished)
    case Return(r) => At(s, r, Leaving)
  }

  /** Its context ended or its deadline passed. */
  predicate TooLate(s: State, r: nat)
    requires r in s.reqs
  {
    s.reqs[r].ctxDone || s.now >= s.reqs[r].deadline
  }

  function Put(s: State, r: nat, stage: Stage): State
    requires r in s.reqs
  {
    s.(reqs := s.reqs[r := s.reqs[r].(stage := stage)])
  }

  function Do(s: State, a: Action): State
    requires Enabled(s, a)
  {
    match a
    case Tick(d) => s.(now := s.now + d)
    case Arrive(r, deadline) => s.(reqs := s.reqs[r := Req(deadline, false, Queued)])
    case EndContext(r) => s.(reqs := s.reqs[r := s.reqs[r].(ctxDone := true)])
    case GiveUp(r) => Put(s, r, Gone)
    case Take(r) => Put(s, r, Held).(free := false)
    case Check(r, draw) =>
      Put(s, r, if TooLate(s, r) then Leaving
                else if SpacingEnabled(s.spacing) && s.last.Some? then Pacing(s.last.value + Gap(s.spacing, draw))
                else Paced)
    case Wake(r) => Put(s, r, if s.reqs[r].ctxDone then Leaving else Paced)
    case Start(r) => Put(s, r, if TooLate(s, r) then Leaving else Running)
    case Complete(r) => Put(s, r, Finished)
    case Record(r) => Put(s, r, Leaving).(last := Recorded(s.spacing, s.last, s.now))
    case Return(r) => Put(s, r, Gone).(free := true)
  }

  predicate StepAt(tr: seq<State>, acts: seq<Action>, i: nat)
    requires |tr| == |acts| + 1 && i < |acts|
  {
    Enabled(tr[i], acts[i]) && tr[i + 1] == Do(tr[i], acts[i])
  }

  ghost predicate IsRun(tr: seq<State>, acts: seq<Action>) {
    && |tr| == |acts| + 1
    && Sound(tr[0].spacing) && tr[0] == Init(tr[0].now, tr[0].spacing)
    && forall i: nat :: i < |acts| ==> StepAt(tr, acts, i)
  }

  predicate Holds(s: State, r: nat) {
    r in s.reqs && !s.reqs[r].stage.Queued? && !s.reqs[r].stage.Gone?
  }

  /** What the holder's stage says about the last completion. */
  predicate Spaced(s: State, r: nat)
    requires r in s.reqs
  {
    match s.reqs[r].stage
    case Pacing(wake) => s.last.Some? && wake >= s.last.value + s.spacing.min
    case Paced => s.last.Some? ==> s.now >= s.last.value + s.spacing.min
    case _ => true
  }

  ghost predicate Inv(s: State) {
    && Sound(s.spacing)
    && (s.last.Some? ==> s.last.value <= s.now && SpacingEnabled(s.spacing))
    && (forall r :: Holds(s, r) ==> !s.free)
    && (!s.free ==> exists r :: Holds(s, r))
    && (forall r, q :: Holds(s, r) && Holds(s, q) ==> r == q)
    && (forall r :: r in s.reqs ==> Spaced(s, r))
  }

  lemma StepKeepsInv(s: State, a: Action)
    requires Inv(s) && Enabled(s, a)
    ensures Inv(Do(s, a))
  {
    var s' := Do(s, a);
    forall r | Holds(s', r) ensures !s'.free && (Holds(s, r) || (a.Take? && a.r == r)) {
      match a {
        case Return(q) =>
          assert Holds(s, q);
          assert Holds(s, r);
        case Take(q) =>
          assert r != q ==> Holds(s, r);
        case _ =>
          assert Holds(s, r);
      }
    }
    if !s'.free {
      if a.Take? {
        assert Holds(s', a.r);
      } else {
        var r :| Holds(s, r);
        assert Holds(s', r);
      }
    }
    forall r | r in s'.reqs ensures Spaced(s', r) {
      if r in s.reqs { assert Spaced(s, r); }
      if a.Record? {
        assert Holds(s, a.r);
        assert Holds(s, r) ==> r == a.r;
      }
    }
  }

  lemma {:induction false} RunKeepsInv(tr: seq<State>, acts: seq<Action>, n: nat)
    requires IsRun(tr, acts) && n < |tr|
    ensures Inv(tr[n])
  {
    if n > 0 {
      RunKeepsInv(tr, acts, n - 1);
      assert StepAt(tr, acts, n - 1);
      StepKeepsInv(tr[n - 1], acts[n - 1]);
    }
  }

  /** The token is out exactly while one request holds it, so sends run one at a time and every
      exit gives it back. */
  lemma SlotHasOneToken(tr: seq<State>, acts: seq<Action>, n: nat)
    requires IsRun(tr, acts) && n < |tr|
    ensures tr[n].free <==> !exists r :: Holds(tr[n], r)
    ensures forall r, q :: Holds(tr[n], r) && Holds(tr[n], q) ==> r == q
  {
    RunKeepsInv(tr, acts, n);
  }

  predicate Starts(s: State, a: Action) {
    a.Start? && a.r in s.reqs && !TooLate(s, a.r)
  }

  /** Once a request ran to completion, its time is covered by the pacer's mark, or it still
      holds the slot and has yet to record. */
  lemma {:induction false} CompletionIsCovered(tr: seq<State>, acts: seq<Action>, i: nat, n: nat)
    requires IsRun(tr, acts) && i < n < |tr| && acts[i].Complete? && SpacingEnabled(tr[0].spacing)
    ensures tr[n].spacing == tr[0].spacing && tr[n].now >= tr[i].now
    ensures At(tr[n], acts[i].r, Finished) || (tr[n].last.Some? && tr[n].last.value >= tr[i].now)
    decreases n
  {
    assert StepAt(tr, acts, n - 1);
    if n == i + 1 {
      SpacingIsFixed(tr, acts, i);
    } else {
      CompletionIsCovered(tr, acts, i, n - 1);
    }
  }

  lemma {:induction false} SpacingIsFixed(tr: seq<State>, acts: seq<Action>, n: nat)
    requires IsRun(tr, acts) && n < |tr|
    ensures tr[n].spacing == tr[0].spacing
  {
    if n > 0 {
      assert StepAt(tr, acts, n - 1);
      SpacingIsFixed(tr, acts, n - 1);
    }
  }

  /** In every run an operation starts strictly before its deadline, with its context alive and
      the slot in its hand, and at least the minimum gap after every earlier completion. */
  lemma StartsAreTimelyAndSpaced(tr: seq<State>, acts: seq<Action>, n: nat)
    requires IsRun(tr, acts) && n < |acts| && StepAt(tr, acts, n) && acts[n].Start?
    requires tr[n + 1].reqs[acts[n].r].stage.Running?
    ensures Holds(tr[n], acts[n].r) && tr[n].now < tr[n].reqs[acts[n].r].deadline && !tr[n].reqs[acts[n].r].ctxDone
    ensures forall i :: 0 <= i < n && acts[i].Complete? && SpacingEnabled(tr[0].spacing) ==>
              tr[n].now >= tr[i].now + tr[0].spacing.min
  {
    assert StepAt(tr, acts, n);
    RunKeepsInv(tr, acts, n);
    var r := acts[n].r;
    assert Holds(tr[n], r) && Spaced(tr[n], r);
    forall i | 0 <= i < n && acts[i].Complete? && SpacingEnabled(tr[0].spacing)
      ensures tr[n].now >= tr[i].now + tr[0].spacing.min
    {
      CompletionIsCovered(tr, acts, i, n);
      if At(tr[n], acts[i].r, Finished) {
        assert Holds(tr[n], acts[i].r);
        assert false;
      }
    }
  }

  /** And nothing in time is held back: with its context alive and its deadline ahead, the holder
      of the slot goes straight on when spacing is off or nothing was sent before, otherwise
      sleeps until the drawn gap after the last completion is over and no longer, and then runs. */
  lemma NothingInTimeIsRefused(tr: seq<State>, acts: seq<Action>, n: nat, r: nat)
    requires IsRun(tr, acts) && n < |acts| && StepAt(tr, acts, n)
    requires r in tr[n].reqs && !tr[n].reqs[r].ctxDone && r in tr[n + 1].reqs
    ensures acts[n] == Start(r) && tr[n].now < tr[n].reqs[r].deadline ==> tr[n + 1].reqs[r].stage == Running
    ensures acts[n] == Wake(r) ==> tr[n + 1].reqs[r].stage == Paced
    ensures acts[n].Check? && acts[n].r == r && tr[n].now < tr[n].reqs[r].deadline ==>
              tr[n + 1].reqs[r].stage ==
              if tr[n].spacing.max > 0 && tr[n].last.Some? then Pacing(tr[n].last.value + Gap(tr[n].spacing, acts[n].draw)) else Paced
    ensures acts[n].Check? && acts[n].r == r && tr[n + 1].reqs[r].stage.Pacing? ==>
              tr[n].last.value + tr[n].spacing.min <= tr[n + 1].reqs[r].stage.wake <= tr[n].last.value + tr[n].spacing.max
    ensures acts[n] == Take(r) ==> Holds(tr[n + 1], r)
  {
    RunKeepsInv(tr, acts, n);
  }

  /** The pacer's mark is the time of the last recorded completion, while spacing is on. */
  lemma RecordsMark(tr: seq<State>, acts: seq<Action>, n: nat)
    requires IsRun(tr, acts) && n < |acts|
    ensures tr[n + 1].last == if acts[n].Record? && tr[n].spacing.max > 0 then Some(tr[n].now) else tr[n].last
  {
    assert StepAt(tr, acts, n);
  }

  /** Whatever came too late gives the slot back without running: before the pause, after it, or
      in it when its context ends. One that gives up in the queue never had the slot. */
  lemma TooLateIsRefused(tr: seq<State>, acts: seq<Action>, n: nat, r: nat)
    requires IsRun(tr, acts) && n < |acts| && StepAt(tr, acts, n) && r in tr[n].reqs && r in tr[n + 1].reqs
    ensures var late := tr[n].reqs[r].ctxDone || tr[n].now >= tr[n].reqs[r].deadline;
            && (acts[n] == Start(r) && late ==> tr[n + 1].reqs[r].stage == Leaving)
            && (acts[n].Check? && acts[n].r == r && late ==> tr[n + 1].reqs[r].stage == Leaving)
    ensures acts[n] == Wake(r) && tr[n].reqs[r].ctxDone ==> tr[n + 1].reqs[r].stage == Leaving
    ensures acts[n] == GiveUp(r) ==>
              tr[n + 1].reqs[r].stage == Gone && tr[n + 1].free == tr[n].free && !Holds(tr[n], r)
  {
  }

  predicate EndsAt(acts: seq<Action>, i: nat, r: nat) {
    i < |acts| && acts[i] == EndContext(r)
  }

  lemma RequestStays(s: State, a: Action, r: nat)
    requires Enabled(s, a) && r in s.reqs
    ensures r in Do(s, a).reqs && Do(s, a).reqs[r].deadline == s.reqs[r].deadline
    ensures Do(s, a).reqs[r].ctxDone <==> s.reqs[r].ctxDone || a == EndContext(r)
  {
  }

  /** A request starts out in the queue, keeps the deadline it came with, and its context is over
      exactly when it was ended. */
  lemma {:induction false} RequestsStayAsMade(tr: seq<State>, acts: seq<Action>, m: nat, n: nat, r: nat, deadline: int)
    requires IsRun(tr, acts) && m < n < |tr| && acts[m] == Arrive(r, deadline)
    ensures r in tr[n].reqs && tr[n].reqs[r].deadline == deadline
    ensures tr[n].reqs[r].ctxDone <==> exists i: nat :: m < i < n && EndsAt(acts, i, r)
    ensures n == m + 1 ==> tr[n].reqs[r].stage == Queued
    decreases n
  {
    assert StepAt(tr, acts, n - 1);
    if n > m + 1 {
      RequestsStayAsMade(tr, acts, m, n - 1, r, deadline);
      RequestStays(tr[n - 1], acts[n - 1], r);
      assert EndsAt(acts, n - 1, r) <==> acts[n - 1] == EndContext(r);
    }
  }

  function Elapsed(acts: seq<Action>): nat {
    if acts == [] then 0
    else Elapsed(acts[..|acts| - 1]) + if acts[|acts| - 1].Tick? then acts[|acts| - 1].d else 0
  }

  /** The clock shows exactly the time that has passed. */
  lemma {:induction false} TheClockIsExact(tr: seq<State>, acts: seq<Action>, n: nat)
    requires IsRun(tr, acts) && n < |tr|
    ensures tr[n].now == tr[0].now + Elapsed(acts[..n])
  {
    if n > 0 {
      assert StepAt(tr, acts, n - 1);
      TheClockIsExact(tr, acts, n - 1);
      assert acts[..n][..n - 1] == acts[..n - 1];
    }
  }
}
