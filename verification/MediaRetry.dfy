/** Recovering expired media: receipts to the phone in batches, one second attempt for the silent
    ones, and one outcome per requested message. */
module MediaRetry {
  import opened Wrappers

  /** A pending row, and the key its answer comes back under: the parsed chat and the same id. */
  datatype Row = Row(chat: string, id: string)
  datatype Key = Key(chat: string, id: string)

  datatype Info = Info(chat: string, hasMetadata: bool)

  const SUCCESS := 1
  const NOT_FOUND := 2

  datatype Notif = Refused | Answer(code: int, hasPath: bool) | Unreadable

  datatype Status = Recovered | NotOnPhone | NoResponse | Error

  datatype Outcome = Outcome(chat: string, id: string, status: Status)

  datatype Result = Result(requested: nat, recovered: nat, notOnPhone: nat, noResponse: nat, failed: nat,
                           outcomes: seq<Outcome>)

  datatype ContextError = Cancelled | DeadlineExceeded

  datatype Download = Downloaded | Expired | Broken

  // ----- what the local database and the group lookup say about one row --------------------

  datatype RowFacts = RowFacts(
    info: Option<Info>,
    hasMessage: bool,
    fromMe: bool,
    isGroup: bool,
    isGroupLike: bool,          // a group or a broadcast list
    senderKnown: bool,
    linkedKnown: bool,
    groupMode: Option<string>)

  /** Whether a receipt can be addressed for the row, given its parsed chat. */
  predicate Addressable(f: RowFacts, parsed: Option<string>, exact: bool) {
    && f.info.Some? && (exact ==> f.info.value.hasMetadata)
    && f.hasMessage && parsed.Some?
    && (f.isGroupLike ==> f.senderKnown || (f.fromMe && f.linkedKnown))
    && (f.isGroup ==> f.groupMode.Some?)
  }

  /** A row fails at once for exactly these reasons. */
  lemma RowsFailExactlyFor(f: RowFacts, parsed: Option<string>, exact: bool)
    ensures !Addressable(f, parsed, exact) <==>
            || f.info.None? || !f.hasMessage || parsed.None?
            || (exact && !f.info.value.hasMetadata)
            || (f.isGroupLike && !f.senderKnown && !(f.fromMe && f.linkedKnown))
            || (f.isGroup && f.groupMode.None?)
  {
  }

  // ----- tallies ------------------------------------------------------------------------------

  function Count(os: seq<Outcome>, status: Status): nat {
    if os == [] then 0
    else Count(os[..|os| - 1], status) + (if os[|os| - 1].status == status then 1 else 0)
  }

  /** Every counter is the number of outcomes with its status. */
  predicate Tallied(r: Result) {
    && r.recovered == Count(r.outcomes, Recovered)
    && r.notOnPhone == Count(r.outcomes, NotOnPhone)
    && r.noResponse == Count(r.outcomes, NoResponse)
    && r.failed == Count(r.outcomes, Error)
  }

  lemma {:induction false} CountsCoverTheOutcomes(os: seq<Outcome>)
    ensures Count(os, Recovered) + Count(os, NotOnPhone) + Count(os, NoResponse) + Count(os, Error) == |os|
  {
    if os != [] {
      CountsCoverTheOutcomes(os[..|os| - 1]);
    }
  }

  /** The messages a list of outcomes names. */
  function Named(os: seq<Outcome>): (rows: seq<Row>)
    ensures |rows| == |os|
  {
    seq(|os|, i requires 0 <= i < |os| => Row(os[i].chat, os[i].id))
  }

  function RowIds(rows: seq<Row>): seq<string> {
    seq(|rows|, i requires 0 <= i < |rows| => rows[i].id)
  }

  /** `parse` reads a stored chat and writes it back as text. */
  function KeyOf(parse: string -> Option<string>, r: Row): Key {
    Key(if parse(r.chat).Some? then parse(r.chat).value else "", r.id)
  }

  function KeysOf(parse: string -> Option<string>, rows: seq<Row>): seq<Key> {
    seq(|rows|, i requires 0 <= i < |rows| => KeyOf(parse, rows[i]))
  }

  /** The messages the outcomes of `keys` will name: the chat is the one kept under the key. */
  function Reported(infos: map<Key, Info>, keys: seq<Key>): seq<Row> {
    seq(|keys|, i requires 0 <= i < |keys| => RowOf(infos, keys[i]))
  }

  function RowOf(infos: map<Key, Info>, k: Key): Row {
    Row(if k in infos then infos[k].chat else "", k.id)
  }

  // ----- classification -----------------------------------------------------------------------

  function StatusOf(n: Option<Notif>, download: Download, marked: bool): Status {
    match n
    case None => NoResponse
    case Some(Refused) => Error
    case Some(Unreadable) => Error
    case Some(Answer(code, hasPath)) =>
      if code == NOT_FOUND then
        if download.Downloaded? then Recovered
        else if download.Broken? then Error
        else if marked then NotOnPhone else Error
      else if code != SUCCESS || !hasPath then Error
      else if download.Downloaded? then Recovered else Error
  }

  /** A row is reported gone only after the phone said it has no copy, the stored path proved
      expired and the exclusion was written; it is reported recovered only after a download; it is
      reported silent only when no answer came; and anything else is an error. */
  lemma GoneAndRecoveredAreEarned(n: Option<Notif>, download: Download, marked: bool)
    ensures StatusOf(n, download, marked).NotOnPhone? <==>
            n.Some? && n.value.Answer? && n.value.code == 2 && download.Expired? && marked
    ensures StatusOf(n, download, marked).Recovered? <==>
            && n.Some? && n.value.Answer? && download.Downloaded?
            && (n.value.code == 2 || (n.value.code == 1 && n.value.hasPath))
    ensures StatusOf(n, download, marked).NoResponse? <==> n.None?
  {
  }

  // ----- receipts -----------------------------------------------------------------------------

  function Flatten(batches: seq<seq<Key>>): seq<Key> {
    if batches == [] then [] else Flatten(batches[..|batches| - 1]) + batches[|batches| - 1]
  }

  lemma FlattenAppend(batches: seq<seq<Key>>, batch: seq<Key>)
    ensures Flatten(batches + [batch]) == Flatten(batches) + batch
  {
    assert (batches + [batch])[..|batches|] == batches;
  }

  lemma ReportedAppend(infos: map<Key, Info>, keys: seq<Key>, start: nat, end: nat)
    requires start <= end <= |keys|
    ensures keys[..end] == keys[..start] + keys[start..end]
    ensures Reported(infos, keys[..end]) == Reported(infos, keys[..start]) + Reported(infos, keys[start..end])
  {
  }

  lemma ReportedStep(infos: map<Key, Info>, keys: seq<Key>, i: nat, before: seq<Row>)
    requires i < |keys|
    ensures before + Reported(infos, keys[..i + 1]) == before + Reported(infos, keys[..i]) + [RowOf(infos, keys[i])]
    ensures before + Reported(infos, keys[..i]) <= before + Reported(infos, keys)
    ensures keys[i] in keys
  {
    assert Reported(infos, keys[..i]) == Reported(infos, keys)[..i];
  }

  lemma Regroup(a: seq<Row>, b: seq<Row>, c: seq<Row>)
    ensures a + b + c == a + (b + c)
  {
  }

  /** The batches so far are full ones; the last may be smaller once the keys are through. */
  predicate AllFull(batches: seq<seq<Key>>, batchSize: nat, through: bool) {
    forall b :: 0 <= b < (if through then |batches| - 1 else |batches|) ==> |batches[b]| == batchSize
  }

  lemma FullGrows(batches: seq<seq<Key>>, batch: seq<Key>, batchSize: nat, through: bool)
    requires AllFull(batches, batchSize, false) && (!through ==> |batch| == batchSize)
    ensures AllFull(batches + [batch], batchSize, through)
  {
  }

  /** One batch further, for the outcomes and for the keys asked. */
  lemma BatchDone(infos: map<Key, Info>, ordered: seq<Key>, start: nat, end: nat, failed: seq<Row>, before: seq<Row>, after: seq<Row>)
    requires start <= end <= |ordered|
    requires before == failed + Reported(infos, ordered[..start])
    requires after <= before + Reported(infos, ordered[start..end])
    ensures after <= failed + Reported(infos, ordered)
    ensures after == before + Reported(infos, ordered[start..end]) ==> after == failed + Reported(infos, ordered[..end])
    ensures ordered[..start] + ordered[start..end] == ordered[..end]
  {
    ReportedAppend(infos, ordered, start, end);
    Regroup(failed, Reported(infos, ordered[..start]), Reported(infos, ordered[start..end]));
    ShorterPrefix(after, failed, infos, ordered, end);
  }

  lemma ShorterPrefix(rows: seq<Row>, failed: seq<Row>, infos: map<Key, Info>, keys: seq<Key>, end: nat)
    requires end <= |keys| && rows <= failed + Reported(infos, keys[..end])
    ensures rows <= failed + Reported(infos, keys)
  {
    ReportedAppend(infos, keys, end, |keys|);
    assert keys[..|keys|] == keys;
    Regroup(failed, Reported(infos, keys[..end]), Reported(infos, keys[end..]));
  }

  function Attempts(exact: bool, keys: seq<Key>): multiset<Key> {
    if exact then multiset(keys) else multiset(keys) + multiset(keys)
  }

  /** The receipts of each batch go to its own keys, each at most once per attempt, and no batch
      is larger than the limit. */
  ghost predicate Paced(sent: seq<seq<Key>>, batches: seq<seq<Key>>, exact: bool, batchSize: nat) {
    && |sent| == |batches|
    && forall b :: 0 <= b < |sent| ==> |batches[b]| <= batchSize && multiset(sent[b]) <= Attempts(exact, batches[b])
  }

  /** Every key of every batch is asked at least once. */
  ghost predicate AllAsked(sent: seq<seq<Key>>, batches: seq<seq<Key>>) {
    && |sent| == |batches|
    && forall b :: 0 <= b < |sent| ==> multiset(batches[b]) <= multiset(sent[b])
  }

  /** What is kept of the receipts: paced always, and complete while the context lives. */
  ghost predicate LogOk(sent: seq<seq<Key>>, batches: seq<seq<Key>>, exact: bool, batchSize: nat, ended: bool) {
    Paced(sent, batches, exact, batchSize) && (!ended ==> AllAsked(sent, batches))
  }

  lemma LogGrows(sent: seq<seq<Key>>, batches: seq<seq<Key>>, asked: seq<Key>, batch: seq<Key>, exact: bool, batchSize: nat,
                 was: bool, ended: bool)
    requires LogOk(sent, batches, exact, batchSize, was) && (was ==> ended) && |batch| <= batchSize
    requires multiset(asked) <= Attempts(exact, batch) && (!ended ==> multiset(batch) <= multiset(asked))
    ensures LogOk(sent + [asked], batches + [batch], exact, batchSize, ended)
  {
  }

  lemma {:induction false} AReceiptPerKeyAtLeast(sent: seq<seq<Key>>, batches: seq<seq<Key>>, k: Key)
    requires AllAsked(sent, batches)
    ensures multiset(Flatten(batches))[k] <= multiset(Flatten(sent))[k]
  {
    if sent != [] {
      var n := |sent| - 1;
      AReceiptPerKeyAtLeast(sent[..n], batches[..n], k);
      assert multiset(batches[n])[k] <= multiset(sent[n])[k];
    }
  }

  /** Over the whole run a key gets at most two receipts per row it stands for, and at most one
      in exact mode. */
  lemma {:induction false} ReceiptsPerKey(sent: seq<seq<Key>>, batches: seq<seq<Key>>, exact: bool, batchSize: nat, k: Key)
    requires Paced(sent, batches, exact, batchSize)
    ensures multiset(Flatten(sent))[k] <= (if exact then 1 else 2) * multiset(Flatten(batches))[k]
  {
    if sent != [] {
      var n := |sent| - 1;
      ReceiptsPerKey(sent[..n], batches[..n], exact, batchSize, k);
      assert multiset(sent[n])[k] <= Attempts(exact, batches[n])[k];
    }
  }

  lemma {:induction false} ReceiptsInAll(sent: seq<seq<Key>>, batches: seq<seq<Key>>, exact: bool, batchSize: nat)
    requires Paced(sent, batches, exact, batchSize)
    ensures |Flatten(sent)| <= (if exact then 1 else 2) * |Flatten(batches)|
  {
    if sent != [] {
      var n := |sent| - 1;
      ReceiptsInAll(sent[..n], batches[..n], exact, batchSize);
      var all := Attempts(exact, batches[n]);
      assert all == multiset(sent[n]) + (all - multiset(sent[n]));
      assert |multiset(sent[n])| == |sent[n]|;
    }
  }

  // ----- one outcome per message ----------------------------------------------------------------

  /** The failed and the addressed rows together are the loaded ones. */
  ghost predicate Split(failed: seq<Row>, addressed: seq<Row>, loaded: seq<Row>) {
    multiset(failed) + multiset(addressed) == multiset(loaded)
  }

  lemma SplitGrows(failed: seq<Row>, addressed: seq<Row>, loaded: seq<Row>, r: Row)
    requires Split(failed, addressed, loaded)
    ensures Split(failed + [r], addressed, loaded + [r]) && Split(failed, addressed + [r], loaded + [r])
  {
  }

  /** Each key keeps the chat of some addressed row of its own. */
  ghost predicate Filed(parse: string -> Option<string>, infos: map<Key, Info>, addressed: seq<Row>) {
    && (forall r :: r in addressed ==> KeyOf(parse, r) in infos)
    && (forall k :: k in infos ==> FiledUnder(parse, infos[k].chat, k, addressed))
  }

  predicate FiledUnder(parse: string -> Option<string>, chat: string, k: Key, addressed: seq<Row>) {
    Row(chat, k.id) in addressed && KeyOf(parse, Row(chat, k.id)) == k
  }

  /** No two of the rows come back under the same key with their chats spelled differently. */
  predicate NoClash(parse: string -> Option<string>, rows: seq<Row>) {
    forall r, q :: r in rows && q in rows && KeyOf(parse, r) == KeyOf(parse, q) ==> r == q
  }

  /** Where preparing the `loaded` rows has led: every one failed or has a key. */
  ghost predicate Sorted(parse: string -> Option<string>, infos: map<Key, Info>, failed: seq<Row>, addressed: seq<Row>,
                         keys: seq<Key>, loaded: seq<Row>) {
    Split(failed, addressed, loaded) && keys == KeysOf(parse, addressed) && Filed(parse, infos, addressed)
  }

  lemma FiledGrows(parse: string -> Option<string>, infos: map<Key, Info>, addressed: seq<Row>, r: Row, info: Info)
    requires Filed(parse, infos, addressed) && info.chat == r.chat
    ensures Filed(parse, infos[KeyOf(parse, r) := info], addressed + [r])
    ensures KeysOf(parse, addressed + [r]) == KeysOf(parse, addressed) + [KeyOf(parse, r)]
  {
    var infos' := infos[KeyOf(parse, r) := info];
    forall k | k in infos' ensures FiledUnder(parse, infos'[k].chat, k, addressed + [r]) {
      if k != KeyOf(parse, r) { assert FiledUnder(parse, infos[k].chat, k, addressed); }
    }
  }

  lemma FiledKeys(parse: string -> Option<string>, infos: map<Key, Info>, addressed: seq<Row>)
    requires Filed(parse, infos, addressed)
    ensures forall k :: k in KeysOf(parse, addressed) ==> k in infos
  {
    forall k | k in KeysOf(parse, addressed) ensures k in infos {
      var i :| 0 <= i < |addressed| && KeysOf(parse, addressed)[i] == k;
      assert addressed[i] in addressed;
    }
  }

  /** Without a clash the outcomes name the addressed rows, each in its place. */
  lemma ReportedInPlace(parse: string -> Option<string>, infos: map<Key, Info>, addressed: seq<Row>)
    requires Filed(parse, infos, addressed) && NoClash(parse, addressed)
    requires forall k :: k in KeysOf(parse, addressed) ==> k in infos
    ensures Reported(infos, KeysOf(parse, addressed)) == addressed
  {
    forall i | 0 <= i < |addressed| ensures Reported(infos, KeysOf(parse, addressed))[i] == addressed[i] {
      var k := KeyOf(parse, addressed[i]);
      assert addressed[i] in addressed && FiledUnder(parse, infos[k].chat, k, addressed);
    }
  }

  /** With a clash one of its rows is named by no outcome. */
  lemma AClashLosesARow(parse: string -> Option<string>, infos: map<Key, Info>, addressed: seq<Row>)
    requires Filed(parse, infos, addressed) && !NoClash(parse, addressed)
    requires forall k :: k in KeysOf(parse, addressed) ==> k in infos
    ensures exists r :: r in addressed && r !in Reported(infos, KeysOf(parse, addressed))
  {
    var r, q :| r in addressed && q in addressed && KeyOf(parse, r) == KeyOf(parse, q) && r != q;
    var k := KeyOf(parse, r);
    var lost := if infos[k].chat == r.chat then q else r;
    var keys := KeysOf(parse, addressed);
    forall i | 0 <= i < |keys| ensures Reported(infos, keys)[i] != lost {
      assert keys[i] in keys && FiledUnder(parse, infos[keys[i]].chat, keys[i], addressed);
    }
  }

  /** The outcomes name exactly the addressed rows if and only if none of those clash. */
  lemma ReportedExactlyWithoutAClash(parse: string -> Option<string>, infos: map<Key, Info>, addressed: seq<Row>)
    requires Filed(parse, infos, addressed)
    requires forall k :: k in KeysOf(parse, addressed) ==> k in infos
    ensures multiset(Reported(infos, KeysOf(parse, addressed))) == multiset(addressed) <==> NoClash(parse, addressed)
  {
    if NoClash(parse, addressed) {
      ReportedInPlace(parse, infos, addressed);
    } else {
      AClashLosesARow(parse, infos, addressed);
      var r :| r in addressed && r !in Reported(infos, KeysOf(parse, addressed));
      assert r in multiset(addressed) && r !in multiset(Reported(infos, KeysOf(parse, addressed)));
    }
  }

  lemma IdsAreKept(parse: string -> Option<string>, infos: map<Key, Info>, failed: seq<Row>, addressed: seq<Row>)
    requires forall k :: k in KeysOf(parse, addressed) ==> k in infos
    ensures RowIds(failed + Reported(infos, KeysOf(parse, addressed))) == RowIds(failed + addressed)
  {
  }

  lemma OneLess(a: multiset<Row>, b: multiset<Row>, x: Row)
    requires a + multiset{x} <= b + multiset{x}
    ensures a <= b
  {
    forall r | r in a ensures a[r] <= b[r] {
      assert (a + multiset{x})[r] <= (b + multiset{x})[r];
    }
  }

  function Drop(rows: seq<Row>, i: nat): (rest: seq<Row>)
    requires i < |rows|
    ensures |rest| == |rows| - 1
  {
    rows[..i] + rows[i + 1..]
  }

  lemma Dropped(rows: seq<Row>, i: nat)
    requires i < |rows|
    ensures multiset(rows) == multiset(Drop(rows, i)) + multiset{rows[i]}
    ensures multiset(RowIds(rows)) == multiset(RowIds(Drop(rows, i))) + multiset{rows[i].id}
  {
    assert rows == rows[..i] + [rows[i]] + rows[i + 1..];
    var ids := RowIds(rows);
    assert ids == ids[..i] + [rows[i].id] + ids[i + 1..];
    assert RowIds(Drop(rows, i)) == ids[..i] + ids[i + 1..];
  }

  lemma {:induction false} FewerRowsFewerIds(a: seq<Row>, b: seq<Row>)
    requires multiset(a) <= multiset(b)
    ensures multiset(RowIds(a)) <= multiset(RowIds(b))
    decreases |a|
  {
    if a != [] {
      assert a[0] in multiset(a) && a[0] in b;
      var i :| 0 <= i < |b| && b[i] == a[0];
      Dropped(a, 0);
      Dropped(b, i);
      OneLess(multiset(Drop(a, 0)), multiset(Drop(b, i)), a[0]);
      FewerRowsFewerIds(Drop(a, 0), Drop(b, i));
    }
  }

  /** What a run has reported so far, against what it was asked. */
  lemma SoFar(parse: string -> Option<string>, infos: map<Key, Info>, failed: seq<Row>, addressed: seq<Row>,
              loaded: seq<Row>, rows: seq<Row>, reported: seq<Row>)
    requires Split(failed, addressed, loaded) && loaded <= rows && Filed(parse, infos, addressed)
    requires forall k :: k in KeysOf(parse, addressed) ==> k in infos
    requires reported <= failed + Reported(infos, KeysOf(parse, addressed))
    ensures multiset(RowIds(reported)) <= multiset(RowIds(rows))
    ensures NoClash(parse, addressed) ==> multiset(reported) <= multiset(rows)
    ensures multiset(addressed) <= multiset(rows)
  {
    var all := failed + Reported(infos, KeysOf(parse, addressed));
    assert rows == loaded + rows[|loaded|..];
    assert multiset(failed + addressed) == multiset(loaded);
    FewerRowsFewerIds(failed + addressed, rows);
    IdsAreKept(parse, infos, failed, addressed);
    PrefixIds(reported, all);
    if NoClash(parse, addressed) {
      ReportedInPlace(parse, infos, addressed);
      assert failed + addressed == reported + (failed + addressed)[|reported|..];
    }
  }

  lemma PrefixIds(a: seq<Row>, b: seq<Row>)
    requires a <= b
    ensures multiset(RowIds(a)) <= multiset(RowIds(b))
  {
    assert b == a + b[|a|..];
    FewerRowsFewerIds(a, b);
  }

  /** And at the end of a run without error. */
  lemma AtTheEnd(parse: string -> Option<string>, infos: map<Key, Info>, failed: seq<Row>, addressed: seq<Row>, rows: seq<Row>)
    requires Split(failed, addressed, rows) && Filed(parse, infos, addressed)
    requires forall k :: k in KeysOf(parse, addressed) ==> k in infos
    ensures var reported := failed + Reported(infos, KeysOf(parse, addressed));
            && multiset(RowIds(reported)) == multiset(RowIds(rows))
            && (multiset(reported) == multiset(rows) <==> NoClash(parse, addressed))
  {
    var named := Reported(infos, KeysOf(parse, addressed));
    IdsAreKept(parse, infos, failed, addressed);
    assert multiset(failed + addressed) == multiset(rows);
    FewerRowsFewerIds(failed + addressed, rows);
    FewerRowsFewerIds(rows, failed + addressed);
    ReportedExactlyWithoutAClash(parse, infos, addressed);
    assert multiset(failed + named) == multiset(failed) + multiset(named);
    assert multiset(failed + named) == multiset(rows) ==> multiset(named) == multiset(rows) - multiset(failed);
    assert multiset(addressed) == multiset(rows) - multiset(failed);
  }

  /** A clash, for a parser that reads two spellings alike: the outcome of the first row names the
      chat of the second. */
  lemma TwoSpellingsShareAnOutcome()
    ensures var parse := (chat: string) => Some("123:5@s.whatsapp.net");
            var first, second := Row("123.0:5@s.whatsapp.net", "m"), Row("123:5@s.whatsapp.net", "m");
            var infos := map[KeyOf(parse, second) := Info(second.chat, true)];
            && KeysOf(parse, [first, second]) == [KeyOf(parse, second), KeyOf(parse, second)]
            && Reported(infos, [KeyOf(parse, second), KeyOf(parse, second)]) == [second, second] != [first, second]
            && !NoClash(parse, [first, second])
  {
    var parse := (chat: string) => Some("123:5@s.whatsapp.net");
    var first, second := Row("123.0:5@s.whatsapp.net", "m"), Row("123:5@s.whatsapp.net", "m");
    assert first in [first, second] && second in [first, second] && first.chat[3] != second.chat[3];
  }

  lemma WithinOne(rows: seq<Row>, r: Row)
    requires multiset(rows) <= multiset([r])
    ensures |rows| <= 1 && forall x :: x in rows ==> x == r
  {
    forall x | x in rows ensures x == r {
      assert x in multiset(rows);
    }
    assert |multiset([r])| == 1;
    assert multiset([r]) == multiset(rows) + (multiset([r]) - multiset(rows));
    assert |multiset(rows)| == |rows|;
  }

  lemma OneRowNeverClashes(parse: string -> Option<string>, rows: seq<Row>, r: Row)
    requires multiset(rows) <= multiset([r])
    ensures NoClash(parse, rows) && |rows| <= 1
  {
    WithinOne(rows, r);
  }

  // ----- the run ------------------------------------------------------------------------------

  class RetryRun {
    const exact: bool
    const batchSize: nat
    const parse: string -> Option<string>

    var ctxErr: Option<ContextError>
    var callerDone: bool                // the caller's own context; exact mode bounds it further
    var infos: map<Key, Info>
    var notifs: map<Key, Notif>
    var result: Result
    ghost var batches: seq<seq<Key>>
    ghost var sent: seq<seq<Key>>
    ghost var addressed: seq<Row>       // the rows receipts can be addressed for, in order

    ghost predicate Initial()
      reads this
    {
      result == Result(0, 0, 0, 0, 0, []) && infos == map[] && batches == sent == [] && addressed == []
    }

    constructor (exact: bool, batchSize: nat, parse: string -> Option<string>)
      ensures this.parse == parse && Initial()
      ensures this.exact == exact && this.batchSize == if batchSize == 0 then 32 else batchSize
      ensures ctxErr.None? && !callerDone && notifs == map[]
    {
      this.parse := parse;
      this.exact, this.batchSize := exact, if batchSize == 0 then 32 else batchSize;
      ctxErr, callerDone, infos, notifs, result := None, false, map[], map[], Result(0, 0, 0, 0, 0, []);
      batches, sent, addressed := [], [], [];
    }

    /** Whatever the phone's notifications and the clock do in between: a context ends once, and
        only the first answer of a tracked key is kept. */
    method Elapse()
      modifies `ctxErr, `callerDone, `notifs
      ensures old(ctxErr).Some? ==> ctxErr == old(ctxErr)
      ensures old(callerDone) ==> callerDone
      ensures notifs.Keys <= old(notifs).Keys + infos.Keys
      ensures forall k :: k in old(notifs) ==> k in notifs && notifs[k] == old(notifs)[k]
    {
      var ended: Option<ContextError> := *;
      if ctxErr.None? { ctxErr := ended; }
      var gone: bool := *;
      callerDone := callerDone || gone;
      var answers: map<Key, Notif> := *;
      notifs := (map k | k in answers && k in infos :: answers[k]) + notifs;
    }

    method Report(o: Outcome)
      modifies `result
      ensures result.outcomes == old(result).outcomes + [o] && result.requested == old(result).requested
      ensures Named(result.outcomes) == old(Named(result.outcomes)) + [Row(o.chat, o.id)]
      ensures old(Tallied(result)) ==> Tallied(result)
    {
      match o.status {
        case Recovered => result := result.(recovered := result.recovered + 1);
        case NotOnPhone => result := result.(notOnPhone := result.notOnPhone + 1);
        case NoResponse => result := result.(noResponse := result.noResponse + 1);
        case Error => result := result.(failed := result.failed + 1);
      }
      result := result.(outcomes := result.outcomes + [o]);
      assert result.outcomes[..|result.outcomes| - 1] == old(result).outcomes;
    }

    /** Loads every row; the ones no receipt can be addressed for fail here. */
    method Prepare(rows: seq<Row>) returns (keys: seq<Key>, stopped: bool, n: nat)
      requires result.outcomes == [] && Tallied(result) && infos == map[] && addressed == []
      modifies this
      ensures Tallied(result) && result.requested == old(result).requested
      ensures batches == old(batches) && sent == old(sent)
      ensures stopped ==> ctxErr.Some?
      ensures n <= |rows| && (stopped || n == |rows|)
      ensures Sorted(parse, infos, Named(result.outcomes), addressed, keys, rows[..n])
      ensures old(ctxErr).Some? && rows != [] ==> stopped && n == 0
    {
      keys, stopped, n := [], false, 0;
      while n < |rows|
        invariant n <= |rows|
        invariant Tallied(result) && result.requested == old(result).requested
        invariant batches == old(batches) && sent == old(sent)
        invariant Sorted(parse, infos, Named(result.outcomes), addressed, keys, rows[..n])
        invariant old(ctxErr).Some? ==> ctxErr.Some? && n == 0
      {
        Elapse();
        if ctxErr.Some? { return keys, true, n; }
        assert rows[..n + 1] == rows[..n] + [rows[n]];
        keys := LoadRow(rows[n], keys, rows[..n]);
        n := n + 1;
      }
    }

    /** Looks one row up. The lookup is by chat and id, so what it finds carries the row's own chat. */
    method LoadRow(row: Row, keys: seq<Key>, ghost loaded: seq<Row>) returns (more: seq<Key>)
      requires Tallied(result) && Sorted(parse, infos, Named(result.outcomes), addressed, keys, loaded)
      modifies `infos, `result, `addressed
      ensures Tallied(result) && result.requested == old(result).requested
      ensures Sorted(parse, infos, Named(result.outcomes), addressed, more, loaded + [row])
    {
      var facts: RowFacts := *;
      facts := if facts.info.Some? then facts.(info := Some(facts.info.value.(chat := row.chat))) else facts;
      more := PrepareRow(row, facts, keys, loaded);
    }

    /** One row: a key to ask for, or an outcome at once. */
    method PrepareRow(row: Row, facts: RowFacts, keys: seq<Key>, ghost loaded: seq<Row>) returns (more: seq<Key>)
      requires Tallied(result) && Sorted(parse, infos, Named(result.outcomes), addressed, keys, loaded)
      requires facts.info.Some? ==> facts.info.value.chat == row.chat
      modifies `infos, `result, `addressed
      ensures Tallied(result) && result.requested == old(result).requested
      ensures Sorted(parse, infos, Named(result.outcomes), addressed, more, loaded + [row])
      ensures addressed == old(addressed) + if Addressable(facts, parse(row.chat), exact) then [row] else []
    {
      SplitGrows(Named(result.outcomes), addressed, loaded, row);
      more := keys;
      var parsed := parse(row.chat);
      if Addressable(facts, parsed, exact) {
        var key := Key(parsed.value, row.id);
        FiledGrows(parse, infos, addressed, row, facts.info.value);
        infos := infos[key := facts.info.value];
        more := more + [key];
        addressed := addressed + [row];
      } else {
        Report(Outcome(row.chat, row.id, Error));
      }
    }

    /** A receipt that cannot be sent is that key's answer; one that was sent leaves the answers so
        far alone. */
    method SendReceipt(key: Key) returns (ok: bool, ghost asked: seq<Key>)
      modifies `ctxErr, `callerDone, `notifs
      ensures asked == [] || asked == [key]
      ensures ctxErr.None? ==> asked == [key]
      ensures old(notifs).Keys <= notifs.Keys
      ensures ok ==> asked == [key]
      ensures !ok ==> key in notifs && notifs[key] == Refused
      ensures forall k :: k in old(notifs) && (k != key || ok) ==> k in notifs && notifs[k] == old(notifs)[k]
      ensures old(ctxErr).Some? ==> ctxErr == old(ctxErr) && asked == []
      ensures old(callerDone) ==> callerDone
    {
      Elapse();
      if ctxErr.Some? {
        notifs := notifs[key := Refused];
        return false, [];
      }
      ok := *;
      if !ok { notifs := notifs[key := Refused]; }
      return ok, [key];
    }

    method SendReceipts(keys: seq<Key>) returns (ghost asked: seq<Key>)
      modifies `ctxErr, `callerDone, `notifs
      ensures multiset(asked) <= multiset(keys)
      ensures ctxErr.None? ==> asked == keys
      ensures old(notifs).Keys <= notifs.Keys
      ensures old(ctxErr).Some? ==> ctxErr == old(ctxErr) && asked == []
      ensures old(callerDone) ==> callerDone
    {
      asked := [];
      for i := 0 to |keys|
        invariant multiset(asked) <= multiset(keys[..i])
        invariant ctxErr.None? ==> asked == keys[..i]
        invariant old(notifs).Keys <= notifs.Keys
        invariant old(ctxErr).Some? ==> ctxErr == old(ctxErr) && asked == []
        invariant old(callerDone) ==> callerDone
      {
        var _, one := SendReceipt(keys[i]);
        asked := asked + one;
        assert keys[..i + 1] == keys[..i] + [keys[i]];
      }
      assert keys[..|keys|] == keys;
    }

    method Missing(keys: seq<Key>) returns (out: seq<Key>)
      ensures multiset(out) <= multiset(keys)
      ensures forall k :: k in out <==> k in keys && k !in notifs
      ensures forall k :: k in out ==> multiset(out)[k] == multiset(keys)[k]
    {
      out := [];
      for i := 0 to |keys|
        invariant multiset(out) <= multiset(keys[..i])
        invariant forall k :: k in out <==> k in keys[..i] && k !in notifs
        invariant forall k :: k in out ==> multiset(out)[k] == multiset(keys[..i])[k]
      {
        assert keys[..i + 1] == keys[..i] + [keys[i]];
        if keys[i] !in notifs { out := out + [keys[i]]; }
      }
      assert keys[..|keys|] == keys;
    }

    /** The outcome of one key, from its notification and the download's result. */
    method Classify(key: Key, download: Download, marked: bool)
      requires key in infos
      modifies `result
      ensures result.outcomes == old(result).outcomes +
              [Outcome(infos[key].chat, key.id,
                       StatusOf(if key in notifs then Some(notifs[key]) else None, download, marked))]
      ensures Named(result.outcomes) == old(Named(result.outcomes)) + [Row(infos[key].chat, key.id)]
      ensures result.requested == old(result).requested
      ensures old(Tallied(result)) ==> Tallied(result)
    {
      var status := Error;
      if key !in notifs {
        status := NoResponse;
      } else {
        match notifs[key] {
          case Refused =>
          case Unreadable =>
          case Answer(code, hasPath) =>
            if code == NOT_FOUND {
              match download {
                case Downloaded => status := Recovered;
                case Broken =>
                case Expired => if marked { status := NotOnPhone; }
              }
            } else if code == SUCCESS && hasPath && download.Downloaded? {
              status := Recovered;
            }
        }
      }
      Report(Outcome(infos[key].chat, key.id, status));
    }

    /** Receipts for one batch, the wait, and one second attempt for the silent keys: the ones not
        `heard` from by the end of the first wait. */
    method Ask(batch: seq<Key>) returns (ghost heard: set<Key>, ghost silent: seq<Key>)
      requires |batch| <= batchSize && LogOk(sent, batches, exact, batchSize, ctxErr.Some?)
      modifies `ctxErr, `callerDone, `notifs, `batches, `sent
      ensures old(ctxErr).Some? ==> ctxErr == old(ctxErr)
      ensures batches == old(batches) + [batch] && LogOk(sent, batches, exact, batchSize, ctxErr.Some?)
      ensures old(notifs).Keys <= heard <= notifs.Keys && forall k :: k in silent <==> k in batch && k !in heard
      ensures forall k :: k in silent ==> multiset(silent)[k] == multiset(batch)[k]
      ensures ctxErr.None? ==> sent == old(sent) + [batch + if exact then [] else silent]
      ensures old(ctxErr).Some? ==> sent == old(sent) + [[]]
    {
      ghost var asked := SendReceipts(batch);
      Elapse();
      heard := notifs.Keys;
      var missing := Missing(batch);
      silent := missing;
      if !exact && |missing| > 0 && ctxErr.None? {
        ghost var again := SendReceipts(missing);
        asked := asked + again;
        Elapse();
      }
      assert ctxErr.None? ==> asked == batch + if exact then [] else silent;
      LogGrows(sent, batches, asked, batch, exact, batchSize, old(ctxErr).Some?, ctxErr.Some?);
      batches, sent := batches + [batch], sent + [asked];
    }

    /** Classifies one batch; a batch run stops at the first sign of cancellation. */
    method Settle(batch: seq<Key>) returns (stopped: bool)
      requires Tallied(result) && forall k :: k in batch ==> k in infos
      modifies `ctxErr, `callerDone, `notifs, `result
      ensures Tallied(result) && result.requested == old(result).requested
      ensures old(ctxErr).Some? ==> ctxErr == old(ctxErr)
      ensures stopped ==> ctxErr.Some? && !exact
      ensures old(ctxErr).Some? && !exact && batch != [] ==> stopped && result == old(result)
      ensures !stopped ==> Named(result.outcomes) == old(Named(result.outcomes)) + Reported(infos, batch)
      ensures Named(result.outcomes) <= old(Named(result.outcomes)) + Reported(infos, batch)
    {
      ghost var before := Named(result.outcomes);
      for i := 0 to |batch|
        invariant Tallied(result) && result.requested == old(result).requested
        invariant old(ctxErr).Some? ==> ctxErr == old(ctxErr)
        invariant old(ctxErr).Some? && !exact ==> i == 0 && result == old(result)
        invariant Named(result.outcomes) == before + Reported(infos, batch[..i])
      {
        Elapse();
        ReportedStep(infos, batch, i, before);
        if ctxErr.Some? && !exact { return true; }
        SettleKey(batch[i]);
      }
      assert batch[..|batch|] == batch;
      return false;
    }

    /** One key, with whatever its download comes to. */
    method SettleKey(key: Key)
      requires Tallied(result) && key in infos
      modifies `result
      ensures Tallied(result) && result.requested == old(result).requested
      ensures Named(result.outcomes) == old(Named(result.outcomes)) + [RowOf(infos, key)]
    {
      var download: Download := *;
      var marked: bool := *;
      Classify(key, download, marked);
    }

    /** One batch: ask, then report. */
    method RunBatch(batch: seq<Key>) returns (cut: bool)
      requires |batch| <= batchSize && forall k :: k in batch ==> k in infos
      requires Tallied(result) && LogOk(sent, batches, exact, batchSize, ctxErr.Some?)
      modifies `ctxErr, `callerDone, `notifs, `result, `batches, `sent
      ensures Tallied(result) && result.requested == old(result).requested
      ensures batches == old(batches) + [batch] && LogOk(sent, batches, exact, batchSize, ctxErr.Some?)
      ensures Named(result.outcomes) <= old(Named(result.outcomes)) + Reported(infos, batch)
      ensures !cut ==> Named(result.outcomes) == old(Named(result.outcomes)) + Reported(infos, batch)
      ensures cut ==> ctxErr.Some?
      ensures old(ctxErr).Some? ==> ctxErr.Some?
    {
      ghost var _, _ := Ask(batch);
      cut := Settle(batch);
    }

    /** One pass of the batch loop. */
    method NextBatch(ordered: seq<Key>, start: nat, ghost failed: seq<Row>) returns (cut: bool, end: nat)
      requires start < |ordered| && batchSize > 0 && forall k :: k in ordered ==> k in infos
      requires Tallied(result) && Named(result.outcomes) == failed + Reported(infos, ordered[..start])
      requires Flatten(batches) == ordered[..start] && LogOk(sent, batches, exact, batchSize, ctxErr.Some?)
      requires AllFull(batches, batchSize, false)
      modifies `ctxErr, `callerDone, `notifs, `result, `batches, `sent
      ensures Tallied(result) && result.requested == old(result).requested
      ensures start < end <= |ordered| && AllFull(batches, batchSize, end >= |ordered|)
      ensures Named(result.outcomes) <= failed + Reported(infos, ordered)
      ensures !cut ==> Named(result.outcomes) == failed + Reported(infos, ordered[..end])
      ensures cut ==> ctxErr.Some?
      ensures Flatten(batches) == ordered[..end] && LogOk(sent, batches, exact, batchSize, ctxErr.Some?)
      ensures old(ctxErr).Some? ==> ctxErr.Some?
    {
      end := if start + batchSize < |ordered| then start + batchSize else |ordered|;
      var batch := ordered[start..end];
      ghost var before := Named(result.outcomes);
      FlattenAppend(batches, batch);
      FullGrows(batches, batch, batchSize, end >= |ordered|);
      cut := RunBatch(batch);
      BatchDone(infos, ordered, start, end, failed, before, Named(result.outcomes));
    }

    /** The batch loop: every batch but the last is full, and none is begun once the context has
        ended. */
    method RunBatches(ordered: seq<Key>)
      requires batchSize > 0 && Tallied(result) && batches == sent == [] && forall k :: k in ordered ==> k in infos
      modifies `ctxErr, `callerDone, `notifs, `result, `batches, `sent
      ensures Tallied(result) && result.requested == old(result).requested
      ensures Named(result.outcomes) <= old(Named(result.outcomes)) + Reported(infos, ordered)
      ensures Flatten(batches) <= ordered && LogOk(sent, batches, exact, batchSize, ctxErr.Some?)
      ensures ctxErr.None? ==> Named(result.outcomes) == old(Named(result.outcomes)) + Reported(infos, ordered)
      ensures ctxErr.None? ==> Flatten(batches) == ordered
      ensures AllFull(batches, batchSize, true)
      ensures old(ctxErr).Some? ==> batches == sent == [] && result == old(result)
    {
      ghost var failed := Named(result.outcomes);
      var start := 0;
      while start < |ordered|
        invariant 0 <= start <= |ordered|
        invariant Tallied(result) && result.requested == old(result).requested
        invariant Named(result.outcomes) == failed + Reported(infos, ordered[..start])
        invariant Flatten(batches) == ordered[..start] && LogOk(sent, batches, exact, batchSize, ctxErr.Some?)
        invariant AllFull(batches, batchSize, start >= |ordered|)
        invariant old(ctxErr).Some? ==> ctxErr.Some? && batches == sent == [] && result == old(result)
      {
        Elapse();
        if ctxErr.Some? {
          ShorterPrefix(Named(result.outcomes), failed, infos, ordered, start);
          return;
        }
        var cut, end := NextBatch(ordered, start, failed);
        if cut { return; }
        start := end;
      }
      assert ordered[..start] == ordered;
    }

    /** The whole run over the listed rows. Outcomes are matched with rows by chat and id. */
    method Retry(rows: seq<Row>) returns (err: Option<ContextError>)
      requires batchSize > 0 && Initial()
      modifies this
      ensures result.requested == (if old(ctxErr).Some? then 0 else |rows|) && Tallied(result)
      ensures old(ctxErr).Some? ==> err == old(ctxErr) && result == old(result)
      ensures err == ctxErr
      ensures err.None? ==> (multiset(Named(result.outcomes)) == multiset(rows) <==> NoClash(parse, addressed))
      ensures err.None? ==> multiset(RowIds(Named(result.outcomes))) == multiset(RowIds(rows))
      ensures NoClash(parse, addressed) ==> multiset(Named(result.outcomes)) <= multiset(rows)
      ensures multiset(RowIds(Named(result.outcomes))) <= multiset(RowIds(rows))
      ensures multiset(addressed) <= multiset(rows)
      ensures err.None? ==> Flatten(batches) == KeysOf(parse, addressed) && AllAsked(sent, batches)
      ensures Flatten(batches) <= KeysOf(parse, addressed) && Paced(sent, batches, exact, batchSize)
      ensures AllFull(batches, batchSize, true)
    {
      if ctxErr.Some? { return ctxErr; }
      result := result.(requested := |rows|);
      if |rows| == 0 { return ctxErr; }
      var ordered, stopped, n := Prepare(rows);
      FiledKeys(parse, infos, addressed);
      ghost var failed := Named(result.outcomes);
      SoFar(parse, infos, failed, addressed, rows[..n], rows, failed);
      if stopped { return ctxErr; }
      assert rows[..n] == rows;
      Recover(ordered, rows);
      return ctxErr;
    }

    /** The batches of a run whose rows are all prepared. */
    method Recover(ordered: seq<Key>, ghost rows: seq<Row>)
      requires batchSize > 0 && Tallied(result) && batches == sent == []
      requires Sorted(parse, infos, Named(result.outcomes), addressed, ordered, rows)
      modifies `ctxErr, `callerDone, `notifs, `result, `batches, `sent
      ensures Tallied(result) && result.requested == old(result).requested
      ensures ctxErr.None? ==> (multiset(Named(result.outcomes)) == multiset(rows) <==> NoClash(parse, addressed))
      ensures ctxErr.None? ==> multiset(RowIds(Named(result.outcomes))) == multiset(RowIds(rows))
      ensures NoClash(parse, addressed) ==> multiset(Named(result.outcomes)) <= multiset(rows)
      ensures multiset(RowIds(Named(result.outcomes))) <= multiset(RowIds(rows))
      ensures ctxErr.None? ==> Flatten(batches) == ordered
      ensures Flatten(batches) <= ordered && LogOk(sent, batches, exact, batchSize, ctxErr.Some?)
      ensures AllFull(batches, batchSize, true)
    {
      FiledKeys(parse, infos, addressed);
      ghost var failed := Named(result.outcomes);
      RunBatches(ordered);
      SoFar(parse, infos, failed, addressed, rows, rows, Named(result.outcomes));
      AtTheEnd(parse, infos, failed, addressed, rows);
    }

    /** Exactly one message. Answers without an error always carry that message's outcome; the
        run's own time limit counts as a silent phone, the caller's end as an error. */
    method RetryMessage(row: Row) returns (outcome: Option<Outcome>, err: Option<ContextError>)
      requires exact && batchSize == 1 && Initial()
      modifies this
      ensures err.None? ==> outcome.Some?
      ensures outcome.Some? ==> outcome.value.chat == row.chat && outcome.value.id == row.id
      ensures outcome.Some? && outcome.value.status.NoResponse? && err == Some(DeadlineExceeded) ==> callerDone
      ensures err.Some? ==> err == ctxErr
      ensures err.None? && ctxErr.Some? ==>
                ctxErr == Some(DeadlineExceeded) && !callerDone && outcome.Some? && outcome.value.status.NoResponse?
      ensures |Flatten(sent)| <= 1
    {
      var failure := Retry([row]);
      OneRowNeverClashes(parse, addressed, row);
      WithinOne(Named(result.outcomes), row);
      ReceiptsInAll(sent, batches, exact, batchSize);
      assert failure.None? ==> |result.outcomes| == 1 by {
        assert |multiset(Named(result.outcomes))| == |Named(result.outcomes)|;
      }
      if |result.outcomes| == 1 {
        assert Named(result.outcomes)[0] == row;
        if result.outcomes[0].status.NoResponse? && !callerDone && failure == Some(DeadlineExceeded) {
          failure := None;
        }
        return Some(result.outcomes[0]), failure;
      }
      return None, failure;
    }
  }
}
