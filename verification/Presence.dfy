/** The watch list of presence subscriptions: an in-place list that keeps the users most recently
    asked for. */
module Presence {

  const MAX_WATCHED := 256

  /** The distinct users of a history, ordered by their last request, oldest first. */
  function ByLastAdd(history: seq<string>): seq<string> {
    if history == [] then []
    else
      var n := |history| - 1;
      Without(ByLastAdd(history[..n]), history[n]) + [history[n]]
  }

  function Without(s: seq<string>, user: string): seq<string> {
    if s == [] then []
    else if s[0] == user then Without(s[1..], user)
    else [s[0]] + Without(s[1..], user)
  }

  function Last<T>(s: seq<T>, n: nat): seq<T> {
    if |s| <= n then s else s[|s| - n..]
  }

  /** What the list must hold after a history of requests. */
  function Kept(history: seq<string>): seq<string> {
    Last(ByLastAdd(history), MAX_WATCHED)
  }

  predicate Distinct(s: seq<string>) {
    forall i, j :: 0 <= i < j < |s| ==> s[i] != s[j]
  }

  // ----- the specification is what it says ------------------------------------------------------

  /** The position of the last request for `user`. */
  function LastAdd(history: seq<string>, user: string): (i: nat)
    requires user in history
    ensures i < |history| && history[i] == user && forall j :: i < j < |history| ==> history[j] != user
  {
    var n := |history| - 1;
    if history[n] == user then n else LastAdd(history[..n], user)
  }

  lemma {:induction false} WithoutDrops(s: seq<string>, user: string)
    ensures forall x :: x in Without(s, user) <==> x in s && x != user
  {
    if s != [] {
      WithoutDrops(s[1..], user);
    }
  }

  lemma {:induction false} WithoutIsIdle(s: seq<string>, user: string)
    requires user !in s
    ensures Without(s, user) == s
  {
    if s != [] {
      WithoutIsIdle(s[1..], user);
    }
  }

  lemma {:induction false} WithoutConcat(a: seq<string>, b: seq<string>, user: string)
    ensures Without(a + b, user) == Without(a, user) + Without(b, user)
  {
    if a == [] {
      assert a + b == b;
    } else {
      assert (a + b)[1..] == a[1..] + b;
      WithoutConcat(a[1..], b, user);
    }
  }

  predicate Before(history: seq<string>, x: string, y: string) {
    x in history && y in history && LastAdd(history, x) < LastAdd(history, y)
  }

  /** `s` is sorted by the last request of each user. */
  predicate InOrder(s: seq<string>, history: seq<string>) {
    s != [] ==> (forall x :: x in s[1..] ==> Before(history, s[0], x)) && InOrder(s[1..], history)
  }

  lemma {:induction false} WithoutKeepsOrder(s: seq<string>, user: string, history: seq<string>)
    requires InOrder(s, history)
    ensures InOrder(Without(s, user), history)
  {
    if s != [] {
      WithoutKeepsOrder(s[1..], user, history);
      WithoutDrops(s[1..], user);
      assert ([s[0]] + Without(s[1..], user))[1..] == Without(s[1..], user);
    }
  }

  lemma {:induction false} OrderGrows(s: seq<string>, history: seq<string>, user: string)
    requires InOrder(s, history) && user !in s && forall x :: x in s ==> x in history
    ensures InOrder(s + [user], history + [user])
  {
    assert (history + [user])[..|history|] == history;
    if s == [] {
      assert ([] + [user])[1..] == [];
    } else {
      OrderGrows(s[1..], history, user);
      assert (s + [user])[1..] == s[1..] + [user];
      forall x | x in s[1..] + [user] ensures Before(history + [user], s[0], x) {
        assert x in s[1..] ==> Before(history, s[0], x);
      }
    }
  }

  lemma {:induction false} OrderAt(s: seq<string>, history: seq<string>, i: nat, j: nat)
    requires InOrder(s, history) && i < j < |s|
    ensures Before(history, s[i], s[j]) && s[i] != s[j]
  {
    if i == 0 {
      assert s[j] == s[1..][j - 1];
    } else {
      OrderAt(s[1..], history, i - 1, j - 1);
    }
  }

  /** The ordered list names each user of the history once, by last request. */
  lemma {:induction false} ByLastAddIsTheOrder(history: seq<string>)
    ensures InOrder(ByLastAdd(history), history) && forall x :: x in ByLastAdd(history) <==> x in history
  {
    if history != [] {
      var n := |history| - 1;
      var init, user := history[..n], history[n];
      assert history == init + [user];
      ByLastAddIsTheOrder(init);
      WithoutKeepsOrder(ByLastAdd(init), user, init);
      WithoutDrops(ByLastAdd(init), user);
      OrderGrows(Without(ByLastAdd(init), user), init, user);
    }
  }

  lemma KeptDistinct(history: seq<string>)
    ensures Distinct(Kept(history)) && Distinct(ByLastAdd(history))
  {
    var all := ByLastAdd(history);
    ByLastAddIsTheOrder(history);
    forall i, j | 0 <= i < j < |all| ensures all[i] != all[j] {
      OrderAt(all, history, i, j);
    }
  }

  /** The list never repeats a user or passes its limit, and a user is dropped from it exactly
      when at least 256 other users were requested later. */
  lemma KeptIsTheMostRecent(history: seq<string>, user: string)
    requires user in history
    ensures Distinct(Kept(history)) && |Kept(history)| <= 256
    ensures user in Kept(history) <==> |Later(history, user)| < 256
  {
    var all := ByLastAdd(history);
    KeptDistinct(history);
    ByLastAddIsTheOrder(history);
    var p :| 0 <= p < |all| && all[p] == user;
    LaterIsTheTail(history, user, p);
    Size(all[p + 1..]);
    if |all| > MAX_WATCHED && p >= |all| - MAX_WATCHED {
      assert Kept(history)[p - (|all| - MAX_WATCHED)] == user;
    }
  }

  function Users(s: seq<string>): set<string> {
    set x | x in s
  }

  /** The users whose last request came after that of `user`. */
  function Later(history: seq<string>, user: string): set<string>
    requires user in history
  {
    Users(history[LastAdd(history, user) + 1..])
  }

  lemma {:induction false} Size(s: seq<string>)
    requires Distinct(s)
    ensures |Users(s)| == |s|
  {
    if s != [] {
      var n := |s| - 1;
      Size(s[..n]);
      assert Users(s) == Users(s[..n]) + {s[n]};
    }
  }

  lemma LaterIsFurther(history: seq<string>, x: string, p: nat, i: nat)
    requires p < |ByLastAdd(history)| && i < |history| && history[i] == x
    requires ByLastAdd(history)[p] in history && LastAdd(history, ByLastAdd(history)[p]) < i
    ensures x in ByLastAdd(history)[p + 1..]
  {
    var all := ByLastAdd(history);
    ByLastAddIsTheOrder(history);
    assert x in history && x in all;
    var q :| 0 <= q < |all| && all[q] == x;
    if q < p {
      OrderAt(all, history, q, p);
    }
    assert all[p + 1..][q - (p + 1)] == x;
  }

  lemma FurtherIsLater(history: seq<string>, p: nat, q: nat)
    requires p < q < |ByLastAdd(history)|
    ensures ByLastAdd(history)[p] in history && ByLastAdd(history)[q] in history
    ensures LastAdd(history, ByLastAdd(history)[p]) < LastAdd(history, ByLastAdd(history)[q])
  {
    ByLastAddIsTheOrder(history);
    OrderAt(ByLastAdd(history), history, p, q);
  }

  lemma LaterIsTheTail(history: seq<string>, user: string, p: nat)
    requires p < |ByLastAdd(history)| && ByLastAdd(history)[p] == user
    requires user in history
    ensures Later(history, user) == Users(ByLastAdd(history)[p + 1..])
  {
    var all := ByLastAdd(history);
    var at := LastAdd(history, user);
    forall x | x in Later(history, user) ensures x in Users(all[p + 1..]) {
      var i :| at + 1 <= i < |history| && history[i] == x;
      LaterIsFurther(history, x, p, i);
    }
    forall x | x in Users(all[p + 1..]) ensures x in Later(history, user) {
      var q :| p + 1 <= q < |all| && all[q] == x;
      FurtherIsLater(history, p, q);
      assert history[at + 1..][LastAdd(history, x) - (at + 1)] == x;
    }
  }

  // ----- the object ------------------------------------------------------------------------------

  class PresenceWatch {
    var jids: seq<string>
    ghost var history: seq<string>

    ghost predicate Valid()
      reads this
    {
      jids == Kept(history)
    }

    constructor ()
      ensures Valid() && history == []
    {
      jids, history := [], [];
    }

    /** Remove, append and trim, in place. */
    method Add(jid: string)
      requires Valid()
      modifies this
      ensures Valid() && history == old(history) + [jid]
    {
      ghost var was := jids;
      KeptDistinct(history);
      var i := 0;
      while i < |jids|
        invariant 0 <= i <= |jids| && jids == was
        invariant jid !in jids[..i]
      {
        if jids[i] == jid {
          WithoutOne(was, i);
          jids := jids[..i] + jids[i + 1..];
          break;
        }
        i := i + 1;
      }
      if i == |was| {
        WithoutIsIdle(was, jid);
      }
      assert jids == Without(was, jid);
      jids := jids + [jid];
      if |jids| > MAX_WATCHED {
        jids := jids[|jids| - MAX_WATCHED..];
      }
      AddRefines(history, jid);
      history := history + [jid];
    }

    method List() returns (copy: seq<string>)
      requires Valid()
      ensures copy == Kept(history)
    {
      copy := jids;
    }
  }

  lemma WithoutMiddle(a: seq<string>, user: string, b: seq<string>)
    requires user !in a && user !in b
    ensures Without(a + ([user] + b), user) == a + b
  {
    WithoutConcat(a, [user] + b, user);
    WithoutConcat([user], b, user);
    WithoutIsIdle(a, user);
    WithoutIsIdle(b, user);
  }

  lemma NotElsewhere(s: seq<string>, i: nat)
    requires Distinct(s) && i < |s|
    ensures s[i] !in s[..i] && s[i] !in s[i + 1..]
  {
  }

  lemma SplitAt(s: seq<string>, i: nat)
    requires i < |s|
    ensures s[..i] + ([s[i]] + s[i + 1..]) == s
  {
  }

  lemma WithoutOne(s: seq<string>, i: nat)
    requires Distinct(s) && i < |s|
    ensures Without(s, s[i]) == s[..i] + s[i + 1..]
  {
    NotElsewhere(s, i);
    WithoutMiddle(s[..i], s[i], s[i + 1..]);
    SplitAt(s, i);
  }

  /** Trimming after every request keeps the same users as trimming once at the end. */
  lemma AddRefines(history: seq<string>, user: string)
    ensures Kept(history + [user]) == Last(Without(Kept(history), user) + [user], MAX_WATCHED)
  {
    var all := ByLastAdd(history);
    assert (history + [user])[..|history|] == history;
    KeptDistinct(history);
    if |all| > MAX_WATCHED {
      var cut := |all| - MAX_WATCHED;
      assert all[..cut] + all[cut..] == all;
      WithoutConcat(all[..cut], all[cut..], user);
      TrimmedLength(Kept(history), user);
      LastOfLong(Without(all[..cut], user), Without(all[cut..], user), user, MAX_WATCHED);
    }
  }

  lemma LastOfLong(a: seq<string>, b: seq<string>, user: string, n: nat)
    requires |b| + 1 >= n
    ensures Last(a + b + [user], n) == Last(b + [user], n)
  {
  }

  lemma TrimmedLength(s: seq<string>, user: string)
    requires Distinct(s)
    ensures |Without(s, user)| >= |s| - 1
  {
    if user in s {
      var i :| 0 <= i < |s| && s[i] == user;
      WithoutOne(s, i);
    } else {
      WithoutIsIdle(s, user);
    }
  }
}
