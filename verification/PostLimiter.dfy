/**
 * The posting limiter: one token bucket per author in a table that is pruned when
 * it grows. Time is any non-decreasing sequence of real numbers; the arithmetic is
 * exact.
 */
module PostLimiter {
  type Author = nat

  const POST_BURST: real := 5.0
  const POST_REFILL: real := 10.0
  const RATE_TABLE_PRUNE_AT: nat := 1024

  datatype Bucket = Bucket(tokens: real, last: real)

  type Table = map<Author, Bucket>

  function Refilled(b: Bucket, now: real): (r: real)
    ensures r <= POST_BURST
  {
    var earned := (now - b.last) / POST_REFILL;
    if b.tokens + earned < POST_BURST then b.tokens + earned else POST_BURST
  }

  // ---- the operation ----------------------------------------------------------------------

  function Prune(table: Table, now: real): Table {
    map a | a in table && Refilled(table[a], now) < POST_BURST :: table[a]
  }

  function Spend(table: Table, author: Author, now: real): (r: (Table, bool))
  {
    var tokens := if author in table then Refilled(table[author], now) else POST_BURST;
    if tokens >= 1.0 then (table[author := Bucket(tokens - 1.0, now)], true)
    else (table[author := Bucket(tokens, now)], false)
  }

  /** One call of the limiter. */
  function AllowPost(table: Table, author: Author, now: real): (Table, bool) {
    Spend(if |table| >= RATE_TABLE_PRUNE_AT then Prune(table, now) else table, author, now)
  }

  class Limiter {
    var table: Table

    constructor ()
      ensures table == map[]
    {
      table := map[];
    }

    method Allow(author: Author, now: real) returns (ok: bool)
      modifies this
      ensures (table, ok) == AllowPost(old(table), author, now)
    {
      if |table| >= RATE_TABLE_PRUNE_AT {
        table := Prune(table, now);
      }
      ghost var kept := table;
      if author !in table {
        table := table[author := Bucket(POST_BURST, now)];
      }
      var tokens := Refilled(table[author], now);
      if tokens >= 1.0 {
        table := table[author := Bucket(tokens - 1.0, now)];
        ok := true;
      } else {
        table := table[author := Bucket(tokens, now)];
        ok := false;
      }
      assert table == kept[author := table[author]];
    }
  }

  // ---- runs -------------------------------------------------------------------------------

  datatype Call = Call(author: Author, at: real)

  predicate Ordered(calls: seq<Call>, from: real)
    decreases |calls|
  {
    calls == [] || (from <= calls[0].at && Ordered(calls[1..], calls[0].at))
  }

  /** The table after some calls, and what each was told. */
  function Run(table: Table, calls: seq<Call>): (Table, seq<bool>)
    decreases |calls|
  {
    if calls == [] then (table, [])
    else
      var (t, ok) := AllowPost(table, calls[0].author, calls[0].at);
      var (u, rest) := Run(t, calls[1..]);
      (u, [ok] + rest)
  }

  /** The same without pruning. */
  function RunUnpruned(table: Table, calls: seq<Call>): seq<bool>
    decreases |calls|
  {
    if calls == [] then []
    else
      var (t, ok) := Spend(table, calls[0].author, calls[0].at);
      [ok] + RunUnpruned(t, calls[1..])
  }

  predicate Valid(table: Table, now: real) {
    forall a :: a in table ==> 0.0 <= table[a].tokens <= POST_BURST && table[a].last <= now
  }

  /** What an author could spend at a given time; an absent author has a full bucket. */
  function Level(table: Table, a: Author, at: real): (r: real)
    ensures r <= POST_BURST
  {
    if a in table then Refilled(table[a], at) else POST_BURST
  }

  // ---- pruning is invisible ------------------------------------------------------------------

  ghost predicate SameFrom(p: Table, q: Table, now: real) {
    forall a, at: real :: at >= now ==> Level(p, a, at) == Level(q, a, at)
  }

  lemma PruneKeepsLevels(table: Table, now: real)
    ensures SameFrom(Prune(table, now), table, now)
  {
  }

  lemma SpendSame(p: Table, q: Table, from: real, author: Author, now: real)
    requires SameFrom(p, q, from) && from <= now
    ensures Spend(p, author, now).1 == Spend(q, author, now).1
    ensures SameFrom(Spend(p, author, now).0, Spend(q, author, now).0, now)
  {
    assert Level(p, author, now) == Level(q, author, now);
    forall a, at: real | at >= now
      ensures Level(Spend(p, author, now).0, a, at) == Level(Spend(q, author, now).0, a, at)
    {
      assert Level(p, a, at) == Level(q, a, at);
    }
  }

  lemma SameIsTransitive(p: Table, q: Table, r: Table, from: real, now: real)
    requires SameFrom(q, r, from) && SameFrom(p, q, now) && from <= now
    ensures SameFrom(p, r, now)
  {
  }

  /** For every sequence of calls in time order, starting anywhere: the pruned table
      gives the answers of one that is never pruned. */
  lemma {:induction false} PruningIsInvisible(p: Table, q: Table, from: real, calls: seq<Call>)
    requires SameFrom(p, q, from) && Ordered(calls, from)
    ensures Run(p, calls).1 == RunUnpruned(q, calls)
    decreases |calls|
  {
    if calls != [] {
      var c := calls[0];
      var kept := if |p| >= RATE_TABLE_PRUNE_AT then Prune(p, c.at) else p;
      PruneKeepsLevels(p, c.at);
      SameIsTransitive(kept, p, q, from, c.at);
      SpendSame(kept, q, c.at, c.author, c.at);
      PruningIsInvisible(Spend(kept, c.author, c.at).0, Spend(q, c.author, c.at).0, c.at, calls[1..]);
    }
  }

  // ---- the rate ---------------------------------------------------------------------------------

  lemma PruneValid(table: Table, now: real)
    requires Valid(table, now)
    ensures Valid(Prune(table, now), now)
  {
  }

  lemma AllowValid(table: Table, from: real, author: Author, now: real)
    requires Valid(table, from) && from <= now
    ensures Valid(AllowPost(table, author, now).0, now)
  {
  }

  /** Posts granted to one author. */
  function Granted(calls: seq<Call>, answers: seq<bool>, a: Author): nat
    requires |calls| == |answers|
    decreases |calls|
  {
    if calls == [] then 0
    else (if calls[0].author == a && answers[0] then 1 else 0) + Granted(calls[1..], answers[1..], a)
  }

  lemma {:induction false} RunLength(table: Table, calls: seq<Call>)
    ensures |Run(table, calls).1| == |calls|
    decreases |calls|
  {
    if calls != [] {
      RunLength(AllowPost(table, calls[0].author, calls[0].at).0, calls[1..]);
    }
  }

  /** A post costs one token; otherwise levels only grow with time. */
  lemma OneCall(table: Table, from: real, author: Author, now: real, a: Author)
    requires Valid(table, from) && from <= now
    ensures var (t, ok) := AllowPost(table, author, now);
            && Level(t, a, now) + (if ok && author == a then 1.0 else 0.0) <= Level(table, a, from) + (now - from) / POST_REFILL
            && Level(t, a, now) >= 0.0
  {
    var kept := if |table| >= RATE_TABLE_PRUNE_AT then Prune(table, now) else table;
    assert Level(kept, a, now) == Level(table, a, now);
    assert Level(table, a, now) <= Level(table, a, from) + (now - from) / POST_REFILL;
  }

  lemma {:induction false} SpendingIsBounded(table: Table, from: real, calls: seq<Call>, end: real, a: Author)
    requires Valid(table, from) && Ordered(calls, from) && from <= end
    requires calls != [] ==> calls[|calls| - 1].at <= end
    ensures |Run(table, calls).1| == |calls|
    ensures Granted(calls, Run(table, calls).1, a) as real <= Level(table, a, from) + (end - from) / POST_REFILL
    decreases |calls|
  {
    hide AllowPost;
    RunLength(table, calls);
    if calls != [] {
      var c := calls[0];
      var (t, ok) := AllowPost(table, c.author, c.at);
      OneCall(table, from, c.author, c.at, a);
      AllowValid(table, from, c.author, c.at);
      LastIsLatest(calls, from);
      SpendingIsBounded(t, c.at, calls[1..], end, a);
      RunLength(t, calls[1..]);
      assert Run(table, calls).1[1..] == Run(t, calls[1..]).1;
    } else {
      LevelPositive(table, from, a);
    }
  }

  lemma LevelPositive(table: Table, now: real, a: Author)
    requires Valid(table, now)
    ensures Level(table, a, now) >= 0.0
  {
  }

  lemma {:induction false} LastIsLatest(calls: seq<Call>, from: real)
    requires Ordered(calls, from) && calls != []
    ensures calls[0].at <= calls[|calls| - 1].at
    decreases |calls|
  {
    if |calls| > 1 {
      LastIsLatest(calls[1..], calls[0].at);
    }
  }

  lemma {:induction false} RunValid(table: Table, from: real, calls: seq<Call>, now: real)
    requires Valid(table, from) && Ordered(calls, from) && from <= now
    requires calls != [] ==> calls[|calls| - 1].at <= now
    ensures Valid(Run(table, calls).0, now)
    decreases |calls|
  {
    hide AllowPost;
    if calls != [] {
      AllowValid(table, from, calls[0].author, calls[0].at);
      LastIsLatest(calls, from);
      RunValid(AllowPost(table, calls[0].author, calls[0].at).0, calls[0].at, calls[1..], now);
    }
  }

  lemma {:induction false} RunConcat(table: Table, before: seq<Call>, window: seq<Call>)
    ensures Run(table, before + window).1 == Run(table, before).1 + Run(Run(table, before).0, window).1
    decreases |before|
  {
    hide AllowPost;
    if before == [] {
      assert before + window == window;
    } else {
      assert (before + window)[1..] == before[1..] + window;
      RunConcat(AllowPost(table, before[0].author, before[0].at).0, before[1..], window);
    }
  }

  /** Whatever came before: in any window of length T an author gets at most
      POST_BURST + T / POST_REFILL posts. */
  lemma WindowBound(before: seq<Call>, window: seq<Call>, start: real, length: real, a: Author)
    requires length >= 0.0 && Ordered(before, 0.0) && Ordered(window, start)
    requires 0.0 <= start && (before != [] ==> before[|before| - 1].at <= start)
    requires window != [] ==> window[|window| - 1].at <= start + length
    ensures var answers := Run(map[], before + window).1;
            && |answers| == |before| + |window|
            && Granted(window, answers[|before|..], a) as real <= POST_BURST + length / POST_REFILL
  {
    RunConcat(map[], before, window);
    RunLength(map[], before);
    RunValid(map[], 0.0, before, start);
    var t := Run(map[], before).0;
    SpendingIsBounded(t, start, window, start + length, a);
    assert Run(map[], before + window).1[|before|..] == Run(t, window).1;
  }

  // ---- exactly when a post is allowed ------------------------------------------------------------

  /** What a window from call `k` on leaves at time `now`. */
  function Slack(calls: seq<Call>, answers: seq<bool>, k: nat, now: real, a: Author): real
    requires |answers| == |calls| && k < |calls|
  {
    POST_BURST + (now - calls[k].at) / POST_REFILL - Granted(calls[k..], answers[k..], a) as real
  }

  lemma {:induction false} RunSnoc(table: Table, calls: seq<Call>, c: Call)
    ensures |Run(table, calls).1| == |calls|
    ensures var (t, answers) := Run(table, calls); var (u, ok) := AllowPost(t, c.author, c.at);
            Run(table, calls + [c]) == (u, answers + [ok])
    decreases |calls|
  {
    hide AllowPost;
    if calls == [] {
      assert calls + [c] == [c];
      var (u, ok) := AllowPost(table, c.author, c.at);
      assert Run(u, [c][1..]) == (u, []);
      assert [ok] + [] == [ok] && [] + [ok] == [ok];
      assert Run(table, [c]) == (u, [ok]) && Run(table, []) == (table, []);
    } else {
      var (t, first) := AllowPost(table, calls[0].author, calls[0].at);
      assert (calls + [c])[0] == calls[0] && (calls + [c])[1..] == calls[1..] + [c];
      RunSnoc(t, calls[1..], c);
      var rest := Run(t, calls[1..]);
      var last := AllowPost(rest.0, c.author, c.at).1;
      assert [first] + (rest.1 + [last]) == [first] + rest.1 + [last];
    }
  }

  lemma {:induction false} GrantedSnoc(calls: seq<Call>, answers: seq<bool>, c: Call, ok: bool, a: Author)
    requires |calls| == |answers|
    ensures Granted(calls + [c], answers + [ok], a) == Granted(calls, answers, a) + if c.author == a && ok then 1 else 0
    decreases |calls|
  {
    if calls == [] {
      assert (calls + [c])[1..] == [] && (answers + [ok])[1..] == [];
    } else {
      assert (calls + [c])[1..] == calls[1..] + [c] && (answers + [ok])[1..] == answers[1..] + [ok];
      GrantedSnoc(calls[1..], answers[1..], c, ok, a);
    }
  }

  /** One more call, and the windows before it. */
  lemma SlackSnoc(calls: seq<Call>, answers: seq<bool>, c: Call, ok: bool, k: nat, now: real, a: Author)
    requires |answers| == |calls| && k <= |calls|
    ensures k < |calls| ==>
              Slack(calls + [c], answers + [ok], k, now, a) == Slack(calls, answers, k, now, a) - if c.author == a && ok then 1.0 else 0.0
    ensures k == |calls| ==>
              Slack(calls + [c], answers + [ok], k, now, a) == POST_BURST + (now - c.at) / POST_REFILL - if c.author == a && ok then 1.0 else 0.0
  {
    assert (calls + [c])[k..] == calls[k..] + [c] && (answers + [ok])[k..] == answers[k..] + [ok];
    GrantedSnoc(calls[k..], answers[k..], c, ok, a);
    if k == |calls| {
      assert calls[k..] == [] && answers[k..] == [];
    }
  }

  lemma {:induction false} OrderedSplit(calls: seq<Call>, from: real, k: nat)
    requires Ordered(calls, from) && k <= |calls|
    ensures Ordered(calls[..k], from)
    ensures k < |calls| ==> Ordered(calls[k..], calls[k].at) && from <= calls[k].at && (k > 0 ==> calls[k - 1].at <= calls[k].at)
    decreases |calls|
  {
    if k > 0 {
      OrderedSplit(calls[1..], calls[0].at, k - 1);
      assert calls[..k] == [calls[0]] + calls[1..][..k - 1] && calls[..k][1..] == calls[1..][..k - 1];
      assert k < |calls| ==> calls[k..] == calls[1..][k - 1..];
    } else {
      assert calls[..0] == [] && calls[0..] == calls;
    }
  }

  /** The level after a call, at a later time. */
  lemma LevelAfter(t: Table, from: real, c: Call, now: real, a: Author)
    requires Valid(t, from) && from <= c.at <= now
    ensures var (u, ok) := AllowPost(t, c.author, c.at);
            Level(u, a, now) ==
            if a != c.author then Level(t, a, now)
            else
              var left := Level(t, a, c.at) - (if ok then 1.0 else 0.0) + (now - c.at) / POST_REFILL;
              if left < POST_BURST then left else POST_BURST
  {
    var kept := if |t| >= RATE_TABLE_PRUNE_AT then Prune(t, c.at) else t;
    assert SameFrom(kept, t, c.at) by { PruneKeepsLevels(t, c.at); }
    assert Level(kept, a, now) == Level(t, a, now) && Level(kept, a, c.at) == Level(t, a, c.at);
  }

  /** The level is what the tightest window leaves, or the bucket is full. */
  lemma {:induction false} LevelIsSomeSlack(calls: seq<Call>, now: real, a: Author) returns (k: nat)
    requires Ordered(calls, 0.0) && 0.0 <= now && (calls != [] ==> calls[|calls| - 1].at <= now)
    ensures |Run(map[], calls).1| == |calls| && k <= |calls|
    ensures var (t, answers) := Run(map[], calls);
            Level(t, a, now) == if k == |calls| then POST_BURST else Slack(calls, answers, k, now, a)
    decreases |calls|
  {
    hide AllowPost, Slack, Granted;
    RunLength(map[], calls);
    if calls == [] {
      k := 0;
    } else {
      var n := |calls| - 1;
      var init, c := calls[..n], calls[n];
      assert calls == init + [c];
      OrderedSplit(calls, 0.0, n);
      RunSnoc(map[], init, c);
      var (t, answers) := Run(map[], init);
      var (u, ok) := AllowPost(t, c.author, c.at);
      var from := if n == 0 then 0.0 else calls[n - 1].at;
      if n > 0 {
        OrderedSplit(calls, 0.0, n - 1);
      }
      RunValid(map[], 0.0, init, from);
      LevelAfter(t, from, c, now, a);
      var time := if c.author == a then c.at else now;
      k := LevelIsSomeSlack(init, time, a);
      if k < n {
        SlackSnoc(init, answers, c, ok, k, now, a);
        SlackShift(init, answers, k, c.at, now, a);
      } else {
        SlackSnoc(init, answers, c, ok, n, now, a);
      }
      if Level(u, a, now) == POST_BURST {
        k := n + 1;
      }
    }
  }

  lemma SlackShift(calls: seq<Call>, answers: seq<bool>, k: nat, at: real, now: real, a: Author)
    requires |answers| == |calls| && k < |calls|
    ensures Slack(calls, answers, k, now, a) == Slack(calls, answers, k, at, a) + (now - at) / POST_REFILL
  {
  }

  /** Every window's bound leaves room for one more post. */
  ghost predicate Permitted(calls: seq<Call>, answers: seq<bool>, a: Author, now: real)
    requires |answers| == |calls|
  {
    forall k :: 0 <= k < |calls| ==>
      Granted(calls[k..], answers[k..], a) as real + 1.0 <= 5.0 + (now - calls[k].at) / 10.0
  }

  /** A post is allowed exactly if, with it, its author still keeps to five posts and one for every
      ten seconds in every window up to now. */
  lemma AllowedIffWindowsPermit(calls: seq<Call>, c: Call)
    requires Ordered(calls, 0.0) && 0.0 <= c.at && (calls != [] ==> calls[|calls| - 1].at <= c.at)
    ensures |Run(map[], calls).1| == |calls| && |Run(map[], calls + [c]).1| == |calls| + 1
    ensures Run(map[], calls + [c]).1[|calls|] <==> Permitted(calls, Run(map[], calls).1, c.author, c.at)
  {
    hide Granted, Level;
    RunLength(map[], calls);
    RunSnoc(map[], calls, c);
    var (t, answers) := Run(map[], calls);
    var a := c.author;
    AllowsByLevel(t, c);
    var k := LevelIsSomeSlack(calls, c.at, a);
    if Level(t, a, c.at) >= 1.0 {
      forall j | 0 <= j < |calls|
        ensures Granted(calls[j..], answers[j..], a) as real + 1.0 <= 5.0 + (c.at - calls[j].at) / 10.0
      {
        WindowTo(calls, c, j);
      }
    } else {
      FullIsEnough(t, a, c.at, calls, answers, k);
    }
  }

  lemma FullIsEnough(t: Table, a: Author, now: real, calls: seq<Call>, answers: seq<bool>, k: nat)
    requires |answers| == |calls| && k <= |calls| && Level(t, a, now) < 1.0
    requires Level(t, a, now) == if k == |calls| then POST_BURST else Slack(calls, answers, k, now, a)
    ensures !Permitted(calls, answers, a, now)
  {
    hide Granted, Level;
    assert k < |calls|;
    assert Granted(calls[k..], answers[k..], a) as real + 1.0 > 5.0 + (now - calls[k].at) / 10.0;
  }

  lemma AllowsByLevel(t: Table, c: Call)
    ensures AllowPost(t, c.author, c.at).1 <==> Level(t, c.author, c.at) >= 1.0
  {
    var kept := if |t| >= RATE_TABLE_PRUNE_AT then Prune(t, c.at) else t;
    assert Level(kept, c.author, c.at) == Level(t, c.author, c.at);
  }

  /** A granted post counts in every window that ends with it. */
  lemma WindowTo(calls: seq<Call>, c: Call, j: nat)
    requires Ordered(calls, 0.0) && 0.0 <= c.at && calls != [] && calls[|calls| - 1].at <= c.at && j < |calls|
    requires |Run(map[], calls).1| == |calls|
    requires Level(Run(map[], calls).0, c.author, c.at) >= 1.0
    ensures Granted(calls[j..], Run(map[], calls).1[j..], c.author) as real + 1.0 <= 5.0 + (c.at - calls[j].at) / 10.0
  {
    hide AllowPost, Granted, Level;
    var (t, answers) := Run(map[], calls);
    var before, window := calls[..j], calls[j..] + [c];
    RunSnoc(map[], calls, c);
    AllowsByLevel(t, c);
    OrderedSplit(calls, 0.0, j);
    OrderedSnoc(calls[j..], calls[j].at, c);
    assert calls + [c] == before + window;
    LastIsLatest(calls[j..], calls[j].at);
    WindowBound(before, window, calls[j].at, c.at - calls[j].at, c.author);
    GrantedSnoc(calls[j..], answers[j..], c, true, c.author);
    assert (answers + [true])[j..] == answers[j..] + [true];
  }

  lemma {:induction false} OrderedSnoc(calls: seq<Call>, from: real, c: Call)
    requires Ordered(calls, from) && calls != [] && calls[|calls| - 1].at <= c.at
    ensures Ordered(calls + [c], from)
    decreases |calls|
  {
    assert (calls + [c])[1..] == calls[1..] + [c];
    if |calls| > 1 {
      OrderedSnoc(calls[1..], calls[0].at, c);
    }
  }
}
