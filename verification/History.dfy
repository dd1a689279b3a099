/**
 * The server history's background writer: a bounded queue that drops and counts
 * what does not fit, batches written in one transaction, and identical events of a
 * batch collapsed into one row with a repeat count.
 */
module History {
  import opened Options
  import opened Text

  const MAX_BATCH: nat := 256

  const MAX_HISTORY_ACTOR_LEN: nat := 64
  const MAX_HISTORY_DETAIL_LEN: nat := 512

  /** What decides whether two events are identical; texts are their UTF-8 bytes. */
  datatype Key = Key(actor: Option<Bytes>, action: Bytes, detail: Bytes)

  datatype Event = Event(timestamp: nat, key: Key)

  datatype Row = Events(first: Event, count: nat) | DroppedReport(count: nat)

  // ---- texts ------------------------------------------------------------------------------

  /** Not in the middle of a UTF-8 sequence. */
  predicate Boundary(b: Bytes, i: nat)
    requires i <= |b|
  {
    i == 0 || i == |b| || !(0x80 <= b[i] < 0xC0)
  }

  /** The last boundary at or before `end`. */
  function CutPoint(b: Bytes, end: nat): (r: nat)
    requires end <= |b|
    ensures r <= end && Boundary(b, r)
    ensures forall k :: r < k <= end ==> !Boundary(b, k)
  {
    if Boundary(b, end) then end else CutPoint(b, end - 1)
  }

  function Truncated(b: Bytes, max: nat): (r: Bytes)
    ensures |r| <= max && r <= b && Boundary(b, |r|)
  {
    if |b| <= max then b else b[..CutPoint(b, max)]
  }

  method TruncateUtf8(b: Bytes, max: nat) returns (r: Bytes)
    ensures r == Truncated(b, max)
  {
    if |b| <= max {
      return b;
    }
    var end := max;
    while !Boundary(b, end)
      invariant 0 <= end <= max && CutPoint(b, max) == CutPoint(b, end)
      decreases end
    {
      end := end - 1;
    }
    return b[..end];
  }

  /** A number in decimal digits. */
  function NumberBytes(n: nat): (b: Bytes)
    ensures |b| > 0
  {
    if n < 10 then [0x30 + n] else NumberBytes(n / 10) + [0x30 + n % 10]
  }

  lemma {:induction false} NumberInjective(m: nat, n: nat)
    requires NumberBytes(m) == NumberBytes(n)
    ensures m == n
    decreases m
  {
    var a, b := NumberBytes(m), NumberBytes(n);
    assert a[|a| - 1] == 0x30 + m % 10 && b[|b| - 1] == 0x30 + n % 10;
    if m >= 10 && n >= 10 {
      assert a[..|a| - 1] == NumberBytes(m / 10) && b[..|b| - 1] == NumberBytes(n / 10);
      NumberInjective(m / 10, n / 10);
    } else {
      assert |a| == 1 <==> m < 10;
      assert |b| == 1 <==> n < 10;
    }
  }

  function Ten(k: nat): nat {
    if k == 0 then 1 else 10 * Ten(k - 1)
  }

  lemma {:induction false} NumberLength(n: nat, k: nat)
    requires k > 0 && n < Ten(k)
    ensures |NumberBytes(n)| <= k
    decreases k
  {
    if n >= 10 {
      assert Ten(k) == 10 * Ten(k - 1);
      NumberLength(n / 10, k - 1);
    }
  }

  lemma TwentyDigits(count: nat)
    requires count < 0x1_0000_0000_0000_0000
    ensures |NumberBytes(count)| <= 20
  {
    assert Ten(5) == 100_000;
    FiveMore(5);
    FiveMore(10);
    FiveMore(15);
    NumberLength(count, 20);
  }

  lemma FiveMore(k: nat)
    ensures Ten(k + 5) == 100_000 * Ten(k)
  {
    assert Ten(k + 5) == 10 * Ten(k + 4) && Ten(k + 4) == 10 * Ten(k + 3);
    assert Ten(k + 3) == 10 * Ten(k + 2) && Ten(k + 2) == 10 * Ten(k + 1) && Ten(k + 1) == 10 * Ten(k);
  }

  /** "(xN)" */
  function Suffix(count: nat): Bytes {
    [0x28, 0x78] + NumberBytes(count) + [0x29]
  }

  lemma SuffixInjective(m: nat, n: nat)
    ensures Suffix(m) == Suffix(n) <==> m == n
  {
    if Suffix(m) == Suffix(n) {
      var a, b := Suffix(m), Suffix(n);
      assert a[2..|a| - 1] == NumberBytes(m) && b[2..|b| - 1] == NumberBytes(n);
      NumberInjective(m, n);
    }
  }

  /** The detail with a blank and the suffix, cut to keep the whole within its limit. */
  function WithRepeatCount(detail: Bytes, count: nat): Bytes {
    var suffix := Suffix(count);
    if detail == [] then suffix
    else
      var room := if MAX_HISTORY_DETAIL_LEN > |suffix| + 1 then MAX_HISTORY_DETAIL_LEN - (|suffix| + 1) else 0;
      Truncated(detail, room) + [0x20] + suffix
  }

  /** A 64-bit count always fits: the text stays within the limit, begins with the detail cut
      at a character, and ends with the suffix, from which the count can be read. */
  lemma RepeatCountFits(detail: Bytes, count: nat)
    requires count < 0x1_0000_0000_0000_0000
    ensures var r := WithRepeatCount(detail, count); var n := |Suffix(count)|;
            && n <= |r| <= MAX_HISTORY_DETAIL_LEN && r[|r| - n..] == Suffix(count)
            && (detail != [] ==>
                  |r| > n && r[..|r| - n - 1] <= detail && Boundary(detail, |r| - n - 1) && r[|r| - n - 1] == 0x20)
  {
    hide NumberBytes, CutPoint;
    TwentyDigits(count);
    var suffix := Suffix(count);
    var r := WithRepeatCount(detail, count);
    if detail != [] {
      var cut := Truncated(detail, MAX_HISTORY_DETAIL_LEN - (|suffix| + 1));
      assert r == cut + [0x20] + suffix;
      assert r[..|cut|] == cut && r[|cut|] == 0x20 && r[|cut| + 1..] == suffix;
    }
  }

  // ---- coalescing ----------------------------------------------------------------------

  function Count(events: seq<Event>, k: Key): nat {
    if events == [] then 0
    else Count(events[..|events| - 1], k) + if events[|events| - 1].key == k then 1 else 0
  }

  /** The first event of each key, in order. */
  function Firsts(events: seq<Event>): seq<Event> {
    if events == [] then []
    else
      var before := events[..|events| - 1];
      var last := events[|events| - 1];
      Firsts(before) + if Count(before, last.key) > 0 then [] else [last]
  }

  /** One row for each first occurrence, with the number of occurrences. */
  function Coalesced(events: seq<Event>): seq<Row> {
    seq(|Firsts(events)|, i requires 0 <= i < |Firsts(events)| => Events(Firsts(events)[i], Count(events, Firsts(events)[i].key)))
  }

  lemma CountSnoc(events: seq<Event>, e: Event, k: Key)
    ensures Count(events + [e], k) == Count(events, k) + if e.key == k then 1 else 0
  {
    assert (events + [e])[..|events|] == events;
  }

  lemma FirstsSnoc(events: seq<Event>, e: Event)
    ensures Firsts(events + [e]) == Firsts(events) + if Count(events, e.key) > 0 then [] else [e]
  {
    assert (events + [e])[..|events|] == events;
  }

  /** What the two local tables of the loop hold once `done` has been folded in. */
  ghost predicate Tracks(out: seq<(Event, nat)>, seen: map<Key, nat>, done: seq<Event>) {
    && |out| == |Firsts(done)|
    && (forall i :: 0 <= i < |out| ==> out[i].0 == Firsts(done)[i] && out[i].1 == Count(done, out[i].0.key))
    && (forall k: Key :: k in seen <==> Count(done, k) > 0)
    && (forall k: Key :: k in seen ==> seen[k] < |out| && out[seen[k]].0.key == k)
    && (forall i :: 0 <= i < |out| ==> out[i].0.key in seen && seen[out[i].0.key] == i)
  }

  lemma CountsSnoc(events: seq<Event>, e: Event)
    ensures forall k :: Count(events + [e], k) == Count(events, k) + if e.key == k then 1 else 0
  {
    forall k {
      CountSnoc(events, e, k);
    }
  }

  lemma TrackRepeat(out: seq<(Event, nat)>, seen: map<Key, nat>, done: seq<Event>, e: Event)
    requires Tracks(out, seen, done) && e.key in seen
    ensures var i := seen[e.key]; Tracks(out[i := (out[i].0, out[i].1 + 1)], seen, done + [e])
  {
    hide Count, Firsts;
    CountsSnoc(done, e);
    FirstsSnoc(done, e);
  }

  lemma TrackNew(out: seq<(Event, nat)>, seen: map<Key, nat>, done: seq<Event>, e: Event)
    requires Tracks(out, seen, done) && e.key !in seen
    ensures Tracks(out + [(e, 1)], seen[e.key := |out|], done + [e])
  {
    hide Count, Firsts;
    CountsSnoc(done, e);
    FirstsSnoc(done, e);
  }

  method Coalesce(events: seq<Event>) returns (rows: seq<Row>)
    ensures rows == Coalesced(events)
  {
    hide Count, Firsts;
    var out: seq<(Event, nat)> := [];
    var seen: map<Key, nat> := map[];
    NothingYet();
    for n := 0 to |events|
      invariant Tracks(out, seen, events[..n])
    {
      var e := events[n];
      assert events[..n + 1] == events[..n] + [e];
      if e.key in seen {
        TrackRepeat(out, seen, events[..n], e);
        var i := seen[e.key];
        out := out[i := (out[i].0, out[i].1 + 1)];
      } else {
        TrackNew(out, seen, events[..n], e);
        seen := seen[e.key := |out|];
        out := out + [(e, 1)];
      }
    }
    assert events[..|events|] == events;
    rows := seq(|out|, i requires 0 <= i < |out| => Events(out[i].0, out[i].1));
  }

  lemma NothingYet()
    ensures Tracks([], map[], [])
  {
  }

  /** A row as it is stored. */
  datatype Stored = Stored(timestamp: nat, actor: Option<Bytes>, action: Bytes, detail: Bytes)

  function Rendered(e: Event, count: nat): Stored {
    Stored(if e.timestamp < 0x8000_0000_0000_0000 then e.timestamp else 0x7FFF_FFFF_FFFF_FFFF,
           e.key.actor, e.key.action, if count > 1 then WithRepeatCount(e.key.detail, count) else e.key.detail)
  }

  /** What is stored for a coalesced event keeps to the limit and says how often it happened. */
  lemma RenderedRow(e: Event, count: nat)
    requires |e.key.detail| <= MAX_HISTORY_DETAIL_LEN && 0 < count < 0x1_0000_0000_0000_0000
    ensures var d := Rendered(e, count).detail;
            && |d| <= MAX_HISTORY_DETAIL_LEN
            && (count == 1 ==> d == e.key.detail)
            && Rendered(e, count).actor == e.key.actor && Rendered(e, count).action == e.key.action
            && (e.timestamp <= 9_223_372_036_854_775_807 ==> Rendered(e, count).timestamp == e.timestamp)
            && (e.timestamp > 9_223_372_036_854_775_807 ==> Rendered(e, count).timestamp == 9_223_372_036_854_775_807)
            && (count > 1 ==> |d| >= |Suffix(count)| && d[|d| - |Suffix(count)|..] == Suffix(count))
  {
    hide WithRepeatCount, Suffix;
    if count > 1 {
      RepeatCountFits(e.key.detail, count);
    }
  }

  /** How often a key is accounted for by rows. */
  function Weight(rows: seq<Row>, k: Key): nat {
    if rows == [] then 0
    else
      var row := rows[|rows| - 1];
      Weight(rows[..|rows| - 1], k) + if row.Events? && row.first.key == k then row.count else 0
  }

  function Reported(rows: seq<Row>): nat {
    if rows == [] then 0
    else Reported(rows[..|rows| - 1]) + if rows[|rows| - 1].DroppedReport? then rows[|rows| - 1].count else 0
  }

  lemma RowSnoc(rows: seq<Row>, row: Row, k: Key)
    ensures Weight(rows + [row], k) == Weight(rows, k) + if row.Events? && row.first.key == k then row.count else 0
    ensures Reported(rows + [row]) == Reported(rows) + if row.DroppedReport? then row.count else 0
  {
    assert (rows + [row])[..|rows|] == rows;
  }

  lemma {:induction false} RowsConcat(rows: seq<Row>, more: seq<Row>, k: Key)
    ensures Weight(rows + more, k) == Weight(rows, k) + Weight(more, k)
    ensures Reported(rows + more) == Reported(rows) + Reported(more)
    decreases |more|
  {
    if more == [] {
      assert rows + more == rows;
    } else {
      var init, last := more[..|more| - 1], more[|more| - 1];
      assert rows + more == (rows + init) + [last];
      assert more == init + [last];
      RowsConcat(rows, init, k);
      RowSnoc(rows + init, last, k);
      RowSnoc(init, last, k);
    }
  }

  /** Rows for the given first occurrences, counting in `all`. */
  function Counted(firsts: seq<Event>, all: seq<Event>): seq<Row> {
    seq(|firsts|, i requires 0 <= i < |firsts| => Events(firsts[i], Count(all, firsts[i].key)))
  }

  predicate Has(events: seq<Event>, k: Key) {
    exists i :: 0 <= i < |events| && events[i].key == k
  }

  lemma HasSnoc(events: seq<Event>, e: Event, k: Key)
    ensures Has(events + [e], k) <==> Has(events, k) || e.key == k
  {
    var more := events + [e];
    assert more[|events|] == e;
    if Has(events, k) {
      var i :| 0 <= i < |events| && events[i].key == k;
      assert more[i].key == k;
    }
  }

  predicate Distinct(events: seq<Event>) {
    forall i, j :: 0 <= i < j < |events| ==> events[i].key != events[j].key
  }

  lemma {:induction false} FirstsDistinct(events: seq<Event>, k: Key)
    ensures Has(Firsts(events), k) <==> Count(events, k) > 0
    ensures Distinct(Firsts(events))
    decreases |events|
  {
    if events != [] {
      var before, last := events[..|events| - 1], events[|events| - 1];
      FirstsDistinct(before, k);
      FirstsDistinct(before, last.key);
      HasSnoc(Firsts(before), last, k);
      assert Count(before, last.key) > 0 ==> Firsts(events) == Firsts(before);
    }
  }

  lemma {:induction false} CountedWeight(firsts: seq<Event>, all: seq<Event>, k: Key)
    requires Distinct(firsts)
    ensures Weight(Counted(firsts, all), k) == if Has(firsts, k) then Count(all, k) else 0
    ensures Reported(Counted(firsts, all)) == 0
    decreases |firsts|
  {
    if firsts != [] {
      hide Count;
      var init, last := firsts[..|firsts| - 1], firsts[|firsts| - 1];
      CountedWeight(init, all, k);
      assert firsts == init + [last];
      HasSnoc(init, last, k);
      assert Counted(firsts, all) == Counted(init, all) + [Events(last, Count(all, last.key))];
      RowSnoc(Counted(init, all), Events(last, Count(all, last.key)), k);
      LastIsNew(firsts);
    }
  }

  lemma LastIsNew(firsts: seq<Event>)
    requires Distinct(firsts) && firsts != []
    ensures !Has(firsts[..|firsts| - 1], firsts[|firsts| - 1].key)
  {
  }

  /** Coalescing loses nothing and invents nothing. */
  lemma CoalesceConserves(events: seq<Event>, k: Key)
    ensures Weight(Coalesced(events), k) == Count(events, k) && Reported(Coalesced(events)) == 0
  {
    FirstsDistinct(events, k);
    CountedWeight(Firsts(events), events, k);
    assert Coalesced(events) == Counted(Firsts(events), events);
  }

  // ---- the queue and the writer ------------------------------------------------------------

  datatype Message = Entry(event: Event) | Wakeup | Flush

  datatype Log = Log(
    capacity: nat,
    queue: seq<Message>,
    batch: seq<Event>,       // taken from the queue, not written yet
    dropped: nat,            // the shared counter
    reporting: nat,          // swapped out of the counter, not written yet
    rows: seq<Row>)

  /** Actor and detail are cut to their limits before anything else. */
  function Clipped(e: Event): (r: Event)
    ensures |r.key.detail| <= MAX_HISTORY_DETAIL_LEN
  {
    var actor := if e.key.actor.Some? then Some(Truncated(e.key.actor.value, MAX_HISTORY_ACTOR_LEN)) else None;
    e.(key := Key(actor, e.key.action, Truncated(e.key.detail, MAX_HISTORY_DETAIL_LEN)))
  }

  function RecordDetached(s: Log, e: Event): (Log, bool) {
    if |s.queue| < s.capacity then (s.(queue := s.queue + [Entry(Clipped(e))]), true)
    else (s.(dropped := s.dropped + 1), false)
  }

  function Send(s: Log, m: Message): Log {
    if |s.queue| < s.capacity then s.(queue := s.queue + [m]) else s
  }

  function EventsOf(ms: seq<Message>): seq<Event> {
    if ms == [] then []
    else EventsOf(ms[..|ms| - 1]) + if ms[|ms| - 1].Entry? then [ms[|ms| - 1].event] else []
  }

  function Take(s: Log, n: nat): Log
    requires n <= |s.queue|
  {
    s.(queue := s.queue[n..], batch := s.batch + EventsOf(s.queue[..n]))
  }

  function SwapDropped(s: Log): Log {
    s.(dropped := 0, reporting := s.reporting + s.dropped)
  }

  function Batch(s: Log): seq<Row> {
    Coalesced(s.batch) + if s.reporting > 0 then [DroppedReport(s.reporting)] else []
  }

  function Commit(s: Log, ok: bool): Log {
    s.(rows := if ok then s.rows + Batch(s) else s.rows, batch := [], reporting := 0)
  }

  // ---- the log as an object -------------------------------------------------------------------

  class Writer {
    var capacity: nat
    var queue: seq<Message>
    var batch: seq<Event>
    var dropped: nat
    var reporting: nat
    var rows: seq<Row>

    ghost function Value(): Log
      reads this
    {
      Log(capacity, queue, batch, dropped, reporting, rows)
    }

    constructor (queueCapacity: nat)
      ensures Value() == New(queueCapacity)
    {
      capacity := if queueCapacity > 1 then queueCapacity else 1;
      queue, batch, dropped, reporting, rows := [], [], 0, 0, [];
    }

    method Record(e: Event) returns (queued: bool)
      modifies this
      ensures (Value(), queued) == RecordDetached(old(Value()), e)
    {
      if |queue| < capacity {
        var actor := e.key.actor;
        if actor.Some? {
          var cut := TruncateUtf8(actor.value, MAX_HISTORY_ACTOR_LEN);
          actor := Some(cut);
        }
        var detail := TruncateUtf8(e.key.detail, MAX_HISTORY_DETAIL_LEN);
        queue := queue + [Entry(e.(key := Key(actor, e.key.action, detail)))];
        queued := true;
      } else {
        dropped := dropped + 1;
        queued := false;
      }
    }

    /** Take up to a batch of messages off the queue. */
    method Receive() returns (n: nat)
      requires batch == []
      modifies this
      ensures n == if |old(queue)| < MAX_BATCH then |old(queue)| else MAX_BATCH
      ensures Value() == Take(old(Value()), n)
    {
      n := if |queue| < MAX_BATCH then |queue| else MAX_BATCH;
      var i := 0;
      while i < n
        invariant 0 <= i <= n <= |queue|
        invariant Value() == old(Value()).(batch := batch)
        invariant batch == EventsOf(queue[..i])
      {
        assert queue[..i + 1][..i] == queue[..i];
        match queue[i] {
          case Entry(e) => batch := batch + [e];
          case Wakeup =>
          case Flush =>
        }
        i := i + 1;
      }
      assert [] + EventsOf(queue[..n]) == EventsOf(queue[..n]);
      queue := queue[n..];
    }

    method Swap()
      modifies this
      ensures Value() == SwapDropped(old(Value()))
    {
      reporting := reporting + dropped;
      dropped := 0;
    }

    method WriteBatch(ok: bool)
      modifies this
      ensures Value() == Commit(old(Value()), ok)
    {
      var written := Coalesce(batch);
      if reporting > 0 {
        written := written + [DroppedReport(reporting)];
      }
      if written != [] && ok {
        rows := rows + written;
      }
      batch, reporting := [], 0;
    }
  }

  function New(queueCapacity: nat): Log {
    Log(if queueCapacity > 1 then queueCapacity else 1, [], [], 0, 0, [])
  }

  // ---- conservation over runs --------------------------------------------------------------------

  /** Handle calls and the writer's own steps, which interleave freely. */
  datatype Step = Detached(event: Event) | Sent(message: Message) | Taken(n: nat) | Swapped | Committed(ok: bool)

  /** What became of every event offered so far. */
  datatype Ledger = Ledger(log: Log, offered: seq<Event>, refused: seq<Event>, lost: seq<Event>, unreported: nat)

  function Start(queueCapacity: nat): Ledger {
    Ledger(New(queueCapacity), [], [], [], 0)
  }

  function Advance(x: Ledger, step: Step): Ledger {
    match step
    case Detached(e) =>
      var (log, ok) := RecordDetached(x.log, e);
      x.(log := log, offered := x.offered + [Clipped(e)], refused := if ok then x.refused else x.refused + [Clipped(e)])
    case Sent(m) => if m.Entry? then x else x.(log := Send(x.log, m))
    case Taken(n) =>
      // The writer takes a batch only once the last one is settled.
      if n <= |x.log.queue| && n <= MAX_BATCH && x.log.batch == [] then x.(log := Take(x.log, n)) else x
    case Swapped => x.(log := SwapDropped(x.log))
    case Committed(ok) =>
      x.(log := Commit(x.log, ok), lost := if ok then x.lost else x.lost + x.log.batch,
         unreported := if ok then x.unreported else x.unreported + x.log.reporting)
  }

  function Run(x: Ledger, steps: seq<Step>): Ledger
    decreases |steps|
  {
    if steps == [] then x else Run(Advance(x, steps[0]), steps[1..])
  }

  /** Every event is in exactly one place; every refused one is in exactly one count. */
  predicate Conserved(x: Ledger, k: Key) {
    && Count(x.offered, k) ==
       Count(EventsOf(x.log.queue), k) + Count(x.log.batch, k) + Weight(x.log.rows, k) + Count(x.refused, k) + Count(x.lost, k)
    && |x.refused| == x.log.dropped + x.log.reporting + Reported(x.log.rows) + x.unreported
  }

  lemma {:induction false} CountConcat(a: seq<Event>, b: seq<Event>, k: Key)
    ensures Count(a + b, k) == Count(a, k) + Count(b, k)
    decreases |b|
  {
    if b == [] {
      assert a + b == a;
    } else {
      var init, last := b[..|b| - 1], b[|b| - 1];
      assert a + b == (a + init) + [last];
      CountConcat(a, init, k);
      CountSnoc(a + init, last, k);
    }
  }

  lemma {:induction false} EventsConcat(a: seq<Message>, b: seq<Message>)
    ensures EventsOf(a + b) == EventsOf(a) + EventsOf(b)
    decreases |b|
  {
    if b == [] {
      assert a + b == a;
    } else {
      var init := b[..|b| - 1];
      assert (a + b)[..|a + b| - 1] == a + init;
      EventsConcat(a, init);
    }
  }

  lemma DetachedConserves(x: Ledger, e: Event, k: Key)
    requires Conserved(x, k)
    ensures Conserved(Advance(x, Detached(e)), k)
  {
    hide Count, Weight, Reported, EventsOf, Clipped;
    var c := Clipped(e);
    EventsConcat(x.log.queue, [Entry(c)]);
    SingleEvent(c);
    CountSnoc(x.offered, c, k);
    CountSnoc(x.refused, c, k);
    CountSnoc(EventsOf(x.log.queue), c, k);
  }

  lemma SingleEvent(e: Event)
    ensures EventsOf([Entry(e)]) == [e] && EventsOf([Wakeup]) == [] && EventsOf([Flush]) == []
  {
  }

  lemma TakenConserves(x: Ledger, n: nat, k: Key)
    requires Conserved(x, k)
    ensures Conserved(Advance(x, Taken(n)), k)
  {
    hide Count, Weight, Reported, EventsOf;
    if n <= |x.log.queue| && n <= MAX_BATCH && x.log.batch == [] {
      var q := x.log.queue;
      assert q == q[..n] + q[n..];
      EventsConcat(q[..n], q[n..]);
      CountConcat(EventsOf(q[..n]), EventsOf(q[n..]), k);
      CountConcat(x.log.batch, EventsOf(q[..n]), k);
    }
  }

  lemma EmptyCount(k: Key)
    ensures Count([], k) == 0
  {
  }

  lemma CommittedConserves(x: Ledger, ok: bool, k: Key)
    requires Conserved(x, k)
    ensures Conserved(Advance(x, Committed(ok)), k)
  {
    hide Count, Weight, Reported, EventsOf, Coalesced;
    BatchWeight(x.log, k);
    RowsConcat(x.log.rows, Batch(x.log), k);
    CountConcat(x.lost, x.log.batch, k);
    EmptyCount(k);
  }

  lemma BatchWeight(s: Log, k: Key)
    ensures Weight(Batch(s), k) == Count(s.batch, k) && Reported(Batch(s)) == s.reporting
  {
    hide Count, Weight, Reported, Coalesced;
    CoalesceConserves(s.batch, k);
    if s.reporting > 0 {
      RowSnoc(Coalesced(s.batch), DroppedReport(s.reporting), k);
    } else {
      assert Coalesced(s.batch) + [] == Coalesced(s.batch);
    }
  }

  lemma SentConserves(x: Ledger, m: Message, k: Key)
    requires Conserved(x, k)
    ensures Conserved(Advance(x, Sent(m)), k)
  {
    hide Count, Weight, Reported, EventsOf;
    EventsConcat(x.log.queue, [m]);
    SingleEvent(Event(0, Key(None, [], [])));
    assert EventsOf(x.log.queue) + [] == EventsOf(x.log.queue);
  }

  lemma {:induction false} RunConserves(x: Ledger, steps: seq<Step>, k: Key)
    requires Conserved(x, k)
    ensures Conserved(Run(x, steps), k)
    decreases |steps|
  {
    hide Conserved, Advance;
    if steps != [] {
      match steps[0] {
        case Detached(e) => DetachedConserves(x, e, k);
        case Sent(m) => SentConserves(x, m, k);
        case Taken(n) => TakenConserves(x, n, k);
        case Swapped => SwappedConserves(x, k);
        case Committed(ok) => CommittedConserves(x, ok, k);
      }
      RunConserves(Advance(x, steps[0]), steps[1..], k);
    }
  }

  lemma SwappedConserves(x: Ledger, k: Key)
    requires Conserved(x, k)
    ensures Conserved(Advance(x, Swapped), k)
  {
  }

  predicate AllWritesSucceed(steps: seq<Step>) {
    forall i :: 0 <= i < |steps| && steps[i].Committed? ==> steps[i].ok
  }

  lemma {:induction false} NothingLost(x: Ledger, steps: seq<Step>)
    requires AllWritesSucceed(steps)
    ensures Run(x, steps).lost == x.lost && Run(x, steps).unreported == x.unreported
    decreases |steps|
  {
    if steps != [] {
      NothingLost(Advance(x, steps[0]), steps[1..]);
    }
  }

  /** While batch writes succeed, every detached event is queued, in the batch at hand,
      written with its multiplicity, or refused; and every refusal is in the counter, about
      to be reported, or reported in a row. */
  lemma EveryEventIsAccountedFor(queueCapacity: nat, steps: seq<Step>, k: Key)
    requires AllWritesSucceed(steps)
    ensures var x := Run(Start(queueCapacity), steps);
            && Count(x.offered, k) ==
               Count(EventsOf(x.log.queue), k) + Count(x.log.batch, k) + Weight(x.log.rows, k) + Count(x.refused, k)
            && |x.refused| == x.log.dropped + x.log.reporting + Reported(x.log.rows)
  {
    RunConserves(Start(queueCapacity), steps, k);
    NothingLost(Start(queueCapacity), steps);
    EmptyCount(k);
  }

  /** Cut only where too long, at a character, and as little as possible. */
  lemma ClippedAsLittleAsPossible(e: Event)
    ensures var c := Clipped(e);
            && c.timestamp == e.timestamp && c.key.action == e.key.action
            && c.key.detail <= e.key.detail && |c.key.detail| <= 512
            && (|e.key.detail| <= 512 ==> c.key.detail == e.key.detail)
            && (|e.key.detail| > 512 ==> forall k :: |c.key.detail| < k <= 512 ==> !Boundary(e.key.detail, k))
            && (c.key.actor.Some? <==> e.key.actor.Some?)
            && (e.key.actor.Some? ==>
                  && c.key.actor.value <= e.key.actor.value && |c.key.actor.value| <= 64
                  && (|e.key.actor.value| <= 64 ==> c.key.actor == e.key.actor)
                  && (|e.key.actor.value| > 64 ==> forall k :: |c.key.actor.value| < k <= 64 ==> !Boundary(e.key.actor.value, k)))
  {
    hide CutPoint;
  }

  /** An event is refused only when the queue is full, and then it is counted. */
  lemma RefusedOnlyWhenFull(s: Log, e: Event)
    ensures var (t, ok) := RecordDetached(s, e);
            && (ok <==> |s.queue| < s.capacity)
            && t == (if ok then s.(queue := s.queue + [Entry(Clipped(e))]) else s.(dropped := s.dropped + 1))
  {
  }

  /** Rows stand in the order in which their keys first occurred, each with that first event. */
  lemma {:induction false} FirstsInOrder(events: seq<Event>) returns (at: seq<nat>)
    ensures OccurAt(events, Firsts(events), at)
    decreases |events|
  {
    if events == [] {
      at := [];
    } else {
      hide Count, Firsts;
      var init, last := events[..|events| - 1], events[|events| - 1];
      assert events == init + [last];
      at := FirstsInOrder(init);
      NotBefore(init, last.key);
      FirstsSnoc(init, last);
      if Count(init, last.key) == 0 {
        OneMoreFirst(init, Firsts(init), at, last);
        at := at + [|init|];
      } else {
        StillFirst(init, Firsts(init), at, last);
        assert Firsts(init) + [] == Firsts(init);
      }
    }
  }

  /** These are the first occurrences of their keys, at increasing positions. */
  predicate OccurAt(events: seq<Event>, firsts: seq<Event>, at: seq<nat>) {
    && |at| == |firsts|
    && (forall i :: 0 <= i < |at| ==> at[i] < |events| && firsts[i] == events[at[i]])
    && (forall i, j :: 0 <= i < j < |at| ==> at[i] < at[j])
    && (forall i, k :: 0 <= i < |at| && 0 <= k < at[i] ==> events[k].key != firsts[i].key)
  }

  lemma StillFirst(events: seq<Event>, firsts: seq<Event>, at: seq<nat>, e: Event)
    requires OccurAt(events, firsts, at)
    ensures OccurAt(events + [e], firsts, at)
  {
    forall i, k | 0 <= i < |at| && 0 <= k < at[i] ensures (events + [e])[k].key != firsts[i].key {
      assert (events + [e])[k] == events[k];
    }
  }

  lemma OneMoreFirst(events: seq<Event>, firsts: seq<Event>, at: seq<nat>, e: Event)
    requires OccurAt(events, firsts, at) && forall k :: 0 <= k < |events| ==> events[k].key != e.key
    ensures OccurAt(events + [e], firsts + [e], at + [|events|])
  {
    StillFirst(events, firsts, at, e);
  }

  lemma {:induction false} NotBefore(events: seq<Event>, k: Key)
    ensures Count(events, k) == 0 <==> forall i :: 0 <= i < |events| ==> events[i].key != k
    decreases |events|
  {
    if events != [] {
      NotBefore(events[..|events| - 1], k);
    }
  }

  /** Every refusal counted before the counter is swapped is in the report that the next successful write adds
      after the events, and the counter starts again from zero. */
  lemma DropsAreReported(s: Log)
    requires s.dropped + s.reporting > 0
    ensures var t := Commit(SwapDropped(s), true);
            && t.dropped == 0 && t.reporting == 0 && t.batch == []
            && t.rows == s.rows + Coalesced(s.batch) + [DroppedReport(s.dropped + s.reporting)]
  {
    hide Coalesced;
    assert s.rows + (Coalesced(s.batch) + [DroppedReport(s.dropped + s.reporting)]) ==
           s.rows + Coalesced(s.batch) + [DroppedReport(s.dropped + s.reporting)];
  }

  /** A control message goes in wherever an event would, and is not counted where it does not. */
  lemma ControlMessages(s: Log, m: Message)
    ensures Send(s, m) == s.(queue := if |s.queue| < s.capacity then s.queue + [m] else s.queue)
  {
  }
}
