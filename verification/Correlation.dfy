/**
 * Client, server and the two streams between them, after login. The wire carries no
 * request ids: the server handles requests in order and writes each answer before it
 * reads the next request, and that alone must let the client's single queue charge
 * every reply, Error and Pong to the command that caused it.
 *
 * The server here is any server that keeps that contract: it grants or refuses each
 * request, complains about a command or says nothing, answers each Ping, and pushes
 * transfer data, transfer ends and events whenever it likes. Messages carry the
 * command they answer, for the record only: the client never looks at it.
 */
module Correlation {
  import opened Options
  import opened Chunks
  import opened Actor
  import opened ActorRuns
  import Download

  /** From the server. */
  datatype Msg =
    | Granted(about: Waiter, acc: Download.Accept)
    | Refused(about: Waiter)
    | Complaint(token: nat)
    | Pong(token: nat, reply: Option<Caller>)
    | DataChunk(data: Download.Data)
    | TransferEnd(id: Id, verified: bool)
    | Event

  /** A decision of the server, or the client's idea of one. */
  datatype Verdict = OfRequest(w: Waiter, ok: bool) | OfBarrier(token: nat, reply: Option<Caller>, ok: bool)

  datatype System = System(
    client: State,
    read: nat,            // how much of client.out the server has read
    toClient: seq<Msg>,
    complained: bool,     // about the command whose Ping is still to come
    decided: seq<Verdict>,
    heard: seq<Verdict>)

  datatype Step =
    | ServerReads(grant: bool, acc: Download.Accept)
    | ServerPushes(msg: Msg)
    | ClientReads(local: bool, tooLarge: bool, fatal: bool)
    | ClientActs(input: Input, tooLarge: bool, fatal: bool)

  // ---- the transitions ------------------------------------------------------------------

  function InputOf(m: Msg, local: bool): Input {
    match m
    case Granted(Asks(_, expects), _) => GotReply(expects)
    case Granted(TransferStart(_), acc) => GotAccept(acc, local)
    case Refused(_) => GotError
    case Complaint(_) => GotError
    case Pong(_, _) => GotPong
    case DataChunk(d) => GotData(d, local)
    case TransferEnd(id, verified) => GotEnd(id, verified, local)
    case Event => GotEvent
  }

  /** What the client concludes from an answer, by the head of its queue alone. */
  function Concludes(pending: seq<Pending>, i: Input): seq<Verdict> {
    if pending == [] then []
    else
      match pending[0]
      case Reply(w) =>
        if i.GotReply? || i.GotAccept? then [OfRequest(w, true)]
        else if i.GotError? then [OfRequest(w, false)] else []
      case Barrier(token, _) =>
        if i.GotPong? then [OfBarrier(token, CallerOf(pending[0]), !Failed(pending[0]))] else []
  }

  predicate FromServer(i: Input) {
    i.GotReply? || i.GotAccept? || i.GotError? || i.GotPong? || i.GotData? || i.GotEnd? || i.GotEvent?
  }

  /** What may happen next. A TransferEnd must not be one that the client takes for the
      answer at the head of its queue. */
  predicate Legal(s: System, step: Step) {
    && !s.client.dead
    && match step
       case ServerReads(_, _) => s.read < |s.client.out|
       case ServerPushes(m) => m.DataChunk? || m.TransferEnd? || m.Event?
       case ClientReads(_, _, _) =>
         && s.toClient != []
         && (s.toClient[0].TransferEnd? ==> !EndPops(s.client, s.toClient[0].id))
       case ClientActs(i, _, _) => !FromServer(i)
  }

  function ServerTurn(s: System, grant: bool, acc: Download.Accept): System
    requires s.read < |s.client.out|
  {
    var r := s.(read := s.read + 1);
    match s.client.out[s.read]
    case Ask(w) => r.(toClient := s.toClient + [if grant then Granted(w, acc) else Refused(w)],
                      decided := s.decided + [OfRequest(w, grant)])
    case Tell(token, _) => if grant then r else r.(toClient := s.toClient + [Complaint(token)], complained := true)
    case Ping(token, reply) => r.(toClient := s.toClient + [Pong(token, reply)],
                                  decided := s.decided + [OfBarrier(token, reply, !s.complained)], complained := false)
  }

  function ClientTurn(h: Download.Hash, s: System, local: bool, tooLarge: bool, fatal: bool): System
    requires TransferWf(s.client) && s.toClient != []
  {
    var i := InputOf(s.toClient[0], local);
    s.(client := Next(h, s.client, Tick(i, tooLarge, fatal)), toClient := s.toClient[1..],
       heard := s.heard + Concludes(s.client.pending, i))
  }

  function Advance(h: Download.Hash, s: System, step: Step): (r: System)
    requires TransferWf(s.client) && Legal(s, step)
    ensures TransferWf(r.client)
  {
    match step
    case ServerReads(grant, acc) => ServerTurn(s, grant, acc)
    case ServerPushes(m) => s.(toClient := s.toClient + [m])
    case ClientReads(local, tooLarge, fatal) => ClientTurn(h, s, local, tooLarge, fatal)
    case ClientActs(i, tooLarge, fatal) => s.(client := Next(h, s.client, Tick(i, tooLarge, fatal)))
  }

  // ---- the line: answers in flight, then requests in flight -----------------------------------

  /** What the client is owed for a message, wherever it is on its way. */
  datatype Item = Owes(w: Waiter) | Remark(token: nat) | Retires(token: nat, reply: Option<Caller>) | Noise

  function OfMsg(m: Msg): Item {
    match m
    case Granted(w, _) => Owes(w)
    case Refused(w) => Owes(w)
    case Complaint(token) => Remark(token)
    case Pong(token, reply) => Retires(token, reply)
    case _ => Noise
  }

  function OfOut(o: Out): Item {
    match o
    case Ask(w) => Owes(w)
    case Tell(token, _) => Remark(token)
    case Ping(token, reply) => Retires(token, reply)
  }

  function Answers(ms: seq<Msg>): (r: seq<Item>)
    ensures |r| == |ms| && forall i :: 0 <= i < |ms| ==> r[i] == OfMsg(ms[i])
  {
    seq(|ms|, i requires 0 <= i < |ms| => OfMsg(ms[i]))
  }

  function Requests(os: seq<Out>): (r: seq<Item>)
    ensures |r| == |os| && forall i :: 0 <= i < |os| ==> r[i] == OfOut(os[i])
  {
    seq(|os|, i requires 0 <= i < |os| => OfOut(os[i]))
  }

  function Line(s: System): seq<Item>
    requires s.read <= |s.client.out|
  {
    Answers(s.toClient) + Requests(s.client.out[s.read..])
  }

  /** The queue is what the line owes, entry by entry: a remark comes right before the
      Pong of its own barrier, at most once. `remarked` says that the head's has passed. */
  predicate Matches(ps: seq<Pending>, line: seq<Item>, remarked: bool)
    decreases |line|
  {
    if line == [] then ps == [] && !remarked
    else
      match line[0]
      case Noise => Matches(ps, line[1..], remarked)
      case Owes(w) => !remarked && ps != [] && ps[0] == Reply(w) && Matches(ps[1..], line[1..], false)
      case Remark(token) =>
        !remarked && ps != [] && IsBarrier(ps[0], token) && ps[0].quiet.Some? && !Failed(ps[0]) && Matches(ps, line[1..], true)
      case Retires(token, reply) =>
        ps != [] && IsBarrier(ps[0], token) && CallerOf(ps[0]) == reply && (Failed(ps[0]) ==> remarked) && Matches(ps[1..], line[1..], false)
  }

  predicate IsBarrier(p: Pending, token: nat) {
    p.Barrier? && p.token == token
  }

  predicate HeadFailed(ps: seq<Pending>) {
    ps != [] && Failed(ps[0])
  }

  // ---- the verdicts in flight --------------------------------------------------------------

  function VerdictOf(m: Msg, remarked: bool): seq<Verdict> {
    match m
    case Granted(w, _) => [OfRequest(w, true)]
    case Refused(w) => [OfRequest(w, false)]
    case Pong(token, reply) => [OfBarrier(token, reply, !remarked)]
    case _ => []
  }

  predicate Remarks(m: Msg, remarked: bool) {
    if m.Complaint? then true else if m.Pong? then false else remarked
  }

  function Verdicts(ms: seq<Msg>, remarked: bool): seq<Verdict> {
    if ms == [] then [] else VerdictOf(ms[0], remarked) + Verdicts(ms[1..], Remarks(ms[0], remarked))
  }

  predicate RemarkedAfter(ms: seq<Msg>, remarked: bool) {
    if ms == [] then remarked else RemarkedAfter(ms[1..], Remarks(ms[0], remarked))
  }

  lemma {:induction false} VerdictsSnoc(ms: seq<Msg>, m: Msg, remarked: bool)
    ensures Verdicts(ms + [m], remarked) == Verdicts(ms, remarked) + VerdictOf(m, RemarkedAfter(ms, remarked))
    ensures RemarkedAfter(ms + [m], remarked) == Remarks(m, RemarkedAfter(ms, remarked))
    decreases |ms|
  {
    hide VerdictOf, Remarks;
    var all := ms + [m];
    if ms == [] {
      assert all[0] == m && all[1..] == [];
    } else {
      var f := Remarks(ms[0], remarked);
      assert all[0] == ms[0] && all[1..] == ms[1..] + [m];
      VerdictsSnoc(ms[1..], m, f);
      Regroup(VerdictOf(ms[0], remarked), Verdicts(ms[1..], f), VerdictOf(m, RemarkedAfter(ms[1..], f)));
    }
  }

  lemma Regroup(a: seq<Verdict>, b: seq<Verdict>, c: seq<Verdict>)
    ensures a + (b + c) == (a + b) + c
  {
  }

  // ---- the invariant ---------------------------------------------------------------------

  /** The queue equals what is owed by the answers in flight followed by the requests in
      flight, and what the server decided is what the client heard, followed by what is
      still on its way. */
  predicate Correlated(s: System) {
    && TransferWf(s.client) && s.read <= |s.client.out|
    && Matches(s.client.pending, Line(s), HeadFailed(s.client.pending))
    && s.decided == s.heard + Verdicts(s.toClient, HeadFailed(s.client.pending))
    && s.complained == RemarkedAfter(s.toClient, HeadFailed(s.client.pending))
  }

  const Connected := System(Start, 0, [], false, [], [])

  // ---- edits of the line ---------------------------------------------------------------------

  lemma {:induction false} MatchAppend(ps: seq<Pending>, line: seq<Item>, remarked: bool, p: Pending)
    requires Matches(ps, line, remarked) && !Failed(p)
    ensures Matches(ps + [p], line + Requests(Written(p)), remarked)
    decreases |line|
  {
    var more := line + Requests(Written(p));
    if line == [] {
      assert more == Requests(Written(p)) && ps + [p] == [p];
      assert more[1..] == Requests(Written(p)[1..]);
      assert more[1..] == [] || more[1..][1..] == [];
    } else {
      assert more[0] == line[0] && more[1..] == line[1..] + Requests(Written(p));
      var popped := line[0].Owes? || line[0].Retires?;
      var rest := if popped then ps[1..] else ps;
      assert popped ==> (ps + [p])[1..] == rest + [p];
      MatchAppend(rest, line[1..], if popped then false else if line[0].Remark? then true else remarked, p);
    }
  }

  lemma {:induction false} MatchNoise(ps: seq<Pending>, front: seq<Item>, back: seq<Item>, remarked: bool)
    requires Matches(ps, front + back, remarked)
    ensures Matches(ps, front + [Noise] + back, remarked)
    decreases |front|
  {
    var more := front + [Noise] + back;
    if front == [] {
      assert front + back == back && more[1..] == back;
    } else {
      assert (front + back)[1..] == front[1..] + back && more[1..] == front[1..] + [Noise] + back;
      assert more[0] == front[0] == (front + back)[0];
      var popped := front[0].Owes? || front[0].Retires?;
      MatchNoise(if popped then ps[1..] else ps, front[1..], back,
                 if popped then false else if front[0].Remark? then true else remarked);
    }
  }

  lemma {:induction false} MatchUnremarked(ps: seq<Pending>, line: seq<Item>)
    requires Matches(ps, line, true) && !HeadFailed(ps)
    ensures Matches(ps, line, false)
    decreases |line|
  {
    if line[0].Noise? {
      MatchUnremarked(ps, line[1..]);
    }
  }

  lemma {:induction false} MatchSilence(ps: seq<Pending>, front: seq<Item>, token: nat, back: seq<Item>, remarked: bool)
    requires Matches(ps, front + [Remark(token)] + back, remarked)
    ensures Matches(ps, front + back, remarked)
    decreases |front|
  {
    var line := front + [Remark(token)] + back;
    if front == [] {
      assert line[0] == Remark(token) && line[1..] == back && front + back == back;
      MatchUnremarked(ps, back);
    } else {
      assert (front + back)[1..] == front[1..] + back && line[1..] == front[1..] + [Remark(token)] + back;
      assert line[0] == front[0] == (front + back)[0];
      var popped := front[0].Owes? || front[0].Retires?;
      MatchSilence(if popped then ps[1..] else ps, front[1..], token, back,
                   if popped then false else if front[0].Remark? then true else remarked);
    }
  }

  lemma {:induction false} MatchHeadClear(ps: seq<Pending>, line: seq<Item>)
    requires Matches(ps, line, false)
    ensures !HeadFailed(ps)
    decreases |line|
  {
    if line != [] && line[0].Noise? {
      MatchHeadClear(ps, line[1..]);
    }
  }

  function Flagged(p: Pending): Pending
    requires p.Barrier? && p.quiet.Some?
  {
    p.(quiet := Some(p.quiet.value.(failed := true)))
  }

  lemma {:induction false} MatchFlagged(ps: seq<Pending>, line: seq<Item>)
    requires ps != [] && ps[0].Barrier? && ps[0].quiet.Some? && Matches(ps, line, true)
    ensures Matches(ps[0 := Flagged(ps[0])], line, true)
    decreases |line|
  {
    if line[0].Noise? {
      MatchFlagged(ps, line[1..]);
    } else {
      assert ps[0 := Flagged(ps[0])][1..] == ps[1..];
    }
  }

  function OwedBy(line: seq<Item>): nat {
    if line == [] then 0 else (if line[0].Owes? || line[0].Retires? then 1 else 0) + OwedBy(line[1..])
  }

  lemma {:induction false} MatchCounts(ps: seq<Pending>, line: seq<Item>, remarked: bool)
    requires Matches(ps, line, remarked)
    ensures |ps| == OwedBy(line)
    decreases |line|
  {
    if line != [] {
      var popped := line[0].Owes? || line[0].Retires?;
      MatchCounts(if popped then ps[1..] else ps, line[1..], if popped then false else if line[0].Remark? then true else remarked);
    }
  }

  // ---- each step ---------------------------------------------------------------------------

  lemma UnreadCons(s: System)
    requires s.read < |s.client.out|
    ensures Requests(s.client.out[s.read..]) == [OfOut(s.client.out[s.read])] + Requests(s.client.out[s.read + 1..])
  {
  }

  lemma AnswersSnoc(ms: seq<Msg>, m: Msg)
    ensures Answers(ms + [m]) == Answers(ms) + [OfMsg(m)]
  {
  }

  lemma Shift(a: seq<Item>, x: Item, b: seq<Item>)
    ensures a + ([x] + b) == (a + [x]) + b
  {
  }

  /** Reading a request and answering it only moves the boundary between the streams. */
  lemma ServerLine(s: System, m: Msg, r: System)
    requires s.read < |s.client.out| && OfMsg(m) == OfOut(s.client.out[s.read])
    requires r.read == s.read + 1 && r.toClient == s.toClient + [m] && r.client == s.client
    ensures Line(r) == Line(s)
  {
    hide Answers, Requests;
    UnreadCons(s);
    AnswersSnoc(s.toClient, m);
    Shift(Answers(s.toClient), OfMsg(m), Requests(s.client.out[s.read + 1..]));
  }

  lemma ServerAnswersKeeps(s: System, grant: bool, acc: Download.Accept)
    requires Correlated(s) && s.read < |s.client.out| && !(s.client.out[s.read].Tell? && grant)
    ensures Correlated(ServerTurn(s, grant, acc))
  {
    hide Matches, TransferWf, Line, HeadFailed, Verdicts, RemarkedAfter;
    var r := ServerTurn(s, grant, acc);
    var m := r.toClient[|s.toClient|];
    VerdictsSnoc(s.toClient, m, HeadFailed(s.client.pending));
    Regroup(s.heard, Verdicts(s.toClient, HeadFailed(s.client.pending)), VerdictOf(m, s.complained));
    ServerLine(s, m, r);
  }

  lemma ServerReadsKeeps(s: System, grant: bool, acc: Download.Accept)
    requires Correlated(s) && s.read < |s.client.out|
    ensures Correlated(ServerTurn(s, grant, acc))
  {
    hide Matches, TransferWf, Answers, Requests, HeadFailed, Verdicts, RemarkedAfter;
    var o := s.client.out[s.read];
    if o.Tell? && grant {
      UnreadCons(s);
      Shift(Answers(s.toClient), Remark(o.token), Requests(s.client.out[s.read + 1..]));
      MatchSilence(s.client.pending, Answers(s.toClient), o.token, Requests(s.client.out[s.read + 1..]), HeadFailed(s.client.pending));
    } else {
      ServerAnswersKeeps(s, grant, acc);
    }
  }

  lemma ServerPushesKeeps(s: System, m: Msg)
    requires Correlated(s) && (m.DataChunk? || m.TransferEnd? || m.Event?)
    ensures Correlated(s.(toClient := s.toClient + [m]))
  {
    hide Matches, TransferWf;
    var r := s.(toClient := s.toClient + [m]);
    var f := HeadFailed(s.client.pending);
    MatchNoise(s.client.pending, Answers(s.toClient), Requests(s.client.out[s.read..]), f);
    assert Answers(r.toClient) == Answers(s.toClient) + [Noise];
    VerdictsSnoc(s.toClient, m, f);
  }

  /** Whatever the client sends after matching an answer keeps the line and the queue in step. */
  lemma SendsKeep(s: System, r: State)
    requires Correlated(s) && TransferWf(r) && AtMostOne(s.client, r)
    ensures Correlated(s.(client := r))
  {
    hide Matches, TransferWf, Line, Verdicts, RemarkedAfter;
    LineGrows(s, r);
    if !NothingSent(s.client, r) {
      MatchAppend(s.client.pending, Line(s), HeadFailed(s.client.pending), Last(r.pending));
    }
  }

  lemma LineGrows(s: System, r: State)
    requires s.read <= |s.client.out| && AtMostOne(s.client, r)
    ensures s.read <= |r.out|
    ensures Line(s.(client := r)) == if NothingSent(s.client, r) then Line(s) else Line(s) + Requests(Written(Last(r.pending)))
  {
    hide Written;
    if !NothingSent(s.client, r) {
      var p := Last(r.pending);
      assert r.out[s.read..] == s.client.out[s.read..] + Written(p);
      assert Requests(r.out[s.read..]) == Requests(s.client.out[s.read..]) + Requests(Written(p));
      assert Line(s) + Requests(Written(p)) == Answers(s.toClient) + (Requests(s.client.out[s.read..]) + Requests(Written(p)));
    }
  }

  /** An answer read off the line settles the head it belongs to. */
  predicate Settles(s: System, local: bool)
    requires s.read <= |s.client.out| && s.toClient != []
  {
    var i := InputOf(s.toClient[0], local);
    var after := Consumed(s.client, i);
    && Matches(after, Answers(s.toClient[1..]) + Requests(s.client.out[s.read..]), HeadFailed(after))
    && Verdicts(s.toClient, HeadFailed(s.client.pending)) == Concludes(s.client.pending, i) + Verdicts(s.toClient[1..], HeadFailed(after))
    && RemarkedAfter(s.toClient, HeadFailed(s.client.pending)) == RemarkedAfter(s.toClient[1..], HeadFailed(after))
  }

  lemma LineTail(s: System)
    requires s.read <= |s.client.out| && s.toClient != []
    ensures Line(s) != [] && Line(s)[0] == OfMsg(s.toClient[0])
    ensures Line(s)[1..] == Answers(s.toClient[1..]) + Requests(s.client.out[s.read..])
  {
  }

  lemma ReplySettles(s: System, local: bool)
    requires Correlated(s) && s.toClient != [] && (s.toClient[0].Granted? || s.toClient[0].Refused?)
    ensures Settles(s, local)
  {
    hide TransferWf, Line, Answers, Requests;
    LineTail(s);
    MatchHeadClear(s.client.pending[1..], Line(s)[1..]);
  }

  lemma ComplaintSettles(s: System, local: bool)
    requires Correlated(s) && s.toClient != [] && s.toClient[0].Complaint?
    ensures Settles(s, local)
  {
    hide TransferWf, Line, Answers, Requests;
    LineTail(s);
    MatchFlagged(s.client.pending, Line(s)[1..]);
  }

  lemma PongSettles(s: System, local: bool)
    requires Correlated(s) && s.toClient != [] && s.toClient[0].Pong?
    ensures Settles(s, local)
  {
    hide TransferWf, Line, Answers, Requests;
    LineTail(s);
    MatchHeadClear(s.client.pending[1..], Line(s)[1..]);
  }

  lemma PushSettles(s: System, local: bool)
    requires Correlated(s) && s.toClient != [] && OfMsg(s.toClient[0]) == Noise
    requires s.toClient[0].TransferEnd? ==> !EndPops(s.client, s.toClient[0].id)
    ensures Settles(s, local)
  {
    hide TransferWf, Line, Answers, Requests, EndPops;
    LineTail(s);
  }

  lemma AnswerMatches(s: System, local: bool)
    requires Correlated(s) && s.toClient != []
    requires s.toClient[0].TransferEnd? ==> !EndPops(s.client, s.toClient[0].id)
    ensures s.read <= |s.client.out| && Settles(s, local)
  {
    hide Correlated, Settles, EndPops;
    Wf(s);
    match s.toClient[0]
    case Granted(_, _) => ReplySettles(s, local);
    case Refused(_) => ReplySettles(s, local);
    case Complaint(_) => ComplaintSettles(s, local);
    case Pong(_, _) => PongSettles(s, local);
    case _ => PushSettles(s, local);
  }

  lemma ClientReadsKeeps(h: Download.Hash, s: System, local: bool, tooLarge: bool, fatal: bool)
    requires Correlated(s) && s.toClient != []
    requires s.toClient[0].TransferEnd? ==> !EndPops(s.client, s.toClient[0].id)
    ensures Correlated(ClientTurn(h, s, local, tooLarge, fatal))
  {
    hide Matches, TransferWf, Next, Consumed, Concludes, Verdicts, RemarkedAfter, AtMostOne, EndPops;
    var i := InputOf(s.toClient[0], local);
    var b := s.client.(pending := Consumed(s.client, i));
    AnswerMatches(s, local);
    ConsumedWf(s.client, i);
    TurnQueue(h, s.client, Tick(i, tooLarge, fatal));
    var t := s.(client := b, toClient := s.toClient[1..], heard := s.heard + Concludes(s.client.pending, i));
    SendsKeep(t, Next(h, s.client, Tick(i, tooLarge, fatal)));
  }

  lemma ConsumedWf(a: State, i: Input)
    requires TransferWf(a)
    ensures TransferWf(a.(pending := Consumed(a, i)))
  {
  }

  lemma StepKeeps(h: Download.Hash, s: System, step: Step)
    requires Correlated(s) && Legal(s, step)
    ensures Correlated(Advance(h, s, step))
  {
    hide Correlated, ServerTurn, ClientTurn, Next;
    Wf(s);
    match step
    case ServerReads(grant, acc) => ServerReadsKeeps(s, grant, acc);
    case ServerPushes(m) => ServerPushesKeeps(s, m);
    case ClientReads(local, tooLarge, fatal) => ClientReadsKeeps(h, s, local, tooLarge, fatal);
    case ClientActs(i, tooLarge, fatal) =>
      TurnQueue(h, s.client, Tick(i, tooLarge, fatal));
      SendsKeep(s, Next(h, s.client, Tick(i, tooLarge, fatal)));
  }

  lemma Wf(s: System)
    requires Correlated(s)
    ensures TransferWf(s.client) && s.read <= |s.client.out|
  {
  }

  // ---- whole runs ---------------------------------------------------------------------------

  ghost predicate LegalRun(h: Download.Hash, s: System, steps: seq<Step>)
    requires TransferWf(s.client)
    decreases |steps|
  {
    steps != [] ==> Legal(s, steps[0]) && LegalRun(h, Advance(h, s, steps[0]), steps[1..])
  }

  function After(h: Download.Hash, s: System, steps: seq<Step>): (r: System)
    requires TransferWf(s.client) && LegalRun(h, s, steps)
    ensures TransferWf(r.client)
    decreases |steps|
  {
    if steps == [] then s else After(h, Advance(h, s, steps[0]), steps[1..])
  }

  lemma {:induction false} RunsStayCorrelated(h: Download.Hash, s: System, steps: seq<Step>)
    requires Correlated(s) && LegalRun(h, s, steps)
    ensures Correlated(After(h, s, steps))
    decreases |steps|
  {
    hide Correlated, Advance, Legal;
    Wf(s);
    if steps != [] {
      StepKeeps(h, s, steps[0]);
      RunsStayCorrelated(h, Advance(h, s, steps[0]), steps[1..]);
    }
  }

  /** The frame the client reads next is one it cannot attribute. */
  predicate Violates(a: State, i: Input) {
    || (i.GotReply? && !HeadAsks(a, i.replyType))
    || (i.GotAccept? && !HeadAwaitsAccept(a))
    || (i.GotPong? && (a.pending == [] || a.pending[0].Reply?))
    || (i.GotError? && (a.pending == [] || (a.pending[0].Barrier? && (a.pending[0].quiet == None || Failed(a.pending[0])))))
  }

  lemma {:induction false} LineHead(s: System)
    requires Correlated(s) && s.toClient != []
    ensures var m := s.toClient[0]; var ps := s.client.pending;
            && (m.Granted? || m.Refused? ==> ps != [] && ps[0] == Reply(m.about))
            && (m.Complaint? ==> ps != [] && IsBarrier(ps[0], m.token) && ps[0].quiet.Some? && !Failed(ps[0]))
            && (m.Pong? ==> ps != [] && IsBarrier(ps[0], m.token) && CallerOf(ps[0]) == m.reply)
  {
    assert Line(s)[0] == OfMsg(s.toClient[0]);
  }

  /** In every state of every run of a client and a server that keeps its contract: each
      answer the client reads belongs to the head of its queue, the head's token is the
      Pong's, nothing is a protocol violation, and the client's conclusions are the
      server's decisions, in order, up to those still in flight. */
  lemma EveryAnswerReachesItsCommand(h: Download.Hash, steps: seq<Step>)
    ensures TransferWf(Connected.client)
    ensures LegalRun(h, Connected, steps) ==>
              var s := After(h, Connected, steps);
              && s.read <= |s.client.out| && s.heard <= s.decided
              && s.decided == s.heard + Verdicts(s.toClient, HeadFailed(s.client.pending))
              && Matches(s.client.pending, Line(s), HeadFailed(s.client.pending))
              && |s.client.pending| == OwedBy(Line(s))
              && (s.toClient != [] ==>
                    var m := s.toClient[0];
                    && (forall local :: !Violates(s.client, InputOf(m, local)))
                    && (m.Granted? || m.Refused? ==> s.client.pending != [] && s.client.pending[0] == Reply(m.about))
                    && (m.Complaint? || m.Pong? ==> s.client.pending != [] && s.client.pending[0].Barrier? && s.client.pending[0].token == m.token))
  {
    if LegalRun(h, Connected, steps) {
      assert Correlated(Connected);
      RunsStayCorrelated(h, Connected, steps);
      Attributed(After(h, Connected, steps));
    }
  }

  lemma Attributed(s: System)
    requires Correlated(s)
    ensures && s.read <= |s.client.out| && s.heard <= s.decided
            && |s.client.pending| == OwedBy(Line(s))
            && (s.toClient != [] ==>
                  var m := s.toClient[0];
                  && (forall local :: !Violates(s.client, InputOf(m, local)))
                  && (m.Granted? || m.Refused? ==> s.client.pending != [] && s.client.pending[0] == Reply(m.about))
                  && (m.Complaint? || m.Pong? ==> s.client.pending != [] && s.client.pending[0].Barrier? && s.client.pending[0].token == m.token))
  {
    hide TransferWf, Matches, Line;
    MatchCounts(s.client.pending, Line(s), HeadFailed(s.client.pending));
    if s.toClient != [] {
      LineHead(s);
    }
  }

  // ---- from the server's decision to the caller's answer ----------------------------------------

  function HowOf(ok: bool): How {
    if ok then Fine else ServerSaid
  }

  predicate AboutHead(v: Verdict, p: Pending) {
    match p
    case Reply(w) => v == OfRequest(w, v.ok)
    case Barrier(token, _) => v == OfBarrier(token, CallerOf(p), v.ok)
  }

  /** The next answer the client reads carries the server's next undelivered decision, that
      decision is about the head of the queue, and whoever waits there is told exactly it. */
  lemma VerdictReachesCaller(h: Download.Hash, s: System, local: bool, tooLarge: bool, fatal: bool)
    requires Correlated(s) && s.toClient != []
    requires s.toClient[0].Granted? || s.toClient[0].Refused? || s.toClient[0].Pong?
    ensures TransferWf(s.client) && |s.heard| < |s.decided| && s.client.pending != []
    ensures var v := s.decided[|s.heard|]; var head := s.client.pending[0];
            && AboutHead(v, head)
            && (CallerOf(head).Some? ==>
                  ClientTurn(h, s, local, tooLarge, fatal).client.answers ==
                  s.client.answers + [Answer(CallerOf(head).value, HowOf(v.ok))])
  {
    hide Matches, Line, TransferWf;
    Wf(s);
    LineHead(s);
    var f := HeadFailed(s.client.pending);
    assert s.decided[|s.heard|] == Verdicts(s.toClient, f)[0];
    if CallerOf(s.client.pending[0]).Some? {
      HeadTold(h, s.client, InputOf(s.toClient[0], local), tooLarge, fatal);
    }
  }

  lemma HeadTold(h: Download.Hash, a: State, i: Input, tooLarge: bool, fatal: bool)
    requires TransferWf(a) && a.pending != [] && CallerOf(a.pending[0]).Some?
    ensures var r := Next(h, a, Tick(i, tooLarge, fatal)); var c := CallerOf(a.pending[0]).value;
            && (a.pending[0].Reply? && i == GotReply(a.pending[0].waiter.expects) ==> r.answers == a.answers + [Answer(c, Fine)])
            && (a.pending[0].Reply? && i == GotError ==> r.answers == a.answers + [Answer(c, ServerSaid)])
            && (a.pending[0].Barrier? && i == GotPong ==> r.answers == a.answers + [Answer(c, HowOf(!Failed(a.pending[0])))])
  {
    hide TransferWf, Keeps, OnTransferEnd, OnData, OnAccept, FailTransfer;
    hide Request, Command, Keepalive, StartUpload, StartDownload, Cancel, OnBlockingDone, SendNextChunk, AcceptTimedOut;
  }

  /** Every decision heard has been told to whoever waits for it. */
  predicate Told(s: System) {
    forall k :: 0 <= k < |s.heard| ==> VerdictTold(s.heard[k], s.client.answers)
  }

  /** The caller a decision is for: a request's, or the one waiting on a barrier. */
  function For(v: Verdict): Option<Caller> {
    match v
    case OfRequest(w, _) => if w.Asks? then Some(w.caller) else None
    case OfBarrier(_, reply, _) => reply
  }

  predicate VerdictTold(v: Verdict, answers: seq<Answer>) {
    For(v).Some? ==> Answer(For(v).value, HowOf(v.ok)) in answers
  }

  lemma MoreAnswers(s: System, t: System)
    requires Told(s) && t.heard == s.heard && s.client.answers <= t.client.answers
    ensures Told(t)
  {
    forall k | 0 <= k < |t.heard| ensures VerdictTold(t.heard[k], t.client.answers) {
      assert VerdictTold(s.heard[k], s.client.answers);
    }
  }

  lemma ClientReadsTold(h: Download.Hash, s: System, local: bool, tooLarge: bool, fatal: bool)
    requires Correlated(s) && Told(s) && s.toClient != []
    ensures TransferWf(s.client) && Told(ClientTurn(h, s, local, tooLarge, fatal))
  {
    hide Matches, Line, TransferWf, Next, Verdicts;
    Wf(s);
    var i := InputOf(s.toClient[0], local);
    var t := ClientTurn(h, s, local, tooLarge, fatal);
    AnswersGrow(h, s.client, Tick(i, tooLarge, fatal));
    MoreAnswers(s, t.(heard := s.heard));
    LineHead(s);
    if s.toClient[0].Granted? || s.toClient[0].Refused? || s.toClient[0].Pong? {
      if CallerOf(s.client.pending[0]).Some? {
        HeadTold(h, s.client, i, tooLarge, fatal);
        assert t.client.answers[|s.client.answers|] in t.client.answers;
      }
      ConcludedTold(s, t, Concludes(s.client.pending, i)[0]);
    } else {
      assert Concludes(s.client.pending, i) == [];
      assert t.heard == s.heard;
    }
  }

  lemma ConcludedTold(s: System, t: System, v: Verdict)
    requires Told(t.(heard := s.heard)) && t.heard == s.heard + [v] && VerdictTold(v, t.client.answers)
    ensures Told(t)
  {
    forall k | 0 <= k < |t.heard| ensures VerdictTold(t.heard[k], t.client.answers) {
      if k < |s.heard| {
        assert VerdictTold(t.(heard := s.heard).heard[k], t.client.answers);
      }
    }
  }

  lemma StepTold(h: Download.Hash, s: System, step: Step)
    requires Correlated(s) && Told(s) && Legal(s, step)
    ensures TransferWf(s.client) && Told(Advance(h, s, step))
  {
    hide Correlated, Next, Told;
    Wf(s);
    match step
    case ServerReads(grant, acc) => MoreAnswers(s, ServerTurn(s, grant, acc));
    case ServerPushes(m) => MoreAnswers(s, s.(toClient := s.toClient + [m]));
    case ClientReads(local, tooLarge, fatal) => ClientReadsTold(h, s, local, tooLarge, fatal);
    case ClientActs(i, tooLarge, fatal) =>
      AnswersGrow(h, s.client, Tick(i, tooLarge, fatal));
      MoreAnswers(s, s.(client := Next(h, s.client, Tick(i, tooLarge, fatal))));
  }

  lemma {:induction false} RunsTell(h: Download.Hash, s: System, steps: seq<Step>)
    requires Correlated(s) && Told(s) && TransferWf(s.client) && LegalRun(h, s, steps)
    ensures Told(After(h, s, steps))
    decreases |steps|
  {
    hide Correlated, Advance, Legal, Told, TransferWf;
    if steps != [] {
      StepKeeps(h, s, steps[0]);
      StepTold(h, s, steps[0]);
      Wf(Advance(h, s, steps[0]));
      RunsTell(h, Advance(h, s, steps[0]), steps[1..]);
    }
  }

  /** Over whole runs: what the server decided about a request, or about a command whose
      caller waits for its barrier, is what that caller was told. */
  lemma EveryCallerHearsTheServersDecision(h: Download.Hash, steps: seq<Step>, k: nat)
    ensures TransferWf(Connected.client)
    ensures LegalRun(h, Connected, steps) ==>
              var s := After(h, Connected, steps);
              && |s.heard| <= |s.decided|
              && (k < |s.heard| ==> s.heard[k] == s.decided[k] && VerdictTold(s.decided[k], s.client.answers))
  {
    if LegalRun(h, Connected, steps) {
      assert Correlated(Connected) && Told(Connected);
      RunsStayCorrelated(h, Connected, steps);
      RunsTell(h, Connected, steps);
      hide After, LegalRun, Line, Matches;
      assert k < |After(h, Connected, steps).heard| ==> VerdictTold(After(h, Connected, steps).heard[k], After(h, Connected, steps).client.answers);
    }
  }

  // ---- late transfer ends --------------------------------------------------------------------

  /** A TransferEnd keeps the queue in step exactly if the client does not take it for
      the answer at the head: it names a transfer the client gave up, or no transfer
      awaits its accept, or that transfer's request is not at the head. */
  lemma LateEndBreaksCorrelationIff(h: Download.Hash, s: System, local: bool, tooLarge: bool, fatal: bool)
    requires Correlated(s) && s.toClient != [] && s.toClient[0].TransferEnd?
    ensures TransferWf(s.client)
    ensures Correlated(ClientTurn(h, s, local, tooLarge, fatal)) <==> !EndPops(s.client, s.toClient[0].id)
  {
    hide Correlated, EndPops, Next;
    Wf(s);
    if EndPops(s.client, s.toClient[0].id) {
      LateEndBreaks(h, s, local, tooLarge, fatal);
    } else {
      ClientReadsKeeps(h, s, local, tooLarge, fatal);
    }
  }

  lemma LateEndBreaks(h: Download.Hash, s: System, local: bool, tooLarge: bool, fatal: bool)
    requires Correlated(s) && s.toClient != [] && s.toClient[0].TransferEnd? && EndPops(s.client, s.toClient[0].id)
    ensures !Correlated(ClientTurn(h, s, local, tooLarge, fatal))
  {
    hide TransferWf, Next, Matches, Verdicts, RemarkedAfter, Line, AtMostOne;
    var i := InputOf(s.toClient[0], local);
    var r := ClientTurn(h, s, local, tooLarge, fatal);
    var t := s.(client := s.client.(pending := Consumed(s.client, i)), toClient := s.toClient[1..], heard := r.heard);
    MatchCounts(s.client.pending, Line(s), HeadFailed(s.client.pending));
    OwedAfterPush(s, t);
    TurnQueue(h, s.client, Tick(i, tooLarge, fatal));
    SendsBalance(t, r.client);
    if Correlated(r) {
      MatchCounts(r.client.pending, Line(r), HeadFailed(r.client.pending));
    }
  }

  lemma OwedAfterPush(s: System, t: System)
    requires s.read <= |s.client.out| && s.toClient != [] && OfMsg(s.toClient[0]) == Noise
    requires t.read == s.read && t.client.out == s.client.out && t.toClient == s.toClient[1..]
    ensures OwedBy(Line(t)) == OwedBy(Line(s))
  {
    hide Answers, Requests;
    LineTail(s);
  }

  /** Whatever is sent adds as much to the line as to the queue. */
  lemma SendsBalance(t: System, r: State)
    requires t.read <= |t.client.out| && AtMostOne(t.client, r)
    ensures t.read <= |r.out| && OwedBy(Line(t.(client := r))) + |t.client.pending| == OwedBy(Line(t)) + |r.pending|
  {
    hide OwedBy;
    if !NothingSent(t.client, r) {
      var p := Last(r.pending);
      assert r.out[t.read..] == t.client.out[t.read..] + Written(p);
      assert Line(t.(client := r)) == Line(t) + Requests(Written(p));
      OwedWritten(Line(t), p);
    }
  }

  lemma {:induction false} OwedWritten(line: seq<Item>, p: Pending)
    ensures OwedBy(line + Requests(Written(p))) == OwedBy(line) + 1
    decreases |line|
  {
    var more := line + Requests(Written(p));
    if line == [] {
      assert more == Requests(Written(p)) && more[1..] == Requests(Written(p)[1..]);
      assert more[1..] == [] || more[1..][1..] == [];
    } else {
      assert more[1..] == line[1..] + Requests(Written(p));
      OwedWritten(line[1..], p);
    }
  }

  const Offer := Download.Accept(7, DEFAULT_CHUNK_SIZE, 0, 0, 0, [], 0)
  const Fetching := Download.NewJob(None, DEFAULT_CHUNK_SIZE, None)
  const FetchOne := ClientActs(DoDownload(true, None, DEFAULT_CHUNK_SIZE, None), false, false)

  function Awaiting(gen: nat, caller: Caller): Option<Transfer> {
    Some(Transfer(gen, caller, AwaitingAccept, Fetch(Fetching)))
  }

  /** One download was accepted and given up because its partial could not be opened;
      the server was not told, and its end is on the way while a second one is asked for. */
  const GaveUp := Start.(nextGen := 1, issued := 1, answers := [Answer(0, Locally)], out := [Ask(TransferStart(1))])
  const AskedAgain := GaveUp.(nextGen := 2, issued := 2, transfer := Awaiting(2, 1),
                              pending := [Reply(TransferStart(2))], out := [Ask(TransferStart(1)), Ask(TransferStart(2))])

  const Before := System(AskedAgain, 1, [TransferEnd(7, true)], false, [OfRequest(TransferStart(1), true)], [OfRequest(TransferStart(1), true)])

  const FirstSteps := [FetchOne, ServerReads(true, Offer), ClientReads(false, false, false), ServerPushes(TransferEnd(7, true)), FetchOne]

  lemma FirstDownload(h: Download.Hash)
    ensures TransferWf(Start) && Legal(Connected, FetchOne)
    ensures Advance(h, Connected, FetchOne) ==
            Connected.(client := Start.(nextGen := 1, issued := 1, transfer := Awaiting(1, 0),
                                        pending := [Reply(TransferStart(1))], out := [Ask(TransferStart(1))]))
  {
  }

  lemma FirstRefused(h: Download.Hash, a: State)
    requires a == Start.(nextGen := 1, issued := 1, transfer := Awaiting(1, 0),
                         pending := [Reply(TransferStart(1))], out := [Ask(TransferStart(1))])
    ensures TransferWf(a) && Next(h, a, Tick(GotAccept(Offer, false), false, false)) == GaveUp
  {
    assert Download.OnAccept(Fetching, Offer).Started?;
  }

  lemma SecondDownload(h: Download.Hash)
    ensures TransferWf(GaveUp) && Next(h, GaveUp, Tick(FetchOne.input, false, false)) == AskedAgain
  {
  }

  lemma Chain(h: Download.Hash, s: System, steps: seq<Step>, rest: seq<Step>)
    requires TransferWf(s.client) && steps != [] && steps[1..] == rest && Legal(s, steps[0])
    requires LegalRun(h, Advance(h, s, steps[0]), rest)
    ensures LegalRun(h, s, steps) && After(h, s, steps) == After(h, Advance(h, s, steps[0]), rest)
  {
  }

  lemma ReachesBefore(h: Download.Hash)
    ensures TransferWf(Start) && LegalRun(h, Connected, FirstSteps) && After(h, Connected, FirstSteps) == Before
  {
    hide Next, TransferWf;
    FirstDownload(h);
    var s1 := Advance(h, Connected, FetchOne);
    FirstRefused(h, s1.client);
    SecondDownload(h);
    var s2 := Advance(h, s1, FirstSteps[1]);
    assert s2.toClient == [Granted(TransferStart(1), Offer)];
    var s3 := Advance(h, s2, FirstSteps[2]);
    assert s3 == System(GaveUp, 1, [], false, [OfRequest(TransferStart(1), true)], [OfRequest(TransferStart(1), true)]);
    var s4 := Advance(h, s3, FirstSteps[3]);
    Chain(h, s4, FirstSteps[4..], []);
    Chain(h, s3, FirstSteps[3..], FirstSteps[4..]);
    Chain(h, s2, FirstSteps[2..], FirstSteps[3..]);
    Chain(h, s1, FirstSteps[1..], FirstSteps[2..]);
    Chain(h, Connected, FirstSteps, FirstSteps[1..]);
  }

  lemma EndTaken(h: Download.Hash, local: bool, fatal: bool)
    ensures TransferWf(AskedAgain) && EndPops(AskedAgain, 7)
    ensures Next(h, AskedAgain, Tick(GotEnd(7, true, local), false, fatal)) ==
            AskedAgain.(pending := [], transfer := None, answers := [Answer(0, Locally), Answer(1, ServerSaid)])
  {
  }

  /** The assumption on late ends is needed: here the client itself causes one it does
      not remember, takes it for the answer to its second request, and then treats
      the real answer as a protocol violation. */
  lemma ForgottenTransferBreaksCorrelation(h: Download.Hash, local: bool, fatal: bool, acc: Download.Accept)
    ensures TransferWf(Start) && LegalRun(h, Connected, FirstSteps)
    ensures var s := After(h, Connected, FirstSteps);
            && s.toClient == [TransferEnd(7, true)] && EndPops(s.client, 7)
            && var t := ClientTurn(h, s, local, false, fatal);
               t.read < |t.client.out| &&
               var u := ServerTurn(t, true, acc);
               |u.toClient| == 1 && Violates(u.client, InputOf(u.toClient[0], local))
  {
    hide After, LegalRun, Next;
    ReachesBefore(h);
    EndTaken(h, local, fatal);
  }
}
