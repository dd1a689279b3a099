/**
 * The server that the correlation runs assume is the one the dispatch loop is. Each
 * answer list the dispatcher may give a frame is what one server step of the
 * protocol says; each entry of its log is such a step, or none, from any state of
 * the system; and so a dispatcher and a client acting in turns of any length
 * are a run of the protocol.
 */
module ServerContract {
  import opened Options
  import opened Correlation
  import Actor
  import ActorRuns
  import Download
  import Slots = UploadSlots

  // ---- one frame --------------------------------------------------------------------------

  /** The frame in which a message of the client arrives. */
  predicate ArrivesAs(o: Actor.Out, f: Slots.Frame) {
    match o
    case Ask(_) => f.Request? || f.UploadStart?
    case Tell(_, _) => f.Command? || f.UploadData? || f.TransferEnd?
    case Ping(token, _) => f == Slots.Ping(token)
  }

  /** What an answer to that message is to the client; an answer of the wrong kind is none. */
  function Spoken(o: Actor.Out, answer: Slots.Answer, acc: Download.Accept): Msg {
    match (o, answer)
    case (Ask(w), Granted) => Granted(w, acc)
    case (Ask(w), Error) => Refused(w)
    case (Tell(token, _), Error) => Complaint(token)
    case (Ping(_, reply), Pong(token)) => Pong(token, reply)
    case _ => Event
  }

  function SpokenAll(o: Actor.Out, answers: seq<Slots.Answer>, acc: Download.Accept): (ms: seq<Msg>)
    ensures |ms| == |answers| && forall i :: 0 <= i < |ms| ==> ms[i] == Spoken(o, answers[i], acc)
  {
    seq(|answers|, i requires 0 <= i < |answers| => Spoken(o, answers[i], acc))
  }

  /** Whether a step of the protocol's server says exactly these answers. */
  ghost predicate Sayable(s: System, answers: seq<Slots.Answer>, acc: Download.Accept)
    requires s.read < |s.client.out|
  {
    exists grant :: ServerTurn(s, grant, acc).toClient == s.toClient + SpokenAll(s.client.out[s.read], answers, acc)
  }

  /** The answers the dispatcher may give a frame are exactly those the protocol's server
      may give the message that arrives in it. */
  lemma FitsIffSayable(s: System, f: Slots.Frame, answers: seq<Slots.Answer>, acc: Download.Accept)
    requires s.read < |s.client.out| && ArrivesAs(s.client.out[s.read], f)
    ensures Slots.Fits(f, answers) <==> Sayable(s, answers, acc)
  {
    var o := s.client.out[s.read];
    var said := SpokenAll(o, answers, acc);
    if Slots.Fits(f, answers) {
      FitsIsSaid(s, f, answers, acc);
    }
    if grant :| ServerTurn(s, grant, acc).toClient == s.toClient + said {
      assert ServerTurn(s, grant, acc).toClient[|s.toClient|..] == said;
      SaidFits(s, f, answers, acc, grant);
    }
  }

  lemma FitsIsSaid(s: System, f: Slots.Frame, answers: seq<Slots.Answer>, acc: Download.Accept)
    requires s.read < |s.client.out| && ArrivesAs(s.client.out[s.read], f) && Slots.Fits(f, answers)
    ensures ServerTurn(s, Slots.Error !in answers, acc).toClient == s.toClient + SpokenAll(s.client.out[s.read], answers, acc)
  {
    var said := SpokenAll(s.client.out[s.read], answers, acc);
    if answers == [] {
      assert said == [] && s.toClient + [] == s.toClient;
    } else {
      assert answers == [answers[0]] && said == [Spoken(s.client.out[s.read], answers[0], acc)];
    }
  }

  lemma SaidFits(s: System, f: Slots.Frame, answers: seq<Slots.Answer>, acc: Download.Accept, grant: bool)
    requires s.read < |s.client.out| && ArrivesAs(s.client.out[s.read], f)
    requires ServerTurn(s, grant, acc).toClient[|s.toClient|..] == SpokenAll(s.client.out[s.read], answers, acc)
    ensures Slots.Fits(f, answers)
  {
    var said := SpokenAll(s.client.out[s.read], answers, acc);
    assert |answers| == |said| <= 1;
    if answers != [] {
      assert said[0] == Spoken(s.client.out[s.read], answers[0], acc);
      assert answers == [answers[0]];
    }
  }

  // ---- one entry of the log ----------------------------------------------------------------

  function FramesIn(log: seq<Slots.Entry>): seq<Slots.Frame> {
    if log == [] then []
    else FramesIn(log[..|log| - 1]) + if log[|log| - 1].Read? then [log[|log| - 1].frame] else []
  }

  /** The frames of the log are the client's messages from position `from` on. */
  predicate Carries(log: seq<Slots.Entry>, out: seq<Actor.Out>, from: nat) {
    && from + |FramesIn(log)| <= |out|
    && forall k :: 0 <= k < |FramesIn(log)| ==> ArrivesAs(out[from + k], FramesIn(log)[k])
  }

  /** A frame read and not answered yet is still to be taken by a step. */
  predicate Waiting(log: seq<Slots.Entry>) {
    Slots.LastRead(log).Some? && Slots.Since(log) == []
  }

  /** The system is where the log is: its server has taken every frame but one still waiting. */
  predicate Coupled(s: System, log: seq<Slots.Entry>, from: nat) {
    && Carries(log, s.client.out, from)
    && s.read + (if Waiting(log) then 1 else 0) == from + |FramesIn(log)|
  }

  /** What the log leaves out: an accept's contents, an ended upload's id and outcome. */
  datatype Details = Details(acc: Download.Accept, id: Actor.Id, verified: bool)

  /** One protocol step for each frame: at its answer, or at the next frame if it gets none. */
  function EntrySteps(log: seq<Slots.Entry>, e: Slots.Entry, more: Details): seq<Step> {
    match e
    case Read(_) => if Waiting(log) then [ServerReads(true, more.acc)] else []
    case Wrote(answer) => [ServerReads(answer != Slots.Error, more.acc)]
    case Ended(_) => [ServerPushes(TransferEnd(more.id, more.verified))]
    case _ => []
  }

  /** What the entry sends the client: an answer to the last message read, or an upload's end. */
  function EntrySays(log: seq<Slots.Entry>, e: Slots.Entry, out: seq<Actor.Out>, from: nat, more: Details): seq<Msg>
    requires Carries(log, out, from)
  {
    match e
    case Wrote(answer) => if FramesIn(log) == [] then [] else [Spoken(out[from + |FramesIn(log)| - 1], answer, more.acc)]
    case Ended(_) => [TransferEnd(more.id, more.verified)]
    case _ => []
  }

  /** The steps are legal, leave the client alone, say what the entry says, and arrive
      where the longer log is. */
  ghost predicate Performs(h: Download.Hash, s: System, log: seq<Slots.Entry>, e: Slots.Entry, from: nat, more: Details)
    requires Actor.TransferWf(s.client) && Carries(log, s.client.out, from)
  {
    var steps := EntrySteps(log, e, more);
    && LegalRun(h, s, steps)
    && var r := After(h, s, steps);
       && r.client == s.client && Coupled(r, log + [e], from)
       && r.toClient == s.toClient + EntrySays(log, e, s.client.out, from, more)
  }

  lemma {:induction false} LastFrame(log: seq<Slots.Entry>)
    ensures Slots.LastRead(log).Some? <==> FramesIn(log) != []
    ensures FramesIn(log) != [] ==> Slots.LastRead(log).value == FramesIn(log)[|FramesIn(log)| - 1]
  {
    if log != [] {
      LastFrame(log[..|log| - 1]);
    }
  }

  lemma FramesNote(log: seq<Slots.Entry>, e: Slots.Entry)
    ensures FramesIn(log + [e]) == FramesIn(log) + if e.Read? then [e.frame] else []
  {
    assert (log + [e])[..|log|] == log;
  }

  lemma NoStep(h: Download.Hash, s: System)
    requires Actor.TransferWf(s.client)
    ensures LegalRun(h, s, []) && After(h, s, []) == s
  {
  }

  lemma OneStep(h: Download.Hash, s: System, step: Step)
    requires Actor.TransferWf(s.client) && Legal(s, step)
    ensures LegalRun(h, s, [step]) && After(h, s, [step]) == Advance(h, s, step)
  {
    hide Advance, Legal, Actor.TransferWf;
    assert [step][1..] == [];
    NoStep(h, Advance(h, s, step));
  }

  lemma Unsaid(r: System, acc: Download.Accept)
    requires r.read < |r.client.out|
    ensures r.toClient + SpokenAll(r.client.out[r.read], [], acc) == r.toClient
  {
  }

  /** The next frame: if the last one gets no answer, the step that reads it says nothing. */
  lemma ReadEntry(h: Download.Hash, s: System, log: seq<Slots.Entry>, f: Slots.Frame, from: nat, more: Details)
    requires Actor.TransferWf(s.client) && !s.client.dead && Coupled(s, log, from)
    requires Carries(log + [Slots.Read(f)], s.client.out, from) && Slots.Answered(log)
    ensures Performs(h, s, log, Slots.Read(f), from, more)
  {
    hide LegalRun, After, ActorRuns.Next, Actor.TransferWf, Slots.LastRead, Slots.Since, FramesIn;
    FramesNote(log, Slots.Read(f));
    Slots.OrderNote(log, Slots.Read(f));
    LastFrame(log);
    if Waiting(log) {
      var last := FramesIn(log)[|FramesIn(log)| - 1];
      assert ArrivesAs(s.client.out[from + (|FramesIn(log)| - 1)], last);
      FitsIsSaid(s, last, [], more.acc);
      Unsaid(s, more.acc);
      OneStep(h, s, ServerReads(true, more.acc));
    } else {
      NoStep(h, s);
    }
  }

  lemma SaysOne(s: System, f: Slots.Frame, answer: Slots.Answer, acc: Download.Accept)
    requires s.read < |s.client.out| && ArrivesAs(s.client.out[s.read], f) && Slots.Fits(f, [answer])
    ensures var r := ServerTurn(s, answer != Slots.Error, acc);
            && r.client == s.client && r.read == s.read + 1
            && r.toClient == s.toClient + [Spoken(s.client.out[s.read], answer, acc)]
  {
    hide ArrivesAs, Slots.Fits, Spoken;
    FitsIsSaid(s, f, [answer], acc);
    assert SpokenAll(s.client.out[s.read], [answer], acc) == [Spoken(s.client.out[s.read], answer, acc)];
  }

  /** An answer: the step that reads its frame says it. */
  lemma WroteEntry(h: Download.Hash, s: System, log: seq<Slots.Entry>, answer: Slots.Answer, from: nat, more: Details)
    requires Actor.TransferWf(s.client) && !s.client.dead && Coupled(s, log, from)
    requires Waiting(log) && Slots.Fits(Slots.LastRead(log).value, [answer])
    ensures Performs(h, s, log, Slots.Wrote(answer), from, more)
  {
    hide LegalRun, After, ActorRuns.Next, Actor.TransferWf, Slots.LastRead, Slots.Since, FramesIn, Spoken, ArrivesAs, Slots.Fits, ServerTurn;
    FramesNote(log, Slots.Wrote(answer));
    Slots.OrderNote(log, Slots.Wrote(answer));
    LastFrame(log);
    var last := FramesIn(log)[|FramesIn(log)| - 1];
    assert ArrivesAs(s.client.out[from + (|FramesIn(log)| - 1)], last);
    SaysOne(s, last, answer, more.acc);
    OneStep(h, s, ServerReads(answer != Slots.Error, more.acc));
  }

  lemma OtherEntry(h: Download.Hash, s: System, log: seq<Slots.Entry>, e: Slots.Entry, from: nat, more: Details)
    requires Actor.TransferWf(s.client) && !s.client.dead && Coupled(s, log, from) && !e.Read? && !e.Wrote?
    ensures Performs(h, s, log, e, from, more)
  {
    hide LegalRun, After, ActorRuns.Next, Actor.TransferWf, Slots.LastRead, Slots.Since, FramesIn;
    FramesNote(log, e);
    Slots.OrderNote(log, e);
    if e.Ended? {
      OneStep(h, s, ServerPushes(TransferEnd(more.id, more.verified)));
    } else {
      NoStep(h, s);
    }
  }

  /** From any state of the system that is where the log is: whatever entry may come next in the
      log is one step of the protocol's server, or none, that says what the entry says. */
  lemma EntryIsServerStep(h: Download.Hash, s: System, log: seq<Slots.Entry>, e: Slots.Entry, from: nat, more: Details)
    requires Actor.TransferWf(s.client) && !s.client.dead && Coupled(s, log, from)
    requires Slots.MayFollow(log, e) && Carries(log + [e], s.client.out, from)
    ensures Performs(h, s, log, e, from, more)
  {
    hide Performs, Actor.TransferWf, Slots.LastRead, Slots.Since, Coupled, Carries;
    match e
    case Read(f) => ReadEntry(h, s, log, f, from, more);
    case Wrote(answer) => WroteEntry(h, s, log, answer, from, more);
    case _ => OtherEntry(h, s, log, e, from, more);
  }

  // ---- client and dispatcher in turns --------------------------------------------------------

  /** What happens next: an entry of the dispatcher's log, or a step of anyone else, the client
      or the tasks that push data and events. */
  datatype Act = Logs(entry: Slots.Entry, more: Details) | Takes(step: Step)

  function LogOf(acts: seq<Act>): seq<Slots.Entry> {
    if acts == [] then [] else (if acts[0].Logs? then [acts[0].entry] else []) + LogOf(acts[1..])
  }

  function StepsOf(log: seq<Slots.Entry>, acts: seq<Act>): seq<Step>
    decreases |acts|
  {
    if acts == [] then []
    else
      match acts[0]
      case Logs(e, more) => EntrySteps(log, e, more) + StepsOf(log + [e], acts[1..])
      case Takes(step) => [step] + StepsOf(log, acts[1..])
  }

  /** The frame an entry reads is the client's next message. */
  predicate Delivers(out: seq<Actor.Out>, log: seq<Slots.Entry>, e: Slots.Entry, from: nat) {
    e.Read? ==> from + |FramesIn(log)| < |out| && ArrivesAs(out[from + |FramesIn(log)|], e.frame)
  }

  /** The system after an entry, whose steps are always legal (`EntryIsServerStep`). */
  ghost function Effect(h: Download.Hash, s: System, log: seq<Slots.Entry>, e: Slots.Entry, more: Details): (r: System)
    requires Actor.TransferWf(s.client)
    ensures Actor.TransferWf(r.client)
  {
    var steps := EntrySteps(log, e, more);
    if LegalRun(h, s, steps) then After(h, s, steps) else s
  }

  /** The acts can happen one after the other while the client is alive. Of the dispatcher's
      entries nothing is asked but that it reads what the client wrote. */
  ghost predicate Happens(h: Download.Hash, s: System, log: seq<Slots.Entry>, from: nat, acts: seq<Act>)
    requires Actor.TransferWf(s.client)
    decreases |acts|
  {
    acts != [] ==>
      match acts[0]
      case Logs(e, more) =>
        !s.client.dead && Delivers(s.client.out, log, e, from) && Happens(h, Effect(h, s, log, e, more), log + [e], from, acts[1..])
      case Takes(step) =>
        !step.ServerReads? && Legal(s, step) && Happens(h, Advance(h, s, step), log, from, acts[1..])
  }

  lemma OutGrows(h: Download.Hash, a: Actor.State, t: ActorRuns.Tick)
    requires Actor.TransferWf(a)
    ensures a.out <= ActorRuns.Next(h, a, t).out
  {
    hide ActorRuns.Next, Actor.TransferWf, ActorRuns.Consumed;
    ActorRuns.TurnQueue(h, a, t);
  }

  /** Whatever else happens, the log stays where the system is. */
  lemma OthersKeepCoupled(h: Download.Hash, s: System, log: seq<Slots.Entry>, from: nat, step: Step)
    requires Actor.TransferWf(s.client) && Coupled(s, log, from) && !step.ServerReads? && Legal(s, step)
    ensures Coupled(Advance(h, s, step), log, from)
  {
    hide ActorRuns.Next, Actor.TransferWf, Waiting, FramesIn;
    match step
    case ClientReads(local, tooLarge, fatal) =>
      OutGrows(h, s.client, ActorRuns.Tick(InputOf(s.toClient[0], local), tooLarge, fatal));
    case ClientActs(i, tooLarge, fatal) => OutGrows(h, s.client, ActorRuns.Tick(i, tooLarge, fatal));
    case _ =>
  }

  lemma {:induction false} RunsCompose(h: Download.Hash, s: System, xs: seq<Step>, ys: seq<Step>)
    requires Actor.TransferWf(s.client) && LegalRun(h, s, xs) && LegalRun(h, After(h, s, xs), ys)
    ensures LegalRun(h, s, xs + ys) && After(h, s, xs + ys) == After(h, After(h, s, xs), ys)
    decreases |xs|
  {
    hide Advance, Legal, Actor.TransferWf;
    if xs == [] {
      assert xs + ys == ys;
    } else {
      assert (xs + ys)[1..] == xs[1..] + ys;
      RunsCompose(h, Advance(h, s, xs[0]), xs[1..], ys);
    }
  }

  lemma {:induction false} OrderPrefix(log: seq<Slots.Entry>, more: seq<Slots.Entry>)
    requires Slots.InOrder(log + more)
    ensures Slots.InOrder(log)
    decreases |more|
  {
    if more == [] {
      assert log + more == log;
    } else {
      assert (log + more)[..|log + more| - 1] == log + more[..|more| - 1];
      OrderPrefix(log, more[..|more| - 1]);
    }
  }

  lemma NextEntry(log: seq<Slots.Entry>, e: Slots.Entry, rest: seq<Slots.Entry>, out: seq<Actor.Out>, from: nat)
    requires Slots.InOrder(log + ([e] + rest)) && Carries(log, out, from) && Delivers(out, log, e, from)
    ensures log + ([e] + rest) == log + [e] + rest && Slots.MayFollow(log, e) && Carries(log + [e], out, from)
  {
    hide Slots.InOrder, Slots.MayFollow, FramesIn, ArrivesAs;
    assert log + ([e] + rest) == log + [e] + rest;
    OrderPrefix(log + [e], rest);
    Slots.OrderNote(log, e);
    FramesNote(log, e);
  }

  /** An orderly log whose entries come between any steps of the client: together they are a
      run of the protocol, in which the log's entries are the server's steps. */
  lemma {:induction false} LogIsServerRun(h: Download.Hash, s: System, log: seq<Slots.Entry>, from: nat, acts: seq<Act>)
    requires Actor.TransferWf(s.client) && Coupled(s, log, from)
    requires Slots.InOrder(log + LogOf(acts)) && Happens(h, s, log, from, acts)
    ensures LegalRun(h, s, StepsOf(log, acts))
    ensures Coupled(After(h, s, StepsOf(log, acts)), log + LogOf(acts), from)
    decreases |acts|
  {
    hide Slots.InOrder, Slots.MayFollow, Actor.TransferWf, Coupled, Carries, Delivers, EntrySteps, LegalRun, After, Legal, Advance, EntrySays;
    if acts == [] {
      assert log + [] == log;
      NoStep(h, s);
    } else {
      var rest := acts[1..];
      match acts[0]
      case Logs(e, more) =>
        CoupledCarries(s, log, from);
        NextEntry(log, e, LogOf(rest), s.client.out, from);
        EntryIsServerStep(h, s, log, e, from, more);
        var r := Effect(h, s, log, e, more);
        LogIsServerRun(h, r, log + [e], from, rest);
        RunsCompose(h, s, EntrySteps(log, e, more), StepsOf(log + [e], rest));
      case Takes(step) =>
        OthersKeepCoupled(h, s, log, from, step);
        assert LogOf(acts) == LogOf(rest);
        LogIsServerRun(h, Advance(h, s, step), log, from, rest);
        OneStep(h, s, step);
        RunsCompose(h, s, [step], StepsOf(log, rest));
    }
  }

  lemma CoupledCarries(s: System, log: seq<Slots.Entry>, from: nat)
    requires Coupled(s, log, from)
    ensures Carries(log, s.client.out, from)
  {
  }

  /** So whatever happens on a connection, the dispatcher is a server that the correlation
      theorems are about: however its log and the client's steps interleave, the whole
      is a legal run from the start of the connection, and the queue stays in step. */
  lemma DispatcherKeepsContract(h: Download.Hash, events: seq<Slots.Event>, acts: seq<Act>)
    requires Actor.TransferWf(Connected.client) && Happens(h, Connected, [], 0, acts)
    requires LogOf(acts) <= Slots.Run(Slots.Fresh, events).log
    ensures LegalRun(h, Connected, StepsOf([], acts)) && Correlated(After(h, Connected, StepsOf([], acts)))
    ensures Coupled(After(h, Connected, StepsOf([], acts)), LogOf(acts), 0)
  {
    hide Slots.Run, Slots.InOrder, ActorRuns.Next, Actor.TransferWf, Happens, StepsOf;
    var log := Slots.Run(Slots.Fresh, events).log;
    Slots.UploadsConcludedOnce(events);
    assert log == LogOf(acts) + log[|LogOf(acts)|..];
    OrderPrefix(LogOf(acts), log[|LogOf(acts)|..]);
    assert [] + LogOf(acts) == LogOf(acts);
    LogIsServerRun(h, Connected, [], 0, acts);
    assert Correlated(Connected);
    RunsStayCorrelated(h, Connected, StepsOf([], acts));
  }
}
