/**
 * Logins racing administration. A login joins the roster and then re-reads the
 * database in four separate reads; an administrative change is written first and
 * kicks the roster afterwards. All of these are separate steps that interleave
 * freely, and so do the parts of an address sweep (list the roster, judge each
 * entry, disconnect each name) and of a change of rights, which under the mutation
 * lock compares each affected account with what it was before and kicks only if it
 * differs.
 */
module LoginRace {
  type Name = nat
  type AccountId = nat
  type SessionId = nat
  type Address = nat

  /** The class and the effective privileges of an account. */
  datatype Rights = Rights(rank: nat, privileges: nat)

  datatype Account = Account(id: AccountId, rights: Rights, stamp: nat)

  /** A connection that proved a password at some earlier time. Nothing is assumed
      about how old the values it carries are. `stamp` is the credential it last
      proved or, after a password change of its own, put in its place. */
  datatype Session = Session(
    name: Name, id: AccountId, rights: Rights, stamp: nat, address: Address,
    joined: bool,
    passed: nat,            // reads of the recheck that found nothing
    killed: bool,
    sparedAddress: bool)    // its user made the latest change of the address rules

  const RECHECKS := 4

  datatype Kick = Everyone(name: Name) | Others(name: Name, except: SessionId)

  datatype Entry = Entry(name: Name, address: Address)

  /** One application of changed address rules to the roster. */
  datatype Sweep = Sweep(exempt: Name, listed: bool, todo: set<Entry>, doomed: set<Name>)

  datatype World = World(
    accounts: map<Name, Account>,
    owner: map<AccountId, Name>,   // ids are never given to another name
    bans: set<AccountId>,
    denied: set<Address>,
    sessions: map<SessionId, Session>,
    compare: map<Name, Rights>,    // rights before the change in hand, for names not compared yet
    kicks: multiset<Kick>,         // written changes whose kick is still to come
    sweeps: multiset<Sweep>)

  // ---- the steps ----------------------------------------------------------------------

  datatype Step =
    | Authenticate(sid: SessionId, session: Session)
    | Join(sid: SessionId)
    | Recheck(sid: SessionId, readable: bool)
    | Leave(sid: SessionId)
    | CreateAccount(name: Name, account: Account)
    | ChangeRights(changes: map<Name, Rights>)
    | CompareRights(name: Name, readable: bool)
    | ResetPassword(name: Name, stamp: nat)
    | ChangePassword(sid: SessionId, stamp: nat)
    | Ban(id: AccountId)
    | LiftBan(id: AccountId)
    | WriteRules(denied: set<Address>, admin: Name)
    | Deliver(kick: Kick)
    | SweepList(sweep: Sweep)
    | SweepJudge(sweep: Sweep, entry: Entry)
    | SweepKick(sweep: Sweep, name: Name)

  predicate Enabled(w: World, step: Step) {
    match step
    case Authenticate(sid, s) =>
      && sid !in w.sessions && !s.joined && s.passed == 0 && !s.killed && !s.sparedAddress
      && s.id in w.owner && w.owner[s.id] == s.name
    case Join(sid) => sid in w.sessions && !w.sessions[sid].joined
    case Recheck(sid, readable) =>
      // The address is matched against rules in memory, which cannot fail.
      && sid in w.sessions && w.sessions[sid].joined && w.sessions[sid].passed < RECHECKS
      && (w.sessions[sid].passed == 3 ==> readable)
    case Leave(sid) => sid in w.sessions
    case CreateAccount(name, account) => w.compare == map[] && name !in w.accounts && account.id !in w.owner
    case ChangeRights(changes) => w.compare == map[] && changes.Keys <= w.accounts.Keys
    case CompareRights(name, _) => name in w.compare
    case ResetPassword(name, _) => name in w.accounts
    case ChangePassword(sid, _) =>
      && sid in w.sessions && w.sessions[sid].joined && w.sessions[sid].passed == RECHECKS && w.sessions[sid].name in w.accounts
    case Ban(id) => id in w.owner
    case LiftBan(_) => true
    case WriteRules(_, _) => true
    case Deliver(kick) => kick in w.kicks
    case SweepList(sw) => sw in w.sweeps && !sw.listed
    case SweepJudge(sw, e) => sw in w.sweeps && sw.listed && e in sw.todo
    case SweepKick(sw, name) => sw in w.sweeps && sw.listed && sw.todo == {} && name in sw.doomed
  }

  /** What read number `passed` of the recheck finds. */
  predicate StillGood(w: World, s: Session) {
    match s.passed
    case 0 => AccountAgrees(w, s)
    case 1 => PasswordAgrees(w, s)
    case 2 => s.id !in w.bans
    case _ => s.address !in w.denied
  }

  predicate AccountAgrees(w: World, s: Session) {
    && s.name in w.accounts
    && var a := w.accounts[s.name];
       a.id == s.id && a.rights == s.rights
  }

  predicate PasswordAgrees(w: World, s: Session) {
    s.name in w.accounts && w.accounts[s.name].id == s.id && w.accounts[s.name].stamp == s.stamp
  }

  predicate Hits(kick: Kick, sid: SessionId, s: Session) {
    match kick
    case Everyone(name) => s.name == name
    case Others(name, except) => s.name == name && sid != except
  }

  /** The roster only reaches sessions that have joined. */
  function Killing(sessions: map<SessionId, Session>, kick: Kick): map<SessionId, Session> {
    map sid | sid in sessions ::
      if sessions[sid].joined && Hits(kick, sid, sessions[sid]) then sessions[sid].(killed := true) else sessions[sid]
  }

  /** The sweep of one rule change passes over its author, and over nobody else: whoever
      made an earlier change is no longer exempt. */
  function Sparing(sessions: map<SessionId, Session>, admin: Name): map<SessionId, Session> {
    map sid | sid in sessions :: sessions[sid].(sparedAddress := sessions[sid].name == admin)
  }

  function WithRights(accounts: map<Name, Account>, changes: map<Name, Rights>): map<Name, Account> {
    map n | n in accounts :: if n in changes then accounts[n].(rights := changes[n]) else accounts[n]
  }

  function RightsBefore(accounts: map<Name, Account>, changes: map<Name, Rights>): map<Name, Rights>
    requires changes.Keys <= accounts.Keys
  {
    map n | n in changes :: accounts[n].rights
  }

  function Roster(sessions: map<SessionId, Session>): set<Entry> {
    set sid | sid in sessions && sessions[sid].joined :: Entry(sessions[sid].name, sessions[sid].address)
  }

  function Replaced(m: multiset<Sweep>, before: Sweep, after: Sweep): multiset<Sweep> {
    m - multiset{before} + multiset{after}
  }

  function Apply(w: World, step: Step): World
    requires Enabled(w, step)
  {
    match step
    case Authenticate(sid, s) => w.(sessions := w.sessions[sid := s])
    case Join(sid) => w.(sessions := w.sessions[sid := w.sessions[sid].(joined := true)])
    case Recheck(sid, readable) =>
      var s := w.sessions[sid];
      if readable && StillGood(w, s) then w.(sessions := w.sessions[sid := s.(passed := s.passed + 1)])
      else w.(sessions := w.sessions - {sid})
    case Leave(sid) => w.(sessions := w.sessions - {sid})
    case CreateAccount(name, account) => w.(accounts := w.accounts[name := account], owner := w.owner[account.id := name])
    case ChangeRights(changes) =>
      w.(accounts := WithRights(w.accounts, changes), compare := RightsBefore(w.accounts, changes))
    case CompareRights(name, readable) =>
      var changed := !readable || name !in w.accounts || w.accounts[name].rights != w.compare[name];
      w.(compare := w.compare - {name}, kicks := if changed then w.kicks + multiset{Everyone(name)} else w.kicks)
    case ResetPassword(name, stamp) =>
      w.(accounts := w.accounts[name := w.accounts[name].(stamp := stamp)], kicks := w.kicks + multiset{Everyone(name)})
    case ChangePassword(sid, stamp) =>
      var s := w.sessions[sid];
      w.(accounts := w.accounts[s.name := w.accounts[s.name].(stamp := stamp)],
         sessions := w.sessions[sid := s.(stamp := stamp)],
         kicks := w.kicks + multiset{Others(s.name, sid)})
    case Ban(id) => w.(bans := w.bans + {id}, kicks := w.kicks + multiset{Everyone(w.owner[id])})
    case LiftBan(id) => w.(bans := w.bans - {id})
    case WriteRules(denied, admin) =>
      w.(denied := denied, sessions := Sparing(w.sessions, admin), sweeps := w.sweeps + multiset{Sweep(admin, false, {}, {})})
    case Deliver(kick) => w.(sessions := Killing(w.sessions, kick), kicks := w.kicks - multiset{kick})
    case SweepList(sw) => w.(sweeps := Replaced(w.sweeps, sw, sw.(listed := true, todo := Roster(w.sessions))))
    case SweepJudge(sw, e) =>
      var doomed := if e.name != sw.exempt && e.address in w.denied then sw.doomed + {e.name} else sw.doomed;
      w.(sweeps := Replaced(w.sweeps, sw, sw.(todo := sw.todo - {e}, doomed := doomed)))
    case SweepKick(sw, name) =>
      w.(sessions := Killing(w.sessions, Everyone(name)), sweeps := Replaced(w.sweeps, sw, sw.(doomed := sw.doomed - {name})))
  }

  // ---- the invariant -------------------------------------------------------------------

  /** A change is written whose kick will still reach the session. */
  ghost predicate KickComing(w: World, sid: SessionId, s: Session) {
    exists k :: k in w.kicks && Hits(k, sid, s)
  }

  /** The account's rights changed and are still to be compared. */
  predicate CompareComing(w: World, s: Session) {
    s.name in w.compare && (s.name !in w.accounts || w.accounts[s.name].rights != w.compare[s.name])
  }

  predicate WillReach(sw: Sweep, s: Session) {
    || s.name in sw.doomed
    || (s.name != sw.exempt && (!sw.listed || Entry(s.name, s.address) in sw.todo))
  }

  ghost predicate SweepComing(w: World, s: Session) {
    exists sw :: sw in w.sweeps && WillReach(sw, s)
  }

  ghost predicate AccountCovered(w: World, sid: SessionId, s: Session) {
    AccountAgrees(w, s) || s.killed || KickComing(w, sid, s) || CompareComing(w, s)
  }

  ghost predicate PasswordCovered(w: World, sid: SessionId, s: Session) {
    PasswordAgrees(w, s) || s.killed || KickComing(w, sid, s)
  }

  ghost predicate BanCovered(w: World, sid: SessionId, s: Session) {
    s.id !in w.bans || s.killed || KickComing(w, sid, s)
  }

  ghost predicate AddressCovered(w: World, s: Session) {
    s.address !in w.denied || s.killed || SweepComing(w, s) || s.sparedAddress
  }

  /** What each read of the recheck established still holds, or the session is being
      reached; sessions that have not joined carry no promise. */
  ghost predicate Covered(w: World, sid: SessionId, s: Session) {
    && s.id in w.owner && w.owner[s.id] == s.name
    && (s.passed > 0 ==> s.joined)
    && (s.passed > 0 ==> AccountCovered(w, sid, s))
    && (s.passed > 1 ==> PasswordCovered(w, sid, s))
    && (s.passed > 2 ==> BanCovered(w, sid, s))
    && (s.passed > 3 ==> AddressCovered(w, s))
  }

  ghost predicate Safe(w: World) {
    forall sid :: sid in w.sessions ==> Covered(w, sid, w.sessions[sid])
  }

  // ---- preservation ------------------------------------------------------------------------

  /** Nothing about one session, the database or the kicks still to come got worse. */
  lemma Untouched(w: World, v: World, sid: SessionId, s: Session)
    requires Covered(w, sid, s)
    requires v.accounts == w.accounts && v.bans <= w.bans && v.denied == w.denied && v.owner == w.owner
    requires v.kicks == w.kicks && v.sweeps == w.sweeps && v.compare == w.compare
    ensures Covered(v, sid, s)
  {
  }

  lemma RecheckSafe(w: World, sid: SessionId, readable: bool)
    requires Safe(w) && Enabled(w, Recheck(sid, readable))
    ensures Safe(Apply(w, Recheck(sid, readable)))
  {
    var v := Apply(w, Recheck(sid, readable));
    forall x | x in v.sessions ensures Covered(v, x, v.sessions[x]) {
      assert Covered(w, x, w.sessions[x]);
      Untouched(w, v, x, w.sessions[x]);
    }
  }

  /** A write with a kick for its name: other names see nothing of it. */
  lemma WrittenSafe(w: World, v: World, name: Name)
    requires Safe(w) && v.kicks == w.kicks + multiset{Everyone(name)} && v.sessions == w.sessions
    requires v.denied == w.denied && v.sweeps == w.sweeps && v.compare == w.compare && v.owner == w.owner
    requires forall n :: n != name ==> (n in v.accounts <==> n in w.accounts) && (n in w.accounts ==> v.accounts[n] == w.accounts[n])
    requires forall id :: id in v.bans && id !in w.bans ==> id in w.owner && w.owner[id] == name
    ensures Safe(v)
  {
    forall x | x in v.sessions ensures Covered(v, x, v.sessions[x]) {
      var s := w.sessions[x];
      assert Covered(w, x, s);
      if s.name == name {
        assert Everyone(name) in v.kicks && Hits(Everyone(name), x, s);
      } else if KickComing(w, x, s) {
        var k :| k in w.kicks && Hits(k, x, s);
        assert k in v.kicks;
      }
    }
  }

  lemma CreateSafe(w: World, name: Name, account: Account)
    requires Safe(w) && Enabled(w, CreateAccount(name, account))
    ensures Safe(Apply(w, CreateAccount(name, account)))
  {
    var v := Apply(w, CreateAccount(name, account));
    forall x | x in v.sessions ensures Covered(v, x, v.sessions[x]) {
      var s := w.sessions[x];
      assert Covered(w, x, s);
      SameKicks(w, v, x, s, s);
    }
  }

  /** What is still to come for a session, when the kicks are the same. */
  lemma SameKicks(w: World, v: World, sid: SessionId, s: Session, t: Session)
    requires v.kicks == w.kicks && v.sweeps == w.sweeps && t.name == s.name && t.address == s.address
    ensures KickComing(w, sid, s) ==> KickComing(v, sid, t)
    ensures SweepComing(w, s) ==> SweepComing(v, t)
  {
    if KickComing(w, sid, s) {
      var k :| k in w.kicks && Hits(k, sid, s);
      assert k in v.kicks && Hits(k, sid, t);
    }
    if SweepComing(w, s) {
      var sw :| sw in w.sweeps && WillReach(sw, s);
      assert sw in v.sweeps && WillReach(sw, t);
    }
  }

  /** New rights: whoever agreed still agrees, or is in line to be compared. */
  lemma RightsSafe(w: World, changes: map<Name, Rights>)
    requires Safe(w) && Enabled(w, ChangeRights(changes))
    ensures Safe(Apply(w, ChangeRights(changes)))
  {
    var v := Apply(w, ChangeRights(changes));
    forall x | x in v.sessions ensures Covered(v, x, v.sessions[x]) {
      var s := w.sessions[x];
      assert Covered(w, x, s);
      SameKicks(w, v, x, s, s);
    }
  }

  /** The re-read decides whether a kick follows; the kick itself comes later. */
  lemma CompareSafe(w: World, name: Name, readable: bool)
    requires Safe(w) && Enabled(w, CompareRights(name, readable))
    ensures Safe(Apply(w, CompareRights(name, readable)))
  {
    var v := Apply(w, CompareRights(name, readable));
    forall x | x in v.sessions ensures Covered(v, x, v.sessions[x]) {
      var s := w.sessions[x];
      assert Covered(w, x, s);
      MoreKicks(w, v, x, s);
      if s.name == name && CompareComing(w, s) {
        assert Everyone(name) in v.kicks && Hits(Everyone(name), x, s);
      }
    }
  }

  lemma MoreKicks(w: World, v: World, sid: SessionId, s: Session)
    requires v.sweeps == w.sweeps && forall k :: k in w.kicks ==> k in v.kicks
    ensures KickComing(w, sid, s) ==> KickComing(v, sid, s)
    ensures SweepComing(w, s) ==> SweepComing(v, s)
  {
    if KickComing(w, sid, s) {
      var k :| k in w.kicks && Hits(k, sid, s);
      assert k in v.kicks;
    }
  }

  lemma PasswordSafe(w: World, sid: SessionId, stamp: nat)
    requires Safe(w) && Enabled(w, ChangePassword(sid, stamp))
    ensures Safe(Apply(w, ChangePassword(sid, stamp)))
  {
    var v := Apply(w, ChangePassword(sid, stamp));
    var name := w.sessions[sid].name;
    forall x | x in v.sessions ensures Covered(v, x, v.sessions[x]) {
      var s := w.sessions[x];
      assert Covered(w, x, s);
      if s.name == name && x != sid {
        assert Others(name, sid) in v.kicks && Hits(Others(name, sid), x, v.sessions[x]);
      } else if KickComing(w, x, s) {
        var k :| k in w.kicks && Hits(k, x, s);
        assert k in v.kicks && Hits(k, x, v.sessions[x]);
      }
    }
  }

  lemma RulesSafe(w: World, denied: set<Address>, admin: Name)
    requires Safe(w)
    ensures Safe(Apply(w, WriteRules(denied, admin)))
  {
    var v := Apply(w, WriteRules(denied, admin));
    var sw := Sweep(admin, false, {}, {});
    forall x | x in v.sessions ensures Covered(v, x, v.sessions[x]) {
      var s := w.sessions[x];
      assert Covered(w, x, s);
      assert sw in v.sweeps && (s.name != admin ==> WillReach(sw, v.sessions[x]));
      if KickComing(w, x, s) {
        var k :| k in w.kicks && Hits(k, x, s);
        assert k in v.kicks && Hits(k, x, v.sessions[x]);
      }
    }
  }

  lemma DeliverSafe(w: World, kick: Kick)
    requires Safe(w) && Enabled(w, Deliver(kick))
    ensures Safe(Apply(w, Deliver(kick)))
  {
    var v := Apply(w, Deliver(kick));
    forall x | x in v.sessions ensures Covered(v, x, v.sessions[x]) {
      var s := w.sessions[x];
      assert Covered(w, x, s);
      if KickComing(w, x, s) && !Hits(kick, x, s) {
        var k :| k in w.kicks && Hits(k, x, s);
        assert k in v.kicks && Hits(k, x, v.sessions[x]);
      }
    }
  }

  /** One sweep moves on: it is enough that it still reaches whoever it would have reached
      and who is still denied and alive. */
  lemma SweepSafe(w: World, v: World, sw: Sweep, next: Sweep)
    requires Safe(w) && sw in w.sweeps && v.sweeps == Replaced(w.sweeps, sw, next)
    requires v.accounts == w.accounts && v.bans == w.bans && v.denied == w.denied && v.owner == w.owner && v.kicks == w.kicks
    requires v.compare == w.compare
    requires v.sessions.Keys == w.sessions.Keys
    requires forall x :: x in w.sessions ==> v.sessions[x] == w.sessions[x] || v.sessions[x] == w.sessions[x].(killed := true)
    requires forall x :: x in w.sessions && w.sessions[x].passed > 3 && w.sessions[x].joined && WillReach(sw, w.sessions[x]) ==>
               WillReach(next, w.sessions[x]) || w.sessions[x].address !in w.denied || v.sessions[x].killed
    ensures Safe(v)
  {
    forall x | x in v.sessions ensures Covered(v, x, v.sessions[x]) {
      var s := w.sessions[x];
      assert Covered(w, x, s);
      if KickComing(w, x, s) {
        var k :| k in w.kicks && Hits(k, x, s);
        assert k in v.kicks && Hits(k, x, v.sessions[x]);
      }
      if s.passed > 3 && SweepComing(w, s) {
        var c :| c in w.sweeps && WillReach(c, s);
        if c != sw {
          assert c in v.sweeps && WillReach(c, v.sessions[x]);
        } else {
          assert next in v.sweeps;
          assert WillReach(next, s) ==> WillReach(next, v.sessions[x]);
        }
      }
    }
  }

  lemma SessionStepSafe(w: World, step: Step)
    requires Safe(w) && Enabled(w, step)
    requires step.Authenticate? || step.Join? || step.Leave? || step.LiftBan?
    ensures Safe(Apply(w, step))
  {
    match step
    case Authenticate(sid, s) => OthersSafe(w, Apply(w, step), sid);
    case Join(sid) => assert Covered(w, sid, w.sessions[sid]); OthersSafe(w, Apply(w, step), sid);
    case Leave(sid) => OthersSafe(w, Apply(w, step), sid);
    case LiftBan(id) => OthersSafe(w, Apply(w, step), 0);
  }

  lemma WriteStepSafe(w: World, step: Step)
    requires Safe(w) && Enabled(w, step)
    requires step.ResetPassword? || step.Ban?
    ensures Safe(Apply(w, step))
  {
    hide Covered;
    match step
    case ResetPassword(name, stamp) => WrittenSafe(w, Apply(w, step), name);
    case Ban(id) => WrittenSafe(w, Apply(w, step), w.owner[id]);
  }

  lemma ListSafe(w: World, sw: Sweep)
    requires Safe(w) && Enabled(w, SweepList(sw))
    ensures Safe(Apply(w, SweepList(sw)))
  {
    hide Covered;
    SweepSafe(w, Apply(w, SweepList(sw)), sw, sw.(listed := true, todo := Roster(w.sessions)));
  }

  lemma JudgeSafe(w: World, sw: Sweep, e: Entry)
    requires Safe(w) && Enabled(w, SweepJudge(sw, e))
    ensures Safe(Apply(w, SweepJudge(sw, e)))
  {
    hide Covered;
    var doomed := if e.name != sw.exempt && e.address in w.denied then sw.doomed + {e.name} else sw.doomed;
    SweepSafe(w, Apply(w, SweepJudge(sw, e)), sw, sw.(todo := sw.todo - {e}, doomed := doomed));
  }

  lemma SweepKickSafe(w: World, sw: Sweep, name: Name)
    requires Safe(w) && Enabled(w, SweepKick(sw, name))
    ensures Safe(Apply(w, SweepKick(sw, name)))
  {
    hide Covered;
    SweepSafe(w, Apply(w, SweepKick(sw, name)), sw, sw.(doomed := sw.doomed - {name}));
  }

  lemma StepSafe(w: World, step: Step)
    requires Safe(w) && Enabled(w, step)
    ensures Safe(Apply(w, step))
  {
    hide Safe, Apply, Enabled;
    match step
    case Recheck(sid, readable) => RecheckSafe(w, sid, readable);
    case ChangePassword(sid, stamp) => PasswordSafe(w, sid, stamp);
    case WriteRules(denied, admin) => RulesSafe(w, denied, admin);
    case Deliver(kick) => DeliverSafe(w, kick);
    case SweepList(sw) => ListSafe(w, sw);
    case SweepJudge(sw, e) => JudgeSafe(w, sw, e);
    case SweepKick(sw, name) => SweepKickSafe(w, sw, name);
    case CreateAccount(name, account) => CreateSafe(w, name, account);
    case ChangeRights(changes) => RightsSafe(w, changes);
    case CompareRights(name, readable) => CompareSafe(w, name, readable);
    case ResetPassword(_, _) => WriteStepSafe(w, step);
    case Ban(_) => WriteStepSafe(w, step);
    case _ => SessionStepSafe(w, step);
  }

  /** A step that concerns one session, before it has passed any read, or removes it. */
  lemma OthersSafe(w: World, v: World, sid: SessionId)
    requires Safe(w)
    requires v.accounts == w.accounts && v.bans <= w.bans && v.denied == w.denied && v.owner == w.owner
    requires v.kicks == w.kicks && v.sweeps == w.sweeps && v.compare == w.compare
    requires forall x :: x in v.sessions && x != sid ==> x in w.sessions && v.sessions[x] == w.sessions[x]
    requires sid in v.sessions && !(sid in w.sessions && v.sessions[sid] == w.sessions[sid]) ==>
               var s := v.sessions[sid]; s.passed == 0 && s.id in w.owner && w.owner[s.id] == s.name
    ensures Safe(v)
  {
    forall x | x in v.sessions ensures Covered(v, x, v.sessions[x]) {
      if x in w.sessions && v.sessions[x] == w.sessions[x] {
        Untouched(w, v, x, v.sessions[x]);
      }
    }
  }

  // ---- whole runs ------------------------------------------------------------------------------

  /** Steps that are not possible when their turn comes do not happen. */
  function Run(w: World, steps: seq<Step>): World
    decreases |steps|
  {
    if steps == [] then w
    else Run(if Enabled(w, steps[0]) then Apply(w, steps[0]) else w, steps[1..])
  }

  lemma {:induction false} RunSafe(w: World, steps: seq<Step>)
    requires Safe(w)
    ensures Safe(Run(w, steps))
    decreases |steps|
  {
    hide Safe, Apply, Enabled;
    if steps != [] {
      if Enabled(w, steps[0]) {
        StepSafe(w, steps[0]);
        RunSafe(Apply(w, steps[0]), steps[1..]);
      } else {
        RunSafe(w, steps[1..]);
      }
    }
  }

  /** A session that went on to serve requests. */
  predicate Serving(w: World, sid: SessionId) {
    sid in w.sessions && w.sessions[sid].passed == RECHECKS
  }

  /** In every interleaving, whatever database and rules it starts from: a session past
      its recheck agrees with what is stored, or is killed, or will be reached by a
      change already written. Whoever changes a password carries the new one; whoever
      made the latest change of the address rules is passed over by it. */
  lemma NoStaleSession(w: World, steps: seq<Step>, sid: SessionId)
    requires w.sessions == map[]
    ensures var v := Run(w, steps);
            Serving(v, sid) ==>
              var s := v.sessions[sid];
              && AccountCovered(v, sid, s) && PasswordCovered(v, sid, s) && BanCovered(v, sid, s) && AddressCovered(v, s)
  {
    RunSafe(w, steps);
    var v := Run(w, steps);
    if Serving(v, sid) {
      assert Covered(v, sid, v.sessions[sid]);
    }
  }

  predicate Finished(sw: Sweep) {
    sw.listed && sw.todo == {} && sw.doomed == {}
  }

  /** Once every written change has been delivered, agreement is all that is left. */
  lemma QuietServerHasNoStaleSession(w: World, steps: seq<Step>, sid: SessionId)
    requires w.sessions == map[]
    ensures var v := Run(w, steps);
            Serving(v, sid) && !v.sessions[sid].killed && v.kicks == multiset{} && v.compare == map[] && (forall sw :: sw in v.sweeps ==> Finished(sw)) ==>
              var s := v.sessions[sid];
              && AccountAgrees(v, s) && PasswordAgrees(v, s) && s.id !in v.bans
              && (s.address !in v.denied || s.sparedAddress)
  {
    NoStaleSession(w, steps, sid);
  }

  // ---- honest logins survive -------------------------------------------------------------------

  /** All four facts a session depends on, as stored now. */
  predicate Agrees(w: World, s: Session) {
    && s.name in w.accounts && w.accounts[s.name] == Account(s.id, s.rights, s.stamp)
    && s.id !in w.bans && s.address !in w.denied
  }

  /** Exactly when one read of the recheck lets a session pass; nothing else changes. */
  lemma RecheckExact(w: World, sid: SessionId, readable: bool)
    requires Enabled(w, Recheck(sid, readable))
    ensures var v := Apply(w, Recheck(sid, readable)); var s := w.sessions[sid];
            && (sid in v.sessions <==>
                  && readable
                  && (s.passed == 0 ==> s.name in w.accounts && w.accounts[s.name].id == s.id && w.accounts[s.name].rights == s.rights)
                  && (s.passed == 1 ==> s.name in w.accounts && w.accounts[s.name].id == s.id && w.accounts[s.name].stamp == s.stamp)
                  && (s.passed == 2 ==> s.id !in w.bans)
                  && (s.passed == 3 ==> s.address !in w.denied))
            && (sid in v.sessions ==> v.sessions[sid] == s.(passed := s.passed + 1))
            && v == w.(sessions := v.sessions)
            && v.sessions - {sid} == w.sessions - {sid}
  {
    hide RightsBefore, Roster, WithRights, Hits, Killing, Sparing, Replaced;
  }

  /** The stored data agree with the session in every state of the run; its own reads find
      the database readable, and it does not leave. Others may do anything. */
  ghost predicate Undisturbed(w: World, steps: seq<Step>, sid: SessionId)
    decreases |steps|
  {
    && (sid in w.sessions ==> Agrees(w, w.sessions[sid]))
    && (steps != [] ==>
          && steps[0] != Recheck(sid, false) && steps[0] != Leave(sid)
          && Undisturbed(if Enabled(w, steps[0]) then Apply(w, steps[0]) else w, steps[1..], sid))
  }

  function Reads(steps: seq<Step>, sid: SessionId): nat {
    if steps == [] then 0 else (if steps[0] == Recheck(sid, true) then 1 else 0) + Reads(steps[1..], sid)
  }

  function AtMost(n: nat, bound: nat): nat {
    if n < bound then n else bound
  }

  /** What a kick and a rule change do to one session. */
  lemma AtSession(sessions: map<SessionId, Session>, kick: Kick, admin: Name, sid: SessionId)
    ensures sid in Killing(sessions, kick) <==> sid in sessions
    ensures sid in Sparing(sessions, admin) <==> sid in sessions
    ensures sid in sessions ==>
              && Killing(sessions, kick)[sid] == (if sessions[sid].joined && Hits(kick, sid, sessions[sid]) then sessions[sid].(killed := true) else sessions[sid])
              && Sparing(sessions, admin)[sid] == sessions[sid].(sparedAddress := sessions[sid].name == admin)
  {
  }

  lemma UndisturbedStep(w: World, step: Step, sid: SessionId)
    requires Enabled(w, step) && sid in w.sessions && w.sessions[sid].joined && Agrees(w, w.sessions[sid])
    requires step != Recheck(sid, false) && step != Leave(sid)
    ensures var v := Apply(w, step);
            && sid in v.sessions && v.sessions[sid].joined
            && v.sessions[sid].passed == w.sessions[sid].passed + if step == Recheck(sid, true) then 1 else 0
  {
    hide Apply, Agrees;
    if step.Recheck? && step.sid == sid {
      RecheckExact(w, sid, step.readable);
      AgreesPasses(w, w.sessions[sid]);
    } else {
      OthersEndNoSession(w, step, sid);
    }
  }

  lemma AgreesPasses(w: World, s: Session)
    requires Agrees(w, s)
    ensures StillGood(w, s)
  {
  }

  /** An honest login is let through: whatever others do meanwhile, a session that agrees with
      what is stored passes each of its reads, and after four it serves. */
  lemma {:induction false} HonestLoginServes(w: World, steps: seq<Step>, sid: SessionId)
    requires sid in w.sessions && w.sessions[sid].joined && w.sessions[sid].passed <= RECHECKS && Undisturbed(w, steps, sid)
    ensures var v := Run(w, steps);
            && sid in v.sessions && v.sessions[sid].joined
            && v.sessions[sid].passed == AtMost(w.sessions[sid].passed + Reads(steps, sid), RECHECKS)
            && (w.sessions[sid].passed + Reads(steps, sid) >= 4 ==> Serving(v, sid))
    decreases |steps|
  {
    if steps != [] {
      var next := if Enabled(w, steps[0]) then Apply(w, steps[0]) else w;
      NextRead(w, steps[0], sid);
      hide Enabled, Apply, Agrees;
      HonestLoginServes(next, steps[1..], sid);
    }
  }

  lemma NextRead(w: World, step: Step, sid: SessionId)
    requires sid in w.sessions && w.sessions[sid].joined && w.sessions[sid].passed <= RECHECKS && Agrees(w, w.sessions[sid])
    requires step != Recheck(sid, false) && step != Leave(sid)
    ensures var v := if Enabled(w, step) then Apply(w, step) else w;
            && sid in v.sessions && v.sessions[sid].joined
            && v.sessions[sid].passed == AtMost(w.sessions[sid].passed + if step == Recheck(sid, true) then 1 else 0, RECHECKS)
  {
    if Enabled(w, step) {
      UndisturbedStep(w, step, sid);
    }
  }

  lemma ReadAt(w: World, sid: SessionId, s: Session, k: nat)
    requires Agrees(w, s) && k < RECHECKS
    ensures var u := At(w, sid, s, k); Enabled(u, Recheck(sid, true)) && Apply(u, Recheck(sid, true)) == At(w, sid, s, k + 1)
  {
    var u := At(w, sid, s, k);
    AgreesPasses(u, u.sessions[sid]);
    assert u.sessions[sid := s.(joined := true, passed := k + 1)] == At(w, sid, s, k + 1).sessions;
  }

  lemma JoinsAt(w: World, sid: SessionId, s: Session)
    requires Enabled(w, Authenticate(sid, s))
    ensures var a := Apply(w, Authenticate(sid, s)); Enabled(a, Join(sid)) && Apply(a, Join(sid)) == At(w, sid, s, 0)
  {
    var a := Apply(w, Authenticate(sid, s));
    assert a.sessions[sid := s.(joined := true)] == At(w, sid, s, 0).sessions;
  }

  lemma {:induction false} ReadsServe(w: World, sid: SessionId, s: Session, k: nat, steps: seq<Step>)
    requires Agrees(w, s) && k + |steps| == RECHECKS && forall i :: 0 <= i < |steps| ==> steps[i] == Recheck(sid, true)
    ensures Run(At(w, sid, s, k), steps) == At(w, sid, s, RECHECKS)
    decreases |steps|
  {
    hide Agrees, Enabled, Apply, At;
    if steps != [] {
      ReadAt(w, sid, s, k);
      ReadsServe(w, sid, s, k + 1, steps[1..]);
    }
  }

  /** From the proof of the password on, with nobody else about. */
  lemma FreshLoginServes(w: World, sid: SessionId, s: Session)
    requires Enabled(w, Authenticate(sid, s)) && Agrees(w, s)
    ensures var v := Run(w, [Authenticate(sid, s), Join(sid), Recheck(sid, true), Recheck(sid, true), Recheck(sid, true), Recheck(sid, true)]);
            Serving(v, sid) && v == w.(sessions := w.sessions[sid := s.(joined := true, passed := 4)])
  {
    hide Agrees, Enabled, Apply;
    var rest := [Recheck(sid, true), Recheck(sid, true), Recheck(sid, true), Recheck(sid, true)];
    var steps := [Authenticate(sid, s), Join(sid), Recheck(sid, true), Recheck(sid, true), Recheck(sid, true), Recheck(sid, true)];
    JoinsAt(w, sid, s);
    ReadsServe(w, sid, s, 0, rest);
    assert steps[1..] == [Join(sid)] + rest && steps[1..][1..] == rest;
  }

  function At(w: World, sid: SessionId, s: Session, passed: nat): World {
    w.(sessions := w.sessions[sid := s.(joined := true, passed := passed)])
  }

  function NewRights(w: World, step: Step, n: Name): Rights
    requires n in w.accounts
  {
    if step.ChangeRights? && n in step.changes then step.changes[n] else w.accounts[n].rights
  }

  function NewStamp(w: World, step: Step, n: Name): nat
    requires n in w.accounts
  {
    if step.ResetPassword? && n == step.name then step.stamp
    else if step.ChangePassword? && step.sid in w.sessions && n == w.sessions[step.sid].name then step.stamp
    else w.accounts[n].stamp
  }

  lemma OthersWriteNoAccounts(w: World, step: Step)
    requires Enabled(w, step) && !step.CreateAccount? && !step.ChangeRights? && !step.ResetPassword? && !step.ChangePassword?
    ensures Apply(w, step).accounts == w.accounts
  {
    hide Hits, AccountAgrees, PasswordAgrees, RightsBefore, Roster, Killing, Sparing, StillGood, Replaced, WithRights;
    match step
    case Authenticate(_, _) =>
    case Join(_) =>
    case Recheck(_, _) =>
    case Leave(_) =>
    case Deliver(_) =>
    case WriteRules(_, _) =>
    case SweepList(_) =>
    case SweepJudge(_, _) =>
    case SweepKick(_, _) =>
    case CompareRights(_, _) =>
    case Ban(_) =>
    case LiftBan(_) =>
  }

  lemma RightsStored(accounts: map<Name, Account>, changes: map<Name, Rights>, n: Name)
    ensures n in WithRights(accounts, changes) <==> n in accounts
    ensures n in accounts ==>
              WithRights(accounts, changes)[n] == Account(accounts[n].id, if n in changes then changes[n] else accounts[n].rights, accounts[n].stamp)
  {
  }

  /** What a written change leaves in the accounts, and that nothing else writes to them. */
  lemma AccountsAreStored(w: World, step: Step, n: Name)
    requires Enabled(w, step)
    ensures var v := Apply(w, step);
            && (n in v.accounts <==> n in w.accounts || (step.CreateAccount? && n == step.name))
            && (n in w.accounts ==> v.accounts[n] == Account(w.accounts[n].id, NewRights(w, step, n), NewStamp(w, step, n)))
            && (step.CreateAccount? ==> v.accounts[step.name] == step.account)
  {
    hide RightsBefore, Roster, Killing, Sparing, StillGood, Replaced, WithRights, Apply;
    match step
    case CreateAccount(name, account) => assert Apply(w, step).accounts == w.accounts[name := account] by { Written(w, step); }
    case ChangeRights(changes) => Written(w, step); RightsStored(w.accounts, changes, n);
    case ResetPassword(_, _) => Written(w, step);
    case ChangePassword(_, _) => Written(w, step);
    case _ => OthersWriteNoAccounts(w, step);
  }

  lemma Written(w: World, step: Step)
    requires Enabled(w, step)
    ensures step.CreateAccount? ==> Apply(w, step).accounts == w.accounts[step.name := step.account]
    ensures step.ChangeRights? ==> Apply(w, step).accounts == WithRights(w.accounts, step.changes)
    ensures step.ResetPassword? ==> Apply(w, step).accounts == w.accounts[step.name := w.accounts[step.name].(stamp := step.stamp)]
    ensures step.ChangePassword? ==>
              var name := w.sessions[step.sid].name;
              Apply(w, step).accounts == w.accounts[name := w.accounts[name].(stamp := step.stamp)]
  {
    hide Hits, AccountAgrees, PasswordAgrees, RightsBefore, Roster, Killing, Sparing, StillGood, Replaced, WithRights;
  }

  /** And in the bans and the address rules. */
  lemma RulesAreStored(w: World, step: Step)
    requires Enabled(w, step)
    ensures var v := Apply(w, step);
            && v.bans == (if step.Ban? then w.bans + {step.id} else if step.LiftBan? then w.bans - {step.id} else w.bans)
            && v.denied == if step.WriteRules? then step.denied else w.denied
  {
    hide Hits, AccountAgrees, PasswordAgrees, RightsBefore, Roster, Killing, Sparing, StillGood, Replaced, WithRights;
    match step
    case Authenticate(_, _) =>
    case Join(_) =>
    case Recheck(_, _) =>
    case Leave(_) =>
    case Deliver(_) =>
    case WriteRules(_, _) =>
    case SweepList(_) =>
    case SweepJudge(_, _) =>
    case SweepKick(_, _) =>
    case CompareRights(_, _) =>
    case Ban(_) =>
    case LiftBan(_) =>
    case CreateAccount(_, _) =>
    case ChangeRights(_) =>
    case ResetPassword(_, _) =>
    case ChangePassword(_, _) =>
  }

  // ---- nobody is kicked for nothing ------------------------------------------------------------

  /** A step that may cost a session of that name its connection: its rights differ from before,
      or could not be read; its password was reset, or changed by another session; its account was
      banned; or an address in use under its name was found denied, by rules that somebody else wrote. */
  predicate Cause(w: World, step: Step, sid: SessionId, name: Name) {
    Enabled(w, step) &&
    match step
    case CompareRights(n, readable) => n == name && (!readable || n !in w.accounts || w.accounts[n].rights != w.compare[n])
    case ResetPassword(n, _) => n == name
    case ChangePassword(x, _) => w.sessions[x].name == name && x != sid
    case Ban(id) => w.owner[id] == name
    case SweepJudge(sw, e) => e.name == name && name != sw.exempt && e.address in w.denied
    case _ => false
  }

  ghost predicate Caused(w: World, steps: seq<Step>, sid: SessionId, name: Name) {
    exists i :: 0 <= i < |steps| && Cause(Run(w, steps[..i]), steps[i], sid, name)
  }

  /** Every kick to come and every kill done has its cause in the run so far. */
  ghost predicate Deserved(w: World, steps: seq<Step>, sid: SessionId) {
    var v := Run(w, steps);
    && (forall name :: KickFor(v, sid, name) || Doomed(v, name) ==> Caused(w, steps, sid, name))
    && (sid in v.sessions && v.sessions[sid].killed ==> Caused(w, steps, sid, v.sessions[sid].name))
  }

  lemma {:induction false} RunSnoc(w: World, steps: seq<Step>, step: Step)
    ensures Run(w, steps + [step]) == var v := Run(w, steps); if Enabled(v, step) then Apply(v, step) else v
    decreases |steps|
  {
    hide Enabled, Apply;
    if steps == [] {
      assert steps + [step] == [step] && [step][1..] == [];
    } else {
      assert (steps + [step])[1..] == steps[1..] + [step];
      RunSnoc(if Enabled(w, steps[0]) then Apply(w, steps[0]) else w, steps[1..], step);
    }
  }

  lemma CausedLater(w: World, steps: seq<Step>, step: Step, sid: SessionId, name: Name)
    ensures Caused(w, steps, sid, name) ==> Caused(w, steps + [step], sid, name)
    ensures Cause(Run(w, steps), step, sid, name) ==> Caused(w, steps + [step], sid, name)
  {
    hide Run, Cause;
    var more := steps + [step];
    if Caused(w, steps, sid, name) {
      var i :| 0 <= i < |steps| && Cause(Run(w, steps[..i]), steps[i], sid, name);
      assert more[..i] == steps[..i] && more[i] == steps[i];
    }
    if Cause(Run(w, steps), step, sid, name) {
      assert more[..|steps|] == steps && more[|steps|] == step;
    }
  }

  /** The name is doomed in some sweep. */
  ghost predicate Doomed(w: World, name: Name) {
    exists sw :: sw in w.sweeps && name in sw.doomed
  }

  ghost predicate KickFor(w: World, sid: SessionId, name: Name) {
    exists k :: k in w.kicks && k.name == name && (k.Others? ==> sid != k.except)
  }

  lemma KickForCause(w: World, step: Step, sid: SessionId, name: Name)
    requires Enabled(w, step) && KickFor(Apply(w, step), sid, name)
    ensures KickFor(w, sid, name) || Cause(w, step, sid, name)
  {
    hide Roster, Killing, Sparing, StillGood, WithRights;
    var k :| k in Apply(w, step).kicks && k.name == name && (k.Others? ==> sid != k.except);
    if k in w.kicks {
      assert KickFor(w, sid, name);
    } else {
      match step
      case CompareRights(_, _) =>
      case ResetPassword(_, _) =>
      case ChangePassword(_, _) =>
      case Ban(_) =>
      case _ =>
    }
  }

  lemma DoomForCause(w: World, step: Step, sid: SessionId, name: Name)
    requires Enabled(w, step) && Doomed(Apply(w, step), name)
    ensures Doomed(w, name) || Cause(w, step, sid, name)
  {
    hide Roster, Killing, Sparing, StillGood, WithRights;
    var sw :| sw in Apply(w, step).sweeps && name in sw.doomed;
    if sw in w.sweeps {
      assert Doomed(w, name);
    } else {
      match step
      case WriteRules(_, _) =>
      case SweepList(before) => assert before in w.sweeps;
      case SweepJudge(before, _) => assert before in w.sweeps;
      case SweepKick(before, _) => assert before in w.sweeps;
      case _ =>
    }
  }

  lemma KillForCause(w: World, step: Step, sid: SessionId)
    requires Enabled(w, step) && sid in Apply(w, step).sessions && Apply(w, step).sessions[sid].killed
    ensures var name := Apply(w, step).sessions[sid].name;
            (sid in w.sessions && w.sessions[sid].killed && w.sessions[sid].name == name) || KickFor(w, sid, name) || Doomed(w, name)
  {
    hide RightsBefore, Roster, WithRights, Killing, Sparing, StillGood, Replaced, KickFor, Doomed;
    if step.Deliver? {
      AtSession(w.sessions, step.kick, 0, sid);
      if !w.sessions[sid].killed {
        DeliveredFor(w, step.kick, sid);
      }
    } else if step.SweepKick? {
      AtSession(w.sessions, Everyone(step.name), 0, sid);
      DoomedBy(w, step.sweep, step.name);
    } else {
      QuietStepKillsNobody(w, step, sid);
    }
  }

  lemma DoomedBy(w: World, sw: Sweep, name: Name)
    requires sw in w.sweeps && name in sw.doomed
    ensures Doomed(w, name)
  {
  }

  lemma QuietStepKillsNobody(w: World, step: Step, sid: SessionId)
    requires Enabled(w, step) && !step.Deliver? && !step.SweepKick?
    requires sid in Apply(w, step).sessions && Apply(w, step).sessions[sid].killed
    ensures sid in w.sessions && w.sessions[sid].killed && w.sessions[sid].name == Apply(w, step).sessions[sid].name
  {
    hide Hits, AccountAgrees, PasswordAgrees, RightsBefore, Roster, WithRights, Killing, Sparing, StillGood, Replaced;
    if step.WriteRules? {
      AtSession(w.sessions, Everyone(0), step.admin, sid);
    }
  }

  lemma DeliveredFor(w: World, kick: Kick, sid: SessionId)
    requires kick in w.kicks && (kick.Others? ==> sid != kick.except)
    ensures KickFor(w, sid, kick.name)
  {
  }

  lemma {:induction false} DeservedRun(w: World, steps: seq<Step>, sid: SessionId)
    requires w.sessions == map[] && w.kicks == multiset{} && w.sweeps == multiset{}
    ensures Deserved(w, steps, sid)
    decreases |steps|
  {
    hide Apply, Enabled, Cause;
    if steps != [] {
      var init, step := steps[..|steps| - 1], steps[|steps| - 1];
      assert steps == init + [step];
      DeservedRun(w, init, sid);
      DeservedStep(w, init, step, sid);
    }
  }

  lemma DeservedStep(w: World, steps: seq<Step>, step: Step, sid: SessionId)
    requires Deserved(w, steps, sid)
    ensures Deserved(w, steps + [step], sid)
  {
    hide Apply, Enabled, Cause, Caused, Run, KickFor, Doomed;
    var u := Run(w, steps);
    RunSnoc(w, steps, step);
    forall name ensures Caused(w, steps, sid, name) || Cause(u, step, sid, name) ==> Caused(w, steps + [step], sid, name) {
      CausedLater(w, steps, step, sid, name);
    }
    if Enabled(u, step) {
      var v := Apply(u, step);
      forall name | KickFor(v, sid, name) || Doomed(v, name) ensures Caused(w, steps + [step], sid, name) {
        if KickFor(v, sid, name) {
          KickForCause(u, step, sid, name);
        } else {
          DoomForCause(u, step, sid, name);
        }
      }
      if sid in v.sessions && v.sessions[sid].killed {
        KillForCause(u, step, sid);
      }
    }
  }

  /** In every run: a session is marked killed only if some step of the run gave cause for it. */
  lemma NobodyKickedWithoutCause(w: World, steps: seq<Step>, sid: SessionId)
    requires w.sessions == map[] && w.kicks == multiset{} && w.sweeps == multiset{}
    ensures var v := Run(w, steps);
            sid in v.sessions && v.sessions[sid].killed ==> Caused(w, steps, sid, v.sessions[sid].name)
  {
    hide Run, Caused;
    DeservedRun(w, steps, sid);
  }

  /** The step that marks a session killed: a delivered kick or disconnect that hits it. */
  predicate Strikes(w: World, step: Step, sid: SessionId, name: Name) {
    && Enabled(w, step) && sid in w.sessions && w.sessions[sid].joined && w.sessions[sid].name == name
    && ((step.Deliver? && Hits(step.kick, sid, w.sessions[sid])) || (step.SweepKick? && step.name == name))
  }

  ghost predicate Struck(w: World, steps: seq<Step>, sid: SessionId, name: Name) {
    exists i :: 0 <= i < |steps| && Strikes(Run(w, steps[..i]), steps[i], sid, name)
  }

  lemma StruckLater(w: World, steps: seq<Step>, step: Step, sid: SessionId, name: Name)
    ensures Struck(w, steps, sid, name) ==> Struck(w, steps + [step], sid, name)
    ensures Strikes(Run(w, steps), step, sid, name) ==> Struck(w, steps + [step], sid, name)
  {
    hide Run, Strikes;
    var more := steps + [step];
    if Struck(w, steps, sid, name) {
      var i :| 0 <= i < |steps| && Strikes(Run(w, steps[..i]), steps[i], sid, name);
      assert more[..i] == steps[..i] && more[i] == steps[i];
    }
    if Strikes(Run(w, steps), step, sid, name) {
      assert more[..|steps|] == steps && more[|steps|] == step;
    }
  }

  lemma KilledBefore(w: World, step: Step, sid: SessionId)
    requires Enabled(w, step) && sid in Apply(w, step).sessions && Apply(w, step).sessions[sid].killed
    ensures var name := Apply(w, step).sessions[sid].name;
            (sid in w.sessions && w.sessions[sid].killed && w.sessions[sid].name == name) || Strikes(w, step, sid, name)
  {
    hide RightsBefore, Roster, WithRights, Killing, Sparing, StillGood, Replaced;
    if step.Deliver? {
      AtSession(w.sessions, step.kick, 0, sid);
    } else if step.SweepKick? {
      AtSession(w.sessions, Everyone(step.name), 0, sid);
    } else {
      QuietStepKillsNobody(w, step, sid);
    }
  }

  lemma StruckIsKilled(w: World, step: Step, sid: SessionId, name: Name)
    requires Strikes(w, step, sid, name)
    ensures sid in Apply(w, step).sessions && Apply(w, step).sessions[sid].killed
  {
    hide RightsBefore, Roster, WithRights, Killing, Sparing, StillGood, Replaced;
    if step.Deliver? {
      AtSession(w.sessions, step.kick, 0, sid);
    } else {
      AtSession(w.sessions, Everyone(step.name), 0, sid);
    }
  }

  lemma KilledStays(w: World, step: Step, sid: SessionId)
    requires Enabled(w, step) && sid in w.sessions && w.sessions[sid].killed && sid in Apply(w, step).sessions
    ensures Apply(w, step).sessions[sid].killed
  {
    hide RightsBefore, Roster, WithRights, Hits, Killing, Sparing, StillGood, Replaced;
    if step.Deliver? {
      AtSession(w.sessions, step.kick, 0, sid);
    } else if step.SweepKick? {
      AtSession(w.sessions, Everyone(step.name), 0, sid);
    } else if step.WriteRules? {
      AtSession(w.sessions, Everyone(0), step.admin, sid);
    } else if !step.ChangePassword? && !step.Join? && !(step.Recheck? && step.sid == sid) && step != Leave(sid) {
      SameSession(w, step, sid);
    }
  }

  /** A session is marked in the very step that strikes it, and stays so as long as it is there. */
  lemma KilledIffStruck(w: World, step: Step, sid: SessionId)
    requires Enabled(w, step) && sid in w.sessions && sid in Apply(w, step).sessions
    ensures Apply(w, step).sessions[sid].killed <==> w.sessions[sid].killed || Strikes(w, step, sid, Apply(w, step).sessions[sid].name)
  {
    hide Enabled, Apply, Strikes;
    var v := Apply(w, step);
    if v.sessions[sid].killed {
      KilledBefore(w, step, sid);
    } else {
      if w.sessions[sid].killed {
        KilledStays(w, step, sid);
      }
      if Strikes(w, step, sid, v.sessions[sid].name) {
        StruckIsKilled(w, step, sid, v.sessions[sid].name);
      }
    }
  }

  /** Over every run: a session is marked killed only if a kick or a sweep that hits it was
      delivered while it had joined. */
  lemma {:induction false} KilledOnlyIfStruck(w: World, steps: seq<Step>, sid: SessionId)
    requires w.sessions == map[]
    ensures var v := Run(w, steps);
            sid in v.sessions && v.sessions[sid].killed ==> Struck(w, steps, sid, v.sessions[sid].name)
    decreases |steps|
  {
    hide Apply, Enabled, Strikes, Struck;
    if steps != [] {
      var init, step := steps[..|steps| - 1], steps[|steps| - 1];
      assert steps == init + [step];
      KilledOnlyIfStruck(w, init, sid);
      RunSnoc(w, init, step);
      var u, v := Run(w, init), Run(w, steps);
      if sid in v.sessions && v.sessions[sid].killed {
        if Enabled(u, step) {
          KilledBefore(u, step, sid);
        }
        StruckLater(w, init, step, sid, v.sessions[sid].name);
      }
    }
  }

  /** A session ends by its own read or its own leaving, and by nothing anyone else does. */
  lemma OthersEndNoSession(w: World, step: Step, sid: SessionId)
    requires Enabled(w, step) && sid in w.sessions && step != Leave(sid) && !(step.Recheck? && step.sid == sid)
    ensures var v := Apply(w, step);
            && sid in v.sessions
            && v.sessions[sid] == w.sessions[sid].(
                 joined := w.sessions[sid].joined || step == Join(sid), stamp := v.sessions[sid].stamp,
                 killed := v.sessions[sid].killed, sparedAddress := v.sessions[sid].sparedAddress)
            && (v.sessions[sid].stamp != w.sessions[sid].stamp ==> step == ChangePassword(sid, v.sessions[sid].stamp))
  {
    hide RightsBefore, Roster, WithRights, Hits, Killing, Sparing, StillGood, Replaced;
    if step.Deliver? {
      AtSession(w.sessions, step.kick, 0, sid);
    } else if step.SweepKick? {
      AtSession(w.sessions, Everyone(step.name), 0, sid);
    } else if step.WriteRules? {
      AtSession(w.sessions, Everyone(0), step.admin, sid);
    } else if !step.ChangePassword? && !step.Join? {
      SameSession(w, step, sid);
    }
  }

  lemma SameSession(w: World, step: Step, sid: SessionId)
    requires Enabled(w, step) && sid in w.sessions && step != Leave(sid) && !(step.Recheck? && step.sid == sid)
    requires !step.Deliver? && !step.SweepKick? && !step.WriteRules? && !step.ChangePassword? && !step.Join?
    ensures sid in Apply(w, step).sessions && Apply(w, step).sessions[sid] == w.sessions[sid]
  {
    hide Hits, AccountAgrees, PasswordAgrees, RightsBefore, Roster, WithRights, Killing, Sparing, StillGood, Replaced;
  }
}
