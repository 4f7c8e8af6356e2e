// The whole system: one sequencer, any relays and any members, over a network
// that loses, delays, reorders and duplicates, and an environment that may sign
// anything except with the room key. A run is any sequence of moves; a move that
// is not enabled changes nothing.
module Systems {
  import opened Wrappers
  import opened Ordered
  import opened Community
  import opened Replay
  import opened Tables
  import opened Refinement
  import opened Auditing
  import opened Replica
  import opened Authority
  import opened ClientDbs
  import opened Rooms
  import opened Members

  /** `log` records what the sequencer has committed; `exposed` are the proposals
      that others than their author and the sequencer may hold. */
  datatype System = System(
    authority: Tables, log: seq<Committed>, relays: map<nat, Tables>, clients: map<nat, Client>,
    exposed: set<Proposal>)

  // ---- The sequencer answering one submission ---------------------------

  /** What can go wrong around a submission: the connection is not bound to the
      author, the database cannot be read, the domain does not resolve to the
      author, the transaction does not commit, or commits but reports an error. */
  datatype Weather = Weather(bound: bool, readable: bool, domainOk: bool, durable: bool, reported: bool)

  datatype Handling = Handling(after: Tables, added: seq<Committed>, answer: Answer)

  function Refuse(t: Tables, code: int): Handling {
    Handling(t, [], Reject(code))
  }

  ghost function Committing(t: Tables, p: Proposal, now: Instant, w: Weather): Handling {
    match CommitTx(t, p, t.genesis.roomKey, now)
    case Rejected(code) => Refuse(t, code)
    case Duplicate(e) => Handling(t, [], Repeat(e))
    case Accepted(e, after) =>
      if !w.durable then Refuse(t, REJECT_PERSISTENCE_FAILURE)
      else Handling(after, [e], if w.reported then Accept(e) else Reject(REJECT_PERSISTENCE_FAILURE))
  }

  ghost function HandleSubmit(t: Tables, p: Proposal, now: Instant, w: Weather): Handling {
    if !w.bound then Refuse(t, REJECT_PERMISSION_DENIED)
    else if !w.readable then Refuse(t, REJECT_PERSISTENCE_FAILURE)
    else match FindById(t.events, p)
      case Some(e) => Handling(t, [], Repeat(e))
      case None =>
        if p.roomId != t.genesis.roomKey then Refuse(t, REJECT_WRONG_ROOM)
        else match VerifyProposal(p, t.genesis.nodeKey, now)
          case Err(why) => Refuse(t, if why == BadTimestamp then REJECT_TIMESTAMP else REJECT_INVALID_SIGNATURE)
          case Ok(_) =>
            if p.authorDomain != "" && !w.domainOk then Refuse(t, REJECT_INVALID_IDENTITY_DOMAIN)
            else Committing(t, p, now, w)
  }

  /** The sequencer commits a proposal at most once, tells the truth about it, and
      answers a final rejection only when it has committed nothing. */
  ghost predicate HandledWell(t: Tables, log: seq<Committed>, p: Proposal, r: Handling) {
    var grown := log + r.added;
    && Represents(r.after, grown) && Covered(r.after, grown) && r.after.genesis == t.genesis
    && (r.added == [] || (|r.added| == 1 && r.added[0].proposal == p))
    && match r.answer
       case Accept(e) => r.added == [e]
       case Repeat(e) => r.added == [] && e in log && e.proposal == p
       case Reject(code) => Definitive(code) ==> r.added == []
  }

  lemma SameLog(t: Tables, log: seq<Committed>)
    requires Represents(t, log) && Covered(t, log)
    ensures Represents(t, log + []) && Covered(t, log + [])
  {
    assert log + [] == log;
  }

  lemma CommittingWell(t: Tables, log: seq<Committed>, p: Proposal, now: Instant, w: Weather)
    requires Represents(t, log) && Covered(t, log) && Unix(now) > 0
    ensures HandledWell(t, log, p, Committing(t, p, now, w))
    ensures Committing(t, p, now, w).added != [] ==> w.durable
  {
    CommitRefines(t, log, p, now);
    SameLog(t, log);
  }

  lemma SubmissionWell(t: Tables, log: seq<Committed>, p: Proposal, now: Instant, w: Weather)
    requires Represents(t, log) && Covered(t, log) && Unix(now) > 0
    ensures HandledWell(t, log, p, HandleSubmit(t, p, now, w))
    ensures HandleSubmit(t, p, now, w).added != [] ==>
              w.bound && w.readable && w.durable && (p.authorDomain == "" || w.domainOk)
  {
    hide Committing, Represents, Covered, VerifyProposal;
    SameLog(t, log);
    IdRows(t, log, p);
    CommittingWell(t, log, p, now, w);
  }

  // ---- Moves ------------------------------------------------------------

  datatype Move =
    | Submit(p: Proposal, now: Instant, w: Weather)
    | Arrive(c: nat, q: nat, now: Instant, w: Weather)
    | NewRelay(r: nat)
    | RelayMove(r: nat, op: ReplicaOp)
    | NewMember(c: nat, key: Key)
    | MemberMove(c: nat, a: Action)

  ghost function WorldOf(s: System): World {
    World(s.authority.genesis, s.log, s.exposed)
  }

  /** No member has signed the proposal. */
  predicate Foreign(s: System, p: Proposal) {
    forall c :: c in s.clients ==> p !in s.clients[c].made
  }

  ghost predicate Enabled(s: System, m: Move) {
    match m
    case Submit(p, now, _) => Unix(now) > 0 && (p in s.exposed || Foreign(s, p))
    case Arrive(c, q, now, _) => Unix(now) > 0 && c in s.clients && q in s.clients[c].asked
    case NewRelay(r) => r !in s.relays
    case RelayMove(r, op) => r in s.relays && (op.Append? ==> Real(WorldOf(s), op.e))
    case NewMember(c, _) => c !in s.clients
    case MemberMove(c, a) =>
      && c in s.clients && Possible(s.clients[c], WorldOf(s), a)
      && (a.Save? ==> Foreign(s, a.p))
  }

  ghost function Moved(s: System, m: Move): System
    requires Enabled(s, m)
  {
    match m
    case Submit(p, now, w) =>
      var r := HandleSubmit(s.authority, p, now, w);
      s.(authority := r.after, log := s.log + r.added)
    case Arrive(c, q, now, w) =>
      var r := HandleSubmit(s.authority, s.clients[c].asked[q], now, w);
      s.(authority := r.after, log := s.log + r.added,
         clients := s.clients[c := Arrived(s.clients[c], q, r.answer)])
    case NewRelay(r) => s.(relays := s.relays[r := NewReplica(s.authority.genesis)])
    case RelayMove(r, op) => s.(relays := s.relays[r := ReplicaStep(s.relays[r], op)])
    case NewMember(c, key) => s.(clients := s.clients[c := NewClient(s.authority.genesis.roomKey, key)])
    case MemberMove(c, a) =>
      s.(clients := s.clients[c := ClientStep(s.clients[c], a)],
         exposed := s.exposed + Exposed(s.clients[c], a))
  }

  ghost function Next(s: System, m: Move): System {
    if Enabled(s, m) then Moved(s, m) else s
  }

  ghost function NewSystem(g: Genesis): System {
    System(NewAuthority(g), [], map[], map[], {})
  }

  ghost function Run(s: System, moves: seq<Move>): System {
    if moves == [] then s else Next(Run(s, moves[..|moves| - 1]), moves[|moves| - 1])
  }

  // ---- Invariant --------------------------------------------------------

  ghost predicate AuthorityOk(s: System) {
    Represents(s.authority, s.log) && Covered(s.authority, s.log)
  }

  ghost predicate RelayOk(t: Tables, w: World) {
    && t.genesis == w.genesis && 0 <= t.head.seqno <= |w.log|
    && Replicates(t, w.log[..t.head.seqno])
  }

  ghost predicate Distinct(s: System) {
    forall c, d :: c in s.clients && d in s.clients && c != d ==> s.clients[c].made !! s.clients[d].made
  }

  ghost predicate Inv(s: System) {
    && AuthorityOk(s)
    && (forall r :: r in s.relays ==> RelayOk(s.relays[r], WorldOf(s)))
    && (forall c :: c in s.clients ==> ClientOk(s.clients[c], WorldOf(s)))
    && Distinct(s)
  }

  lemma WorldIsOk(s: System)
    requires AuthorityOk(s)
    ensures WorldOk(WorldOf(s))
  {
  }

  // ---- Preservation -----------------------------------------------------

  lemma RelayOutside(t: Tables, w: World, next: World)
    requires RelayOk(t, w) && next.genesis == w.genesis && w.log <= next.log
    ensures RelayOk(t, next)
  {
    assert next.log[..t.head.seqno] == w.log[..t.head.seqno];
  }

  /** Whatever a relay is offered, it stores only the next event of the log. */
  lemma RelayKeeps(t: Tables, w: World, op: ReplicaOp)
    requires WorldOk(w) && RelayOk(t, w) && (op.Append? ==> Real(w, op.e))
    ensures RelayOk(ReplicaStep(t, op), w)
  {
    var rows := w.log[..t.head.seqno];
    StepReplicates(t, rows, op);
    var grown := LogAfter(t, rows, op);
    if grown != rows { InsertedIsNext(t, w, op.e); }
  }

  lemma InsertedIsContiguous(t: Tables, e: Committed)
    requires AppendTx(t, e).Ok? && AppendTx(t, e).value.inserted
    ensures VerifyCommit(e, t.genesis.roomKey, t.genesis.nodeKey).Ok? && e.seqno == t.head.seqno + 1
  {
  }

  lemma NextOfLog(log: seq<Committed>, n: nat, e: Committed)
    requires Chained(log) && e in log && e.seqno == n + 1
    ensures n < |log| && log[..n] + [e] == log[..n + 1]
  {
    var j :| 0 <= j < |log| && log[j] == e;
    assert log[j].seqno == j + 1;
    assert log[..n + 1] == log[..n] + [log[n]];
  }

  lemma InsertedIsNext(t: Tables, w: World, e: Committed)
    requires WorldOk(w) && RelayOk(t, w) && Real(w, e)
    requires AppendTx(t, e).Ok? && AppendTx(t, e).value.inserted
    ensures t.head.seqno < |w.log| && w.log[..t.head.seqno] + [e] == w.log[..t.head.seqno + 1]
  {
    FoldDescribes(w.genesis, w.log);
    InsertedIsContiguous(t, e);
    NextOfLog(w.log, t.head.seqno, e);
  }

  lemma NewRelayOk(w: World)
    requires WorldOk(w)
    ensures RelayOk(NewReplica(w.genesis), w)
  {
    RunReplicates(w.genesis, []);
    assert w.log[..0] == [];
  }

  lemma NewClientOk(w: World, key: Key)
    requires WorldOk(w)
    ensures ClientOk(NewClient(w.genesis.roomKey, key), w)
  {
    var db := NewRoom(w.genesis.roomKey);
    assert LogTable([]) == map[];
    RowsAreTheLog(db, []);
  }

  /** The log after a submission, from outside. */
  lemma GrownContains(log: seq<Committed>, added: seq<Committed>, p: Proposal, q: Proposal)
    requires added == [] || (|added| == 1 && added[0].proposal == p)
    requires Contains(log + added, q)
    ensures Contains(log, q) || q == p
  {
    var i :| 0 <= i < |log + added| && (log + added)[i].proposal == q;
    if i < |log| { assert log[i].proposal == q; }
  }

  /** Others' submissions, seen from a member. */
  lemma SubmissionOutside(c: Client, s: System, p: Proposal, r: Handling)
    requires AuthorityOk(s) && HandledWell(s.authority, s.log, p, r)
    requires p in s.exposed || p !in c.made
    ensures Outside(c, WorldOf(s), World(r.after.genesis, s.log + r.added, s.exposed))
  {
    forall q | q in c.made && Contains(s.log + r.added, q)
      ensures Contains(s.log, q) || q in s.exposed
    {
      GrownContains(s.log, r.added, p, q);
    }
  }

  lemma OthersKeep(s: System, p: Proposal, r: Handling, mine: set<nat>)
    requires Inv(s) && HandledWell(s.authority, s.log, p, r)
    requires forall c :: c in s.clients && c !in mine ==> p in s.exposed || p !in s.clients[c].made
    ensures forall c :: c in s.clients && c !in mine ==>
              ClientOk(s.clients[c], World(r.after.genesis, s.log + r.added, s.exposed))
    ensures forall k :: k in s.relays ==> RelayOk(s.relays[k], World(r.after.genesis, s.log + r.added, s.exposed))
  {
    var next := World(r.after.genesis, s.log + r.added, s.exposed);
    forall c | c in s.clients && c !in mine ensures ClientOk(s.clients[c], next) {
      SubmissionOutside(s.clients[c], s, p, r);
      OutsideKeeps(s.clients[c], WorldOf(s), next);
    }
    forall k | k in s.relays ensures RelayOk(s.relays[k], next) {
      RelayOutside(s.relays[k], WorldOf(s), next);
    }
  }

  lemma SubmitKeeps(s: System, p: Proposal, now: Instant, w: Weather)
    requires Inv(s) && Enabled(s, Submit(p, now, w))
    ensures Inv(Moved(s, Submit(p, now, w)))
    ensures Moved(s, Submit(p, now, w)).authority.genesis == s.authority.genesis
  {
    hide HandleSubmit, ClientOk, RelayOk, Represents, Covered;
    SubmissionWell(s.authority, s.log, p, now, w);
    OthersKeep(s, p, HandleSubmit(s.authority, p, now, w), {});
  }

  lemma AnswerIsTrue(c: Client, s: System, q: nat, r: Handling)
    requires AuthorityOk(s) && q in c.asked && HandledWell(s.authority, s.log, c.asked[q], r)
    ensures Handled(c, WorldOf(s), World(r.after.genesis, s.log + r.added, s.exposed), q, r.answer)
  {
    var p := c.asked[q];
    var log := s.log + r.added;
    forall x | Contains(log, x) ensures Contains(s.log, x) || x == p {
      GrownContains(s.log, r.added, p, x);
    }
    match r.answer
    case Accept(e) => assert log[|s.log|] == e;
    case Repeat(e) => assert e in log;
    case Reject(_) =>
  }

  lemma ArriveKeeps(s: System, c: nat, q: nat, now: Instant, w: Weather)
    requires Inv(s) && Enabled(s, Arrive(c, q, now, w))
    ensures Inv(Moved(s, Arrive(c, q, now, w)))
    ensures Moved(s, Arrive(c, q, now, w)).authority.genesis == s.authority.genesis
  {
    hide HandleSubmit, ClientOk, RelayOk, Represents, Covered, Handled;
    var p := s.clients[c].asked[q];
    var r := HandleSubmit(s.authority, p, now, w);
    SubmissionWell(s.authority, s.log, p, now, w);
    AskedIsMade(s.clients[c], WorldOf(s), q);
    OthersKeep(s, p, r, {c});
    AnswerIsTrue(s.clients[c], s, q, r);
    ArrivedKeeps(s.clients[c], WorldOf(s), World(r.after.genesis, s.log + r.added, s.exposed), q, r.answer);
  }

  lemma AskedIsMade(c: Client, w: World, q: nat)
    requires ClientOk(c, w) && q in c.asked
    ensures c.asked[q] in c.made
  {
  }

  lemma ExposedIsMade(c: Client, w: World, a: Action)
    requires ClientOk(c, w)
    ensures Exposed(c, a) <= c.made
  {
  }

  /** A member's own step, seen from another. */
  lemma MemberOutside(c: Client, d: Client, w: World, a: Action)
    requires ClientOk(c, w) && ClientOk(d, w) && c.made !! d.made
    ensures ClientOk(d, w.(exposed := w.exposed + Exposed(c, a)))
  {
    ExposedIsMade(c, w, a);
    OutsideKeeps(d, w, w.(exposed := w.exposed + Exposed(c, a)));
  }

  lemma MadeGrows(c: Client, a: Action)
    ensures ClientStep(c, a).made == c.made || (a.Save? && ClientStep(c, a).made == c.made + {a.p})
  {
  }

  lemma MemberKeeps(s: System, c: nat, a: Action)
    requires Inv(s) && Enabled(s, MemberMove(c, a))
    ensures Inv(Moved(s, MemberMove(c, a)))
    ensures Moved(s, MemberMove(c, a)).authority.genesis == s.authority.genesis
  {
    hide ClientOk, RelayOk, ClientStep, Exposed, Represents, Covered, Possible;
    var after := Moved(s, MemberMove(c, a));
    WorldIsOk(s);
    StepKeeps(s.clients[c], WorldOf(s), a);
    MadeGrows(s.clients[c], a);
    forall d | d in s.clients && d != c ensures ClientOk(after.clients[d], WorldOf(after)) {
      MemberOutside(s.clients[c], s.clients[d], WorldOf(s), a);
    }
    forall r | r in s.relays ensures RelayOk(after.relays[r], WorldOf(after)) {
      RelayOutside(s.relays[r], WorldOf(s), WorldOf(after));
    }
  }

  lemma MoveKeeps(s: System, m: Move)
    requires Inv(s)
    ensures Inv(Next(s, m))
    ensures Next(s, m).authority.genesis == s.authority.genesis
  {
    hide ClientOk, RelayOk, Represents, Covered, Possible, Real, HandleSubmit, ClientStep, ReplicaStep, Exposed,
        Arrived;
    if Enabled(s, m) {
      WorldIsOk(s);
      match m
      case Submit(p, now, w) => SubmitKeeps(s, p, now, w);
      case Arrive(c, q, now, w) => ArriveKeeps(s, c, q, now, w);
      case NewRelay(_) => NewRelayOk(WorldOf(s));
      case RelayMove(r, op) => RelayKeeps(s.relays[r], WorldOf(s), op);
      case NewMember(_, key) => NewClientOk(WorldOf(s), key);
      case MemberMove(c, a) => MemberKeeps(s, c, a);
    }
  }

  lemma NewSystemOk(g: Genesis)
    requires ValidGenesis(g)
    ensures Inv(NewSystem(g))
  {
    AuthorityRepresents(g, []);
  }

  /** Every reachable state satisfies the invariant. */
  lemma {:induction false} RunKeeps(g: Genesis, moves: seq<Move>)
    requires ValidGenesis(g)
    ensures Inv(Run(NewSystem(g), moves))
    ensures Run(NewSystem(g), moves).authority.genesis == g
  {
    hide Inv, Next;
    if moves == [] {
      NewSystemOk(g);
    } else {
      RunKeeps(g, moves[..|moves| - 1]);
      MoveKeeps(Run(NewSystem(g), moves[..|moves| - 1]), moves[|moves| - 1]);
    }
  }

  // ---- Theorems over whole runs -----------------------------------------

  ghost predicate Reachable(s: System, g: Genesis) {
    ValidGenesis(g) && exists moves :: s == Run(NewSystem(g), moves)
  }

  lemma ReachableInv(s: System, g: Genesis)
    requires Reachable(s, g)
    ensures Inv(s) && s.authority.genesis == g
  {
    var moves :| s == Run(NewSystem(g), moves);
    RunKeeps(g, moves);
  }

  /** The log a node stores, and the head hash it keeps with it. */
  datatype NodeLog = NodeLog(log: seq<Committed>, head: Hash)

  ghost function RelayLog(t: Tables): NodeLog { NodeLog(StoredLog(t), t.head.hash) }

  ghost function ClientLog(db: ClientDb): NodeLog { NodeLog(RowsInOrder(db), db.headHash) }

  /** Some node of the system stores this log under this head. */
  ghost predicate HeldSomewhere(s: System, n: NodeLog) {
    || n == RelayLog(s.authority)
    || (exists r :: r in s.relays && n == RelayLog(s.relays[r]))
    || (exists c :: c in s.clients && n == ClientLog(s.clients[c].h.db))
  }

  ghost predicate PrefixNode(n: NodeLog, log: seq<Committed>) {
    n.log <= log && n.head == HeadHash(n.log)
  }

  lemma AuthorityNode(s: System)
    requires AuthorityOk(s)
    ensures RelayLog(s.authority) == NodeLog(s.log, HeadHash(s.log))
  {
    StoredLogOfTable(s.authority, s.log);
  }

  lemma RelayNode(t: Tables, w: World)
    requires RelayOk(t, w)
    ensures PrefixNode(RelayLog(t), w.log)
  {
    StoredLogOfTable(t, w.log[..t.head.seqno]);
  }

  lemma ClientNode(c: Client, w: World)
    requires ClientOk(c, w)
    ensures PrefixNode(ClientLog(c.h.db), w.log)
  {
  }

  lemma EveryNode(s: System, n: NodeLog)
    requires Inv(s) && HeldSomewhere(s, n)
    ensures PrefixNode(n, s.log)
  {
    hide ClientOk, RelayOk, Represents, Covered, RelayLog, ClientLog;
    if n == RelayLog(s.authority) {
      AuthorityNode(s);
    } else if r :| r in s.relays && n == RelayLog(s.relays[r]) {
      RelayNode(s.relays[r], WorldOf(s));
    } else {
      var c :| c in s.clients && n == ClientLog(s.clients[c].h.db);
      ClientNode(s.clients[c], WorldOf(s));
    }
  }

  lemma LogIsGood(s: System)
    requires AuthorityOk(s)
    ensures Chained(s.log) && UniqueIds(s.log) && Replays(s.authority.genesis, s.log)
  {
    FoldDescribes(s.authority.genesis, s.log);
  }

  lemma HeadsOfPrefixes(log: seq<Committed>, a: NodeLog, b: NodeLog)
    requires Chained(log) && PrefixNode(a, log) && PrefixNode(b, log)
    ensures a.head == b.head ==> a.log == b.log
  {
    ChainedPrefix(log, |a.log|);
    ChainedPrefix(log, |b.log|);
    assert a.log == log[..|a.log|] && b.log == log[..|b.log|];
    if a.head == b.head { HeadDeterminesLog(a.log, b.log); }
  }

  /** In every reachable state every node's stored log is a prefix of the
      sequencer's, event ids are unique in it, and nodes with equal head hashes
      store equal logs. */
  lemma AllLogsArePrefixes(s: System, g: Genesis, a: NodeLog, b: NodeLog)
    requires Reachable(s, g) && HeldSomewhere(s, a) && HeldSomewhere(s, b)
    ensures UniqueIds(s.log) && StoredLog(s.authority) == s.log
    ensures a.log <= s.log && b.log <= s.log
    ensures a.head == b.head ==> a.log == b.log
  {
    hide HeldSomewhere, ClientOk, RelayOk, Represents, Covered, Reachable;
    ReachableInv(s, g);
    AuthorityNode(s);
    LogIsGood(s);
    EveryNode(s, a);
    EveryNode(s, b);
    HeadsOfPrefixes(s.log, a, b);
  }

  /** The proposal stands at exactly one place of the log. */
  ghost predicate ExactlyOnce(log: seq<Committed>, p: Proposal) {
    exists i :: 0 <= i < |log| && log[i].proposal == p
                && forall j :: 0 <= j < |log| && log[j].proposal == p ==> j == i
  }

  lemma UniqueContained(log: seq<Committed>, p: Proposal)
    requires UniqueIds(log) && Contains(log, p)
    ensures ExactlyOnce(log, p)
  {
    var i :| 0 <= i < |log| && log[i].proposal == p;
    assert forall j :: 0 <= j < |log| && log[j].proposal == p ==> j == i;
  }

  /** A proposal reported as sent is in the member's rows and in the sequencer's
      log exactly once, however often it was resent. */
  lemma SuccessIsStoredOnce(s: System, g: Genesis, c: nat, p: Proposal)
    requires Reachable(s, g) && c in s.clients && p in s.clients[c].succeeded
    ensures ExactlyOnce(RowsInOrder(s.clients[c].h.db), p)
    ensures ExactlyOnce(s.log, p)
  {
    ReachableInv(s, g);
    var rows := RowsInOrder(s.clients[c].h.db);
    SucceededIsContained(s.clients[c], WorldOf(s), p);
    LogIsGood(s);
    PrefixContains(rows, s.log, p);
    UniqueContained(s.log, p);
    UniqueContained(rows, p);
  }

  lemma SucceededIsContained(c: Client, w: World, p: Proposal)
    requires ClientOk(c, w) && p in c.succeeded
    ensures Contains(RowsInOrder(c.h.db), p) && RowsInOrder(c.h.db) <= w.log
  {
  }

  lemma RejectedIsAbsent(c: Client, w: World, p: Proposal)
    requires ClientOk(c, w) && p in c.rejected
    ensures !Contains(w.log, p)
  {
  }

  // ---- Runs that go on --------------------------------------------------

  lemma {:induction false} RunConcat(s: System, a: seq<Move>, b: seq<Move>)
    ensures Run(s, a + b) == Run(Run(s, a), b)
    decreases |b|
  {
    hide Next;
    if b == [] {
      assert a + b == a;
    } else {
      var front := b[..|b| - 1];
      RunConcat(s, a, front);
      assert (a + b)[..|a + b| - 1] == a + front;
    }
  }

  lemma ReachableOnward(s: System, g: Genesis, more: seq<Move>)
    requires Reachable(s, g)
    ensures Reachable(Run(s, more), g)
  {
    var moves :| s == Run(NewSystem(g), moves);
    RunConcat(NewSystem(g), moves, more);
  }

  ghost predicate OnwardHere(s: System, after: System, c: nat) {
    c in s.clients && c in after.clients && Onward(s.clients[c], after.clients[c])
  }

  lemma MoveIsOnward(s: System, m: Move, c: nat)
    requires Inv(s) && c in s.clients
    ensures OnwardHere(s, Next(s, m), c)
  {
    hide ClientOk, RelayOk, Represents, Covered, ClientStep, HandleSubmit, Possible;
    if m.MemberMove? && m.c == c && Enabled(s, m) {
      WorldIsOk(s);
      StepIsOnward(s.clients[c], WorldOf(s), m.a);
    }
  }

  /** What a member was told stays told, and what it stored stays stored. */
  lemma {:induction false} RunIsOnward(s: System, g: Genesis, more: seq<Move>, c: nat)
    requires Reachable(s, g) && c in s.clients
    ensures OnwardHere(s, Run(s, more), c)
  {
    hide Next, Inv;
    if more == [] {
    } else {
      var front := more[..|more| - 1];
      RunIsOnward(s, g, front, c);
      ReachableOnward(s, g, front);
      ReachableInv(Run(s, front), g);
      MoveIsOnward(Run(s, front), more[|more| - 1], c);
    }
  }

  /** A proposal whose journal row was cleared by the sequencer's rejection is not
      in the log and never enters it, whatever happens afterwards. */
  lemma RejectionIsFinal(s: System, g: Genesis, c: nat, p: Proposal, more: seq<Move>)
    requires Reachable(s, g) && c in s.clients && p in s.clients[c].rejected
    ensures !Contains(Run(s, more).log, p)
  {
    var after := Run(s, more);
    RunIsOnward(s, g, more, c);
    ReachableOnward(s, g, more);
    ReachableInv(after, g);
    RejectedIsAbsent(after.clients[c], WorldOf(after), p);
  }

  /** Notifications carry strictly increasing numbers of stored events, across
      reconnects and restarts, and none is ever repeated or taken back. */
  lemma NotificationsIncrease(s: System, g: Genesis, c: nat, more: seq<Move>)
    requires Reachable(s, g) && c in s.clients
    ensures c in Run(s, more).clients
    ensures StrictlyIncreasing(Run(s, more).clients[c].h.notified)
    ensures s.clients[c].h.notified <= Run(s, more).clients[c].h.notified
    ensures forall n :: n in s.clients[c].h.notified ==>
              1 <= n <= |RowsInOrder(s.clients[c].h.db)|
  {
    var after := Run(s, more);
    RunIsOnward(s, g, more, c);
    ReachableInv(s, g);
    ReachableOnward(s, g, more);
    ReachableInv(after, g);
    NotifiedAreStored(s.clients[c], WorldOf(s));
    NotifiedAreStored(after.clients[c], WorldOf(after));
  }

  lemma NotifiedAreStored(c: Client, w: World)
    requires ClientOk(c, w)
    ensures StrictlyIncreasing(c.h.notified)
    ensures forall n :: n in c.h.notified ==> 1 <= n <= |RowsInOrder(c.h.db)|
  {
  }

  /** Whenever the ingest loop takes an event whose session is the current one, the
      projection is the fold of the stored rows at the stored head, and processing
      reaches neither interpreter fault. A durable result names a stored event. */
  lemma ProjectionIsCurrent(s: System, g: Genesis, c: nat, session: Session, e: Committed, sc: ProcessScript)
    requires Reachable(s, g) && c in s.clients && s.clients[c].ingest.Ready?
    requires Enabled(s, MemberMove(c, Process(session, e, sc)))
    ensures s.clients[c].h.session == Some(session) ==>
              var rows := RowsInOrder(s.clients[c].h.db);
              && Replays(g, rows) && s.clients[c].h.projection == Some(Projected(g, rows))
              && Projected(g, rows).headSeq == s.clients[c].h.db.headSeqno
              && Projected(g, rows).headHash == s.clients[c].h.db.headHash
    ensures ProcessCanonical(s.clients[c].h, session, e, sc).fault == NoFault
    ensures ProcessCanonical(s.clients[c].h, session, e, sc).durable ==>
              e in RowsInOrder(ProcessCanonical(s.clients[c].h, session, e, sc).after.db)
  {
    hide ProcessCanonical, Represents, Covered, RelayOk;
    ReachableInv(s, g);
    WorldIsOk(s);
    if s.clients[c].h.session.Some? { CurrentProjection(s.clients[c], WorldOf(s)); }
    ReadyIsLive(s.clients[c], WorldOf(s));
    ProcessKeepsHandle(s.clients[c].h, WorldOf(s), session, e, sc);
  }

  lemma CurrentProjection(c: Client, w: World)
    requires WorldOk(w) && ClientOk(c, w) && c.ingest.Ready? && c.h.session.Some?
    ensures var rows := RowsInOrder(c.h.db);
            && Replays(w.genesis, rows) && c.h.projection == Some(Projected(w.genesis, rows))
            && Projected(w.genesis, rows).headSeq == c.h.db.headSeqno
            && Projected(w.genesis, rows).headHash == c.h.db.headHash
  {
    FoldDescribes(w.genesis, RowsInOrder(c.h.db));
  }

  /** In every reachable database, the journal row carries a receipt exactly when
      its event is stored, and the receipt is that event. */
  lemma ReceiptIffStored(s: System, g: Genesis, c: nat)
    requires Reachable(s, g) && c in s.clients && s.clients[c].h.db.pending.Some?
    ensures var j := s.clients[c].h.db.pending.value;
            && (j.receipt.Some? <==> Contains(RowsInOrder(s.clients[c].h.db), j.proposal))
            && (j.receipt.Some? ==> j.receipt.value in RowsInOrder(s.clients[c].h.db)
                                    && j.receipt.value.proposal == j.proposal)
  {
    ReachableInv(s, g);
    JournalIsTrue(s.clients[c], WorldOf(s));
  }

  lemma JournalIsTrue(c: Client, w: World)
    requires ClientOk(c, w)
    ensures JournalTrue(c.h.db, RowsInOrder(c.h.db))
  {
  }

  /** Every reachable database reopens, and reopening drops at most the cached
      state: exactly when that state disagrees with the stored events. */
  lemma EveryDatabaseReopens(s: System, g: Genesis, c: nat, now: Instant)
    requires Reachable(s, g) && c in s.clients && VerifyGenesis(g, now)
    ensures var db := s.clients[c].h.db;
            Reopen(db, now) ==
              if db.genesis.Some? && db.cached.Some? && Replays(g, RowsInOrder(db))
                 && !StateMatches(Projected(g, RowsInOrder(db)), db.cached.value)
              then Ok(db.(cached := None)) else Ok(db)
  {
    ReachableInv(s, g);
    DatabaseReopens(s.clients[c], WorldOf(s), now);
  }

  lemma DatabaseReopens(c: Client, w: World, now: Instant)
    requires ClientOk(c, w) && VerifyGenesis(w.genesis, now)
    ensures var db := c.h.db;
            Reopen(db, now) ==
              if db.genesis.Some? && db.cached.Some? && Replays(w.genesis, RowsInOrder(db))
                 && !StateMatches(Projected(w.genesis, RowsInOrder(db)), db.cached.value)
              then Ok(db.(cached := None)) else Ok(db)
  {
    ReopenRepairsOnlyState(c.h.db, RowsInOrder(c.h.db), now);
  }
}
