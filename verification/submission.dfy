// The undisturbed course of one submission: a caught-up member with a session to
// the sequencer writes its journal row, sends, is answered, ingests the commit and
// clears the row. Whatever the sequencer would commit is reported as sent.
module Submissions {
  import opened Wrappers
  import opened Community
  import opened Replay
  import opened Tables
  import opened Refinement
  import opened Authority
  import opened ClientDbs
  import opened Rooms
  import opened Catchups
  import opened Members
  import opened Systems
  import Projections

  /** Nothing goes wrong around the submission. */
  function Clear(): Weather { Weather(true, true, true, true, true) }

  /** The moves of member `c` and the sequencer, with query number `q`. */
  function Course(c: nat, q: nat, p: Proposal, s: Session, now: Instant, sc: ProcessScript): seq<Move> {
    [MemberMove(c, Save(p, s)), MemberMove(c, Send), Arrive(c, q, now, Clear()),
     MemberMove(c, Members.Receive(Reject(0))), MemberMove(c, Offer(sc)), MemberMove(c, Members.Clear)]
  }

  /** The member is idle, connected to the sequencer and holds its whole log. */
  ghost predicate ReadyToSend(s: System, c: nat, session: Session) {
    && c in s.clients
    && s.clients[c].submit.Quiet? && s.clients[c].ingest.Ready? && s.clients[c].h.db.pending.None?
    && s.clients[c].h.session == Some(session) && Direct(session)
    && RowsInOrder(s.clients[c].h.db) == s.log
  }

  predicate Idle(s: System, c: nat) {
    c in s.clients && s.clients[c].submit.Quiet? && s.clients[c].h.db.pending.None?
  }

  ghost predicate NewProposal(s: System, c: nat, p: Proposal) {
    c in s.clients && p.author == s.clients[c].key && Foreign(s, p) && p !in s.exposed && !Contains(s.log, p)
  }

  // ---- The member's side ------------------------------------------------

  function Row(p: Proposal, s: Session): Journal { Journal(p, GenesisHash(s.genesis), None) }

  /** The member after saving, sending, being answered and taking the answer. */
  function Offered(c: Client, p: Proposal, s: Session, e: Committed): Client {
    c.(h := c.h.(db := c.h.db.(pending := Some(Row(p, s)))), made := c.made + {p}, nextQuery := c.nextQuery + 1,
       asked := c.asked[c.nextQuery := p] - {c.nextQuery}, answered := c.answered[c.nextQuery := Accept(e)],
       submit := Offering(p, s, e))
  }

  function Asking(c: Client, p: Proposal, s: Session): Client {
    c.(h := c.h.(db := c.h.db.(pending := Some(Row(p, s)))), made := c.made + {p}, nextQuery := c.nextQuery + 1,
       asked := c.asked[c.nextQuery := p], submit := Waiting(p, s, true, Some(c.nextQuery)))
  }

  lemma AsksAfterSaving(c: Client, p: Proposal, s: Session)
    requires c.submit.Quiet? && c.h.db.pending.None? && Direct(s) && p.author == c.key
               && VerifyAt(p, s.genesis.nodeKey).Ok?
    ensures SendStep(SaveStep(c, p, s)) == Asking(c, p, s)
  {
  }

  lemma OffersAfterAnswer(c: Client, p: Proposal, s: Session, e: Committed)
    requires e.proposal == p
    ensures ReceiveStep(Arrived(Asking(c, p, s), c.nextQuery, Accept(e)), Reject(0)) == Offered(c, p, s, e)
  {
  }

  /** The committed event is the next one, so ingesting it stores it and, if the
      observer takes it, notifies it. */
  lemma NextIsDurable(h: Handle, s: Session, e: Committed, sc: ProcessScript)
    requires Sane(h) && Live(h) && h.session == Some(s)
    requires Apply(Projected(s.genesis, RowsInOrder(h.db)), e).Ok? && !Contains(RowsInOrder(h.db), e.proposal)
    ensures Rooms.ProcessCanonical(h, s, e, sc).durable
    ensures RowsInOrder(Rooms.ProcessCanonical(h, s, e, sc).after.db) == RowsInOrder(h.db) + [e]
    ensures Rooms.ProcessCanonical(h, s, e, sc).after.notified
            == h.notified + (if sc.emitted then [|RowsInOrder(h.db)| + 1] else [])
  {
    RoomOfLive(h, s);
    hide Rooms.ProcessCanonical, RowsInOrder, Apply, Healthy, NotifiedInOrder;
    NextIsProcessed(h, s, e, sc);
  }

  lemma OfferedIsCleared(c: Client, p: Proposal, s: Session, e: Committed, sc: ProcessScript)
    requires c.ingest.Ready? && c.submit == Offering(p, s, e) && IsPending(c, p)
    requires Rooms.ProcessCanonical(c.h, s, e, sc).durable
    requires GrewFrom(Rooms.ProcessCanonical(c.h, s, e, sc).after.db, c.h.db, ProcessOffered(e, sc))
    ensures var after := ClearStep(OfferStep(c, sc));
            && after.succeeded == c.succeeded + {p}
            && after.h.db.pending.None?
            && after.h.notified == Rooms.ProcessCanonical(c.h, s, e, sc).after.notified
            && RowsInOrder(after.h.db) == RowsInOrder(Rooms.ProcessCanonical(c.h, s, e, sc).after.db)
  {
    hide Rooms.ProcessCanonical, Settle;
    var db := Rooms.ProcessCanonical(c.h, s, e, sc).after.db;
    assert ClearPending(db, p) == db.(pending := None);
    SameRows(db, db.(pending := None));
  }

  // ---- The sequencer's side ---------------------------------------------

  lemma AcceptedIsAnswered(t: Tables, p: Proposal, now: Instant, e: Committed, after: Tables)
    requires CommitTx(t, p, t.genesis.roomKey, now) == Accepted(e, after)
    ensures HandleSubmit(t, p, now, Clear()) == Handling(after, [e], Accept(e))
    ensures VerifyAt(p, t.genesis.nodeKey).Ok?
  {
    hide RecordCommit, LiveNonces, AuthorizedByRows;
  }

  // ---- The course as a run ----------------------------------------------

  ghost function With(s: System, c: nat, member: Client): System {
    s.(clients := s.clients[c := member])
  }

  /** One step of a member, seen from the system. */
  lemma MemberSteps(s: System, c: nat, a: Action, after: Client)
    requires c in s.clients && Possible(s.clients[c], WorldOf(s), a) && !a.Save? && ClientStep(s.clients[c], a) == after
    requires Exposed(s.clients[c], a) == {}
    ensures Next(s, MemberMove(c, a)) == With(s, c, after)
  {
    hide ClientStep, Possible, Exposed;
    assert s.exposed + {} == s.exposed;
  }

  lemma QueryArrives(s: System, c: nat, q: nat, now: Instant, w: Weather, r: Handling)
    requires c in s.clients && q in s.clients[c].asked && Unix(now) > 0
    requires HandleSubmit(s.authority, s.clients[c].asked[q], now, w) == r
    ensures Next(s, Arrive(c, q, now, w))
            == With(s, c, Arrived(s.clients[c], q, r.answer)).(authority := r.after, log := s.log + r.added)
  {
    hide HandleSubmit, Arrived;
  }

  /** Saving and sending. */
  lemma Sent(s: System, c: nat, p: Proposal, session: Session)
    requires Idle(s, c) && Direct(session) && NewProposal(s, c, p) && VerifyAt(p, session.genesis.nodeKey).Ok?
    ensures Next(Next(s, MemberMove(c, Save(p, session))), MemberMove(c, Send))
              == With(s, c, Asking(s.clients[c], p, session))
  {
    hide VerifyAt;
    var c0 := s.clients[c];
    var s1 := Next(s, MemberMove(c, Save(p, session)));
    assert s1 == With(s, c, SaveStep(c0, p, session)) by { assert s.exposed + {} == s.exposed; }
    AsksAfterSaving(c0, p, session);
    var s2 := Next(s1, MemberMove(c, Send));
    assert s2.clients == s1.clients[c := Asking(c0, p, session)];
    assert s2.exposed == s.exposed;
  }

  /** The sequencer committing and answering, and the member taking the answer. */
  lemma Answered(s: System, c: nat, p: Proposal, session: Session, now: Instant, e: Committed, after: Tables)
    requires c in s.clients && Unix(now) > 0 && e.proposal == p
    requires CommitTx(s.authority, p, s.authority.genesis.roomKey, now) == Accepted(e, after)
    ensures var q := s.clients[c].nextQuery;
            var asking := With(s, c, Asking(s.clients[c], p, session));
            Next(Next(asking, Arrive(c, q, now, Clear())), MemberMove(c, Members.Receive(Reject(0))))
            == With(s, c, Offered(s.clients[c], p, session, e)).(authority := after, log := s.log + [e])
  {
    hide CommitTx, HandleSubmit, ReceiveStep;
    AcceptedIsAnswered(s.authority, p, now, e, after);
    OffersAfterAnswer(s.clients[c], p, session, e);
    assert s.exposed + {} == s.exposed;
  }

  /** Live members stay so when the journal row is written. */
  lemma RowKeepsLive(h: Handle, w: World, p: Proposal, s: Session)
    requires HandleOk(h, w) && Live(h) && !Contains(RowsInOrder(h.db), p)
    ensures var saved := h.(db := h.db.(pending := Some(Row(p, s))));
            Sane(saved) && Live(saved) && RowsInOrder(saved.db) == RowsInOrder(h.db)
            && saved.db.roomKey == w.genesis.roomKey && (h.session.Some? ==> h.session.value.genesis == w.genesis)
  {
    JournalWrite(h, w, Some(Row(p, s)));
  }

  lemma CommitIsNext(s: System, p: Proposal, now: Instant, e: Committed, after: Tables)
    requires Inv(s) && Unix(now) > 0
    requires CommitTx(s.authority, p, s.authority.genesis.roomKey, now) == Accepted(e, after)
    ensures var g := s.authority.genesis;
            && e.proposal == p && e.seqno == |s.log| + 1
            && VerifyCommit(e, g.roomKey, g.nodeKey).Ok? && Replays(g, s.log) && Apply(Projected(g, s.log), e).Ok?
            && !Contains(s.log, p)
  {
    CommitRefines(s.authority, s.log, p, now);
    CommitAcceptsIff(s.authority, s.log, p, now);
    CandidateVerifies(s.authority.genesis, s.log, p, now);
  }

  /** The member's part of the course: `offered` is the member about to take the
      commit of its proposal, the next event after its rows. */
  lemma OfferedSucceeds(c: Client, offered: Client, w: World, p: Proposal, s: Session, e: Committed, sc: ProcessScript)
    requires WorldOk(w) && ClientOk(c, w) && c.ingest.Ready? && c.h.session == Some(s) && RowsInOrder(c.h.db) == w.log
    requires offered.h == c.h.(db := c.h.db.(pending := Some(Row(p, s)))) && offered.ingest.Ready?
    requires offered.submit == Offering(p, s, e)
    requires e.proposal == p && e.seqno == |w.log| + 1 && !Contains(w.log, p)
    requires Apply(Projected(w.genesis, w.log), e).Ok? && sc.sync.deliveries == []
    ensures var done := ClearStep(OfferStep(offered, sc));
            && p in done.succeeded && done.h.db.pending.None? && RowsInOrder(done.h.db) == w.log + [e]
            && done.h.notified == c.h.notified + (if sc.emitted then [e.seqno] else [])
  {
    ReadyIsLive(c, w);
    RowKeepsLive(c.h, w, p, s);
    hide ClientOk, HandleOk, Apply, VerifyCommit, Sane, RowsInOrder, OfferStep, ClearStep, Rooms.ProcessCanonical;
    NextIsDurable(offered.h, s, e, sc);
    ProcessKeeps(offered.h, s, e, sc);
    OfferedIsCleared(offered, p, s, e, sc);
  }

  /** A new proposal that the sequencer would commit, sent over a live session to
      it by a caught-up member, is committed, stored and reported as sent. */
  lemma AcceptedSubmissionSucceeds(s: System, g: Genesis, c: nat, p: Proposal, session: Session, now: Instant,
      sc: ProcessScript)
    requires Reachable(s, g) && ReadyToSend(s, c, session) && NewProposal(s, c, p)
    requires Unix(now) > 0 && CommitTx(s.authority, p, g.roomKey, now).Accepted? && sc.sync.deliveries == []
    ensures var done := Run(s, Course(c, s.clients[c].nextQuery, p, session, now, sc));
            && c in done.clients && p in done.clients[c].succeeded && done.clients[c].h.db.pending.None?
            && done.log == s.log + [CommitTx(s.authority, p, g.roomKey, now).commit]
            && RowsInOrder(done.clients[c].h.db) == done.log
            && done.clients[c].h.notified == s.clients[c].h.notified + (if sc.emitted then [|done.log|] else [])
  {
    hide Inv, CommitTx, Reachable;
    ReachableInv(s, g);
    var e, after := CommitTx(s.authority, p, g.roomKey, now).commit, CommitTx(s.authority, p, g.roomKey, now).after;
    CourseSucceeds(s, c, p, session, now, sc, e, after);
  }

  lemma CourseSucceeds(s: System, c: nat, p: Proposal, session: Session, now: Instant, sc: ProcessScript,
      e: Committed, after: Tables)
    requires Inv(s) && ReadyToSend(s, c, session) && NewProposal(s, c, p) && sc.sync.deliveries == []
    requires Unix(now) > 0 && CommitTx(s.authority, p, s.authority.genesis.roomKey, now) == Accepted(e, after)
    ensures var done := Run(s, Course(c, s.clients[c].nextQuery, p, session, now, sc));
            && c in done.clients && p in done.clients[c].succeeded && done.clients[c].h.db.pending.None?
            && done.log == s.log + [e] && RowsInOrder(done.clients[c].h.db) == done.log
            && done.clients[c].h.notified == s.clients[c].h.notified + (if sc.emitted then [|done.log|] else [])
  {
    hide ClientOk, RelayOk, Represents, Covered, CommitTx, Next, Run, OfferStep, ClearStep, HandleSubmit, Apply,
        VerifyCommit;
    CommitIsNext(s, p, now, e, after);
    AcceptedIsAnswered(s.authority, p, now, e, after);
    SessionGenesis(s, c, session);
    Sent(s, c, p, session);
    Answered(s, c, p, session, now, e, after);
    var offered := With(s, c, Offered(s.clients[c], p, session, e)).(authority := after, log := s.log + [e]);
    TakenAndCleared(offered, c, sc);
    WorldIsOk(s);
    OfferedSucceeds(s.clients[c], Offered(s.clients[c], p, session, e), WorldOf(s), p, session, e, sc);
    CourseIsSix(s, Course(c, s.clients[c].nextQuery, p, session, now, sc));
  }

  lemma SessionGenesis(s: System, c: nat, session: Session)
    requires Inv(s) && c in s.clients && s.clients[c].ingest.Ready? && s.clients[c].h.session == Some(session)
    ensures session.genesis == s.authority.genesis
  {
    ReadyIsLive(s.clients[c], WorldOf(s));
  }

  // ---- A refused submission ---------------------------------------------

  /** The moves up to the answer, in any weather at the sequencer. */
  function Attempted(c: nat, q: nat, p: Proposal, s: Session, now: Instant, w: Weather): seq<Move> {
    [MemberMove(c, Save(p, s)), MemberMove(c, Send), Arrive(c, q, now, w), MemberMove(c, Members.Receive(Reject(0)))]
  }

  /** The codes 1 to 15 without the three that leave the outcome open. */
  predicate Final(code: int) {
    1 <= code <= 15 && code != 10 && code != 12 && code != 14
  }

  /** The member after a rejection. */
  function Refused(c: Client, p: Proposal, s: Session, code: int): Client {
    var told := c.(made := c.made + {p}, nextQuery := c.nextQuery + 1,
                   asked := c.asked[c.nextQuery := p] - {c.nextQuery},
                   answered := c.answered[c.nextQuery := Reject(code)]);
    if Final(code) then told.(rejected := c.rejected + {p})
    else told.(h := c.h.(db := c.h.db.(pending := Some(Row(p, s)))))
  }

  lemma RefusedAfterAnswer(c: Client, p: Proposal, s: Session, code: int)
    requires c.submit.Quiet? && c.h.db.pending.None? && 1 <= code <= 15
    ensures ReceiveStep(Arrived(Asking(c, p, s), c.nextQuery, Reject(code)), Reject(0)) == Refused(c, p, s, code)
  {
  }

  /** A new proposal that the sequencer refuses for good is reported as rejected and
      leaves the journal; for a code that leaves the outcome open the row stays. */
  lemma RefusedSubmissionIsRejected(s: System, g: Genesis, c: nat, p: Proposal, session: Session, now: Instant,
                                    w: Weather, code: int)
    requires Reachable(s, g) && Idle(s, c) && Direct(session) && NewProposal(s, c, p)
    requires VerifyAt(p, session.genesis.nodeKey).Ok? && Unix(now) > 0 && 1 <= code <= 15
    requires HandleSubmit(s.authority, p, now, w).answer == Reject(code)
    ensures var done := Run(s, Attempted(c, s.clients[c].nextQuery, p, session, now, w));
            && c in done.clients
            && (Final(code) ==>
                  p in done.clients[c].rejected && done.clients[c].h.db.pending.None? && done.log == s.log)
            && (!Final(code) ==> IsPending(done.clients[c], p) && done.clients[c].rejected == s.clients[c].rejected)
  {
    hide Inv, Next, Run, HandleSubmit, Represents, Covered, VerifyAt, ReceiveStep;
    ReachableInv(s, g);
    WorldIsSound(s);
    SubmissionWell(s.authority, s.log, p, now, w);
    var r := HandleSubmit(s.authority, p, now, w);
    assert Final(code) ==> r.added == [];
    Sent(s, c, p, session);
    RefusedMoves(s, c, p, session, now, w, code);
    CourseIsFour(s, Attempted(c, s.clients[c].nextQuery, p, session, now, w));
  }

  lemma WorldIsSound(s: System)
    requires Inv(s)
    ensures Represents(s.authority, s.log) && Covered(s.authority, s.log)
  {
  }

  lemma RefusedMoves(s: System, c: nat, p: Proposal, session: Session, now: Instant, w: Weather, code: int)
    requires Idle(s, c) && Unix(now) > 0 && 1 <= code <= 15
    requires HandleSubmit(s.authority, p, now, w).answer == Reject(code)
    ensures var q, r := s.clients[c].nextQuery, HandleSubmit(s.authority, p, now, w);
            var asking := With(s, c, Asking(s.clients[c], p, session));
            Next(Next(asking, Arrive(c, q, now, w)), MemberMove(c, Members.Receive(Reject(0))))
            == With(s, c, Refused(s.clients[c], p, session, code)).(authority := r.after, log := s.log + r.added)
  {
    hide HandleSubmit, ReceiveStep, Arrived, Next, Asking;
    var c0, r := s.clients[c], HandleSubmit(s.authority, p, now, w);
    AskedNext(c0, p, session);
    var asking := With(s, c, Asking(c0, p, session));
    QueryArrives(asking, c, c0.nextQuery, now, w, r);
    RefusedAfterAnswer(c0, p, session, code);
    var answered := With(asking, c, Arrived(Asking(c0, p, session), c0.nextQuery, r.answer)).(authority := r.after,
                         log := s.log + r.added);
    MemberSteps(answered, c, Members.Receive(Reject(0)), Refused(c0, p, session, code));
  }

  lemma AskedNext(c: Client, p: Proposal, s: Session)
    ensures c.nextQuery in Asking(c, p, s).asked && Asking(c, p, s).asked[c.nextQuery] == p
  {
  }

  // ---- Through a relay --------------------------------------------------

  /** The same over a session to a relay, which passes the proposal on and brings
      back the answer. */
  function Relayed(c: nat, p: Proposal, s: Session, now: Instant, e: Committed, sc: ProcessScript): seq<Move> {
    [MemberMove(c, Save(p, s)), MemberMove(c, Send), Submit(p, now, Clear()),
     MemberMove(c, Members.Receive(Accept(e))), MemberMove(c, Offer(sc)), MemberMove(c, Members.Clear)]
  }

  /** The member about to take the event that came back. */
  function Brought(c: Client, p: Proposal, s: Session, e: Committed): Client {
    c.(h := c.h.(db := c.h.db.(pending := Some(Row(p, s)))), made := c.made + {p}, submit := Offering(p, s, e))
  }

  /** The member waiting for the relay's answer. */
  function AskingRelay(c: Client, p: Proposal, s: Session): Client {
    c.(h := c.h.(db := c.h.db.(pending := Some(Row(p, s)))), made := c.made + {p}, submit := Waiting(p, s, true, None))
  }

  lemma AsksRelayAfterSaving(c: Client, p: Proposal, s: Session)
    requires c.submit.Quiet? && c.h.db.pending.None? && !Direct(s) && p.author == c.key
    requires VerifyAt(p, s.genesis.nodeKey).Ok?
    ensures SendStep(SaveStep(c, p, s)) == AskingRelay(c, p, s) && Exposed(SaveStep(c, p, s), Send) == {p}
  {
    hide VerifyAt;
  }

  lemma SentToRelay(s: System, c: nat, p: Proposal, session: Session)
    requires Idle(s, c) && !Direct(session) && NewProposal(s, c, p) && VerifyAt(p, session.genesis.nodeKey).Ok?
    ensures Next(Next(s, MemberMove(c, Save(p, session))), MemberMove(c, Send))
            == With(s, c, AskingRelay(s.clients[c], p, session)).(exposed := s.exposed + {p})
  {
    hide VerifyAt, SendStep, Contains;
    var c0 := s.clients[c];
    AsksRelayAfterSaving(c0, p, session);
    var s1 := Next(s, MemberMove(c, Save(p, session)));
    assert s1 == With(s, c, SaveStep(c0, p, session)) by { assert s.exposed + {} == s.exposed; }
    assert Next(s1, MemberMove(c, Send)).clients == s1.clients[c := AskingRelay(c0, p, session)];
  }

  lemma RelaySubmits(s: System, p: Proposal, now: Instant, e: Committed, after: Tables)
    requires p in s.exposed && Unix(now) > 0
    requires HandleSubmit(s.authority, p, now, Clear()) == Handling(after, [e], Accept(e))
    ensures Next(s, Submit(p, now, Clear())) == s.(authority := after, log := s.log + [e])
  {
    hide HandleSubmit;
  }

  lemma BroughtBack(s: System, c: nat, p: Proposal, session: Session, e: Committed, idle: Client)
    requires c in s.clients && s.clients[c] == AskingRelay(idle, p, session) && e in s.log && e.proposal == p
    ensures Next(s, MemberMove(c, Members.Receive(Accept(e)))) == With(s, c, Brought(idle, p, session, e))
  {
    hide With, Next;
    MemberSteps(s, c, Members.Receive(Accept(e)), Brought(idle, p, session, e));
  }

  lemma RelayedMoves(s: System, c: nat, p: Proposal, session: Session, now: Instant, e: Committed, after: Tables)
    requires Idle(s, c) && !Direct(session) && NewProposal(s, c, p) && VerifyAt(p, session.genesis.nodeKey).Ok?
    requires Unix(now) > 0 && e.proposal == p
    requires HandleSubmit(s.authority, p, now, Clear()) == Handling(after, [e], Accept(e))
    ensures var sent := Next(Next(s, MemberMove(c, Save(p, session))), MemberMove(c, Send));
            Next(Next(sent, Submit(p, now, Clear())), MemberMove(c, Members.Receive(Accept(e))))
            == With(s, c, Brought(s.clients[c], p, session, e)).(authority := after, log := s.log + [e],
                 exposed := s.exposed + {p})
  {
    hide HandleSubmit, VerifyAt, Next, Contains;
    SentToRelay(s, c, p, session);
    var asking := With(s, c, AskingRelay(s.clients[c], p, session)).(exposed := s.exposed + {p});
    RelaySubmits(asking, p, now, e, after);
    var s3 := asking.(authority := after, log := s.log + [e]);
    assert s3.log[|s.log|] == e;
    BroughtBack(s3, c, p, session, e, s.clients[c]);
  }

  /** ... ends the same way: committed, stored, cleared and reported as sent. */
  lemma RelayedSubmissionSucceeds(s: System, g: Genesis, c: nat, p: Proposal, session: Session, now: Instant,
                                  sc: ProcessScript)
    requires Reachable(s, g) && Idle(s, c) && NewProposal(s, c, p) && !Direct(session)
    requires s.clients[c].ingest.Ready? && s.clients[c].h.session == Some(session)
    requires RowsInOrder(s.clients[c].h.db) == s.log
    requires Unix(now) > 0 && CommitTx(s.authority, p, g.roomKey, now).Accepted? && sc.sync.deliveries == []
    ensures var e := CommitTx(s.authority, p, g.roomKey, now).commit;
            var done := Run(s, Relayed(c, p, session, now, e, sc));
            && c in done.clients && p in done.clients[c].succeeded && done.clients[c].h.db.pending.None?
            && done.log == s.log + [e] && RowsInOrder(done.clients[c].h.db) == done.log
            && done.clients[c].h.notified == s.clients[c].h.notified + (if sc.emitted then [|done.log|] else [])
  {
    hide Inv, CommitTx, Reachable, ClientOk, RelayOk, Represents, Covered, Next, Run, OfferStep, ClearStep;
    hide HandleSubmit;
    hide Apply, VerifyCommit, VerifyAt;
    ReachableInv(s, g);
    var e, after := CommitTx(s.authority, p, g.roomKey, now).commit, CommitTx(s.authority, p, g.roomKey, now).after;
    CommitIsNext(s, p, now, e, after);
    AcceptedIsAnswered(s.authority, p, now, e, after);
    SessionGenesis(s, c, session);
    RelayedMoves(s, c, p, session, now, e, after);
    var brought := With(s, c, Brought(s.clients[c], p, session, e)).(authority := after, log := s.log + [e],
                        exposed := s.exposed + {p});
    TakenAndCleared(brought, c, sc);
    InvParts(s, c);
    OfferedSucceeds(s.clients[c], Brought(s.clients[c], p, session, e), WorldOf(s), p, session, e, sc);
    CourseIsSix(s, Relayed(c, p, session, now, e, sc));
  }

  lemma InvParts(s: System, c: nat)
    requires Inv(s) && c in s.clients
    ensures WorldOk(WorldOf(s)) && ClientOk(s.clients[c], WorldOf(s))
  {
    WorldIsOk(s);
  }

  // ---- Sending again ----------------------------------------------------

  /** The moves of a later attempt. */
  function Resent(c: nat, q: nat, s: Session, now: Instant, sc: ProcessScript): seq<Move> {
    [MemberMove(c, Retry(s)), MemberMove(c, Send), Arrive(c, q, now, Clear()),
     MemberMove(c, Members.Receive(Reject(0))), MemberMove(c, Offer(sc)), MemberMove(c, Members.Clear)]
  }

  /** A member whose journaled proposal was committed, though it may not know. */
  ghost predicate Uncertain(s: System, c: nat, p: Proposal, session: Session) {
    && c in s.clients && Contains(s.log, p)
    && s.clients[c].submit.Quiet? && s.clients[c].ingest.Ready? && IsPending(s.clients[c], p)
    && s.clients[c].h.db.pending.value.genesisHash == GenesisHash(session.genesis) && p.author == s.clients[c].key
    && s.clients[c].h.session == Some(session) && Direct(session)
  }

  /** Only what an attempt leaves of the queries, and the event it goes on with. */
  ghost predicate AboutToTake(offered: Client, c: Client, p: Proposal, s: Session, log: seq<Committed>) {
    && offered.h == c.h && offered.ingest == c.ingest && offered.succeeded == c.succeeded
    && offered.submit.Offering? && offered.submit.p == p && offered.submit.s == s
    && offered.submit.e in log && offered.submit.e.proposal == p
  }

  /** The member asking again. */
  function AskingAgain(c: Client, p: Proposal, s: Session): Client {
    c.(asked := c.asked[c.nextQuery := p], nextQuery := c.nextQuery + 1,
       submit := Waiting(p, s, false, Some(c.nextQuery)))
  }

  lemma RetryGoesOn(c: Client, p: Proposal, s: Session)
    requires c.submit.Quiet? && IsPending(c, p) && p.author == c.key && VerifyAt(p, s.genesis.nodeKey).Ok?
    requires c.h.db.pending.value.genesisHash == GenesisHash(s.genesis) && Direct(s)
    ensures RetryStep(c, s) == c.(submit := Saved(p, s, false))
    ensures Exposed(c, Retry(s)) == {} && Exposed(RetryStep(c, s), Send) == {}
    ensures SendStep(RetryStep(c, s))
            == match Receipt(c)
               case Some(e) => Settle(c.(submit := Saved(p, s, false)), p, s, e)
               case None => AskingAgain(c, p, s)
  {
    hide VerifyAt;
  }

  lemma RetrySteps(s: System, c: nat, p: Proposal, session: Session, sent: Client)
    requires Uncertain(s, c, p, session) && VerifyAt(p, session.genesis.nodeKey).Ok?
    requires sent == SendStep(RetryStep(s.clients[c], session))
    ensures Next(Next(s, MemberMove(c, Retry(session))), MemberMove(c, Send)) == With(s, c, sent)
  {
    hide VerifyAt, SendStep, RetryStep, Next, With, Exposed;
    RetryGoesOn(s.clients[c], p, session);
    var s1 := With(s, c, RetryStep(s.clients[c], session));
    MemberSteps(s, c, Retry(session), RetryStep(s.clients[c], session));
    WithClient(s, c, RetryStep(s.clients[c], session), sent);
    MemberSteps(s1, c, Send, sent);
  }

  lemma WithClient(s: System, c: nat, a: Client, b: Client)
    ensures With(s, c, a).clients[c] == a && c in With(s, c, a).clients && With(With(s, c, a), c, b) == With(s, c, b)
    ensures With(s, c, a).authority == s.authority && With(s, c, a).log == s.log && With(s, c, a).exposed == s.exposed
  {
  }

  /** With a receipt there is nothing to ask: the answer moves do nothing. */
  lemma ResentFromReceipt(s: System, c: nat, p: Proposal, session: Session, now: Instant, e: Committed)
    requires Uncertain(s, c, p, session) && VerifyAt(p, session.genesis.nodeKey).Ok?
    requires Receipt(s.clients[c]) == Some(e) && e.proposal == p && s.clients[c].nextQuery !in s.clients[c].asked
    ensures var retried := Next(Next(s, MemberMove(c, Retry(session))), MemberMove(c, Send));
            Next(Next(retried, Arrive(c, s.clients[c].nextQuery, now, Clear())),
                 MemberMove(c, Members.Receive(Reject(0))))
            == With(s, c, s.clients[c].(submit := Offering(p, session, e)))
  {
    var c0 := s.clients[c];
    RetryGoesOn(c0, p, session);
    var offering := c0.(submit := Offering(p, session, e));
    hide Next, VerifyAt, SendStep, RetryStep, With;
    RetrySteps(s, c, p, session, offering);
    WithClient(s, c, offering, offering);
    NotAskedNothing(With(s, c, offering), c, c0.nextQuery, now);
    MemberSteps(With(s, c, offering), c, Members.Receive(Reject(0)), offering);
  }

  lemma NotAskedNothing(s: System, c: nat, q: nat, now: Instant)
    requires c in s.clients && q !in s.clients[c].asked
    ensures Next(s, Arrive(c, q, now, Clear())) == s
  {
  }

  lemma ReceiptMatches(c: Client, w: World, p: Proposal)
    requires ClientOk(c, w) && IsPending(c, p) && Receipt(c).Some?
    ensures Receipt(c).value in w.log && Receipt(c).value.proposal == p
    ensures c.nextQuery !in c.asked
  {
  }

  lemma RepeatedByName(s: System, p: Proposal, now: Instant)
    requires Inv(s) && Contains(s.log, p)
    ensures var r := HandleSubmit(s.authority, p, now, Clear());
            && r == Handling(s.authority, [], r.answer)
            && r.answer.Repeat? && r.answer.e in s.log && r.answer.e.proposal == p
  {
    hide CommitTx, VerifyProposal;
    WorldIsSound(s);
    IdRows(s.authority, s.log, p);
  }

  lemma TakenFromRepeat(c: Client, p: Proposal, s: Session, e: Committed)
    requires e.proposal == p
    ensures var after := ReceiveStep(Arrived(AskingAgain(c, p, s), c.nextQuery, Repeat(e)), Reject(0));
            && after.h == c.h && after.ingest == c.ingest && after.succeeded == c.succeeded
            && after.submit == Offering(p, s, e)
    ensures Exposed(Arrived(AskingAgain(c, p, s), c.nextQuery, Repeat(e)), Members.Receive(Reject(0))) == {}
  {
  }

  /** Without one the sequencer is asked, and repeats the event. */
  lemma ResentToSequencer(s: System, c: nat, p: Proposal, session: Session, now: Instant, e: Committed)
    requires Uncertain(s, c, p, session) && VerifyAt(p, session.genesis.nodeKey).Ok? && Unix(now) > 0
    requires HandleSubmit(s.authority, p, now, Clear()) == Handling(s.authority, [], Repeat(e)) && e.proposal == p
    requires Receipt(s.clients[c]).None?
    ensures var retried := Next(Next(s, MemberMove(c, Retry(session))), MemberMove(c, Send));
            var c0 := s.clients[c];
            Next(Next(retried, Arrive(c, c0.nextQuery, now, Clear())), MemberMove(c, Members.Receive(Reject(0))))
            == With(s, c, ReceiveStep(Arrived(AskingAgain(c0, p, session), c0.nextQuery, Repeat(e)), Reject(0)))
  {
    hide HandleSubmit, VerifyAt, SendStep, RetryStep, ReceiveStep, Arrived, With, Next, Contains, Exposed;
    var c0 := s.clients[c];
    RetryGoesOn(c0, p, session);
    var asking, q := AskingAgain(c0, p, session), c0.nextQuery;
    RetrySteps(s, c, p, session, asking);
    TakenFromRepeat(c0, p, session, e);
    var answered := Arrived(asking, q, Repeat(e));
    var after := ReceiveStep(answered, Reject(0));
    WithClient(s, c, asking, answered);
    QueryArrives(With(s, c, asking), c, q, now, Clear(), Handling(s.authority, [], Repeat(e)));
    assert s.log + [] == s.log;
    NothingMoved(s, c, answered);
    WithClient(s, c, answered, after);
    MemberSteps(With(s, c, answered), c, Members.Receive(Reject(0)), after);
  }

  lemma NothingMoved(s: System, c: nat, a: Client)
    ensures With(s, c, a).(authority := s.authority, log := s.log) == With(s, c, a)
  {
  }

  /** Sending a committed proposal again settles it, whatever became of the first
      answer and however far the member's rows are behind, over an honest session. */
  lemma ResentSubmissionSucceeds(s: System, g: Genesis, c: nat, p: Proposal, session: Session, now: Instant,
                                 sc: ProcessScript)
    requires Reachable(s, g) && Uncertain(s, c, p, session) && Unix(now) > 0
    requires VerifyGenesis(g, sc.sync.now) && Serving(sc.sync, g, s.log, |RowsInOrder(s.clients[c].h.db)|)
    ensures var done := Run(s, Resent(c, s.clients[c].nextQuery, session, now, sc));
            && c in done.clients && p in done.clients[c].succeeded && done.clients[c].h.db.pending.None?
            && done.log == s.log && Contains(RowsInOrder(done.clients[c].h.db), p)
  {
    hide Inv, Reachable, ClientOk, Next, Run, OfferStep, ClearStep, HandleSubmit, VerifyAt, Serving, RowsInOrder;
    hide Contains, With, ReceiveStep, Arrived;
    ReachableInv(s, g);
    SessionGenesis(s, c, session);
    StoredVerifies(s, p);
    InvParts(s, c);
    var c0 := s.clients[c];
    var offered;
    if Receipt(c0).Some? {
      ReceiptMatches(c0, WorldOf(s), p);
      offered := c0.(submit := Offering(p, session, Receipt(c0).value));
      ResentFromReceipt(s, c, p, session, now, Receipt(c0).value);
    } else {
      RepeatedByName(s, p, now);
      var e := HandleSubmit(s.authority, p, now, Clear()).answer.e;
      offered := ReceiveStep(Arrived(AskingAgain(c0, p, session), c0.nextQuery, Repeat(e)), Reject(0));
      TakenFromRepeat(c0, p, session, e);
      ResentToSequencer(s, c, p, session, now, e);
    }
    WithClient(s, c, offered, ClearStep(OfferStep(offered, sc)));
    WithClient(s, c, ClearStep(OfferStep(offered, sc)), offered);
    SettledAgain(c0, offered, WorldOf(s), p, session, sc);
    TakenAndCleared(With(s, c, offered), c, sc);
    CourseIsSix(s, Resent(c, c0.nextQuery, session, now, sc));
  }

  lemma StoredVerifies(s: System, p: Proposal)
    requires Inv(s) && Contains(s.log, p)
    ensures VerifyAt(p, s.authority.genesis.nodeKey).Ok?
  {
    LogIsGood(s);
    hide Inv, Chained, UniqueIds, VerifyAt;
    FoldDescribes(s.authority.genesis, s.log);
    var i :| 0 <= i < |s.log| && s.log[i].proposal == p;
    assert s.log[i] in s.log;
  }

  lemma SettledAgain(c: Client, offered: Client, w: World, p: Proposal, s: Session, sc: ProcessScript)
    requires WorldOk(w) && ClientOk(c, w) && c.ingest.Ready? && c.h.session == Some(s) && IsPending(c, p)
    requires AboutToTake(offered, c, p, s, w.log)
    requires VerifyGenesis(w.genesis, sc.sync.now) && Serving(sc.sync, w.genesis, w.log, |RowsInOrder(c.h.db)|)
    ensures var done := ClearStep(OfferStep(offered, sc));
            p in done.succeeded && done.h.db.pending.None? && Contains(RowsInOrder(done.h.db), p)
    ensures RealSync(w, sc.sync)
  {
    hide RowsInOrder, OfferStep, ClearStep, Rooms.ProcessCanonical, QueriesOk, OutcomesOk, PhaseOk, Healthy;
    hide NotifiedInOrder, Closes, Contains;
    var e := offered.submit.e;
    ReadyIsLive(c, w);
    OneGenesis(c, w, s);
    LogEventIsDurable(c.h, s, e, sc, w.log);
    DurableIffStored(c.h, s, e, sc);
    ProcessKeeps(c.h, s, e, sc);
    OfferedIsCleared(offered, p, s, e, sc);
    StoredContains(RowsInOrder(Rooms.ProcessCanonical(c.h, s, e, sc).after.db), e);
    assert forall i :: 0 <= i < |sc.sync.deliveries| ==> sc.sync.deliveries[i].e in w.log;
  }

  lemma OneGenesis(c: Client, w: World, s: Session)
    requires ClientOk(c, w) && Live(c.h) && c.h.session == Some(s)
    ensures s.genesis == w.genesis && Sane(c.h) && RowsInOrder(c.h.db) <= w.log
  {
  }

  lemma TakenAndCleared(s: System, c: nat, sc: ProcessScript)
    requires c in s.clients && RealSync(WorldOf(s), sc.sync)
    ensures Next(Next(s, MemberMove(c, Offer(sc))), MemberMove(c, Members.Clear))
            == With(s, c, ClearStep(OfferStep(s.clients[c], sc)))
  {
    hide OfferStep, ClearStep, RealSync, Next, With;
    var offered := OfferStep(s.clients[c], sc);
    MemberSteps(s, c, Offer(sc), offered);
    WithClient(s, c, offered, ClearStep(offered));
    MemberSteps(With(s, c, offered), c, Members.Clear, ClearStep(offered));
  }

  lemma CourseIsFour(s: System, m: seq<Move>)
    requires |m| == 4
    ensures Run(s, m) == Next(Next(Next(Next(s, m[0]), m[1]), m[2]), m[3])
  {
    hide Next;
    assert m[..3][..2] == m[..2] && m[..2][..1] == m[..1] && m[..1][..0] == [];
    assert Run(s, m[..1]) == Next(s, m[0]);
    assert Run(s, m[..2]) == Next(Run(s, m[..1]), m[1]);
    assert Run(s, m[..3]) == Next(Run(s, m[..2]), m[2]);
  }

  lemma CourseIsSix(s: System, m: seq<Move>)
    requires |m| == 6
    ensures Run(s, m) == Next(Next(Next(Next(Next(Next(s, m[0]), m[1]), m[2]), m[3]), m[4]), m[5])
  {
    hide Next;
    assert m[..5][..4] == m[..4] && m[..4][..3] == m[..3] && m[..3][..2] == m[..2] && m[..2][..1] == m[..1]
        && m[..1][..0] == [];
    assert Run(s, m[..1]) == Next(s, m[0]);
    assert Run(s, m[..2]) == Next(Run(s, m[..1]), m[1]);
    assert Run(s, m[..3]) == Next(Run(s, m[..2]), m[2]);
    assert Run(s, m[..4]) == Next(Run(s, m[..3]), m[3]);
    assert Run(s, m[..5]) == Next(Run(s, m[..4]), m[4]);
  }
}
