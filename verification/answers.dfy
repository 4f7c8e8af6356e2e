// What the sequencer answers to one submission, for every submission: the answer is
// read off the log it stands for, with the codes as numbers of the wire protocol.
module SubmissionAnswers {
  import opened Wrappers
  import opened Ordered
  import opened Community
  import opened Replay
  import opened Histories
  import opened Tables
  import opened Refinement
  import opened Authority
  import opened Members
  import opened Systems

  /** The author's nonce is still remembered. */
  predicate NonceTaken(t: Tables, p: Proposal, now: Instant) {
    var k := NonceKey(p.author, p.nonce);
    k in t.nonces && t.nonces[k] > Unix(now)
  }

  /** The code for an event that may not have its effect. The tables test the limit
      before the conflict. */
  function RefusalCode(roomKey: Key, c: Content, log: seq<Committed>, body: Body): int {
    match body
    case Pin(id) => if !MessageAt(log, id) then 7 else if |c.pins| >= 100 then 9 else 8
    case Unpin(_) => 7
    case AdminGrant(key) => if key != roomKey && |c.admins| >= 64 then 9 else 8
    case ModeratorGrant(key) => if key != roomKey && |c.moderators| >= 256 then 9 else 8
    case _ => 8
  }

  // ---- The transaction --------------------------------------------------

  lemma RowsAnswer(roomKey: Key, r: Rows, messages: map<int, Committed>, log: seq<Committed>, e: Committed)
    requires roomKey !in ContentOf(r).admins && roomKey !in ContentOf(r).moderators
    requires forall id :: id in messages <==> MessageAt(log, id)
    ensures var c := ContentOf(r);
            match ApplyRows(roomKey, r, messages, e)
            case Ok(_) => Effective(roomKey, c, log, e.proposal.body)
            case Err(code) =>
              !Effective(roomKey, c, log, e.proposal.body) && code == RefusalCode(roomKey, c, log, e.proposal.body)
  {
    AscendingMembers(r.admins.Keys);
    AscendingMembers(r.moderators.Keys);
    AscendingMembers(r.pins.Keys);
    assert |r.admins| == |r.admins.Keys| && |r.moderators| == |r.moderators.Keys| && |r.pins| == |r.pins.Keys|;
  }

  /** A candidate is recorded if its effect is possible, and otherwise refused with
      the code of its effect. */
  lemma RecordAnswers(t: Tables, log: seq<Committed>, e: Committed, now: Instant)
    requires Represents(t, log)
    requires VerifyCommit(e, t.genesis.roomKey, t.genesis.nodeKey).Ok?
    requires Follows(Projected(t.genesis, log), e) && !Contains(log, e.proposal)
    requires Authorized(t.genesis.roomKey, ContentOf(t.rows), e.proposal)
    requires NonceKey(e.proposal.author, e.proposal.nonce) !in t.nonces
    ensures var c, body := Projected(t.genesis, log).content, e.proposal.body;
            match RecordCommit(t, t.genesis.roomKey, e, now)
            case Ok(_) => Effective(t.genesis.roomKey, c, log, body)
            case Err(code) =>
              !Effective(t.genesis.roomKey, c, log, body) && code == RefusalCode(t.genesis.roomKey, c, log, body)
  {
    hide RecordCommit, InsertEvent, ApplyRows, ApplyTables, Apply, VerifyCommit, Authorized, Effective, RefusalCode;
    hide UniqueIds, EventTable, MessageTable, Permitted, StateMatches;
    RowsOfLog(t, log);
    RecordAgrees(t, log, e, now);
    InsertAtHead(t, log, e);
    RowsAnswer(t.genesis.roomKey, t.rows, t.messages, log, e);
    NextIsAcceptedIff(t.genesis, log, e);
    PermittedIff(t.genesis.roomKey, ContentOf(t.rows), e.proposal);
    if RecordCommit(t, t.genesis.roomKey, e, now).Err? { RecordedCode(t, log, e, now); }
  }

  lemma RowsOfLog(t: Tables, log: seq<Committed>)
    requires Represents(t, log)
    ensures ValidGenesis(t.genesis) && ContentOf(t.rows) == Projected(t.genesis, log).content
    ensures t.genesis.roomKey !in ContentOf(t.rows).admins && t.genesis.roomKey !in ContentOf(t.rows).moderators
    ensures forall id :: id in t.messages <==> MessageAt(log, id)
    ensures Projected(t.genesis, log).headSeq == |log| && Projected(t.genesis, log).headHash == HeadHash(log)
  {
    MessagesOfLog(t, log);
  }

  /** The only way to fail is the effect on the rows. */
  lemma RecordedCode(t: Tables, log: seq<Committed>, e: Committed, now: Instant)
    requires InsertEvent(t, e) == Ok(t.(events := EventTable(log + [e])))
    requires RecordCommit(t, t.genesis.roomKey, e, now).Err?
    requires RecordCommit(t, t.genesis.roomKey, e, now).error != REJECT_PERSISTENCE_FAILURE
    ensures !IsMessage(e)
    ensures ApplyRows(t.genesis.roomKey, t.rows, t.messages, e)
            == Err(RecordCommit(t, t.genesis.roomKey, e, now).error)
  {
    hide ApplyRows, SignRoomState, InsertEvent;
  }

  /** What one commit attempt answers. */
  lemma CommitAnswers(t: Tables, log: seq<Committed>, p: Proposal, now: Instant)
    requires Represents(t, log) && Covered(t, log) && Unix(now) > 0 && !Contains(log, p)
    requires p.roomId == t.genesis.roomKey && VerifyProposal(p, t.genesis.nodeKey, now).Ok?
    ensures var r, g, c := CommitTx(t, p, t.genesis.roomKey, now), t.genesis, Projected(t.genesis, log).content;
            if NonceTaken(t, p, now) then r == Rejected(4)
            else if !Permitted(g.roomKey, c, p) then r == Rejected(6)
            else if !Effective(g.roomKey, c, log, p.body) then r == Rejected(RefusalCode(g.roomKey, c, log, p.body))
            else r.Accepted? && r.commit == Candidate(g, log, p, now)
  {
    hide RecordCommit, VerifyProposal, Permitted, Effective, RefusalCode, Authorized, VerifyCommit;
    IdRows(t, log, p);
    if !NonceTaken(t, p, now) {
      CommitUnfolds(t, log, p, now);
      PermittedIff(t.genesis.roomKey, Projected(t.genesis, log).content, p);
      var t0 := t.(nonces := LiveNonces(t.nonces, now));
      if Permitted(t.genesis.roomKey, Projected(t.genesis, log).content, p) {
        RecordAnswers(t0, log, Candidate(t.genesis, log, p, now), now);
      }
    }
  }

  // ---- The submission ---------------------------------------------------

  /** The connection is bound to the author, the database can be read, and the
      proposal is not stored yet. */
  ghost predicate Fresh(log: seq<Committed>, p: Proposal, w: Weather) {
    w.bound && w.readable && !Contains(log, p)
  }

  /** ... it is a valid proposal for this room ... */
  ghost predicate Valid(g: Genesis, log: seq<Committed>, p: Proposal, now: Instant, w: Weather) {
    Fresh(log, p, w) && p.roomId == g.roomKey && VerifyProposal(p, g.nodeKey, now).Ok?
  }

  /** ... whose domain, if it claims one, is the author's ... */
  ghost predicate Named(g: Genesis, log: seq<Committed>, p: Proposal, now: Instant, w: Weather) {
    Valid(g, log, p, now, w) && (p.authorDomain == "" || w.domainOk)
  }

  /** ... with an unused nonce, by an author who may do this, with an effect. */
  ghost predicate Acceptable(t: Tables, log: seq<Committed>, p: Proposal, now: Instant, w: Weather)
    requires Represents(t, log)
  {
    var c := Projected(t.genesis, log).content;
    && Named(t.genesis, log, p, now, w) && !NonceTaken(t, p, now)
    && Permitted(t.genesis.roomKey, c, p) && Effective(t.genesis.roomKey, c, log, p.body)
  }

  /** The sequencer commits exactly the acceptable submissions, when its database
      does. */
  lemma SubmissionCommitsIff(t: Tables, log: seq<Committed>, p: Proposal, now: Instant, w: Weather)
    requires Represents(t, log) && Covered(t, log) && Unix(now) > 0
    ensures var r := HandleSubmit(t, p, now, w);
            && (r.added != [] <==> Acceptable(t, log, p, now, w) && w.durable)
            && (r.added != [] ==> r.added == [Candidate(t.genesis, log, p, now)])
            && (r.added == [] ==> r.after == t)
            && (r.answer.Accept? <==> Acceptable(t, log, p, now, w) && w.durable && w.reported)
  {
    hide CommitTx, VerifyProposal, Permitted, Effective, Represents, Covered;
    IdRows(t, log, p);
    if Named(t.genesis, log, p, now, w) { CommitAnswers(t, log, p, now); }
    NewIsRejectedOrAccepted(t, log, p, now);
  }

  lemma NewIsRejectedOrAccepted(t: Tables, log: seq<Committed>, p: Proposal, now: Instant)
    requires Represents(t, log)
    ensures CommitTx(t, p, t.genesis.roomKey, now).Duplicate? ==> Contains(log, p)
  {
    IdRows(t, log, p);
  }

  /** The answer to every other submission, in the order of the checks. */
  lemma SubmissionIsAnswered(t: Tables, log: seq<Committed>, p: Proposal, now: Instant, w: Weather)
    requires Represents(t, log) && Covered(t, log) && Unix(now) > 0
    ensures var a, g, c := HandleSubmit(t, p, now, w).answer, t.genesis, Projected(t.genesis, log).content;
            && (!w.bound ==> a == Reject(6))
            && (w.bound && !w.readable ==> a == Reject(10))
            && (w.bound && w.readable && Contains(log, p) ==> a.Repeat? && a.e in log && a.e.proposal == p)
            && (Fresh(log, p, w) && p.roomId != g.roomKey ==> a == Reject(2))
            && (Fresh(log, p, w) && p.roomId == g.roomKey ==>
                  (VerifyProposal(p, g.nodeKey, now) == Err(BadTimestamp) ==> a == Reject(3))
                  && (VerifyProposal(p, g.nodeKey, now).Err? && VerifyProposal(p, g.nodeKey, now).error != BadTimestamp
                      ==> a == Reject(5)))
            && (Valid(g, log, p, now, w) && p.authorDomain != "" && !w.domainOk ==> a == Reject(15))
            && (Named(g, log, p, now, w) ==>
                  if NonceTaken(t, p, now) then a == Reject(4)
                  else if !Permitted(g.roomKey, c, p) then a == Reject(6)
                  else if !Effective(g.roomKey, c, log, p.body) then a == Reject(RefusalCode(g.roomKey, c, log, p.body))
                  else if !w.durable || !w.reported then a == Reject(10)
                  else a == Accept(Candidate(g, log, p, now)))
  {
    hide CommitTx, VerifyProposal, Permitted, Effective, RefusalCode, Represents, Covered;
    IdRows(t, log, p);
    if Named(t.genesis, log, p, now, w) { CommitAnswers(t, log, p, now); }
  }
}
