// Runs of the sequencer's database: a fresh room and then any sequence of commit
// attempts.
module Authority {
  import opened Wrappers
  import opened Ordered
  import opened Community
  import opened Replay
  import opened Tables
  import opened Refinement
  import opened Auditing
  import opened Replica

  /** The commit that would carry `p` after `log`. */
  function Candidate(g: Genesis, log: seq<Committed>, p: Proposal, now: Instant): Committed {
    Committed(|log| + 1, if p.body.Message? then |log| + 1 else 0, HeadHash(log), p, Unix(now), By(g.roomKey))
  }

  lemma CandidateVerifies(g: Genesis, log: seq<Committed>, p: Proposal, now: Instant)
    requires p.roomId == g.roomKey && VerifyProposal(p, g.nodeKey, now).Ok? && Unix(now) > 0
    ensures VerifyCommit(Candidate(g, log, p, now), g.roomKey, g.nodeKey).Ok?
  {
  }

  // ---- One commit -------------------------------------------------------

  /** The snapshot over tables that stand for an applied event always gets
      signed, and the signature covers the grown log. */
  lemma SnapshotIsSigned(t: Tables, log: seq<Committed>, e: Committed, rows: Rows)
    requires Represents(t, log) && Apply(Projected(t.genesis, log), e).Ok? && !IsMessage(e)
    requires ContentOf(rows) == Apply(Projected(t.genesis, log), e).value.content
    ensures var s := RoomState(t.genesis.roomKey, e.seqno, CommitHash(e), ContentOf(rows), Malformed);
            SignRoomState(t.genesis.roomKey, s) == Ok(s.(signature := By(t.genesis.roomKey)))
            && StateMatches(Apply(Projected(t.genesis, log), e).value, s.(signature := By(t.genesis.roomKey)))
  {
    MessagesOfLog(t, log);
    ApplyDescribes(Projected(t.genesis, log), t.genesis, log, e);
    SignCanonicalState(t.genesis.roomKey, RoomState(t.genesis.roomKey, e.seqno, CommitHash(e), ContentOf(rows),
        Malformed));
  }

  /** Recording a verified, contiguous, authorized and new event fails only where
      the projection refuses it, and never for a persistence reason. */
  lemma RecordAgrees(t: Tables, log: seq<Committed>, e: Committed, now: Instant)
    requires Represents(t, log)
    requires VerifyCommit(e, t.genesis.roomKey, t.genesis.nodeKey).Ok?
    requires Follows(Projected(t.genesis, log), e) && !Contains(log, e.proposal)
    requires Authorized(t.genesis.roomKey, ContentOf(t.rows), e.proposal)
    requires NonceKey(e.proposal.author, e.proposal.nonce) !in t.nonces
    ensures RecordCommit(t, t.genesis.roomKey, e, now).Ok? <==> Apply(Projected(t.genesis, log), e).Ok?
    ensures RecordCommit(t, t.genesis.roomKey, e, now).Err? ==>
              RecordCommit(t, t.genesis.roomKey, e, now).error != REJECT_PERSISTENCE_FAILURE
  {
    MessagesOfLog(t, log);
    InsertAtHead(t, log, e);
    RowsAgree(t, log, e);
    var t1 := t.(events := EventTable(log + [e]));
    match ApplyTables(t1, e)
    case Err(code) => RefusalCodes(t1, log, e);
    case Ok(t2) =>
      RowsRefine(t, log, e, t2);
      ApplyTablesFrame(t1, log, e, t2);
      if !IsMessage(e) { SnapshotIsSigned(t, log, e, t2.rows); }
  }

  lemma RefusalCodes(t: Tables, log: seq<Committed>, e: Committed)
    requires t.messages == MessageTable(log) && (IsMessage(e) ==> e.messageId == |log| + 1)
    requires ApplyTables(t, e).Err?
    ensures ApplyTables(t, e).error != REJECT_PERSISTENCE_FAILURE
  {
  }

  /** What a recorded commit leaves in the tables. */
  lemma RecordRefines(t: Tables, log: seq<Committed>, e: Committed, now: Instant, after: Tables)
    requires Represents(t, log) && Covered(t, log)
    requires VerifyCommit(e, t.genesis.roomKey, t.genesis.nodeKey).Ok?
    requires Follows(Projected(t.genesis, log), e) && !Contains(log, e.proposal)
    requires Authorized(t.genesis.roomKey, ContentOf(t.rows), e.proposal)
    requires NonceKey(e.proposal.author, e.proposal.nonce) !in t.nonces
    requires RecordCommit(t, t.genesis.roomKey, e, now) == Ok(after)
    ensures Apply(Projected(t.genesis, log), e).Ok?
    ensures after.genesis == t.genesis
    ensures Represents(after, log + [e]) && Covered(after, log + [e])
    ensures after.nonces == t.nonces[NonceKey(e.proposal.author,
              e.proposal.nonce) := Unix(now) + NONCE_RETENTION_SECONDS]
  {
    RecordAgrees(t, log, e, now);
    MessagesOfLog(t, log);
    InsertAtHead(t, log, e);
    var t1 := t.(events := EventTable(log + [e]));
    var t2 := ApplyTables(t1, e).value;
    RowsRefine(t, log, e, t2);
    ApplyTablesFrame(t1, log, e, t2);
    if !IsMessage(e) { SnapshotIsSigned(t, log, e, t2.rows); }
    RepresentsGrown(after, log, e);
    FoldAppend(t.genesis, log, e);
  }

  /** The checks before recording, as the sequencer orders them. */
  ghost predicate Admitted(t: Tables, log: seq<Committed>, p: Proposal, now: Instant)
    requires Represents(t, log)
  {
    && !Contains(log, p)
    && p.roomId == t.genesis.roomKey
    && VerifyProposal(p, t.genesis.nodeKey, now).Ok?
    && NonceKey(p.author, p.nonce) !in LiveNonces(t.nonces, now)
  }

  lemma CommitUnfolds(t: Tables, log: seq<Committed>, p: Proposal, now: Instant)
    requires Represents(t, log) && Covered(t, log) && Unix(now) > 0
    requires Admitted(t, log, p, now)
    ensures var t0 := t.(nonces := LiveNonces(t.nonces, now));
            var e := Candidate(t.genesis, log, p, now);
            && Represents(t0, log) && Covered(t0, log)
            && VerifyCommit(e, t.genesis.roomKey, t.genesis.nodeKey).Ok?
            && Follows(Projected(t.genesis, log), e)
            && CommitTx(t, p, t.genesis.roomKey, now)
               == (if !Authorized(t.genesis.roomKey, ContentOf(t.rows), p) then Rejected(REJECT_PERMISSION_DENIED)
                   else match RecordCommit(t0, t.genesis.roomKey, e, now)
                        case Err(code) => Rejected(code)
                        case Ok(after) => Accepted(e, after))
  {
    IdRows(t, log, p);
    MessagesOfLog(t, log);
    AuthorizationRefines(t.genesis.roomKey, t.rows, p);
    CandidateVerifies(t.genesis, log, p, now);
  }

  /** The sequencer commits exactly the new, admitted proposals whose commit the
      projection of its log applies; with the right key it never rejects for a
      persistence reason, so the snapshot signature cannot fail. */
  lemma CommitAcceptsIff(t: Tables, log: seq<Committed>, p: Proposal, now: Instant)
    requires Represents(t, log) && Covered(t, log) && Unix(now) > 0
    ensures CommitTx(t, p, t.genesis.roomKey, now).Accepted? <==>
              Admitted(t, log, p, now) && Apply(Projected(t.genesis, log), Candidate(t.genesis, log, p, now)).Ok?
    ensures CommitTx(t, p, t.genesis.roomKey, now).Duplicate? <==> Contains(log, p)
    ensures CommitTx(t, p, t.genesis.roomKey, now).Rejected? ==>
              CommitTx(t, p, t.genesis.roomKey, now).code != REJECT_PERSISTENCE_FAILURE
  {
    IdRows(t, log, p);
    if Admitted(t, log, p, now) {
      CommitUnfolds(t, log, p, now);
      var t0 := t.(nonces := LiveNonces(t.nonces, now));
      var e := Candidate(t.genesis, log, p, now);
      if Authorized(t.genesis.roomKey, ContentOf(t.rows), p) {
        RecordAgrees(t0, log, e, now);
      }
    }
  }

  /** A commit extends the represented log by its own event under a covering
      signature. */
  lemma CommitRefines(t: Tables, log: seq<Committed>, p: Proposal, now: Instant)
    requires Represents(t, log) && Covered(t, log) && Unix(now) > 0
    ensures match CommitTx(t, p, t.genesis.roomKey, now)
            case Rejected(_) => !Contains(log, p)
            case Duplicate(e) => e in log && e.proposal == p
            case Accepted(e, after) =>
              && e == Candidate(t.genesis, log, p, now)
              && !Contains(log, p)
              && Apply(Projected(t.genesis, log), e).Ok?
              && after.genesis == t.genesis
              && Represents(after, log + [e]) && Covered(after, log + [e])
              && after.nonces == LiveNonces(t.nonces, now)[NonceKey(p.author,
                   p.nonce) := Unix(now) + NONCE_RETENTION_SECONDS]
  {
    IdRows(t, log, p);
    CommitAcceptsIff(t, log, p, now);
    if Admitted(t, log, p, now) {
      CommitUnfolds(t, log, p, now);
      var t0 := t.(nonces := LiveNonces(t.nonces, now));
      var e := Candidate(t.genesis, log, p, now);
      match CommitTx(t, p, t.genesis.roomKey, now)
      case Accepted(_, after) => RecordRefines(t0, log, e, now, after);
      case _ =>
    }
  }

  /** Every new commit is inserted by any replica standing for the same log. */
  lemma CommitIsReplicable(t: Tables, r: Tables, log: seq<Committed>, p: Proposal, now: Instant)
    requires Represents(t, log) && Covered(t, log) && Unix(now) > 0
    requires Represents(r, log) && r.genesis == t.genesis
    requires CommitTx(t, p, t.genesis.roomKey, now).Accepted?
    ensures var a := AppendTx(r, CommitTx(t, p, t.genesis.roomKey, now).commit);
            a.Ok? && a.value.inserted
  {
    CommitRefines(t, log, p, now);
    AppendAgreesWithApply(r, log, CommitTx(t, p, t.genesis.roomKey, now).commit);
  }

  // ---- Runs -------------------------------------------------------------

  datatype Attempt = Attempt(p: Proposal, at: Instant)

  ghost function NewAuthority(g: Genesis): Tables {
    InitialTables(g, UnsignedInitialState(g).(signature := By(g.roomKey)))
  }

  ghost function AuthorityRun(g: Genesis, ops: seq<Attempt>): Tables {
    if ops == [] then NewAuthority(g)
    else
      var t := AuthorityRun(g, ops[..|ops| - 1]);
      var op := ops[|ops| - 1];
      AfterCommit(t, CommitTx(t, op.p, g.roomKey, op.at))
  }

  /** The log after a run. */
  ghost function AuthorityLog(g: Genesis, ops: seq<Attempt>): seq<Committed> {
    if ops == [] then []
    else
      var log := AuthorityLog(g, ops[..|ops| - 1]);
      var op := ops[|ops| - 1];
      match CommitTx(AuthorityRun(g, ops[..|ops| - 1]), op.p, g.roomKey, op.at)
      case Accepted(e, _) => log + [e]
      case _ => log
  }

  predicate PositiveTimes(ops: seq<Attempt>) {
    forall i :: 0 <= i < |ops| ==> Unix(ops[i].at) > 0
  }

  lemma {:induction false} AuthorityRepresents(g: Genesis, ops: seq<Attempt>)
    requires ValidGenesis(g) && PositiveTimes(ops)
    ensures AuthorityRun(g, ops).genesis == g
    ensures Represents(AuthorityRun(g, ops), AuthorityLog(g, ops))
    ensures Covered(AuthorityRun(g, ops), AuthorityLog(g, ops))
  {
    if ops == [] {
      NewReplicaRepresents(g, UnsignedInitialState(g).(signature := By(g.roomKey)));
    } else {
      var front, op := ops[..|ops| - 1], ops[|ops| - 1];
      AuthorityRepresents(g, front);
      CommitRefines(AuthorityRun(g, front), AuthorityLog(g, front), op.p, op.at);
    }
  }

  /** Every authority database reached by commits passes the full audit. */
  lemma AuthorityAuditPasses(g: Genesis, ops: seq<Attempt>, now: Instant)
    requires VerifyGenesis(g, now) && PositiveTimes(ops)
    ensures Sound(AuthorityRun(g, ops), now)
  {
    AuthorityRepresents(g, ops);
    SoundIffCovered(AuthorityRun(g, ops), AuthorityLog(g, ops), now);
  }

  // ---- The nonce window -------------------------------------------------

  predicate SameNonce(a: Committed, b: Committed) {
    a.proposal.author == b.proposal.author && a.proposal.nonce == b.proposal.nonce
  }

  /** Two uses of one author's nonce are a retention period apart. */
  predicate NoncesSpaced(log: seq<Committed>) {
    forall i, j :: 0 <= i < j < |log| && SameNonce(log[i], log[j]) ==>
      log[j].committedAt - log[i].committedAt >= NONCE_RETENTION_SECONDS
  }

  predicate StampedInWindow(log: seq<Committed>) {
    forall i :: 0 <= i < |log| ==>
      -CLOCK_SKEW_SECONDS <= log[i].proposal.timestamp - log[i].committedAt <= CLOCK_SKEW_SECONDS
  }

  /** Every use of a nonce is either still in the table or already aged out. */
  predicate NoncesRecorded(nonces: map<NonceKey, int>, log: seq<Committed>, clock: int) {
    forall i :: 0 <= i < |log| ==> NonceRecorded(nonces, log[i], clock)
  }

  predicate NonceRecorded(nonces: map<NonceKey, int>, e: Committed, clock: int) {
    var k := NonceKey(e.proposal.author, e.proposal.nonce);
    var expiry := e.committedAt + NONCE_RETENTION_SECONDS;
    expiry <= clock || (k in nonces && nonces[k] >= expiry)
  }

  predicate NonDecreasing(ops: seq<Attempt>) {
    forall i, j :: 0 <= i < j < |ops| ==> ops[i].at <= ops[j].at
  }

  function Clock(ops: seq<Attempt>): int {
    if ops == [] then 0 else Unix(ops[|ops| - 1].at)
  }

  lemma StampOfAdmitted(p: Proposal, nodeKey: Key, now: Instant)
    requires VerifyProposal(p, nodeKey, now).Ok?
    ensures -CLOCK_SKEW_SECONDS <= p.timestamp - Unix(now) <= CLOCK_SKEW_SECONDS
  {
  }

  lemma NonceStep(nonces: map<NonceKey, int>, log: seq<Committed>, clock: int, e: Committed, now: Instant)
    requires NoncesRecorded(nonces, log, clock) && clock <= Unix(now) == e.committedAt
    requires NonceKey(e.proposal.author, e.proposal.nonce) !in LiveNonces(nonces, now)
    ensures forall i :: 0 <= i < |log| && SameNonce(log[i], e) ==>
              e.committedAt - log[i].committedAt >= NONCE_RETENTION_SECONDS
    ensures NoncesRecorded(
              LiveNonces(nonces, now)[NonceKey(e.proposal.author,
                  e.proposal.nonce) := Unix(now) + NONCE_RETENTION_SECONDS],
              log + [e], Unix(now))
  {
    var k := NonceKey(e.proposal.author, e.proposal.nonce);
    var live := LiveNonces(nonces, now);
    var after := live[k := Unix(now) + NONCE_RETENTION_SECONDS];
    forall i | 0 <= i < |log|
      ensures NonceRecorded(after, log[i], Unix(now))
      ensures SameNonce(log[i], e) ==> e.committedAt - log[i].committedAt >= NONCE_RETENTION_SECONDS
    {
      assert NonceRecorded(nonces, log[i], clock);
    }
  }

  predicate NonceHistory(nonces: map<NonceKey, int>, log: seq<Committed>, clock: int) {
    NoncesRecorded(nonces, log, clock) && NoncesSpaced(log) && StampedInWindow(log)
  }

  lemma HistoryGrows(nonces: map<NonceKey, int>, log: seq<Committed>, clock: int, e: Committed, now: Instant)
    requires NonceHistory(nonces, log, clock) && clock <= Unix(now) == e.committedAt
    requires NonceKey(e.proposal.author, e.proposal.nonce) !in LiveNonces(nonces, now)
    requires -CLOCK_SKEW_SECONDS <= e.proposal.timestamp - e.committedAt <= CLOCK_SKEW_SECONDS
    ensures NonceHistory(
              LiveNonces(nonces, now)[NonceKey(e.proposal.author,
                  e.proposal.nonce) := Unix(now) + NONCE_RETENTION_SECONDS],
              log + [e], Unix(now))
  {
    NonceStep(nonces, log, clock, e, now);
  }

  lemma HistoryAges(nonces: map<NonceKey, int>, log: seq<Committed>, clock: int, later: int)
    requires NonceHistory(nonces, log, clock) && clock <= later
    ensures NonceHistory(nonces, log, later)
  {
    forall i | 0 <= i < |log| ensures NonceRecorded(nonces, log[i], later) {
      assert NonceRecorded(nonces, log[i], clock);
    }
  }

  lemma CommitKeepsHistory(t: Tables, log: seq<Committed>, p: Proposal, now: Instant, clock: int)
    requires Represents(t, log) && Covered(t, log) && Unix(now) > 0 && clock <= Unix(now)
    requires NonceHistory(t.nonces, log, clock)
    ensures match CommitTx(t, p, t.genesis.roomKey, now)
            case Accepted(e, after) => NonceHistory(after.nonces, log + [e], Unix(now))
            case _ => NonceHistory(t.nonces, log, Unix(now))
  {
    CommitRefines(t, log, p, now);
    CommitAcceptsIff(t, log, p, now);
    match CommitTx(t, p, t.genesis.roomKey, now)
    case Accepted(e, after) =>
      StampOfAdmitted(p, t.genesis.nodeKey, now);
      HistoryGrows(t.nonces, log, clock, e, now);
    case _ => HistoryAges(t.nonces, log, clock, Unix(now));
  }

  lemma {:induction false} NonceInvariant(g: Genesis, ops: seq<Attempt>)
    requires ValidGenesis(g) && PositiveTimes(ops) && NonDecreasing(ops)
    ensures NonceHistory(AuthorityRun(g, ops).nonces, AuthorityLog(g, ops), Clock(ops))
  {
    if ops == [] {
    } else {
      var front, op := ops[..|ops| - 1], ops[|ops| - 1];
      NonceInvariant(g, front);
      AuthorityRepresents(g, front);
      assert Clock(front) <= Unix(op.at);
      CommitKeepsHistory(AuthorityRun(g, front), AuthorityLog(g, front), op.p, op.at, Clock(front));
    }
  }

  /** In every run under a clock that does not go back, two commits by one author
      under one nonce are a day apart, and their own timestamps a day less twice
      the clock skew. */
  lemma NonceWindow(g: Genesis, ops: seq<Attempt>, i: nat, j: nat)
    requires ValidGenesis(g) && PositiveTimes(ops) && NonDecreasing(ops)
    requires i < j < |AuthorityLog(g, ops)| && SameNonce(AuthorityLog(g, ops)[i], AuthorityLog(g, ops)[j])
    ensures AuthorityLog(g, ops)[j].committedAt - AuthorityLog(g, ops)[i].committedAt >= 86400
    ensures AuthorityLog(g, ops)[j].proposal.timestamp - AuthorityLog(g, ops)[i].proposal.timestamp >= 85800
  {
    NonceInvariant(g, ops);
  }

  /** Event `i` used this nonce and keeps it until `expiry`. */
  predicate UsedUntil(log: seq<Committed>, i: nat, k: NonceKey, expiry: int) {
    && i < |log| && NonceKey(log[i].proposal.author, log[i].proposal.nonce) == k
    && log[i].committedAt + NONCE_RETENTION_SECONDS == expiry
  }

  /** Every remembered nonce was used by an event. */
  ghost predicate NoncesUsed(nonces: map<NonceKey, int>, log: seq<Committed>) {
    forall k :: k in nonces ==> exists i: nat :: UsedUntil(log, i, k, nonces[k])
  }

  lemma NoncesUsedGrown(nonces: map<NonceKey, int>, log: seq<Committed>, e: Committed, now: Instant)
    requires NoncesUsed(nonces, log) && Unix(now) == e.committedAt
    ensures NoncesUsed(LiveNonces(nonces, now)[NonceKey(e.proposal.author,
                         e.proposal.nonce) := Unix(now) + NONCE_RETENTION_SECONDS], log + [e])
  {
    var mine := NonceKey(e.proposal.author, e.proposal.nonce);
    var after := LiveNonces(nonces, now)[mine := Unix(now) + NONCE_RETENTION_SECONDS];
    forall k | k in after ensures exists i: nat :: UsedUntil(log + [e], i, k, after[k]) {
      if k == mine {
        assert UsedUntil(log + [e], |log|, k, after[k]);
      } else {
        var i: nat :| UsedUntil(log, i, k, nonces[k]);
        assert UsedUntil(log + [e], i, k, after[k]);
      }
    }
  }

  lemma {:induction false} RememberedWereUsed(g: Genesis, ops: seq<Attempt>)
    requires ValidGenesis(g) && PositiveTimes(ops)
    ensures NoncesUsed(AuthorityRun(g, ops).nonces, AuthorityLog(g, ops))
  {
    hide NoncesUsed;
    if ops == [] {
      NothingUsed();
    } else {
      var front, op := ops[..|ops| - 1], ops[|ops| - 1];
      RememberedWereUsed(g, front);
      AuthorityRepresents(g, front);
      var t, log := AuthorityRun(g, front), AuthorityLog(g, front);
      CommitRefines(t, log, op.p, op.at);
      match CommitTx(t, op.p, g.roomKey, op.at)
      case Accepted(e, _) => NoncesUsedGrown(t.nonces, log, e, op.at);
      case _ =>
    }
  }

  lemma NothingUsed()
    ensures NoncesUsed(map[], [])
  {
  }

  /** The nonce is refused exactly if the author used it in an event committed less
      than a day before. */
  lemma NonceRefusedIff(g: Genesis, ops: seq<Attempt>, author: Key, nonce: Nonce, now: Instant)
    requires ValidGenesis(g) && PositiveTimes(ops) && NonDecreasing(ops) && Clock(ops) <= Unix(now)
    ensures NonceKey(author, nonce) in LiveNonces(AuthorityRun(g, ops).nonces, now) <==>
              exists e :: e in AuthorityLog(g, ops) && e.proposal.author == author && e.proposal.nonce == nonce
                          && Unix(now) < e.committedAt + 86400
  {
    hide AuthorityRun, AuthorityLog;
    NonceInvariant(g, ops);
    RememberedWereUsed(g, ops);
    NonceLiveIff(AuthorityRun(g, ops).nonces, AuthorityLog(g, ops), Clock(ops), NonceKey(author, nonce), now);
  }

  lemma NonceLiveIff(nonces: map<NonceKey, int>, log: seq<Committed>, clock: int, k: NonceKey, now: Instant)
    requires NoncesRecorded(nonces, log, clock) && NoncesUsed(nonces, log) && clock <= Unix(now)
    ensures k in LiveNonces(nonces, now) <==>
              exists e :: e in log && NonceKey(e.proposal.author, e.proposal.nonce) == k
                          && Unix(now) < e.committedAt + NONCE_RETENTION_SECONDS
  {
    if k in LiveNonces(nonces, now) {
      var i: nat :| UsedUntil(log, i, k, nonces[k]);
      assert log[i] in log;
    }
    if e :| e in log && NonceKey(e.proposal.author, e.proposal.nonce) == k
            && Unix(now) < e.committedAt + NONCE_RETENTION_SECONDS {
      var i :| 0 <= i < |log| && log[i] == e;
      assert NonceRecorded(nonces, log[i], clock);
    }
  }
}
