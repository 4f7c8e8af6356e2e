// Runs of a replica database: any sequence of appends and state installations,
// from whatever source, honest or not.
module Replica {
  import opened Wrappers
  import opened Ordered
  import opened Community
  import opened Replay
  import opened Tables
  import opened Refinement
  import opened Auditing

  datatype ReplicaOp = Append(e: Committed) | Install(s: RoomState)

  ghost function ReplicaStep(t: Tables, op: ReplicaOp): Tables {
    match op
    case Append(e) => (match AppendTx(t, e) case Ok(a) => a.after case Err(_) => t)
    case Install(s) => (match InstallTx(t, s) case Ok(after) => after case Err(_) => t)
  }

  ghost function ReplicaRun(t: Tables, ops: seq<ReplicaOp>): Tables {
    if ops == [] then t else ReplicaStep(ReplicaRun(t, ops[..|ops| - 1]), ops[|ops| - 1])
  }

  ghost function NewReplica(g: Genesis): Tables {
    InitialTables(g, UnsignedInitialState(g))
  }

  /** The stored state names a stored revision, and if no state change follows
      that revision its content is the current one. An older revision can be
      installed while the content happens to match; it stops matching no later
      than the next readiness check would notice. */
  ghost predicate Anchored(t: Tables, log: seq<Committed>)
    requires Represents(t, log)
  {
    var s := t.signed;
    && s.roomId == t.genesis.roomKey
    && 0 <= s.revisionSeqno <= |log|
    && s.revisionHash == RevisionHash(t.genesis, log, s.revisionSeqno)
    && (LatestChange(log) <= s.revisionSeqno ==> s.content == Projected(t.genesis, log).content)
  }

  ghost predicate Replicates(t: Tables, log: seq<Committed>) {
    Represents(t, log) && Anchored(t, log)
  }

  lemma NewReplicaRepresents(g: Genesis, raw: RoomState)
    requires ValidGenesis(g)
    ensures Represents(InitialTables(g, raw), [])
  {
    AscendingOfIncreasing(g.initialAdmins);
    var t := InitialTables(g, raw);
    assert t.rows.admins.Keys == Elements(g.initialAdmins);
    assert t.rows.moderators.Keys == {} && t.rows.pins.Keys == {};
    AscendingMembers({});
    assert t.events == EventTable([]) && t.messages == MessageTable([]);
  }

  lemma AnchoredGrown(t: Tables, log: seq<Committed>, e: Committed, after: Tables)
    requires Replicates(t, log) && AppendTx(t, e) == Ok(Appended(true, after))
    ensures Replicates(after, log + [e])
  {
    AppendRefinesApply(t, log, e, after);
    AppendAgreesWithApply(t, log, e);
    FoldAppend(t.genesis, log, e);
    assert (log + [e])[..|log|] == log;
    assert Apply(Projected(t.genesis, log), e) == Fold(t.genesis, log + [e]);
  }

  /** One replica transaction extends the log by at most the delivered event. */
  ghost function LogAfter(t: Tables, log: seq<Committed>, op: ReplicaOp): seq<Committed> {
    match op
    case Append(e) => if AppendTx(t, e).Ok? && AppendTx(t, e).value.inserted then log + [e] else log
    case Install(_) => log
  }

  lemma StepReplicates(t: Tables, log: seq<Committed>, op: ReplicaOp)
    requires Replicates(t, log)
    ensures Replicates(ReplicaStep(t, op), LogAfter(t, log, op))
    ensures ReplicaStep(t, op).genesis == t.genesis
  {
    match op
    case Append(e) =>
      if AppendTx(t, e).Ok? {
        var a := AppendTx(t, e).value;
        if a.inserted { AnchoredGrown(t, log, e, a.after); AppendRefinesApply(t, log, e, a.after); }
        else { AppendIdempotent(t, log, e, a.after); }
      }
    case Install(s) =>
      if InstallTx(t, s).Ok? { InstallKeepsLog(t, log, s); }
  }

  /** The log a replica holds after a run. */
  ghost function RunLog(g: Genesis, ops: seq<ReplicaOp>): seq<Committed> {
    if ops == [] then []
    else LogAfter(ReplicaRun(NewReplica(g), ops[..|ops| - 1]), RunLog(g, ops[..|ops| - 1]), ops[|ops| - 1])
  }

  lemma {:induction false} RunReplicates(g: Genesis, ops: seq<ReplicaOp>)
    requires ValidGenesis(g)
    ensures Replicates(ReplicaRun(NewReplica(g), ops), RunLog(g, ops))
    ensures ReplicaRun(NewReplica(g), ops).genesis == g
  {
    if ops == [] {
      NewReplicaRepresents(g, UnsignedInitialState(g));
    } else {
      var front := ops[..|ops| - 1];
      RunReplicates(g, front);
      StepReplicates(ReplicaRun(NewReplica(g), front), RunLog(g, front), ops[|ops| - 1]);
    }
  }

  // ---- Readiness against the full replay --------------------------------

  lemma LatestStateChangingRow(t: Tables, log: seq<Committed>)
    requires Represents(t, log)
    ensures var rows := Ascending(StateChangingRows(t.events));
            && (rows == [] <==> LatestChange(log) == 0)
            && (rows != [] ==> rows[|rows| - 1] == LatestChange(log))
  {
    hide UniqueIds, Replays, ContentOf, MessageTable, LatestChange;
    var s := StateChangingRows(t.events);
    var rows := Ascending(s);
    AscendingMembers(s);
    LatestChangeBounds(log);
    var latest := LatestChange(log);
    forall n | n in s ensures 1 <= n <= latest {
      assert t.events[n] == RowOf(Nth(log, n));
    }
    if latest > 0 {
      assert t.events[latest] == RowOf(Nth(log, latest));
      assert latest in rows;
      var i :| 0 <= i < |rows| && rows[i] == latest;
      assert rows[|rows| - 1] in rows;
    }
  }

  /** The readiness query, in terms of the log. */
  lemma ReadyMeaning(t: Tables, log: seq<Committed>)
    requires Represents(t, log)
    ensures LatestChange(log) <= |log|
    ensures ReadyTx(t) <==>
              VerifyState(t.signed) && t.signed.revisionSeqno == LatestChange(log)
              && t.signed.revisionHash == RevisionHash(t.genesis, log, LatestChange(log))
  {
    hide UniqueIds, Replays, ContentOf, MessageTable, LatestChange, VerifyState;
    LatestStateChangingRow(t, log);
    LatestChangeBounds(log);
    var latest := LatestChange(log);
    if latest > 0 {
      assert t.events[latest] == RowOf(Nth(log, latest));
    }
  }

  lemma ReadyIffCovered(t: Tables, log: seq<Committed>)
    requires Replicates(t, log)
    ensures ReadyTx(t) <==> Covered(t, log)
  {
    ReadyMeaning(t, log);
    FoldDescribes(t.genesis, log);
  }

  /** On every reachable replica the cheap readiness check and the full replay
      agree, the genesis clock aside. */
  lemma ReadyIffAuditPasses(g: Genesis, ops: seq<ReplicaOp>, now: Instant)
    requires VerifyGenesis(g, now)
    ensures ReadyTx(ReplicaRun(NewReplica(g), ops)) <==> Sound(ReplicaRun(NewReplica(g), ops), now)
  {
    RunReplicates(g, ops);
    var t := ReplicaRun(NewReplica(g), ops);
    var log := RunLog(g, ops);
    ReadyIffCovered(t, log);
    SoundIffCovered(t, log, now);
  }

  // ---- An older revision can be installed -------------------------------

  /** A signed state of a stored older revision is accepted if its content is the
      current one, and leaves the replica not ready. */
  lemma OlderRevisionInstalls(t: Tables, log: seq<Committed>, s: RoomState)
    requires Represents(t, log)
    requires VerifyState(s) && s.roomId == t.genesis.roomKey && 0 <= s.revisionSeqno < LatestChange(log) <= |log|
    requires s.revisionHash == RevisionHash(t.genesis, log, s.revisionSeqno)
    requires s.content == Projected(t.genesis, log).content
    ensures InstallTx(t, s).Ok? && !ReadyTx(InstallTx(t, s).value)
  {
    if s.revisionSeqno > 0 {
      assert t.events[s.revisionSeqno] == RowOf(Nth(log, s.revisionSeqno));
    }
    InstallKeepsLog(t, log, s);
    hide InstallTx, ReadyTx, Represents;
    ReadyMeaning(InstallTx(t, s).value, log);
  }

  /** The owner changing the write policy at position `n`. */
  function PolicyChange(g: Genesis, n: int, previous: Hash, anyone: bool): Committed {
    Committed(n, 0, previous,
              Proposal(g.roomKey, g.roomKey, "", "", n, 0, WritePolicy(anyone), ByFor(g.roomKey, g.nodeKey)),
              1, By(g.roomKey))
  }

  /** The write policy changed and changed back. */
  function ChangedTwice(g: Genesis): seq<Committed> {
    var first := PolicyChange(g, 1, ZeroHash, !g.anyoneCanWrite);
    [first, PolicyChange(g, 2, CommitHash(first), g.anyoneCanWrite)]
  }

  lemma ChangedTwiceReplays(g: Genesis)
    ensures Replays(g, ChangedTwice(g)) && UniqueIds(ChangedTwice(g))
    ensures LatestChange(ChangedTwice(g)) == 2
    ensures Projected(g, ChangedTwice(g)).content == InitialContent(g)
  {
    var log := ChangedTwice(g);
    assert log[..1] == [log[0]] && log[..1][..0] == [] && log == log[..1] + [log[1]];
    assert Fold(g, []) == Ok(NewProj(g));
    assert Fold(g, log[..1]) == Apply(NewProj(g), log[0]);
    assert Fold(g, log) == Apply(Fold(g, log[..1]).value, log[1]);
  }

  /** In every room a replica can come to accept the signature over the initial
      state again after two state changes, and then neither the readiness check nor
      the audit passes. */
  lemma ReplicaCanInstallOlder(g: Genesis, now: Instant)
    requires VerifyGenesis(g, now)
    ensures exists ops, s ::
              && InstallTx(ReplicaRun(NewReplica(g), ops), s).Ok? && s.revisionSeqno == 0
              && |RunLog(g, ops)| == 2
              && !ReadyTx(ReplicaRun(NewReplica(g), ops + [Install(s)]))
              && !Sound(ReplicaRun(NewReplica(g), ops + [Install(s)]), now)
  {
    var log := ChangedTwice(g);
    var ops := Appends(log);
    var s := UnsignedInitialState(g).(signature := By(g.roomKey));
    ChangedTwiceReplays(g);
    assert log[..2] == log;
    AppendsYieldLog(g, log, 2);
    var t := ReplicaRun(NewReplica(g), ops);
    OlderRevisionInstalls(t, log, s);
    assert (ops + [Install(s)])[..2] == ops;
    ReadyIffAuditPasses(g, ops + [Install(s)], now);
  }

  /** Appending the events of a replayable log one after another yields that log. */
  lemma {:induction false} AppendsYieldLog(g: Genesis, log: seq<Committed>, n: nat)
    requires ValidGenesis(g) && n <= |log| && Replays(g, log) && UniqueIds(log)
    ensures RunLog(g, Appends(log[..n])) == log[..n]
    ensures Represents(ReplicaRun(NewReplica(g), Appends(log[..n])), log[..n])
    ensures ReplicaRun(NewReplica(g), Appends(log[..n])).genesis == g
  {
    hide Represents, AppendTx, InstallTx, UniqueIds;
    if n == 0 {
      RunReplicates(g, []);
    } else {
      AppendsYieldLog(g, log, n - 1);
      assert Appends(log[..n])[..n - 1] == Appends(log[..n - 1]);
      var t := ReplicaRun(NewReplica(g), Appends(log[..n - 1]));
      NextOfReplayable(t, g, log, n - 1);
      RunReplicates(g, Appends(log[..n]));
      assert log[..n] == log[..n - 1] + [log[n - 1]];
    }
  }

  function Appends(log: seq<Committed>): seq<ReplicaOp> {
    seq(|log|, i requires 0 <= i < |log| => Append(log[i]))
  }

  lemma NextOfReplayable(t: Tables, g: Genesis, log: seq<Committed>, n: nat)
    requires n < |log| && Represents(t, log[..n]) && t.genesis == g && Replays(g, log) && UniqueIds(log)
    ensures AppendTx(t, log[n]).Ok? && AppendTx(t, log[n]).value.inserted
  {
    hide Apply, AppendTx, VerifyCommit;
    FoldPrefix(g, log, n + 1);
    FoldAppend(g, log[..n], log[n]);
    assert log[..n + 1] == log[..n] + [log[n]];
    assert Apply(Projected(g, log[..n]), log[n]).Ok?;
    ApplyMoves(Projected(g, log[..n]), log[n]);
    AppendAgreesWithApply(t, log[..n], log[n]);
  }

  // ---- What a replica accepts -------------------------------------------

  /** A signed state is installed exactly if the room signs it for a stored revision,
      or for the genesis, and its content is the replayed one. */
  lemma InstallAcceptsIff(t: Tables, log: seq<Committed>, s: RoomState)
    requires Represents(t, log)
    ensures InstallTx(t, s).Ok? <==>
              && VerifyState(s) && s.roomId == t.genesis.roomKey && s.revisionSeqno <= |log|
              && s.revisionHash == RevisionHash(t.genesis, log, s.revisionSeqno)
              && s.content == Projected(t.genesis, log).content
  {
    if 0 < s.revisionSeqno <= |log| {
      assert t.events[s.revisionSeqno] == RowOf(Nth(log, s.revisionSeqno));
    }
  }

  /** Why an event is not appended, in terms of the log: not the room's commit, another
      event at its number, or not the next one. Any other verified event is refused
      for its author or its effect. */
  lemma AppendRefusals(t: Tables, log: seq<Committed>, e: Committed)
    requires Represents(t, log)
    ensures var r, verified := AppendTx(t, e), VerifyCommit(e, t.genesis.roomKey, t.genesis.nodeKey).Ok?;
            && (r == Err(InvalidCommit) <==> !verified)
            && (r == Err(Fork) <==> verified && e.seqno <= |log| && e !in log)
            && (r == Err(Gap) <==> verified && e.seqno > |log| && !Follows(Projected(t.genesis, log), e))
            && (r == Ok(Appended(false, t)) <==> verified && e in log)
  {
    hide Authorized, AuthorizedByRows, InsertEvent, ApplyTables, VerifyCommit, UniqueIds, ContentOf, MessageTable;
    FoldDescribes(t.genesis, log);
    VerifiedIsPositive(e, t.genesis.roomKey, t.genesis.nodeKey);
    if 1 <= e.seqno <= |log| {
      assert t.events[e.seqno] == RowOf(Nth(log, e.seqno));
      assert log[e.seqno - 1] in log;
    }
    if e in log {
      var i :| 0 <= i < |log| && log[i] == e;
      assert log[i].seqno == i + 1;
    }
  }

  lemma VerifiedIsPositive(e: Committed, roomKey: Key, nodeKey: Key)
    ensures VerifyCommit(e, roomKey, nodeKey).Ok? ==> e.seqno >= 1
  {
  }

  // ---- Remembered nonces ------------------------------------------------

  predicate Uses(e: Committed, k: NonceKey) {
    NonceKey(e.proposal.author, e.proposal.nonce) == k
  }

  /** Event `i` is the first to use this nonce. */
  predicate FirstUse(log: seq<Committed>, i: nat, k: NonceKey) {
    i < |log| && Uses(log[i], k) && forall j :: 0 <= j < i ==> !Uses(log[j], k)
  }

  /** The table holds the nonces of the log, each until a day after its first use. */
  ghost predicate RemembersFirst(nonces: map<NonceKey, int>, log: seq<Committed>) {
    && (forall e :: e in log ==> NonceKey(e.proposal.author, e.proposal.nonce) in nonces)
    && forall k :: k in nonces ==> exists i: nat :: FirstUse(log, i, k) && nonces[k] == log[i].committedAt + 86400
  }

  lemma RemembersGrown(t: Tables, log: seq<Committed>, e: Committed)
    requires RemembersFirst(t.nonces, log) && AppendTx(t, e).Ok? && AppendTx(t, e).value.inserted
    ensures RemembersFirst(AppendTx(t, e).value.after.nonces, log + [e])
  {
    var mine := NonceKey(e.proposal.author, e.proposal.nonce);
    AppendedNonces(t, e);
    var after, grown := AppendTx(t, e).value.after.nonces, log + [e];
    hide AppendTx;
    forall k | k in after
      ensures exists i: nat :: FirstUse(grown, i, k) && after[k] == grown[i].committedAt + 86400
    {
      if k in t.nonces {
        var i: nat :| FirstUse(log, i, k) && t.nonces[k] == log[i].committedAt + 86400;
        assert FirstUse(grown, i, k);
      } else {
        assert FirstUse(grown, |log|, k);
      }
    }
  }

  lemma AppendedNonces(t: Tables, e: Committed)
    requires AppendTx(t, e).Ok? && AppendTx(t, e).value.inserted
    ensures var mine := NonceKey(e.proposal.author, e.proposal.nonce);
            AppendTx(t, e).value.after.nonces
            == if mine in t.nonces then t.nonces else t.nonces[mine := e.committedAt + 86400]
  {
    hide VerifyCommit, AuthorizedByRows, ApplyRows;
  }

  /** On every reachable replica the nonce table is that of the stored events. */
  lemma {:induction false} ReplicaRemembersNonces(g: Genesis, ops: seq<ReplicaOp>)
    requires ValidGenesis(g)
    ensures RemembersFirst(ReplicaRun(NewReplica(g), ops).nonces, RunLog(g, ops))
  {
    hide RemembersFirst;
    if ops == [] {
      NothingRemembered();
    } else {
      var front, op := ops[..|ops| - 1], ops[|ops| - 1];
      ReplicaRemembersNonces(g, front);
      RunReplicates(g, front);
      var t, log := ReplicaRun(NewReplica(g), front), RunLog(g, front);
      match op
      case Append(e) =>
        if AppendTx(t, e).Ok? {
          if AppendTx(t, e).value.inserted { RemembersGrown(t, log, e); }
          else { AppendIdempotent(t, log, e, AppendTx(t, e).value.after); }
        }
      case Install(s) =>
    }
  }

  lemma NothingRemembered()
    ensures RemembersFirst(map[], [])
  {
  }
}
