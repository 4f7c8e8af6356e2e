// The room database object. Each method works on the tables of one transaction
// and installs them only when the transaction commits.
module Stores {
  import opened Wrappers
  import opened Ordered
  import opened Community
  import opened Replay
  import opened Tables
  import opened Refinement
  import opened Auditing
  import opened Replica
  import opened Authority
  import opened Pages
  import Projections

  datatype Outcome = Committing(commit: Committed) | Repeated(commit: Committed) | Refused(code: int)

  /** What a commit attempt tells its caller. */
  ghost function Reply(r: CommitResult): Outcome {
    match r
    case Accepted(e, _) => Committing(e)
    case Duplicate(e) => Repeated(e)
    case Rejected(code) => Refused(code)
  }

  lemma RowsAfter(t: Tables, log: seq<Committed>, after: nat)
    requires t.events == EventTable(log)
    ensures Ascending(set n | n in t.events && n > after)
            == if after >= |log| then [] else seq(|log| - after, i => after + i + 1)
  {
    var s := set n | n in t.events && n > after;
    var r := if after >= |log| then [] else seq(|log| - after, i => after + i + 1);
    forall x ensures x in Elements(r) <==> x in s {
      if x in s { assert r[x - after - 1] == x; }
    }
    assert Elements(r) == s;
    IncreasingUnique(r, Ascending(s));
  }

  method ProjectedContent(r: Rows) returns (c: Content)
    ensures c == ContentOf(r)
  {
    var admins := OrderBy(r.admins.Keys);
    var moderators := OrderBy(r.moderators.Keys);
    var pins := OrderBy(r.pins.Keys);
    c := Content(r.name, r.description, r.anyoneCanWrite, admins, moderators, pins);
  }

  class Store {
    var db: Option<Tables>

    constructor ()
      ensures db == None
    {
      db := None;
    }

    /** Insert the role rows of the initial admins. */
    static method AdminRows(g: Genesis) returns (rows: map<Key, GrantRow>)
      ensures rows == map k | k in g.initialAdmins :: GrantRow(0, g.roomKey)
    {
      rows := map[];
      for i := 0 to |g.initialAdmins|
        invariant rows == map k | k in g.initialAdmins[..i] :: GrantRow(0, g.roomKey)
      {
        rows := rows[g.initialAdmins[i] := GrantRow(0, g.roomKey)];
      }
      assert g.initialAdmins[..|g.initialAdmins|] == g.initialAdmins;
    }

    method Initialize(g: Genesis, roomKey: Key, now: Instant) returns (ok: bool)
      modifies this
      ensures ok <==> VerifyGenesis(g, now) && roomKey == g.roomKey && old(db).None?
      ensures db == if ok then Some(NewAuthority(g)) else old(db)
    {
      if !VerifyGenesis(g, now) || roomKey != g.roomKey {
        return false;
      }
      SignCanonicalState(roomKey, UnsignedInitialState(g));
      var state := SignRoomState(roomKey, UnsignedInitialState(g));
      if state.Err? || db.Some? {
        return false;
      }
      var admins := AdminRows(g);
      db := Some(Tables(g, GenesisHash(g), state.value, Rows(g.name, g.description, g.anyoneCanWrite, admins,
          map[], map[]),
                        Head(0, ZeroHash), map[], map[], map[]));
      return true;
    }

    method InitializeReplica(g: Genesis, now: Instant) returns (ok: bool)
      modifies this
      ensures ok <==> VerifyGenesis(g, now) && old(db).None?
      ensures db == if ok then Some(NewReplica(g)) else old(db)
    {
      if !VerifyGenesis(g, now) || db.Some? {
        return false;
      }
      var admins := AdminRows(g);
      db := Some(Tables(g, GenesisHash(g), UnsignedInitialState(g), Rows(g.name, g.description, g.anyoneCanWrite,
          admins, map[], map[]),
                        Head(0, ZeroHash), map[], map[], map[]));
      return true;
    }

    static method LookUp(t: Tables, p: Proposal) returns (r: Option<Committed>)
      requires UniqueEventIds(t.events)
      ensures r == FindById(t.events, p)
    {
      var hits := RowsWithId(t.events, p);
      if hits == {} {
        return None;
      }
      assert (forall s :: s !in hits) ==> hits == {};
      var s :| s in hits;
      return Some(t.events[s].commit);
    }

    method Commit(p: Proposal, roomKey: Key, now: Instant) returns (r: Outcome)
      requires db.Some? ==> UniqueEventIds(db.value.events)
      modifies this
      ensures old(db).None? ==> r == Refused(REJECT_PERSISTENCE_FAILURE) && db.None?
      ensures old(db).Some? ==>
                var result := CommitTx(old(db).value, p, roomKey, now);
                r == Reply(result) && db == Some(AfterCommit(old(db).value, result))
    {
      if db.None? {
        return Refused(REJECT_PERSISTENCE_FAILURE);
      }
      hide AuthorizedByRows, VerifyProposal, RecordCommit, UniqueEventIds, FindById;
      var tx := db.value;
      var found := LookUp(tx, p);
      if found.Some? {
        return Repeated(found.value);
      }
      if p.roomId != tx.genesis.roomKey {
        return Refused(REJECT_WRONG_ROOM);
      }
      if roomKey != tx.genesis.roomKey {
        return Refused(REJECT_PERSISTENCE_FAILURE);
      }
      var verified := VerifyProposal(p, tx.genesis.nodeKey, now);
      if verified.Err? {
        return Refused(if verified.error == BadTimestamp then REJECT_TIMESTAMP else REJECT_INVALID_SIGNATURE);
      }
      tx := tx.(nonces := LiveNonces(tx.nonces, now));
      var nonce := NonceKey(p.author, p.nonce);
      if nonce in tx.nonces {
        return Refused(REJECT_REUSED_NONCE);
      }
      if !AuthorizedByRows(tx.genesis.roomKey, tx.rows, tx.signed.content.anyoneCanWrite, p) {
        return Refused(REJECT_PERMISSION_DENIED);
      }
      var signed := SignCommit(roomKey, p, tx.head.seqno + 1, tx.head.hash, now);
      if signed.Err? {
        return Refused(REJECT_PERSISTENCE_FAILURE);
      }
      var e := signed.value;
      var code;
      code, tx := Record(tx, roomKey, e, now);
      if code != 0 {
        return Refused(code);
      }
      db := Some(tx);
      return Committing(e);
    }

    /** The inserts and updates of one commit, zero standing for success. */
    static method Record(t: Tables, roomKey: Key, e: Committed, now: Instant) returns (code: int, tx: Tables)
      ensures match RecordCommit(t, roomKey, e, now)
              case Ok(after) => code == 0 && tx == after
              case Err(why) => code == why != 0
    {
      tx := t;
      var inserted := InsertEvent(tx, e);
      if inserted.Err? {
        return inserted.error, t;
      }
      tx := inserted.value;
      var applied := ApplyTables(tx, e);
      if applied.Err? {
        return applied.error, t;
      }
      tx := applied.value;
      if !IsMessage(e) {
        var content := ProjectedContent(tx.rows);
        var snapshot := SignRoomState(roomKey, RoomState(tx.genesis.roomKey, e.seqno, CommitHash(e), content,
            Malformed));
        if snapshot.Err? {
          return REJECT_PERSISTENCE_FAILURE, t;
        }
        tx := tx.(signed := snapshot.value);
      }
      var nonce := NonceKey(e.proposal.author, e.proposal.nonce);
      if nonce in tx.nonces {
        return REJECT_PERSISTENCE_FAILURE, t;
      }
      tx := tx.(nonces := tx.nonces[nonce := Unix(now) + NONCE_RETENTION_SECONDS]);
      tx := tx.(head := Head(e.seqno, CommitHash(e)));
      return 0, tx;
    }

    method AppendReplica(e: Committed) returns (r: Result<bool, AppendError>)
      requires db.Some?
      modifies this
      ensures match AppendTx(old(db).value, e)
              case Ok(a) => r == Ok(a.inserted) && db == Some(a.after)
              case Err(why) => r == Err(why) && db == old(db)
    {
      var tx := db.value;
      if VerifyCommit(e, tx.genesis.roomKey, tx.genesis.nodeKey).Err? {
        return Err(InvalidCommit);
      }
      if e.seqno in tx.events {
        if tx.events[e.seqno].commitHash == CommitHash(e) {
          return Ok(false);
        }
        return Err(Fork);
      }
      if e.seqno != tx.head.seqno + 1 || e.previous != tx.head.hash {
        return Err(Gap);
      }
      if !AuthorizedByRows(tx.genesis.roomKey, tx.rows, tx.rows.anyoneCanWrite, e.proposal) {
        return Err(Violation);
      }
      var inserted := InsertEvent(tx, e);
      if inserted.Err? {
        return Err(Conflicting);
      }
      tx := inserted.value;
      var applied := ApplyTables(tx, e);
      if applied.Err? {
        return Err(Conflicting);
      }
      tx := applied.value;
      var nonce := NonceKey(e.proposal.author, e.proposal.nonce);
      if nonce !in tx.nonces {
        tx := tx.(nonces := tx.nonces[nonce := e.committedAt + NONCE_RETENTION_SECONDS]);
      }
      tx := tx.(head := Head(e.seqno, CommitHash(e)));
      db := Some(tx);
      return Ok(true);
    }

    method InstallReplicaState(s: RoomState) returns (r: Result<(), InstallError>)
      requires db.Some?
      modifies this
      ensures match InstallTx(old(db).value, s)
              case Ok(after) => r == Ok(()) && db == Some(after)
              case Err(why) => r == Err(why) && db == old(db)
    {
      var tx := db.value;
      if !VerifyState(s) {
        return Err(InvalidState);
      }
      if s.roomId != tx.genesis.roomKey {
        return Err(OtherRoom);
      }
      if s.revisionSeqno > tx.head.seqno {
        return Err(AheadOfHead);
      }
      var expected := tx.genesisHash;
      if s.revisionSeqno > 0 {
        if s.revisionSeqno !in tx.events {
          return Err(RevisionMismatch);
        }
        expected := tx.events[s.revisionSeqno].commitHash;
      }
      if s.revisionHash != expected {
        return Err(RevisionMismatch);
      }
      var projected := ProjectedContent(tx.rows);
      if s.content != projected {
        return Err(Disagrees);
      }
      var rows := tx.rows.(name := s.content.name, description := s.content.description,
                           anyoneCanWrite := s.content.anyoneCanWrite);
      db := Some(tx.(signed := s, rows := rows));
      return Ok(());
    }

    method ReplicaReady() returns (ready: bool)
      requires db.Some?
      ensures ready <==> ReadyTx(db.value)
    {
      var t := db.value;
      if !VerifyState(t.signed) || t.signed.revisionSeqno > t.head.seqno {
        return false;
      }
      var rows := OrderBy(StateChangingRows(t.events));
      var seqno, hash := 0, t.genesisHash;
      if rows != [] {
        assert rows[|rows| - 1] in Elements(rows);
        seqno := rows[|rows| - 1];
        hash := t.events[seqno].commitHash;
      }
      return t.signed.revisionSeqno == seqno && t.signed.revisionHash == hash;
    }

    /** The full replay check, the integrity pragma aside. */
    method Audit(now: Instant) returns (ok: bool)
      requires db.Some?
      ensures ok <==> Sound(db.value, now)
    {
      var t := db.value;
      if !VerifyGenesis(t.genesis, now) || t.genesisHash != GenesisHash(t.genesis) {
        return false;
      }
      var projection := new Projections.Projection(t.genesis);
      var messages, head;
      ok, messages, head := AuditEvents(t, projection);
      if !ok {
        return false;
      }
      MatchingRowsAreTheTable(t);
      ok := AuditMessages(t, messages);
      if !ok || t.head != head {
        return false;
      }
      var matches := projection.ValidateState(t.signed);
      if !matches {
        return false;
      }
      var content := ProjectedContent(t.rows);
      return t.signed.content == content;
    }

    /** Replay the rows in order into a fresh projection, checking each row
        against its commit and its place in the chain. */
    static method AuditEvents(t: Tables, projection: Projections.Projection)
      returns (ok: bool, messages: seq<Committed>, head: Head)
      requires projection.Valid() && projection.View() == NewProj(t.genesis)
      modifies projection
      ensures projection.Valid()
      ensures ok <==> Replays(t.genesis, StoredLog(t)) && RowsMatch(t, |StoredLog(t)|)
      ensures ok ==> projection.View() == Projected(t.genesis, StoredLog(t))
                     && messages == MessagesIn(StoredLog(t)) && (forall m :: m in messages ==> m.messageId == m.seqno)
                     && head == Head(|StoredLog(t)|, HeadHash(StoredLog(t)))
    {
      hide Apply, RowMatches, RowsMatch, AuditedTo, StoredLog, VerifyCommit;
      var numbers := OrderBy(t.events.Keys);
      StoredRows(t);
      AuditedStart(t);
      head, messages := Head(0, ZeroHash), [];
      for i := 0 to |numbers|
        invariant projection.Valid()
        invariant AuditedTo(t, i, projection.View(), head, messages)
      {
        var row := t.events[numbers[i]];
        ghost var p := projection.View();
        ok := AuditRow(numbers[i], row, i, head.hash, projection);
        if !ok {
          AuditedFails(t, i, p, head, messages);
          return false, messages, head;
        }
        AuditedNext(t, i, p, head, messages);
        if row.commit.messageId != 0 {
          messages := messages + [row.commit];
        }
        head := Head(head.seqno + 1, CommitHash(row.commit));
      }
      AuditedAll(t, projection.View(), head, messages);
      return true, messages, head;
    }

    /** Apply one row's commit and check the row against it. */
    static method AuditRow(n: int, row: EventRow, i: nat, previous: Hash, projection: Projections.Projection)
      returns (ok: bool)
      requires projection.Valid()
      modifies projection
      ensures projection.Valid()
      ensures ok <==> Apply(old(projection.View()), row.commit).Ok? && RowMatches(n, row, i, previous)
      ensures ok ==> projection.View() == Apply(old(projection.View()), row.commit).value
      ensures ok ==> row.commit.messageId == (if IsMessage(row.commit)
                then row.commit.seqno else 0) && row.commit.seqno != 0
    {
      var applied := projection.ApplyEvent(row.commit);
      return applied.Ok? && RowMatches(n, row, i, previous);
    }

    /** Every audited message is in the messages table, which holds no other. */
    static method AuditMessages(t: Tables, messages: seq<Committed>) returns (ok: bool)
      requires Numbered(StoredLog(t)) && messages == MessagesIn(StoredLog(t))
      requires forall m :: m in messages ==> m.messageId == m.seqno
      ensures ok <==> t.messages == MessageTable(StoredLog(t))
    {
      MessageCheck(StoredLog(t), t.messages);
      for i := 0 to |messages|
        invariant forall m :: m in messages[..i] ==> m.seqno in t.messages && t.messages[m.seqno] == m
      {
        if messages[i].messageId !in t.messages || t.messages[messages[i].messageId] != messages[i] {
          assert messages[i] in messages;
          return false;
        }
        assert messages[..i + 1] == messages[..i] + [messages[i]];
      }
      assert messages[..|messages|] == messages;
      return |t.messages| == |messages|;
    }

    /** Read the commits of the given rows. */
    static method CommitsOf(t: Tables, numbers: seq<int>) returns (events: seq<Committed>)
      requires forall k :: 0 <= k < |numbers| ==> numbers[k] in t.events
      ensures |events| == |numbers|
      ensures forall k :: 0 <= k < |numbers| ==> events[k] == t.events[numbers[k]].commit
    {
      events := [];
      for i := 0 to |numbers|
        invariant |events| == i
        invariant forall k :: 0 <= k < i ==> events[k] == t.events[numbers[k]].commit
      {
        events := events + [t.events[numbers[i]].commit];
      }
    }

    /** Answer a page query; a limit outside 0..256 is an error. */
    method Events(after: nat, limit: int) returns (r: Option<Page>)
      requires db.Some?
      ensures r.None? <==> NormalizeLimit(limit).None?
      ensures r.Some? ==> forall log :: db.value.events == EventTable(log) ==>
                r.value == PageOf(log, after, NormalizeLimit(limit).value)
    {
      if NormalizeLimit(limit).None? {
        return None;
      }
      hide PageOf;
      var n := NormalizeLimit(limit).value;
      var t := db.value;
      var numbers := OrderBy(set s | s in t.events && s > after);
      AscendingMembers(set s | s in t.events && s > after);
      var taken := if |numbers| > n + 1 then numbers[..n + 1] else numbers;
      assert forall k :: 0 <= k < |taken| ==> taken[k] == numbers[k] && numbers[k] in numbers;
      var events := CommitsOf(t, taken);
      var hasMore := |events| > n;
      if hasMore {
        events := events[..n];
      }
      r := Some(Page(events, hasMore));
      forall log | t.events == EventTable(log) ensures r.value == PageOf(log, after, n) {
        CutRows(t, log, after, n, numbers, events, hasMore);
      }
    }
  }

  lemma CutRows(t: Tables, log: seq<Committed>, after: nat, n: nat, numbers: seq<int>, events: seq<Committed>,
      hasMore: bool)
    requires t.events == EventTable(log) && numbers == Ascending(set s | s in t.events && s > after)
    requires hasMore <==> |numbers| > n
    requires |events| == if hasMore then n else |numbers|
    requires forall k :: 0 <= k < |events| ==> numbers[k] in t.events && events[k] == t.events[numbers[k]].commit
    ensures Page(events, hasMore) == PageOf(log, after, n)
  {
    RowsAfter(t, log, after);
    RowsArePage(t, log, after, n, events, hasMore);
  }

  lemma RowsArePage(t: Tables, log: seq<Committed>, after: nat, n: nat, events: seq<Committed>, hasMore: bool)
    requires t.events == EventTable(log)
    requires hasMore <==> |log| > after + n
    requires |events| == if hasMore then n else if after >= |log| then 0 else |log| - after
    requires forall k :: 0 <= k < |events| ==> after + k + 1 in t.events && events[k] == t.events[after + k + 1].commit
    ensures Page(events, hasMore) == PageOf(log, after, n)
  {
    forall k | 0 <= k < |events| ensures events[k] == log[after + k] {
      assert t.events[after + k + 1] == RowOf(Nth(log, after + k + 1));
    }
  }

  // ---- How far an audit has come ----------------------------------------

  /** After `i` rows: the fold, the chain, the head and the messages so far. */
  ghost predicate AuditedTo(t: Tables, i: nat, p: Proj, head: Head, messages: seq<Committed>) {
    var log := StoredLog(t);
    && i <= |log| && Fold(t.genesis, log[..i]) == Ok(p) && RowsMatch(t, i)
    && head == Head(i, HeadHash(log[..i]))
    && messages == MessagesIn(log[..i]) && forall m :: m in messages ==> m.messageId == m.seqno
  }

  lemma StoredRows(t: Tables)
    ensures |StoredLog(t)| == |Ascending(t.events.Keys)|
    ensures forall i :: 0 <= i < |StoredLog(t)| ==>
              Ascending(t.events.Keys)[i] in t.events && t.events[Ascending(t.events.Keys)[i]].commit == StoredLog(t)[i]
  {
    AscendingMembers(t.events.Keys);
  }

  lemma AuditedStart(t: Tables)
    ensures AuditedTo(t, 0, NewProj(t.genesis), Head(0, ZeroHash), [])
  {
  }

  /** One more row: the fold, the head and the messages of the longer prefix. */
  lemma NextRow(t: Tables, i: nat)
    requires i < |StoredLog(t)|
    ensures var log := StoredLog(t);
            && Fold(t.genesis, log[..i + 1])
               == (if Replays(t.genesis, log[..i]) then Apply(Projected(t.genesis, log[..i]), log[i])
                   else Fold(t.genesis, log[..i]))
            && HeadHash(log[..i + 1]) == CommitHash(log[i])
            && MessagesIn(log[..i + 1]) == (if IsMessage(log[i])
                 then MessagesIn(log[..i]) + [log[i]] else MessagesIn(log[..i]))
  {
    var log := StoredLog(t);
    assert log[..i + 1][..i] == log[..i];
  }

  lemma AuditedNext(t: Tables, i: nat, p: Proj, head: Head, messages: seq<Committed>)
    requires AuditedTo(t, i, p, head, messages) && i < |StoredLog(t)| && i < |Ascending(t.events.Keys)|
    requires Ascending(t.events.Keys)[i] in t.events
    requires RowMatches(Ascending(t.events.Keys)[i], t.events[Ascending(t.events.Keys)[i]], i, head.hash)
    requires Apply(p, StoredLog(t)[i]).Ok?
    requires StoredLog(t)[i].messageId == if IsMessage(StoredLog(t)[i]) then StoredLog(t)[i].seqno else 0
    requires StoredLog(t)[i].seqno != 0
    ensures var e := StoredLog(t)[i];
            AuditedTo(t, i + 1, Apply(p, e).value, Head(head.seqno + 1, CommitHash(e)),
                      if e.messageId != 0 then messages + [e] else messages)
  {
    hide RowMatches, Apply;
    NextRow(t, i);
  }

  lemma AuditedFails(t: Tables, i: nat, p: Proj, head: Head, messages: seq<Committed>)
    requires AuditedTo(t, i, p, head, messages) && i < |StoredLog(t)| && i < |Ascending(t.events.Keys)|
    requires Ascending(t.events.Keys)[i] in t.events
    requires !(Apply(p, StoredLog(t)[i]).Ok?
               && RowMatches(Ascending(t.events.Keys)[i], t.events[Ascending(t.events.Keys)[i]], i, head.hash))
    ensures !(Replays(t.genesis, StoredLog(t)) && RowsMatch(t, |StoredLog(t)|))
  {
    hide RowMatches, Apply;
    NextRow(t, i);
    if Apply(p, StoredLog(t)[i]).Err? { AuditRefusesEvent(t, i); }
  }

  lemma AuditedAll(t: Tables, p: Proj, head: Head, messages: seq<Committed>)
    requires AuditedTo(t, |StoredLog(t)|, p, head, messages)
    ensures Replays(t.genesis, StoredLog(t)) && p == Projected(t.genesis, StoredLog(t))
    ensures RowsMatch(t, |StoredLog(t)|) && messages == MessagesIn(StoredLog(t))
    ensures head == Head(|StoredLog(t)|, HeadHash(StoredLog(t)))
    ensures forall m :: m in messages ==> m.messageId == m.seqno
  {
    assert StoredLog(t)[..|StoredLog(t)|] == StoredLog(t);
  }

  lemma AuditRefusesEvent(t: Tables, i: nat)
    requires i < |StoredLog(t)| && !Replays(t.genesis, StoredLog(t)[..i + 1])
    ensures !Replays(t.genesis, StoredLog(t))
  {
    if Replays(t.genesis, StoredLog(t)) {
      FoldPrefix(t.genesis, StoredLog(t), i + 1);
    }
  }

  /** The unique index on event ids. */
  predicate UniqueEventIds(events: map<int, EventRow>) {
    forall a, b :: a in events && b in events && events[a].eventId == events[b].eventId ==> a == b
  }

  /** Every database that stands for a log respects it. */
  lemma RepresentedIdsAreUnique(t: Tables, log: seq<Committed>)
    requires Represents(t, log)
    ensures UniqueEventIds(t.events)
  {
    forall a, b | a in t.events && b in t.events && t.events[a].eventId == t.events[b].eventId ensures a == b {
      assert t.events[a] == RowOf(Nth(log, a)) && t.events[b] == RowOf(Nth(log, b));
      assert log[a - 1].proposal == log[b - 1].proposal;
    }
  }
}
