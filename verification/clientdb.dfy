// The client's database for one joined room: the pinned genesis, the cached
// signed state, the event rows with their head, and the one-slot journal of the
// operation being submitted. Each function is one transaction.
module ClientDbs {
  import opened Wrappers
  import opened Ordered
  import opened Community
  import opened Replay

  datatype Journal = Journal(proposal: Proposal, genesisHash: Hash, receipt: Option<Committed>)

  datatype ClientDb = ClientDb(
    roomKey: Key, genesis: Option<Genesis>, cached: Option<RoomState>,
    headSeqno: int, headHash: Hash, events: map<int, Committed>, pending: Option<Journal>)

  datatype DbError = BadGenesis | GenesisMismatch | BadHistory | HeadMismatch | ConflictingEvent |
                     NonContiguousEvent | DuplicateId | StateDisagrees | PendingExists

  function NewRoom(roomKey: Key): ClientDb {
    ClientDb(roomKey, None, None, 0, ZeroHash, map[], None)
  }

  // ---- Transactions -----------------------------------------------------

  function PinGenesis(db: ClientDb, g: Genesis, now: Instant): Result<ClientDb, DbError> {
    if !VerifyGenesis(g, now) || g.roomKey != db.roomKey then Err(BadGenesis)
    else match db.genesis
      case Some(pinned) => if pinned == g then Ok(db) else Err(GenesisMismatch)
      case None => Ok(db.(genesis := Some(g)))
  }

  /** The journal after `e` is known to be stored: a matching row gets its receipt. */
  function Receipted(pending: Option<Journal>, e: Committed): Option<Journal> {
    match pending
    case Some(j) => if j.proposal == e.proposal then Some(j.(receipt := Some(e))) else pending
    case None => None
  }

  datatype Stored = Stored(inserted: bool, after: ClientDb)

  predicate HasId(db: ClientDb, p: Proposal) {
    exists n :: n in db.events && db.events[n].proposal == p
  }

  function AppendEvent(db: ClientDb, e: Committed): Result<Stored, DbError> {
    if e.seqno <= db.headSeqno then
      if e.seqno !in db.events || db.events[e.seqno] != e then Err(ConflictingEvent)
      else Ok(Stored(false, db.(pending := Receipted(db.pending, e))))
    else if e.seqno != db.headSeqno + 1 || e.previous != db.headHash then Err(NonContiguousEvent)
    else if e.seqno in db.events || HasId(db, e.proposal) then Err(DuplicateId)
    else Ok(Stored(true, db.(events := db.events[e.seqno := e], headSeqno := e.seqno,
                             headHash := CommitHash(e), pending := Receipted(db.pending, e))))
  }

  function HasEvent(db: ClientDb, e: Committed): Result<bool, DbError> {
    if e.seqno !in db.events then Ok(false)
    else if db.events[e.seqno] != e then Err(ConflictingEvent)
    else Ok(true)
  }

  /** The stored rows in ascending order. */
  ghost function RowsInOrder(db: ClientDb): seq<Committed> {
    var numbers := Ascending(db.events.Keys);
    seq(|numbers|, i requires 0 <= i < |numbers| =>
      assert numbers[i] in Elements(numbers);
      db.events[numbers[i]])
  }

  /** Replay the rows and compare the result with the stored head. */
  ghost function ProjectRoom(db: ClientDb, g: Genesis, now: Instant): Result<Proj, DbError> {
    if !VerifyGenesis(g, now) then Err(BadGenesis)
    else match Fold(g, RowsInOrder(db))
      case Err(_) => Err(BadHistory)
      case Ok(p) => if p.headSeq != db.headSeqno || p.headHash != db.headHash then Err(HeadMismatch) else Ok(p)
  }

  /** Cache a signed state that agrees with a projection at the stored head. */
  function InstallState(db: ClientDb, g: Genesis, p: Proj, s: RoomState): Result<ClientDb, DbError> {
    if g.roomKey != db.roomKey || s.roomId != db.roomKey then Err(StateDisagrees)
    else if db.genesis != Some(g) then Err(GenesisMismatch)
    else if p.headSeq != db.headSeqno || p.headHash != db.headHash then Err(HeadMismatch)
    else if !StateMatches(p, s) then Err(StateDisagrees)
    else Ok(db.(cached := Some(s)))
  }

  function SavePending(db: ClientDb, g: Genesis, p: Proposal): Result<ClientDb, DbError> {
    if db.pending.Some? then Err(PendingExists)
    else Ok(db.(pending := Some(Journal(p, GenesisHash(g), None))))
  }

  function ClearPending(db: ClientDb, p: Proposal): ClientDb {
    if db.pending.Some? && db.pending.value.proposal == p then db.(pending := None) else db
  }

  /** What opening the client does to a room: refuse a damaged one, and drop a
      cached state that disagrees with the events. */
  ghost function Reopen(db: ClientDb, now: Instant): Result<ClientDb, DbError> {
    match db.genesis
    case None =>
      if db.events != map[] || db.headSeqno != 0 || db.cached.Some? || db.headHash != ZeroHash
      then Err(GenesisMismatch) else Ok(db)
    case Some(g) =>
      if !VerifyGenesis(g, now) || g.roomKey != db.roomKey then Err(BadGenesis)
      else match ProjectRoom(db, g, now)
        case Err(why) => Err(why)
        case Ok(p) =>
          match db.cached
          case None => Ok(db)
          case Some(s) => if StateMatches(p, s) then Ok(db) else Ok(db.(cached := None))
  }

  // ---- What a reachable database is -------------------------------------

  function LogTable(log: seq<Committed>): map<int, Committed> {
    map n | 1 <= n <= |log| :: Nth(log, n)
  }

  /** The rows are a replayable log under the pinned genesis. */
  ghost predicate Holds(db: ClientDb, log: seq<Committed>) {
    && db.events == LogTable(log)
    && db.headSeqno == |log| && db.headHash == HeadHash(log)
    && UniqueIds(log)
    && match db.genesis
       case None => log == [] && db.cached.None?
       case Some(g) => ValidGenesis(g) && g.roomKey == db.roomKey && Replays(g, log)
  }

  /** The journal row carries a receipt exactly when its event is stored. */
  ghost predicate JournalTrue(db: ClientDb, log: seq<Committed>) {
    db.pending.Some? ==>
      var j := db.pending.value;
      && (j.receipt.Some? <==> Contains(log, j.proposal))
      && (j.receipt.Some? ==> j.receipt.value in log && j.receipt.value.proposal == j.proposal)
  }

  lemma RowsAreTheLog(db: ClientDb, log: seq<Committed>)
    requires db.events == LogTable(log)
    ensures RowsInOrder(db) == log
  {
    AscendingRange(|log|, db.events.Keys);
    forall i | 0 <= i < |log| ensures RowsInOrder(db)[i] == log[i] {
      assert db.events[i + 1] == Nth(log, i + 1);
    }
  }

  lemma SameRows(a: ClientDb, b: ClientDb)
    requires a.events == b.events
    ensures RowsInOrder(a) == RowsInOrder(b)
  {
  }

  lemma ProjectRoomYieldsFold(db: ClientDb, log: seq<Committed>, g: Genesis, now: Instant)
    requires Holds(db, log) && db.genesis == Some(g) && VerifyGenesis(g, now)
    ensures ProjectRoom(db, g, now) == Ok(Projected(g, log))
  {
    RowsAreTheLog(db, log);
    FoldDescribes(g, log);
  }

  lemma LogTableGrown(log: seq<Committed>, e: Committed)
    requires e.seqno == |log| + 1
    ensures LogTable(log + [e]) == LogTable(log)[e.seqno := e]
  {
    var grown := log + [e];
    assert forall n :: 1 <= n <= |log| ==> Nth(grown, n) == Nth(log, n);
  }

  lemma IdsOfTable(db: ClientDb, log: seq<Committed>, p: Proposal)
    requires db.events == LogTable(log)
    ensures HasId(db, p) <==> Contains(log, p)
  {
    if Contains(log, p) {
      var i :| 0 <= i < |log| && log[i].proposal == p;
      assert (i + 1) in db.events && db.events[i + 1] == Nth(log, i + 1);
    }
    if HasId(db, p) {
      var n :| n in db.events && db.events[n].proposal == p;
      assert log[n - 1].proposal == p;
    }
  }

  /** A prepared event is stored unless its id is already there ... */
  lemma AppendPrepared(db: ClientDb, log: seq<Committed>, g: Genesis, e: Committed)
    requires Holds(db, log) && db.genesis == Some(g) && Apply(Projected(g, log), e).Ok?
    ensures AppendEvent(db, e).Ok? <==> !Contains(log, e.proposal)
    ensures AppendEvent(db, e).Ok? ==>
              AppendEvent(db, e).value.inserted && Holds(AppendEvent(db, e).value.after, log + [e])
  {
    FoldDescribes(g, log);
    IdsOfTable(db, log, e.proposal);
    LogTableGrown(log, e);
    FoldAppend(g, log, e);
    if !Contains(log, e.proposal) { AppendUnique(log, e); }
  }

  /** ... and storing it keeps the journal true. */
  lemma ReceiptOnInsert(db: ClientDb, log: seq<Committed>, e: Committed)
    requires JournalTrue(db, log) && AppendEvent(db, e).Ok? && AppendEvent(db, e).value.inserted
    ensures JournalTrue(AppendEvent(db, e).value.after, log + [e])
  {
    var after := AppendEvent(db, e).value.after;
    if db.pending.Some? {
      var p := db.pending.value.proposal;
      if Contains(log, p) {
        var i :| 0 <= i < |log| && log[i].proposal == p;
        assert (log + [e])[i].proposal == p;
      }
      if p == e.proposal {
        assert (log + [e])[|log|] == e;
      }
    }
  }

  /** Meeting a stored event again changes only its receipt. */
  lemma AppendStored(db: ClientDb, log: seq<Committed>, e: Committed)
    requires Holds(db, log) && JournalTrue(db, log)
    requires AppendEvent(db, e).Ok? && !AppendEvent(db, e).value.inserted
    ensures e in log
    ensures AppendEvent(db, e).value.after == db.(pending := AppendEvent(db, e).value.after.pending)
    ensures Holds(AppendEvent(db, e).value.after, log) && JournalTrue(AppendEvent(db, e).value.after, log)
  {
    assert db.events[e.seqno] == Nth(log, e.seqno);
    assert log[e.seqno - 1] == e;
  }

  /** Every database that holds a log reopens, and opening it changes nothing but
      a cached state that disagrees with the stored events, which is dropped. */
  lemma ReopenRepairsOnlyState(db: ClientDb, log: seq<Committed>, now: Instant)
    requires Holds(db, log) && (db.genesis.Some? ==> VerifyGenesis(db.genesis.value, now))
    ensures Reopen(db, now) ==
            if db.genesis.Some? && db.cached.Some? && !StateMatches(Projected(db.genesis.value, log), db.cached.value)
            then Ok(db.(cached := None)) else Ok(db)
  {
    if db.genesis.Some? {
      ProjectRoomYieldsFold(db, log, db.genesis.value, now);
    } else {
      assert LogTable([]) == map[];
    }
  }

  /** Opening refuses exactly the rooms whose rows do not replay under a verified
      pinned genesis to the stored head, or that have rows without one. */
  lemma ReopenAcceptsIff(db: ClientDb, now: Instant)
    ensures Reopen(db, now).Ok? <==>
              match db.genesis
              case None => db.events == map[] && db.headSeqno == 0 && db.headHash == ZeroHash && db.cached.None?
              case Some(g) =>
                var rows := RowsInOrder(db);
                && VerifyGenesis(g, now) && g.roomKey == db.roomKey
                && Replays(g, rows) && db.headSeqno == |rows| && db.headHash == HeadHash(rows)
  {
    if db.genesis.Some? && VerifyGenesis(db.genesis.value, now) && Replays(db.genesis.value, RowsInOrder(db)) {
      FoldDescribes(db.genesis.value, RowsInOrder(db));
    }
  }

  /** Over the projection of the rows, exactly the covering states are cached. */
  lemma InstallStateIff(db: ClientDb, log: seq<Committed>, g: Genesis, s: RoomState)
    requires Holds(db, log) && db.genesis == Some(g)
    ensures InstallState(db, g, Projected(g, log), s)
            == if StateMatches(Projected(g, log), s) then Ok(db.(cached := Some(s))) else Err(StateDisagrees)
  {
    FoldDescribes(g, log);
  }

  /** The journal holds one operation: a second is refused, and only its own is
      cleared. */
  lemma JournalIsOneSlot(db: ClientDb, g: Genesis, p: Proposal, q: Proposal)
    ensures db.pending.Some? ==> SavePending(db, g, p).Err?
    ensures db.pending.None? ==>
              var saved := SavePending(db, g, p);
              && saved.Ok? && ClearPending(saved.value, p) == db
              && (q != p ==> ClearPending(saved.value, q) == saved.value)
  {
  }
}
