// The room database as tables, and the transactions on them. A transaction is a
// function from the tables before to the tables after, or an error that leaves
// them as they were. The roles table is split by its role column; the revision
// columns of room_state, which repeat fields of the stored state and are never
// read back, are not kept separately.
module Tables {
  import opened Wrappers
  import opened Ordered
  import opened Community
  import opened Replay

  const REJECT_MALFORMED_REQUEST := 1
  const REJECT_WRONG_ROOM := 2
  const REJECT_TIMESTAMP := 3
  const REJECT_REUSED_NONCE := 4
  const REJECT_INVALID_SIGNATURE := 5
  const REJECT_PERMISSION_DENIED := 6
  const REJECT_UNKNOWN_MESSAGE := 7
  const REJECT_ROLE_CONFLICT := 8
  const REJECT_LIMIT_EXCEEDED := 9
  const REJECT_PERSISTENCE_FAILURE := 10
  const REJECT_UNSUPPORTED_EVENT := 11
  const REJECT_SEQUENCER_UNAVAILABLE := 12
  const REJECT_REPLICA_NOT_READY := 13
  const REJECT_INVALID_CANONICAL_STATE := 14
  const REJECT_INVALID_IDENTITY_DOMAIN := 15

  datatype GrantRow = GrantRow(seqno: int, grantedBy: Key)

  datatype EventRow = EventRow(
    eventId: Proposal, commitHash: Hash, previous: Hash, stateChanging: bool, commit: Committed)

  /** The tables that hold the projected room: the metadata columns of
      room_state, the two roles and the pins. */
  datatype Rows = Rows(
    name: string, description: string, anyoneCanWrite: bool,
    admins: map<Key, GrantRow>, moderators: map<Key, GrantRow>, pins: map<int, GrantRow>)

  datatype Head = Head(seqno: int, hash: Hash)

  datatype NonceKey = NonceKey(author: Key, nonce: Nonce)

  datatype Tables = Tables(
    genesis: Genesis, genesisHash: Hash, signed: RoomState, rows: Rows, head: Head,
    events: map<int, EventRow>, messages: map<int, Committed>, nonces: map<NonceKey, int>)

  // ---- Creation ---------------------------------------------------------

  function InitialTables(g: Genesis, raw: RoomState): Tables {
    Tables(g, GenesisHash(g), raw, Rows(g.name, g.description, g.anyoneCanWrite,
                        map k | k in g.initialAdmins :: GrantRow(0, g.roomKey), map[], map[]),
           Head(0, ZeroHash), map[], map[], map[])
  }

  function UnsignedInitialState(g: Genesis): RoomState {
    RoomState(g.roomKey, 0, GenesisHash(g), InitialContent(g), Malformed)
  }

  // ---- Reading the projection tables ------------------------------------

  /** The room content held by the tables: role keys and pins in ascending order. */
  ghost function ContentOf(r: Rows): Content {
    Content(r.name, r.description, r.anyoneCanWrite,
            Ascending(r.admins.Keys), Ascending(r.moderators.Keys), Ascending(r.pins.Keys))
  }

  /** The authorization query: roles from the tables, write policy from `anyone`. */
  predicate AuthorizedByRows(roomKey: Key, r: Rows, anyone: bool, p: Proposal) {
    var owner := p.author == roomKey;
    var admin := p.author in r.admins;
    var moderator := p.author in r.moderators;
    match p.body
    case Message(_) => anyone || owner || admin
    case Metadata(_, _) => owner || admin
    case WritePolicy(_) => owner || admin
    case Pin(_) => owner || admin || moderator
    case Unpin(_) => owner || admin || moderator
    case AdminGrant(_) => owner
    case AdminRevoke(_) => owner
    case ModeratorGrant(_) => owner || admin
    case ModeratorRevoke(_) => owner || admin
  }

  /** Row numbers whose event id is `p`; the unique index admits at most one. */
  function RowsWithId(events: map<int, EventRow>, p: Proposal): set<int> {
    set s | s in events && events[s].eventId == p
  }

  ghost function FindById(events: map<int, EventRow>, p: Proposal): Option<Committed> {
    if s :| s in RowsWithId(events, p) then Some(events[s].commit) else None
  }

  // ---- Writing ----------------------------------------------------------

  function RowOf(e: Committed): EventRow {
    EventRow(e.proposal, CommitHash(e), e.previous, !IsMessage(e), e)
  }

  /** Insert an event row under the primary key and the two unique indexes. */
  function InsertEvent(t: Tables, e: Committed): Result<Tables, int> {
    if e.seqno in t.events
       || RowsWithId(t.events, e.proposal) != {}
       || exists s :: s in t.events && t.events[s].commitHash == CommitHash(e)
    then Err(REJECT_PERSISTENCE_FAILURE)
    else Ok(t.(events := t.events[e.seqno := RowOf(e)]))
  }

  function GrantRole(roomKey: Key, roles: map<Key, GrantRow>, limit: nat, e: Committed, key: Key)
    : Result<map<Key, GrantRow>, int>
  {
    if key == roomKey then Err(REJECT_ROLE_CONFLICT)
    else if |roles| >= limit then Err(REJECT_LIMIT_EXCEEDED)
    else if key in roles then Err(REJECT_ROLE_CONFLICT)
    else Ok(roles[key := GrantRow(e.seqno, e.proposal.author)])
  }

  function RevokeRole(roomKey: Key, roles: map<Key, GrantRow>, key: Key): Result<map<Key, GrantRow>, int> {
    if key == roomKey || key !in roles then Err(REJECT_ROLE_CONFLICT)
    else Ok(roles - {key})
  }

  function WithAdminRows(r: Rows, roles: Result<map<Key, GrantRow>, int>): Result<Rows, int> {
    match roles case Ok(keys) => Ok(r.(admins := keys)) case Err(code) => Err(code)
  }

  function WithModeratorRows(r: Rows, roles: Result<map<Key, GrantRow>, int>): Result<Rows, int> {
    match roles case Ok(keys) => Ok(r.(moderators := keys)) case Err(code) => Err(code)
  }

  /** The effect of one state-changing event on the projection tables. */
  function ApplyRows(roomKey: Key, r: Rows, messages: map<int, Committed>, e: Committed): Result<Rows, int> {
    match e.proposal.body
    case Message(_) => Ok(r)
    case Metadata(name, description) => Ok(r.(name := name, description := description))
    case WritePolicy(anyone) => Ok(r.(anyoneCanWrite := anyone))
    case Pin(id) =>
      if id !in messages then Err(REJECT_UNKNOWN_MESSAGE)
      else if |r.pins| >= MAX_PINS then Err(REJECT_LIMIT_EXCEEDED)
      else if id in r.pins then Err(REJECT_ROLE_CONFLICT)
      else Ok(r.(pins := r.pins[id := GrantRow(e.seqno, e.proposal.author)]))
    case Unpin(id) =>
      if id !in r.pins then Err(REJECT_UNKNOWN_MESSAGE) else Ok(r.(pins := r.pins - {id}))
    case AdminGrant(key) => WithAdminRows(r, GrantRole(roomKey, r.admins, MAX_ADMINS, e, key))
    case AdminRevoke(key) => WithAdminRows(r, RevokeRole(roomKey, r.admins, key))
    case ModeratorGrant(key) => WithModeratorRows(r, GrantRole(roomKey, r.moderators, MAX_MODERATORS, e, key))
    case ModeratorRevoke(key) => WithModeratorRows(r, RevokeRole(roomKey, r.moderators, key))
  }

  function ApplyTables(t: Tables, e: Committed): Result<Tables, int> {
    if e.proposal.body.Message? then
      if e.messageId in t.messages then Err(REJECT_PERSISTENCE_FAILURE)
      else Ok(t.(messages := t.messages[e.messageId := e]))
    else
      match ApplyRows(t.genesis.roomKey, t.rows, t.messages, e)
      case Err(code) => Err(code)
      case Ok(rows) => Ok(t.(rows := rows))
  }

  // ---- The sequencer's transaction --------------------------------------

  datatype CommitResult = Accepted(commit: Committed,
      after: Tables) | Duplicate(commit: Committed) | Rejected(code: int)

  function LiveNonces(nonces: map<NonceKey, int>, now: Instant): map<NonceKey, int> {
    map k | k in nonces && nonces[k] > Unix(now) :: nonces[k]
  }

  /** Sign the snapshot that covers a state-changing commit. */
  ghost function PersistSnapshot(t: Tables, roomKey: Key, e: Committed): Result<Tables, int> {
    match SignRoomState(roomKey, RoomState(t.genesis.roomKey, e.seqno, CommitHash(e), ContentOf(t.rows), Malformed))
    case Err(_) => Err(REJECT_PERSISTENCE_FAILURE)
    case Ok(signed) => Ok(t.(signed := signed))
  }

  /** Record the event in every table, in the order of the transaction. */
  ghost function RecordCommit(t: Tables, roomKey: Key, e: Committed, now: Instant): Result<Tables, int> {
    match InsertEvent(t, e)
    case Err(code) => Err(code)
    case Ok(t1) =>
      match ApplyTables(t1, e)
      case Err(code) => Err(code)
      case Ok(t2) =>
        match if IsMessage(e) then Ok(t2) else PersistSnapshot(t2, roomKey, e)
        case Err(code) => Err(code)
        case Ok(t3) =>
          var k := NonceKey(e.proposal.author, e.proposal.nonce);
          if k in t3.nonces then Err(REJECT_PERSISTENCE_FAILURE)
          else Ok(t3.(nonces := t3.nonces[k := Unix(now) + NONCE_RETENTION_SECONDS],
                      head := Head(e.seqno, CommitHash(e))))
  }

  /** One commit attempt with the private half of `roomKey` at instant `now`. */
  ghost function CommitTx(t: Tables, p: Proposal, roomKey: Key, now: Instant): CommitResult {
    match FindById(t.events, p)
    case Some(e) => Duplicate(e)
    case None =>
      if p.roomId != t.genesis.roomKey then Rejected(REJECT_WRONG_ROOM)
      else if roomKey != t.genesis.roomKey then Rejected(REJECT_PERSISTENCE_FAILURE)
      else
        match VerifyProposal(p, t.genesis.nodeKey, now)
        case Err(why) => Rejected(if why == BadTimestamp then REJECT_TIMESTAMP else REJECT_INVALID_SIGNATURE)
        case Ok(_) =>
          var t0 := t.(nonces := LiveNonces(t.nonces, now));
          if NonceKey(p.author, p.nonce) in t0.nonces then Rejected(REJECT_REUSED_NONCE)
          else if !AuthorizedByRows(t.genesis.roomKey, t.rows, t.signed.content.anyoneCanWrite, p)
              then Rejected(REJECT_PERMISSION_DENIED)
          else
            match SignCommit(roomKey, p, t.head.seqno + 1, t.head.hash, now)
            case Err(_) => Rejected(REJECT_PERSISTENCE_FAILURE)
            case Ok(e) =>
              match RecordCommit(t0, roomKey, e, now)
              case Err(code) => Rejected(code)
              case Ok(after) => Accepted(e, after)
  }

  /** Rejections and duplicates leave every table as it was, expiry included. */
  function AfterCommit(t: Tables, r: CommitResult): Tables {
    match r case Accepted(_, after) => after case _ => t
  }

  // ---- The replica's transactions ---------------------------------------

  datatype AppendError = InvalidCommit | Fork | Gap | Violation | Conflicting

  datatype Appended = Appended(inserted: bool, after: Tables)

  function AppendTx(t: Tables, e: Committed): Result<Appended, AppendError> {
    if VerifyCommit(e, t.genesis.roomKey, t.genesis.nodeKey).Err? then Err(InvalidCommit)
    else if e.seqno in t.events then
      if t.events[e.seqno].commitHash == CommitHash(e) then Ok(Appended(false, t)) else Err(Fork)
    else if e.seqno != t.head.seqno + 1 || e.previous != t.head.hash then Err(Gap)
    else if !AuthorizedByRows(t.genesis.roomKey, t.rows, t.rows.anyoneCanWrite, e.proposal) then Err(Violation)
    else
      match InsertEvent(t, e)
      case Err(_) => Err(Conflicting)
      case Ok(t1) =>
        match ApplyTables(t1, e)
        case Err(_) => Err(Conflicting)
        case Ok(t2) =>
          var k := NonceKey(e.proposal.author, e.proposal.nonce);
          var nonces := if k in t2.nonces then t2.nonces
                        else t2.nonces[k := e.committedAt + NONCE_RETENTION_SECONDS];
          Ok(Appended(true, t2.(nonces := nonces, head := Head(e.seqno, CommitHash(e)))))
  }

  datatype InstallError = InvalidState | OtherRoom | AheadOfHead | RevisionMismatch | Disagrees

  ghost function InstallTx(t: Tables, s: RoomState): Result<Tables, InstallError> {
    if !VerifyState(s) then Err(InvalidState)
    else if s.roomId != t.genesis.roomKey then Err(OtherRoom)
    else if s.revisionSeqno > t.head.seqno then Err(AheadOfHead)
    else if s.revisionSeqno > 0 && s.revisionSeqno !in t.events then Err(RevisionMismatch)
    else if s.revisionHash != (if s.revisionSeqno > 0 then t.events[s.revisionSeqno].commitHash else t.genesisHash)
    then Err(RevisionMismatch)
    else if s.content != ContentOf(t.rows) then Err(Disagrees)
    else Ok(t.(signed := s, rows := t.rows.(name := s.content.name, description := s.content.description,
                                            anyoneCanWrite := s.content.anyoneCanWrite)))
  }

  // ---- Checks -----------------------------------------------------------

  function StateChangingRows(events: map<int, EventRow>): set<int> {
    set s | s in events && events[s].stateChanging
  }

  /** The cheap readiness check: the signed state covers the last state change. */
  ghost predicate ReadyTx(t: Tables) {
    var rows := Ascending(StateChangingRows(t.events));
    && VerifyState(t.signed)
    && t.signed.revisionSeqno <= t.head.seqno
    && (if rows == [] then
          t.signed.revisionSeqno == 0 && t.signed.revisionHash == t.genesisHash
        else
          var last := rows[|rows| - 1];
          assert last in Elements(rows);
          t.signed.revisionSeqno == last && t.signed.revisionHash == t.events[last].commitHash)
  }
}
