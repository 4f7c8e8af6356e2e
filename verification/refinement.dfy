// The tables of a room database stand for a log: they hold exactly its rows, and
// the projection tables hold exactly what replaying it yields. Appending through
// SQL then accepts the same events as the in-memory projection, with the same
// result, although the two test limits and conflicts in different orders.
module Refinement {
  import opened Wrappers
  import opened Ordered
  import opened Community
  import opened Replay
  import opened Tables

  function EventTable(log: seq<Committed>): map<int, EventRow> {
    map n | 1 <= n <= |log| :: RowOf(Nth(log, n))
  }

  function MessageTable(log: seq<Committed>): map<int, Committed> {
    map n | 1 <= n <= |log| && IsMessage(Nth(log, n)) :: Nth(log, n)
  }

  ghost predicate Represents(t: Tables, log: seq<Committed>) {
    && ValidGenesis(t.genesis) && t.genesisHash == GenesisHash(t.genesis)
    && Replays(t.genesis, log)
    && UniqueIds(log)
    && t.events == EventTable(log)
    && t.messages == MessageTable(log)
    && t.head == Head(|log|, HeadHash(log))
    && ContentOf(t.rows) == Projected(t.genesis, log).content
  }

  /** The stored signed state is the room's signature over the replayed state. */
  ghost predicate Covered(t: Tables, log: seq<Committed>)
    requires Represents(t, log)
  {
    StateMatches(Projected(t.genesis, log), t.signed)
  }

  // ---- Ascending key lists against grown and shrunk tables --------------

  lemma AscendingInsert(s: set<int>, k: int)
    requires k !in s
    ensures Ascending(s + {k}) == Sort(Ascending(s) + [k])
  {
    AscendingMembers(s);
    SortAppend(Ascending(s), k);
    IncreasingUnique(Ascending(s + {k}), Sort(Ascending(s) + [k]));
  }

  lemma AscendingRemove(s: set<int>, k: int)
    requires k in s
    ensures Ascending(s - {k}) == Without(Ascending(s), k)
  {
    AscendingMembers(s);
    WithoutIncreasing(Ascending(s), k);
    IncreasingUnique(Ascending(s - {k}), Without(Ascending(s), k));
  }

  lemma InsertedKeys<V>(before: map<int, V>, key: int, row: V)
    requires key !in before
    ensures Ascending(before[key := row].Keys) == Sort(Ascending(before.Keys) + [key])
  {
    AscendingInsert(before.Keys, key);
    assert before[key := row].Keys == before.Keys + {key};
  }

  lemma RemovedKeys<V>(before: map<int, V>, key: int)
    requires key in before
    ensures Ascending((before - {key}).Keys) == Without(Ascending(before.Keys), key)
  {
    AscendingRemove(before.Keys, key);
    assert (before - {key}).Keys == before.Keys - {key};
  }

  lemma GrantRefines(roomKey: Key, roles: map<Key, GrantRow>, limit: nat, e: Committed, key: Key)
    ensures match GrantRole(roomKey, roles, limit, e, key)
            case Err(_) => Grant(roomKey, Ascending(roles.Keys), limit, key).Err?
            case Ok(after) => Grant(roomKey, Ascending(roles.Keys), limit, key) == Ok(Ascending(after.Keys))
  {
    AscendingMembers(roles.Keys);
    assert |roles| == |roles.Keys|;
    if key !in roles {
      InsertedKeys(roles, key, GrantRow(e.seqno, e.proposal.author));
    }
  }

  lemma RevokeRefines(roomKey: Key, roles: map<Key, GrantRow>, key: Key)
    ensures match RevokeRole(roomKey, roles, key)
            case Err(_) => Revoke(roomKey, Ascending(roles.Keys), key).Err?
            case Ok(after) => Revoke(roomKey, Ascending(roles.Keys), key) == Ok(Ascending(after.Keys))
  {
    AscendingMembers(roles.Keys);
    if key in roles {
      RemovedKeys(roles, key);
    }
  }

  /** The SQL statements and the in-memory body accept the same event and leave
      the same content behind. */
  ghost predicate SameEffect(roomKey: Key, r: Rows, messages: map<int, Committed>, e: Committed) {
    match ApplyRows(roomKey, r, messages, e)
    case Err(_) => ApplyBody(roomKey, ContentOf(r), messages.Keys, e.proposal.body).Err?
    case Ok(after) => ApplyBody(roomKey, ContentOf(r), messages.Keys, e.proposal.body) == Ok(ContentOf(after))
  }

  lemma PinRefines(roomKey: Key, r: Rows, messages: map<int, Committed>, e: Committed)
    requires e.proposal.body.Pin?
    ensures SameEffect(roomKey, r, messages, e)
  {
    AscendingMembers(r.pins.Keys);
    assert |r.pins| == |r.pins.Keys|;
    if e.proposal.body.messageId !in r.pins {
      InsertedKeys(r.pins, e.proposal.body.messageId, GrantRow(e.seqno, e.proposal.author));
    }
  }

  lemma UnpinRefines(roomKey: Key, r: Rows, messages: map<int, Committed>, e: Committed)
    requires e.proposal.body.Unpin?
    ensures SameEffect(roomKey, r, messages, e)
  {
    AscendingMembers(r.pins.Keys);
    if e.proposal.body.messageId in r.pins {
      RemovedKeys(r.pins, e.proposal.body.messageId);
    }
  }

  lemma AdminGrantRefines(roomKey: Key, r: Rows, messages: map<int, Committed>, e: Committed)
    requires e.proposal.body.AdminGrant?
    ensures SameEffect(roomKey, r, messages, e)
  {
    GrantRefines(roomKey, r.admins, MAX_ADMINS, e, e.proposal.body.subject);
  }

  lemma AdminRevokeRefines(roomKey: Key, r: Rows, messages: map<int, Committed>, e: Committed)
    requires e.proposal.body.AdminRevoke?
    ensures SameEffect(roomKey, r, messages, e)
  {
    RevokeRefines(roomKey, r.admins, e.proposal.body.subject);
  }

  lemma ModeratorGrantRefines(roomKey: Key, r: Rows, messages: map<int, Committed>, e: Committed)
    requires e.proposal.body.ModeratorGrant?
    ensures SameEffect(roomKey, r, messages, e)
  {
    GrantRefines(roomKey, r.moderators, MAX_MODERATORS, e, e.proposal.body.subject);
  }

  lemma ModeratorRevokeRefines(roomKey: Key, r: Rows, messages: map<int, Committed>, e: Committed)
    requires e.proposal.body.ModeratorRevoke?
    ensures SameEffect(roomKey, r, messages, e)
  {
    RevokeRefines(roomKey, r.moderators, e.proposal.body.subject);
  }

  lemma MetadataRefines(roomKey: Key, r: Rows, messages: map<int, Committed>, e: Committed)
    requires e.proposal.body.Message? || e.proposal.body.Metadata? || e.proposal.body.WritePolicy?
    ensures SameEffect(roomKey, r, messages, e)
  {
  }

  lemma BodyRefines(roomKey: Key, r: Rows, messages: map<int, Committed>, e: Committed)
    ensures SameEffect(roomKey, r, messages, e)
  {
    match e.proposal.body
    case Pin(_) => PinRefines(roomKey, r, messages, e);
    case Unpin(_) => UnpinRefines(roomKey, r, messages, e);
    case AdminGrant(_) => AdminGrantRefines(roomKey, r, messages, e);
    case AdminRevoke(_) => AdminRevokeRefines(roomKey, r, messages, e);
    case ModeratorGrant(_) => ModeratorGrantRefines(roomKey, r, messages, e);
    case ModeratorRevoke(_) => ModeratorRevokeRefines(roomKey, r, messages, e);
    case _ => MetadataRefines(roomKey, r, messages, e);
  }

  lemma AuthorizationRefines(roomKey: Key, r: Rows, p: Proposal)
    ensures AuthorizedByRows(roomKey, r, r.anyoneCanWrite, p) <==> Authorized(roomKey, ContentOf(r), p)
  {
    AscendingMembers(r.admins.Keys);
    AscendingMembers(r.moderators.Keys);
  }

  // ---- Rows -------------------------------------------------------------

  lemma IdRows(t: Tables, log: seq<Committed>, p: Proposal)
    requires Represents(t, log)
    ensures RowsWithId(t.events, p) == {} <==> !Contains(log, p)
    ensures match FindById(t.events, p)
            case None => !Contains(log, p)
            case Some(e) => e in log && e.proposal == p
  {
    var hits := RowsWithId(t.events, p);
    assert hits == set s | 1 <= s <= |log| && Nth(log, s).proposal == p;
    if Contains(log, p) {
      var i :| 0 <= i < |log| && log[i].proposal == p;
      assert i + 1 in hits;
    }
    if |hits| > 0 {
      var s := Ascending(hits)[0];
      assert s in Elements(Ascending(hits));
      assert log[s - 1] in log;
    }
  }

  lemma EventTableGrown(log: seq<Committed>, e: Committed)
    requires e.seqno == |log| + 1
    ensures EventTable(log + [e]) == EventTable(log)[e.seqno := RowOf(e)]
  {
    var grown := log + [e];
    assert forall n :: 1 <= n <= |log| ==> Nth(grown, n) == Nth(log, n);
  }

  lemma MessageTableGrown(log: seq<Committed>, e: Committed)
    requires e.seqno == |log| + 1
    ensures MessageTable(log + [e]) == if IsMessage(e) then MessageTable(log)[e.seqno := e] else MessageTable(log)
  {
    var grown := log + [e];
    assert forall n :: 1 <= n <= |log| ==> Nth(grown, n) == Nth(log, n);
  }

  lemma InsertAtHead(t: Tables, log: seq<Committed>, e: Committed)
    requires Represents(t, log) && e.seqno == |log| + 1
    ensures InsertEvent(t, e).Ok? <==> !Contains(log, e.proposal)
    ensures InsertEvent(t, e).Ok? ==> InsertEvent(t, e).value == t.(events := EventTable(log + [e]))
  {
    IdRows(t, log, e.proposal);
    EventTableGrown(log, e);
    FoldDescribes(t.genesis, log);
    forall s | s in t.events ensures t.events[s].commitHash != CommitHash(e) {
      assert Nth(log, s).seqno == s;
    }
  }

  lemma MessagesOfLog(t: Tables, log: seq<Committed>)
    requires Represents(t, log)
    ensures Describes(Projected(t.genesis, log), t.genesis, log)
    ensures Projected(t.genesis, log).messages == t.messages.Keys
  {
    FoldDescribes(t.genesis, log);
    forall id ensures id in Projected(t.genesis, log).messages <==> id in t.messages {
      assert id in t.messages <==> MessageAt(log, id);
    }
  }

  // ---- The refinement ---------------------------------------------------

  /** Tables that stand for a log apply an event's rows exactly when the
      projection of that log applies the event ... */
  lemma RowsAgree(t: Tables, log: seq<Committed>, e: Committed)
    requires Represents(t, log)
    requires VerifyCommit(e, t.genesis.roomKey, t.genesis.nodeKey).Ok?
    requires Follows(Projected(t.genesis, log), e)
    requires Authorized(t.genesis.roomKey, ContentOf(t.rows), e.proposal)
    ensures ApplyTables(t.(events := EventTable(log + [e])), e).Ok? <==> Apply(Projected(t.genesis, log), e).Ok?
  {
    MessagesOfLog(t, log);
    BodyRefines(t.genesis.roomKey, t.rows, t.messages, e);
  }

  /** ... with equal content after ... */
  lemma RowsRefine(t: Tables, log: seq<Committed>, e: Committed, t2: Tables)
    requires Represents(t, log)
    requires VerifyCommit(e, t.genesis.roomKey, t.genesis.nodeKey).Ok?
    requires Follows(Projected(t.genesis, log), e)
    requires Authorized(t.genesis.roomKey, ContentOf(t.rows), e.proposal)
    requires ApplyTables(t.(events := EventTable(log + [e])), e) == Ok(t2)
    ensures Apply(Projected(t.genesis, log), e).Ok?
    ensures ContentOf(t2.rows) == Apply(Projected(t.genesis, log), e).value.content
  {
    MessagesOfLog(t, log);
    RowsAgree(t, log, e);
    BodyRefines(t.genesis.roomKey, t.rows, t.messages, e);
  }

  /** ... and every other table as the event leaves it. */
  lemma ApplyTablesFrame(t: Tables, log: seq<Committed>, e: Committed, t2: Tables)
    requires t.messages == MessageTable(log) && e.seqno == |log| + 1 && (IsMessage(e) ==> e.messageId == e.seqno)
    requires ApplyTables(t, e) == Ok(t2)
    ensures t2.genesis == t.genesis && t2.genesisHash == t.genesisHash
    ensures t2.events == t.events && t2.nonces == t.nonces
    ensures t2.signed == t.signed && t2.head == t.head
    ensures t2.messages == MessageTable(log + [e])
  {
    MessageTableGrown(log, e);
  }

  lemma RepresentsGrown(t: Tables, log: seq<Committed>, e: Committed)
    requires ValidGenesis(t.genesis) && t.genesisHash == GenesisHash(t.genesis) && Replays(t.genesis, log)
    requires UniqueIds(log) && !Contains(log, e.proposal)
    requires Apply(Projected(t.genesis, log), e).Ok?
    requires t.events == EventTable(log + [e]) && t.messages == MessageTable(log + [e])
    requires t.head == Head(|log| + 1, CommitHash(e))
    requires ContentOf(t.rows) == Apply(Projected(t.genesis, log), e).value.content
    ensures Represents(t, log + [e])
  {
    FoldAppend(t.genesis, log, e);
    AppendUnique(log, e);
  }

  /** The SQL interpreter refines the in-memory one: a replica standing for `log`
      inserts an event exactly when the projection of `log` applies it and its id
      is not yet stored, ... */
  lemma AppendAgreesWithApply(t: Tables, log: seq<Committed>, e: Committed)
    requires Represents(t, log)
    ensures (AppendTx(t, e).Ok? && AppendTx(t, e).value.inserted)
            <==> (Apply(Projected(t.genesis, log), e).Ok? && !Contains(log, e.proposal))
  {
    MessagesOfLog(t, log);
    if VerifyCommit(e, t.genesis.roomKey, t.genesis.nodeKey).Ok? && Follows(Projected(t.genesis, log), e) {
      assert e.seqno !in t.events;
      AuthorizationRefines(t.genesis.roomKey, t.rows, e.proposal);
      InsertAtHead(t, log, e);
      if Authorized(t.genesis.roomKey, ContentOf(t.rows), e.proposal) {
        RowsAgree(t, log, e);
      }
    }
  }

  /** ... and then stands for the longer log. */
  lemma AppendRefinesApply(t: Tables, log: seq<Committed>, e: Committed, after: Tables)
    requires Represents(t, log) && AppendTx(t, e) == Ok(Appended(true, after))
    ensures Represents(after, log + [e])
    ensures after.genesis == t.genesis && after.signed == t.signed
  {
    AppendAgreesWithApply(t, log, e);
    AuthorizationRefines(t.genesis.roomKey, t.rows, e.proposal);
    MessagesOfLog(t, log);
    InsertAtHead(t, log, e);
    var t2 := ApplyTables(t.(events := EventTable(log + [e])), e).value;
    RowsRefine(t, log, e, t2);
    ApplyTablesFrame(t.(events := EventTable(log + [e])), log, e, t2);
    RepresentsGrown(after, log, e);
  }

  /** An append that inserts nothing has met an event it already holds. */
  lemma AppendIdempotent(t: Tables, log: seq<Committed>, e: Committed, after: Tables)
    requires Represents(t, log) && AppendTx(t, e) == Ok(Appended(false, after))
    ensures after == t && e in log
  {
    assert t.events[e.seqno] == RowOf(Nth(log, e.seqno));
    assert log[e.seqno - 1] in log;
  }

  /** Installing a signed state never changes what the tables stand for. */
  lemma InstallKeepsLog(t: Tables, log: seq<Committed>, s: RoomState)
    requires Represents(t, log) && InstallTx(t, s).Ok?
    ensures Represents(InstallTx(t, s).value, log)
    ensures InstallTx(t, s).value.signed == s
    ensures s.content == Projected(t.genesis, log).content
    ensures s.revisionSeqno <= |log| && s.roomId == t.genesis.roomKey && VerifyState(s)
    ensures s.revisionHash == RevisionHash(t.genesis, log, s.revisionSeqno)
  {
  }
}
