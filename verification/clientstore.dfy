// The client's database object. Each method is one transaction; reading the room
// back folds its rows into a fresh projection object.
module ClientStores {
  import opened Wrappers
  import opened Ordered
  import opened Community
  import opened Replay
  import opened ClientDbs
  import P = Projections

  class ClientStore {
    var db: ClientDb

    constructor (roomKey: Key)
      ensures db == NewRoom(roomKey)
    {
      db := NewRoom(roomKey);
    }

    method PinGenesis(g: Genesis, now: Instant) returns (ok: bool)
      modifies this
      ensures match ClientDbs.PinGenesis(old(db), g, now)
              case Ok(after) => ok && db == after
              case Err(_) => !ok && db == old(db)
    {
      if !VerifyGenesis(g, now) || g.roomKey != db.roomKey {
        return false;
      }
      if db.genesis.Some? {
        return db.genesis.value == g;
      }
      db := db.(genesis := Some(g));
      return true;
    }

    /** Store an event, or meet it again, and give a matching journal row its
        receipt in the same transaction. */
    method AppendEvent(e: Committed) returns (r: Result<bool, DbError>)
      modifies this
      ensures match ClientDbs.AppendEvent(old(db), e)
              case Ok(stored) => r == Ok(stored.inserted) && db == stored.after
              case Err(why) => r == Err(why) && db == old(db)
    {
      var tx := db;
      if e.seqno <= tx.headSeqno {
        if e.seqno !in tx.events || tx.events[e.seqno] != e {
          return Err(ConflictingEvent);
        }
        tx := tx.(pending := Receipted(tx.pending, e));
        db := tx;
        return Ok(false);
      }
      if e.seqno != tx.headSeqno + 1 || e.previous != tx.headHash {
        return Err(NonContiguousEvent);
      }
      if e.seqno in tx.events || HasId(tx, e.proposal) {
        return Err(DuplicateId);
      }
      tx := tx.(events := tx.events[e.seqno := e]);
      tx := tx.(headSeqno := e.seqno, headHash := CommitHash(e));
      tx := tx.(pending := Receipted(tx.pending, e));
      db := tx;
      return Ok(true);
    }

    method HasEvent(e: Committed) returns (r: Result<bool, DbError>)
      ensures r == ClientDbs.HasEvent(db, e)
    {
      if e.seqno !in db.events {
        return Ok(false);
      }
      if db.events[e.seqno] != e {
        return Err(ConflictingEvent);
      }
      return Ok(true);
    }

    /** Apply the rows one after another. */
    static method FoldRows(events: map<int, Committed>, numbers: seq<int>, p: P.Projection,
                           ghost g: Genesis, ghost rows: seq<Committed>) returns (ok: bool)
      requires p.Valid() && p.View() == NewProj(g)
      requires |rows| == |numbers|
      requires forall i :: 0 <= i < |numbers| ==> numbers[i] in events && rows[i] == events[numbers[i]]
      modifies p
      ensures p.Valid() && (ok <==> Replays(g, rows)) && (ok ==> Fold(g, rows) == Ok(p.View()))
    {
      hide Apply;
      for i := 0 to |numbers|
        invariant p.Valid() && Fold(g, rows[..i]) == Ok(p.View())
      {
        FoldNext(g, rows, i);
        var applied := p.ApplyEvent(events[numbers[i]]);
        if applied.Err? {
          RefusedRow(g, rows, i);
          return false;
        }
      }
      assert rows[..|numbers|] == rows;
      return true;
    }

    /** Fold the rows, in order, into a projection and compare its head with the
        stored one. */
    method ProjectRoom(g: Genesis, now: Instant) returns (r: Result<P.Projection, DbError>)
      ensures match ClientDbs.ProjectRoom(db, g, now)
              case Ok(p) => r.Ok? && fresh(r.value) && r.value.Valid() && r.value.View() == p
              case Err(why) => r == Err(why)
    {
      if !VerifyGenesis(g, now) {
        return Err(BadGenesis);
      }
      var numbers := OrderBy(db.events.Keys);
      RowsByNumber(db);
      hide RowsInOrder, VerifyGenesis;
      var p := new P.Projection(g);
      var ok := FoldRows(db.events, numbers, p, g, RowsInOrder(db));
      if !ok {
        return Err(BadHistory);
      }
      if p.headSeq != db.headSeqno || p.headHash != db.headHash {
        return Err(HeadMismatch);
      }
      return Ok(p);
    }

    /** Cache a signed state that agrees with a projection of the stored rows. */
    method InstallState(g: Genesis, p: P.Projection, s: RoomState) returns (ok: bool)
      requires p.Valid()
      modifies this
      ensures match ClientDbs.InstallState(old(db), g, old(p.View()), s)
              case Ok(after) => ok && db == after
              case Err(_) => !ok && db == old(db)
    {
      if g.roomKey != db.roomKey || s.roomId != db.roomKey || db.genesis != Some(g) {
        return false;
      }
      if p.headSeq != db.headSeqno || p.headHash != db.headHash {
        return false;
      }
      var agrees := p.ValidateState(s);
      if !agrees {
        return false;
      }
      db := db.(cached := Some(s));
      return true;
    }

    /** What opening the client does to a joined room. */
    method ValidateOrRepair(now: Instant) returns (ok: bool)
      modifies this
      ensures match Reopen(old(db), now)
              case Ok(after) => ok && db == after
              case Err(_) => !ok && db == old(db)
    {
      if db.genesis.None? {
        return !(db.events != map[] || db.headSeqno != 0 || db.cached.Some? || db.headHash != ZeroHash);
      }
      var g := db.genesis.value;
      if !VerifyGenesis(g, now) || g.roomKey != db.roomKey {
        return false;
      }
      var projected := ProjectRoom(g, now);
      if projected.Err? {
        return false;
      }
      if db.cached.Some? {
        var agrees := projected.value.ValidateState(db.cached.value);
        if !agrees {
          db := db.(cached := None);
        }
      }
      return true;
    }

    method SavePending(g: Genesis, p: Proposal) returns (ok: bool)
      modifies this
      ensures match ClientDbs.SavePending(old(db), g, p)
              case Ok(after) => ok && db == after
              case Err(_) => !ok && db == old(db)
    {
      if db.pending.Some? {
        return false;
      }
      db := db.(pending := Some(Journal(p, GenesisHash(g), None)));
      return true;
    }

    method ClearPending(p: Proposal)
      modifies this
      ensures db == ClientDbs.ClearPending(old(db), p)
    {
      if db.pending.Some? && db.pending.value.proposal == p {
        db := db.(pending := None);
      }
    }
  }

  lemma FoldNext(g: Genesis, rows: seq<Committed>, i: nat)
    requires i < |rows| && Replays(g, rows[..i])
    ensures Fold(g, rows[..i + 1]) == Apply(Projected(g, rows[..i]), rows[i])
  {
    hide Apply;
    FoldAppend(g, rows[..i], rows[i]);
    assert rows[..i + 1] == rows[..i] + [rows[i]];
  }

  lemma RowsByNumber(db: ClientDb)
    ensures |RowsInOrder(db)| == |Ascending(db.events.Keys)|
    ensures forall i :: 0 <= i < |RowsInOrder(db)| ==>
              Ascending(db.events.Keys)[i] in db.events && RowsInOrder(db)[i] == db.events[Ascending(db.events.Keys)[i]]
  {
    AscendingMembers(db.events.Keys);
  }

  /** A history with one refused row is refused as a whole. */
  lemma {:induction false} RefusedRow(g: Genesis, rows: seq<Committed>, i: nat)
    requires i < |rows| && Fold(g, rows[..i + 1]).Err?
    ensures Fold(g, rows).Err?
    decreases |rows|
  {
    if i + 1 == |rows| {
      assert rows[..i + 1] == rows;
    } else {
      var front := rows[..|rows| - 1];
      assert front[..i + 1] == rows[..i + 1];
      RefusedRow(g, front, i);
    }
  }
}
