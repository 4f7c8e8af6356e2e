// The room handle object: synchronization over a session and the processing of
// one queued event, with the store and the live projection on the heap. The
// methods are proved against the operations of Rooms; the script they are
// compared with is the trace of what the environment answered.
module Handles {
  import opened Wrappers
  import opened Ordered
  import opened Community
  import opened Replay
  import opened ClientDbs
  import opened Rooms
  import opened Catchups
  import opened Pages
  import opened ClientStores
  import P = Projections

  /** The peer's answer to a page query. */
  datatype PageReply = NoAnswer | PageReply(current: bool, deliveries: seq<Delivery>, hasMore: bool)

  /** A session's answers, by query number and requested position. */
  type Answers = (nat, int) -> PageReply

  /** Commits under the room key come from the sequencer's log. */
  ghost predicate Unforged(answers: Answers, roomKey: Key, log: seq<Committed>) {
    forall k: nat, after: int, d :: answers(k, after).PageReply? && d in answers(k, after).deliveries ==>
      Genuine(d.e, roomKey, log)
  }

  /** The session's peer answers every query from the log and stays connected. */
  ghost predicate Honest(answers: Answers, log: seq<Committed>) {
    forall k: nat, after: nat :: after <= |log| ==>
      var page := PageOf(log, after, MAX_PAGE_LIMIT);
      answers(k, after) == PageReply(true, Delivering(page.events), page.hasMore)
  }

  // ---- Progress of a running synchronization ----------------------------

  /** Every event a running synchronization accepts extends the rows by it. */
  lemma DeliveredExtends(pr: Progress, s: Session, d: Delivery)
    requires OnTrack(pr, s) && pr.status == Running && Deliver(pr, s, d).status == Running
    ensures RowsInOrder(Deliver(pr, s, d).db) == RowsInOrder(pr.db) + [d.e]
    ensures d.e.signature == By(pr.db.roomKey) && d.e.seqno == |RowsInOrder(pr.db)| + 1
    ensures Deliver(pr, s, d).db.roomKey == pr.db.roomKey
    ensures Deliver(pr, s, d).lastSeqno == d.e.seqno
  {
    StorePrepared(pr.db, s.genesis, d.e);
  }

  lemma GenuineIsWithin(e: Committed, roomKey: Key, log: seq<Committed>, n: nat)
    requires Chained(log) && Genuine(e, roomKey, log) && e.signature == By(roomKey) && e.seqno == n + 1
    ensures n < |log| && log[n] == e
  {
    var j :| 0 <= j < |log| && log[j] == e;
    assert log[j].seqno == j + 1;
  }

  lemma NextApplies(g: Genesis, log: seq<Committed>, n: nat)
    requires Replays(g, log) && n < |log|
    ensures Replays(g, log[..n]) && Apply(Projected(g, log[..n]), log[n]).Ok?
  {
    hide Apply;
    FoldPrefix(g, log, n);
    FoldPrefix(g, log, n + 1);
    assert log[..n + 1] == log[..n] + [log[n]];
    FoldAppend(g, log[..n], log[n]);
  }

  /** An applicable event with a new id is accepted. */
  lemma ApplicableIsDelivered(pr: Progress, s: Session, e: Committed)
    requires OnTrack(pr, s) && pr.status == Running && pr.db.roomKey == s.genesis.roomKey
    requires Apply(Projected(s.genesis, RowsInOrder(pr.db)), e).Ok? && !Contains(RowsInOrder(pr.db), e.proposal)
    requires VerifyCommit(e, s.genesis.roomKey, s.genesis.nodeKey).Ok?
    ensures Deliver(pr, s, Delivery(e, true, true)).status == Running
  {
    hide Apply, VerifyCommit, RowsInOrder, ClientDbs.AppendEvent, P.CommitDelta, GrewFrom;
    AppendPrepared(pr.db, RowsInOrder(pr.db), s.genesis, e);
    StorePrepared(pr.db, s.genesis, e);
    P.PrepareThenCommitIsApply(pr.projection, e);
  }

  /** The next event of the log is always accepted. */
  lemma NextIsDelivered(pr: Progress, s: Session, log: seq<Committed>)
    requires OnTrack(pr, s) && pr.status == Running && pr.db.roomKey == s.genesis.roomKey
    requires ValidGenesis(s.genesis) && Replays(s.genesis, log) && UniqueIds(log)
    requires RowsInOrder(pr.db) < log
    ensures Deliver(pr, s, Delivery(log[|RowsInOrder(pr.db)|], true, true)).status == Running
  {
    hide Deliver, Apply, OnTrack, RowsInOrder, VerifyCommit;
    var n := |RowsInOrder(pr.db)|;
    assert log[..n] == RowsInOrder(pr.db);
    NextApplies(s.genesis, log, n);
    FoldDescribes(s.genesis, log);
    assert log[n] in log;
    NewIdIsNotContained(log, n);
    ApplicableIsDelivered(pr, s, log[n]);
  }

  /** Over an honest peer the closing query installs the state and succeeds. */
  lemma HonestFinishSucceeds(h: Handle, s: Session, pr: Progress, f: Finish, log: seq<Committed>)
    requires OnTrack(pr, s) && pr.status == Running && RowsInOrder(pr.db) == log && pr.lastSeqno == |log|
    requires h.db == pr.db && h.session == Some(s) && pr.db.roomKey == s.genesis.roomKey
    requires f.reply.Some? && f.current && f.stillCurrent && f.notified
    requires StateMatches(Projected(s.genesis, log), f.reply.value.state)
    requires f.reply.value.onlineUsers >= 0 && f.reply.value.replicaSeqno >= |log| && f.reply.value.ready
    ensures FinishSync(h, s, pr, f).ok
    ensures FinishSync(h, s, pr, f).after.db.cached == Some(f.reply.value.state)
  {
    FoldDescribes(s.genesis, log);
  }

  lemma NewIdIsNotContained(log: seq<Committed>, n: nat)
    requires UniqueIds(log) && n < |log|
    ensures !Contains(log[..n], log[n].proposal)
  {
  }

  /** A synchronization that has accepted `ds` so far and stands at `pr`. */
  ghost predicate Underway(pr: Progress, start: Progress, s: Session, ds: seq<Delivery>, log: seq<Committed>) {
    && OnTrack(pr, s) && pr.status == Running && DeliverAll(start, s, ds) == pr
    && pr.lastSeqno == |RowsInOrder(pr.db)| && RowsInOrder(pr.db) <= log
    && pr.db.roomKey == s.genesis.roomKey
  }

  lemma DeliverAllAndOne(start: Progress, s: Session, ds: seq<Delivery>, d: Delivery)
    ensures DeliverAll(start, s, ds + [d]) == Deliver(DeliverAll(start, s, ds), s, d)
  {
    hide Deliver;
    assert (ds + [d])[..|ds|] == ds;
  }

  lemma DeliverOneMore(pr: Progress, start: Progress, s: Session, ds: seq<Delivery>, d: Delivery, log: seq<Committed>)
    requires Underway(pr, start, s, ds, log) && Chained(log) && Genuine(d.e, s.genesis.roomKey, log)
    ensures DeliverAll(start, s, ds + [d]) == Deliver(pr, s, d)
    ensures Deliver(pr, s, d).status == Running ==>
              Underway(Deliver(pr, s, d), start, s, ds + [d], log)
              && |RowsInOrder(Deliver(pr, s, d).db)| == |RowsInOrder(pr.db)| + 1
  {
    hide Deliver, DeliverAll, OnTrack, GrewFrom, RowsInOrder, Chained, Genuine;
    DeliverAllAndOne(start, s, ds, d);
    DeliverKeeps(pr, s, d);
    if Deliver(pr, s, d).status == Running {
      DeliveredExtends(pr, s, d);
      GenuineIsWithin(d.e, s.genesis.roomKey, log, |RowsInOrder(pr.db)|);
    }
  }

  datatype Outcome = NotStored | StoredBefore | Faulty(why: Fault) | Advancing

  datatype Attempted = Attempted(outcome: Outcome, db: ClientDb, p: Proj)

  /** Preparing, storing and committing one event on a projection. */
  function StoreStep(db: ClientDb, p: Proj, e: Committed): Attempted {
    var ahead := e.seqno > db.headSeqno;
    var prepared := P.PrepareDelta(p, e);
    if ahead && prepared.Err? then Attempted(NotStored, db, p)
    else match AppendEvent(db, e)
      case Err(_) => Attempted(NotStored, db, p)
      case Ok(stored) =>
        if !stored.inserted then Attempted(StoredBefore, stored.after, p)
        else if !ahead then Attempted(Faulty(Unprepared), stored.after, p)
        else match P.CommitDelta(p, prepared.value)
          case None => Attempted(Faulty(StaleTransition), stored.after, p)
          case Some(next) => Attempted(Advancing, stored.after, next)
  }

  /** Ingesting is one such attempt on the current projection, then announcing. */
  lemma IngestByStep(h: Handle, s: Session, e: Committed, sc: ProcessScript)
    ensures var p := if h.projection.Some? then Ok(h.projection.value) else ProjectRoom(h.db, s.genesis, sc.now);
            Ingest(h, s, e, sc) ==
              if p.Err? then Processed(false, false, NoFault, h)
              else
                var a := StoreStep(h.db, p.value, e);
                var h1 := h.(db := a.db);
                match a.outcome
                case NotStored => Processed(false, false, NoFault, h)
                case StoredBefore => Processed(true, true, NoFault, h1)
                case Faulty(why) => Processed(true, false, why, h1)
                case Advancing => Announce(h1.(projection := Some(a.p), verifiedHead := e.seqno), s, e, sc)
  {
    hide Apply, ProjectRoom, Announce;
  }

  class RoomHandle {
    const store: ClientStore
    var session: Option<Session>
    var projection: Option<P.Projection>
    var verifiedHead: int
    var notified: seq<int>

    ghost predicate Valid()
      reads this, store, if projection.Some? then {projection.value} else {}
      reads if projection.Some? then Arrays(projection.value) else {}
    {
      projection.Some? ==> projection.value.Valid()
    }

    static ghost function Arrays(p: P.Projection): set<object>
      reads p
    {
      {p.state.admins.buf, p.state.moderators.buf, p.state.pins.buf}
    }

    /** The value this object stands for. */
    ghost function View(): Handle
      requires Valid()
      reads this, store, if projection.Some? then {projection.value} else {}
      reads if projection.Some? then Arrays(projection.value) else {}
    {
      Handle(store.db, session, if projection.Some?
          then Some(projection.value.View()) else None, verifiedHead, notified)
    }

    constructor (store: ClientStore)
      ensures Valid() && this.store == store
      ensures View() == Handle(store.db, None, None, 0, [])
    {
      this.store := store;
      session, projection, verifiedHead, notified := None, None, 0, [];
    }

    /** Verify, prepare, store, commit and announce one delivered event. */
    method DeliverEvent(p: P.Projection, s: Session, d: Delivery, last: int) returns (status: Status, next: int)
      requires p.Valid()
      modifies this`session, this`notified, store, p
      ensures p.Valid()
      ensures Progress(store.db, p.View(), notified, next, status)
              == Deliver(Progress(old(store.db), old(p.View()), old(notified), last, Running), s, d)
      ensures session == if status == Dropped then None else old(session)
    {
      hide Apply, VerifyCommit, ClientDbs.AppendEvent, P.PrepareDelta, P.CommitDelta, P.SortedLists, UniqueIds;
      if !d.current {
        session := None;
        return Dropped, last;
      }
      if VerifyCommit(d.e, store.db.roomKey, s.genesis.nodeKey).Err? {
        return Failed, last;
      }
      var prepared := p.Prepare(d.e);
      if prepared.Err? {
        return Failed, last;
      }
      ghost var before := p.View();
      var inserted := store.AppendEvent(d.e);
      assert p.View() == before;
      if inserted.Err? {
        return Failed, last;
      }
      if inserted.value {
        var committed := p.Commit(prepared.value);
        if !committed || !d.emitted {
          return Failed, last;
        }
        notified := notified + [d.e.seqno];
      }
      return Running, d.e.seqno;
    }

    /** The progress of a synchronization that works on `p`. */
    ghost function Progressing(p: P.Projection, last: int, status: Status): Progress
      requires p.Valid()
      reads this, store, p, p.state.admins.buf, p.state.moderators.buf, p.state.pins.buf
    {
      Progress(store.db, p.View(), notified, last, status)
    }

    method DeliverPage(p: P.Projection, s: Session, page: seq<Delivery>, last: int,
                       ghost start: Progress, ghost ds: seq<Delivery>, ghost log: seq<Committed>)
      returns (status: Status, next: int, ghost done: seq<Delivery>)
      requires p.Valid() && Underway(Progressing(p, last, Running), start, s, ds, log)
      requires Chained(log) && forall d :: d in page ==> Genuine(d.e, s.genesis.roomKey, log)
      modifies this`session, this`notified, store, p
      ensures p.Valid() && DeliverAll(start, s, ds + done) == Progressing(p, next, status)
      ensures done <= page
      ensures status == Running ==>
                done == page && next == last + |page|
                    && Underway(Progressing(p, next, Running), start, s, ds + page, log)
      ensures NextOnes(s.genesis, page, last, log) ==> status == Running
      ensures session == if status == Dropped then None else old(session)
    {
      hide Deliver, OnTrack, Healthy, RowsInOrder, NextOnes, DeliverAll, Genuine, Chained;
      status, next, done := Running, last, [];
      assert ds + done == ds;
      for j := 0 to |page|
        invariant p.Valid() && done == page[..j] && status == Running && next == last + j
        invariant Underway(Progressing(p, next, Running), start, s, ds + done, log)
        invariant session == old(session)
      {
        ghost var pr := Progressing(p, next, Running);
        DeliverOneMore(pr, start, s, ds + done, page[j], log);
        if NextOnes(s.genesis, page, last, log) { OfPageIsDelivered(pr, s, page, last, log, j); }
        assert ds + page[..j + 1] == ds + done + [page[j]];
        status, next := DeliverEvent(p, s, page[j], next);
        done := page[..j + 1];
        if status != Running {
          return;
        }
      }
      assert page[..|page|] == page;
    }

    /** The closing state query: install its state with the projection. */
    method FinishSync(p: P.Projection, s: Session, last: int, finish: Finish) returns (ok: bool)
      requires Valid() && p.Valid()
      modifies this`session, this`projection, this`verifiedHead, store
      ensures Valid() && Synced(ok, View())
                == Rooms.FinishSync(old(View()), s, old(Progressing(p, last, Running)), finish)
      ensures store.db.events == old(store.db.events)
      ensures projection == old(projection) || projection == Some(p)
    {
      if finish.reply.None? {
        return false;
      }
      var reply := finish.reply.value;
      if !finish.current {
        session := None;
        return false;
      }
      if !UsableReply(reply, last) {
        return false;
      }
      var installed := store.InstallState(s.genesis, p, reply.state);
      if !installed {
        return false;
      }
      if !finish.stillCurrent {
        session := None;
        return false;
      }
      projection := Some(p);
      verifiedHead := p.headSeq;
      return finish.notified;
    }

    /** Pull pages until one is the last. Whatever the answers, the loop ends,
        because each event it accepts is one of the sequencer's; against an honest
        peer it ends with the peer's whole log. */
    method PullPages(p: P.Projection, s: Session, answers: Answers, first: int, ghost log: seq<Committed>)
      returns (status: Status, ending: Ending, last: int, ghost ds: seq<Delivery>)
      requires p.Valid() && session == Some(s)
      requires Underway(Progressing(p, first, Running), Progressing(p, first, Running), s, [], log)
      requires Chained(log) && Unforged(answers, s.genesis.roomKey, log)
      modifies this`session, this`notified, store, p
      ensures p.Valid()
      ensures DeliverAll(old(Progressing(p, first, Running)), s, ds) == Progressing(p, last, status)
      ensures ending != Cut ==> status == Running
      ensures session == if status == Dropped || ending == Lost then None else Some(s)
      ensures forall d :: d in ds ==> Genuine(d.e, s.genesis.roomKey, log)
      ensures Honest(answers, log) && Replays(s.genesis, log) && UniqueIds(log) ==>
                ending == Complete && RowsInOrder(store.db) == log
      ensures Pulled(answers, s.genesis, log, first, ending, ds)
    {
      hide DeliverAll, OnTrack, Healthy, Unforged, Genuine, Honest, Following, Pulled, Replays, UniqueIds;
      ghost var start := Progressing(p, first, Running);
      var k := 0;
      status, last, ds := Running, first, [];
      FollowsNothing(answers, s.genesis, log, first);
      while true
        invariant p.Valid() && session == Some(s) && status == Running
        invariant Underway(Progressing(p, last, Running), start, s, ds, log)
        invariant forall d :: d in ds ==> Genuine(d.e, s.genesis.roomKey, log)
        invariant Following(answers, s.genesis, log, first, last, ds)
        decreases |log| - last
      {
        var reply := answers(k, last);
        if Honest(answers, log) { HonestPage(answers, s.genesis, log, k, last); }
        if reply.NoAnswer? {
          NotHonest(answers, s.genesis, log, first, Cut, ds);
          return status, Cut, last, ds;
        }
        if !reply.current {
          NotHonest(answers, s.genesis, log, first, Lost, ds);
          session := None;
          return status, Lost, last, ds;
        }
        PageIsGenuine(answers, s.genesis.roomKey, log, k, last);
        FollowsPage(answers, s.genesis, log, first, last, ds, k);
        ghost var done;
        ghost var at := last;
        status, last, done := DeliverPage(p, s, reply.deliveries, last, start, ds, log);
        ds := ds + done;
        if status != Running {
          NotHonest(answers, s.genesis, log, first, Cut, ds);
          return status, Cut, last, ds;
        }
        if !reply.hasMore {
          return status, Complete, last, ds;
        }
        if reply.deliveries == [] {
          return status, Cut, last, ds;
        }
        k := k + 1;
      }
    }

    /** Pin the genesis, fold the rows into a projection and pull the pages. */
    method BeginSync(s: Session, now: Instant, answers: Answers, ghost log: seq<Committed>)
      returns (r: Option<P.Projection>, status: Status, ending: Ending, last: int, ghost ds: seq<Delivery>)
      requires session == Some(s) && Sane(Handle(store.db, session, None, 0, notified))
      requires RowsInOrder(store.db) <= log && Chained(log)
      requires s.genesis.roomKey == store.db.roomKey && Unforged(answers, store.db.roomKey, log)
      modifies this`session, this`notified, store
      ensures match ClientDbs.PinGenesis(old(store.db), s.genesis, now)
              case Err(_) => r.None? && store.db == old(store.db) && notified == old(notified) && session == Some(s)
              case Ok(db) =>
                var p := ClientDbs.ProjectRoom(db, s.genesis, now);
                && p.Ok? && r.Some? && fresh(r.value) && r.value.Valid()
                && Progressing(r.value, last, status)
                   == DeliverAll(Progress(db, p.value, old(notified), db.headSeqno, Running), s, ds)
      ensures r.Some? ==> session == if status == Dropped || ending == Lost then None else Some(s)
      ensures ending != Cut ==> r.Some? && status == Running
      ensures forall d :: d in ds ==> Genuine(d.e, s.genesis.roomKey, log)
      ensures Honest(answers, log) && Replays(s.genesis, log) && UniqueIds(log) && r.Some? ==>
                ending == Complete && RowsInOrder(store.db) == log
      ensures r.Some? ==> Pulled(answers, s.genesis, log, old(store.db).headSeqno, ending, ds)
    {
      hide DeliverAll, Unforged, Genuine, Honest, Underway, RowsInOrder, ClientDbs.PinGenesis, ClientDbs.ProjectRoom;
      hide Pulled, Replays, UniqueIds, Chained;
      r, status, ending, last, ds := None, Failed, Cut, 0, [];
      PinnedIsUnderway(Handle(store.db, session, None, 0, notified), s, now, log);
      var pinned := store.PinGenesis(s.genesis, now);
      if pinned {
        var projected := store.ProjectRoom(s.genesis, now);
        assert projected.Ok?;
        r := Some(projected.value);
        status, ending, last, ds := PullPages(projected.value, s, answers, store.db.headSeqno, log);
      }
    }

    /** Synchronize over the current session: the pages, then the signed state. */
    method SyncSessionLocked(s: Session, now: Instant, answers: Answers, finish: Finish, ghost log: seq<Committed>)
      returns (ok: bool, ghost trace: SyncScript)
      requires Valid() && Sane(View()) && RowsInOrder(store.db) <= log && Chained(log)
      requires s.genesis.roomKey == store.db.roomKey && Unforged(answers, store.db.roomKey, log)
      modifies this, store
      ensures Valid() && Synced(ok, View()) == SyncSession(old(View()), s, trace)
      ensures trace.now == now && trace.finish == finish
      ensures forall d :: d in trace.deliveries ==> Genuine(d.e, s.genesis.roomKey, log)
      ensures Honest(answers, log) ==> HonestlySynced(old(View()), s, now, finish, log, Synced(ok, View()))
      ensures projection == old(projection) || (projection.Some? && fresh(projection.value))
    {
      hide DeliverAll, Unforged, Genuine, Honest, Rooms.FinishSync, RowsInOrder, Healthy, NotifiedInOrder;
      hide Replays, UniqueIds, Chained, P.SortedLists;
      hide ClientDbs.PinGenesis, ClientDbs.ProjectRoom;
      hide HonestlySynced, Pulled, Pinnable;
      trace := SyncScript(now, [], Cut, finish);
      ghost var before := View();
      PinnedIff(before.db, s.genesis, now);
      if session != Some(s) {
        HonestTrace(before, s, trace, answers, log);
        return false, trace;
      }
      var p, status, ending, last, ds := BeginSync(s, now, answers, log);
      trace := SyncScript(now, ds, ending, finish);
      HonestTrace(before, s, trace, answers, log);
      if ending != Complete {
        return false, trace;
      }
      ghost var pulled := store.db;
      ok := FinishSync(p.value, s, last, finish);
      SameRows(pulled, store.db);
    }

    /** Fetch the signed state again after an event that changed it. */
    method RefreshStateLocked(s: Session, f: Finish) returns (ok: bool)
      requires Valid()
      modifies this`session, store
      ensures Valid() && Synced(ok, View()) == Refresh(old(View()), s, f)
    {
      if f.reply.None? {
        return false;
      }
      var reply := f.reply.value;
      if !f.current {
        session := None;
        return false;
      }
      if !UsableReply(reply, store.db.headSeqno) || projection.None? {
        return false;
      }
      var installed := store.InstallState(s.genesis, projection.value, reply.state);
      if !installed {
        return false;
      }
      if !f.stillCurrent {
        session := None;
        return false;
      }
      return true;
    }

    /** Refresh the state if the event changed it, and notify the observer. */
    method AnnounceEvent(s: Session, e: Committed, sc: ProcessScript) returns (ok: bool)
      requires Valid()
      modifies this`session, this`notified, store
      ensures Valid() && Processed(true, ok, NoFault, View()) == Announce(old(View()), s, e, sc)
    {
      var refreshed := true;
      if !IsMessage(e) {
        refreshed := RefreshStateLocked(s, sc.refresh);
      }
      if sc.emitted {
        notified := notified + [e.seqno];
      }
      return refreshed && sc.emitted && (IsMessage(e) || sc.notified);
    }

    /** Prepare the event on a projection, store it, commit the projection. */
    method StoreOn(p: P.Projection, e: Committed) returns (outcome: Outcome)
      requires p.Valid()
      modifies store, p
      ensures p.Valid()
      ensures StoreStep(old(store.db), old(p.View()), e) == Attempted(outcome, store.db, p.View())
      ensures outcome != Advancing ==> p.View() == old(p.View())
      ensures outcome == NotStored ==> store.db == old(store.db)
    {
      hide Apply, ClientDbs.AppendEvent;
      var ahead := e.seqno > store.db.headSeqno;
      var prepared := p.Prepare(e);
      if ahead && prepared.Err? {
        return NotStored;
      }
      var inserted := store.AppendEvent(e);
      if inserted.Err? {
        return NotStored;
      }
      if !inserted.value {
        return StoredBefore;
      }
      if !ahead {
        return Faulty(Unprepared);
      }
      var committed := p.Commit(prepared.value);
      return if committed then Advancing else Faulty(StaleTransition);
    }

    /** The live projection, or a fresh one from the rows. */
    method CurrentProjection(s: Session, now: Instant) returns (r: Option<P.Projection>)
      requires Valid()
      ensures projection.Some? ==> r == projection
      ensures projection.None? ==>
                match ClientDbs.ProjectRoom(store.db, s.genesis, now)
                case Err(_) => r.None?
                case Ok(p) => r.Some? && fresh(r.value) && r.value.Valid() && r.value.View() == p
    {
      if projection.Some? {
        return projection;
      }
      var projected := store.ProjectRoom(s.genesis, now);
      return if projected.Ok? then Some(projected.value) else None;
    }

    method IngestEvent(s: Session, e: Committed, sc: ProcessScript) returns (durable: bool, ok: bool, fault: Fault)
      requires Valid()
      modifies this, store, if projection.Some? then {projection.value} else {}
      ensures Valid() && Processed(durable, ok, fault, View()) == Ingest(old(View()), s, e, sc)
      ensures projection == old(projection) || (projection.Some? && fresh(projection.value))
    {
      hide StoreStep, Announce, ClientDbs.ProjectRoom, P.SortedLists;
      IngestByStep(View(), s, e, sc);
      var p := CurrentProjection(s, sc.now);
      if p.None? {
        return false, false, NoFault;
      }
      var outcome := StoreOn(p.value, e);
      match outcome {
        case NotStored => return false, false, NoFault;
        case StoredBefore => return true, true, NoFault;
        case Faulty(why) => return true, false, why;
        case Advancing =>
          projection := p;
          verifiedHead := e.seqno;
          ok := AnnounceEvent(s, e, sc);
          return true, ok, NoFault;
      }
    }

    /** One queued event: check the session, repair a gap, then ingest. */
    method ProcessCanonical(s: Session, e: Committed, sc: ProcessScript, answers: Answers, ghost log: seq<Committed>)
      returns (durable: bool, ok: bool, fault: Fault, ghost trace: ProcessScript)
      requires Valid() && Sane(View()) && RowsInOrder(store.db) <= log && Chained(log)
      requires s.genesis.roomKey == store.db.roomKey && Unforged(answers, store.db.roomKey, log)
      modifies this, store, if projection.Some? then {projection.value} else {}
      ensures Valid() && Processed(durable, ok, fault, View()) == Rooms.ProcessCanonical(old(View()), s, e, trace)
      ensures trace == sc.(sync := trace.sync)
      ensures forall d :: d in trace.sync.deliveries ==> Genuine(d.e, s.genesis.roomKey, log)
      ensures projection == old(projection) || (projection.Some? && fresh(projection.value))
    {
      hide Ingest, SyncSession, Sane, Unforged, Genuine, P.SortedLists, VerifyCommit, RowsInOrder;
      trace := sc.(sync := SyncScript(sc.now, [], Cut, sc.refresh));
      durable, ok, fault := false, false, NoFault;
      if session != Some(s) || VerifyCommit(e, store.db.roomKey, s.genesis.nodeKey).Err? {
        return;
      }
      if e.seqno > store.db.headSeqno + 1 {
        var synced, sync := SyncSessionLocked(s, sc.sync.now, answers, sc.sync.finish, log);
        trace := sc.(sync := sync);
        if !synced {
          var stored := store.HasEvent(e);
          return stored == Ok(true), false, NoFault, trace;
        }
      }
      IngestIgnoresSync(View(), s, e, sc, trace);
      durable, ok, fault := IngestEvent(s, e, sc);
    }
  }

  lemma IngestIgnoresSync(h: Handle, s: Session, e: Committed, a: ProcessScript, b: ProcessScript)
    requires b == a.(sync := b.sync)
    ensures Ingest(h, s, e, a) == Ingest(h, s, e, b)
  {
    hide Apply, ClientDbs.AppendEvent, ClientDbs.ProjectRoom;
  }

  /** Synchronization starts from the fold of the stored rows. */
  lemma PinnedIsUnderway(h: Handle, s: Session, now: Instant, log: seq<Committed>)
    requires Sane(h) && RowsInOrder(h.db) <= log && s.genesis.roomKey == h.db.roomKey
    ensures match ClientDbs.PinGenesis(h.db, s.genesis, now)
            case Err(_) => true
            case Ok(db) =>
              ClientDbs.ProjectRoom(db, s.genesis, now).Ok?
              && var start := Progress(db, ClientDbs.ProjectRoom(db, s.genesis, now).value, h.notified,
                   db.headSeqno, Running);
                 Underway(start, start, s, [], log) && db.headSeqno == h.db.headSeqno == |RowsInOrder(h.db)|
  {
    if ClientDbs.PinGenesis(h.db, s.genesis, now).Ok? {
      PinKeeps(h.db, s.genesis, now);
      HealthyIsFold(ClientDbs.PinGenesis(h.db, s.genesis, now).value, s.genesis, now);
    }
  }

  lemma PageIsGenuine(answers: Answers, roomKey: Key, log: seq<Committed>, k: nat, after: int)
    requires Unforged(answers, roomKey, log) && answers(k, after).PageReply?
    ensures forall d :: d in answers(k, after).deliveries ==> Genuine(d.e, roomKey, log)
  {
  }

  lemma HonestPage(answers: Answers, g: Genesis, log: seq<Committed>, k: nat, after: nat)
    requires Honest(answers, log) && after <= |log|
    ensures answers(k, after).PageReply? && answers(k, after).current
    ensures var page := answers(k, after).deliveries;
            && (Replays(g, log) && UniqueIds(log) ==> NextOnes(g, page, after, log))
            && (answers(k, after).hasMore ==> page != [])
            && (!answers(k, after).hasMore ==> after + |page| == |log|)
  {
    var page := PageOf(log, after, MAX_PAGE_LIMIT);
    assert answers(k, after) == PageReply(true, Delivering(page.events), page.hasMore);
    assert page.events == log[after..after + |page.events|];
  }

  /** The page is the next stretch of a replayable log, over a live session. */
  ghost predicate NextOnes(g: Genesis, page: seq<Delivery>, last: int, log: seq<Committed>) {
    && Replays(g, log) && UniqueIds(log)
    && 0 <= last && last + |page| <= |log| && page == Delivering(log[last..last + |page|])
  }

  /** So far an honest peer has delivered the stretch up to `last`. */
  ghost predicate Following(answers: Answers, g: Genesis, log: seq<Committed>, first: int, last: int,
                            ds: seq<Delivery>) {
    && 0 <= first <= last
    && (Honest(answers, log) && Replays(g, log) && UniqueIds(log) && last <= |log| ==>
          ds == Delivering(log[first..last]))
  }

  /** An honest peer has delivered everything after `first`. */
  ghost predicate Pulled(answers: Answers, g: Genesis, log: seq<Committed>, first: int, ending: Ending,
                         ds: seq<Delivery>) {
    Honest(answers, log) && Replays(g, log) && UniqueIds(log) && 0 <= first <= |log| ==>
      ending == Complete && ds == Delivering(log[first..])
  }

  /** What an honest peer brings about: its whole log under the pinned genesis; and
      with a covering closing reply success, the session kept, the handle live, and
      every new event notified once. */
  ghost predicate HonestlySynced(h: Handle, s: Session, now: Instant, finish: Finish, log: seq<Committed>, r: Synced) {
    && h.session == Some(s) && Replays(s.genesis, log) && UniqueIds(log) && VerifyGenesis(s.genesis, now)
    && (h.db.genesis.None? || h.db.genesis == Some(s.genesis)) ==>
      && RowsInOrder(r.after.db) == log && r.after.db.genesis == Some(s.genesis)
      && (Closes(finish, Projected(s.genesis, log), |log|) ==>
            && r.ok && CaughtUp(r.after, s, log, finish.reply.value.state)
            && r.after.notified == h.notified + Numbers(|RowsInOrder(h.db)|, |log|))
  }

  lemma HonestTrace(h: Handle, s: Session, trace: SyncScript, answers: Answers, log: seq<Committed>)
    requires Sane(h) && RowsInOrder(h.db) <= log && s.genesis.roomKey == h.db.roomKey
    requires h.session == Some(s) && Pinnable(h.db, s.genesis, trace.now) ==>
               Pulled(answers, s.genesis, log, h.db.headSeqno, trace.ending, trace.deliveries)
    ensures Honest(answers, log) ==>
              HonestlySynced(h, s, trace.now, trace.finish, log, SyncSession(h, s, trace))
  {
    hide SyncSession, RowsInOrder, Healthy, NotifiedInOrder, CaughtUp, Closes, Honest, Delivering;
    HeadIsCount(h);
    if Honest(answers, log) && h.session == Some(s) && Replays(s.genesis, log) && UniqueIds(log)
       && Pinnable(h.db, s.genesis, trace.now) {
      HonestPagesArePulled(h, s, trace, log);
      if Closes(trace.finish, Projected(s.genesis, log), |log|) { HonestSyncCatchesUp(h, s, trace, log); }
    }
  }

  lemma HeadIsCount(h: Handle)
    requires Sane(h)
    ensures h.db.headSeqno == |RowsInOrder(h.db)|
  {
  }

  lemma FollowsNothing(answers: Answers, g: Genesis, log: seq<Committed>, first: int)
    ensures 0 <= first ==> Following(answers, g, log, first, first, [])
  {
  }

  lemma FollowsPage(answers: Answers, g: Genesis, log: seq<Committed>, first: int, last: int, ds: seq<Delivery>, k: nat)
    requires Following(answers, g, log, first, last, ds) && last <= |log|
    ensures answers(k, last).PageReply? ==>
              var page := answers(k, last);
              && Following(answers, g, log, first, last + |page.deliveries|, ds + page.deliveries)
              && (Honest(answers, log) && Replays(g, log) && UniqueIds(log) ==> page.current)
              && (!page.hasMore ==> Pulled(answers, g, log, first, Complete, ds + page.deliveries))
              && (page.hasMore && page.deliveries == [] ==> Pulled(answers, g, log, first, Cut, ds + page.deliveries))
  {
    if Honest(answers, log) && Replays(g, log) && UniqueIds(log) {
      HonestPage(answers, g, log, k, last);
      var page := answers(k, last).deliveries;
      assert Delivering(log[first..last]) + page == Delivering(log[first..last + |page|]);
      assert log[first..|log|] == log[first..];
    }
  }

  lemma NotHonest(answers: Answers, g: Genesis, log: seq<Committed>, first: int, ending: Ending, ds: seq<Delivery>)
    requires !(Honest(answers, log) && Replays(g, log) && UniqueIds(log))
    ensures Pulled(answers, g, log, first, ending, ds)
  {
  }

  lemma OfPageIsDelivered(pr: Progress, s: Session, page: seq<Delivery>, last: int, log: seq<Committed>, j: nat)
    requires OnTrack(pr, s) && pr.status == Running && pr.db.roomKey == s.genesis.roomKey
    requires NextOnes(s.genesis, page, last, log) && j < |page|
    requires RowsInOrder(pr.db) <= log && |RowsInOrder(pr.db)| == last + j
    ensures Deliver(pr, s, page[j]).status == Running
  {
    assert ValidGenesis(s.genesis);
    hide Deliver, OnTrack, Healthy, RowsInOrder;
    assert page[j] == Delivery(log[last + j], true, true);
    NextIsDelivered(pr, s, log);
  }
}
