// The client's live view of one room: its current session, the projection kept
// beside the database, and the two operations that feed canonical events into
// it. An operation runs under the history lock; the environment's answers, and
// whether another thread has meanwhile dropped the session or an observer has
// gone away, are given by a script.
module Rooms {
  import opened Wrappers
  import opened Ordered
  import opened Community
  import opened Replay
  import opened ClientDbs
  import opened Projections

  datatype Session = Session(id: nat, peer: Key, genesis: Genesis)

  datatype Handle = Handle(
    db: ClientDb, session: Option<Session>, projection: Option<Proj>,
    verifiedHead: int, notified: seq<int>)

  // ---- Synchronizing over a session -------------------------------------

  /** One delivered page event: whether the session is still current when its
      turn comes, and whether the observer takes its notification. */
  datatype Delivery = Delivery(e: Committed, current: bool, emitted: bool)

  datatype Status = Running | Failed | Dropped

  datatype Progress = Progress(
    db: ClientDb, projection: Proj, notified: seq<int>, lastSeqno: int, status: Status)

  function Deliver(pr: Progress, s: Session, d: Delivery): Progress {
    if pr.status != Running then pr
    else if !d.current then pr.(status := Dropped)
    else if VerifyCommit(d.e, pr.db.roomKey, s.genesis.nodeKey).Err? then pr.(status := Failed)
    else
      match PrepareDelta(pr.projection, d.e)
      case Err(_) => pr.(status := Failed)
      case Ok(delta) =>
        match AppendEvent(pr.db, d.e)
        case Err(_) => pr.(status := Failed)
        case Ok(stored) =>
          if !stored.inserted then pr.(db := stored.after, lastSeqno := d.e.seqno)
          else
            match CommitDelta(pr.projection, delta)
            case None => pr.(db := stored.after, status := Failed)
            case Some(next) =>
              if !d.emitted then pr.(db := stored.after, projection := next, status := Failed)
              else pr.(db := stored.after, projection := next,
                       notified := pr.notified + [d.e.seqno], lastSeqno := d.e.seqno)
  }

  function DeliverAll(pr: Progress, s: Session, ds: seq<Delivery>): Progress {
    if ds == [] then pr else Deliver(DeliverAll(pr, s, ds[..|ds| - 1]), s, ds[|ds| - 1])
  }

  datatype StateReply = StateReply(state: RoomState, onlineUsers: int, replicaSeqno: int, ready: bool)

  predicate UsableReply(r: StateReply, head: int) {
    r.onlineUsers >= 0 && r.replicaSeqno >= head && r.ready
  }

  /** The closing state query: its answer, whether the session survives it and the
      installation, and whether the observer takes the state notification. */
  datatype Finish = Finish(reply: Option<StateReply>, current: bool, stillCurrent: bool, notified: bool)

  /** `deliveries` are the events of all pages up to the end or the first failure;
      `ending` says how the pages ended. */
  datatype SyncScript = SyncScript(now: Instant, deliveries: seq<Delivery>, ending: Ending, finish: Finish)

  /** The pages end with a lost answer or an empty page that promises more, with the
      session found gone when a page arrives, or with has_more unset. */
  datatype Ending = Cut | Lost | Complete

  datatype Synced = Synced(ok: bool, after: Handle)

  ghost function FinishSync(h: Handle, s: Session, pr: Progress, f: Finish): Synced {
    match f.reply
    case None => Synced(false, h)
    case Some(reply) =>
      if !f.current then Synced(false, h.(session := None))
      else if !UsableReply(reply, pr.lastSeqno) then Synced(false, h)
      else match InstallState(h.db, s.genesis, pr.projection, reply.state)
        case Err(_) => Synced(false, h)
        case Ok(db) =>
          if !f.stillCurrent then Synced(false, h.(db := db, session := None))
          else Synced(f.notified, h.(db := db, projection := Some(pr.projection),
              verifiedHead := pr.projection.headSeq))
  }

  ghost function SyncSession(h: Handle, s: Session, sc: SyncScript): Synced {
    if h.session != Some(s) then Synced(false, h)
    else match PinGenesis(h.db, s.genesis, sc.now)
      case Err(_) => Synced(false, h)
      case Ok(db) =>
        match ProjectRoom(db, s.genesis, sc.now)
        case Err(_) => Synced(false, h.(db := db))
        case Ok(p) =>
          var pr := DeliverAll(Progress(db, p, h.notified, db.headSeqno, Running), s, sc.deliveries);
          var h1 := h.(db := pr.db, notified := pr.notified, session := if pr.status == Dropped
              then None else h.session);
          if pr.status != Running || sc.ending == Cut then Synced(false, h1)
          else if sc.ending == Lost then Synced(false, h1.(session := None))
          else FinishSync(h1, s, pr, sc.finish)
  }

  // ---- One queued canonical event ---------------------------------------

  datatype Fault = NoFault | StaleTransition | Unprepared

  datatype Processed = Processed(durable: bool, ok: bool, fault: Fault, after: Handle)

  datatype ProcessScript = ProcessScript(sync: SyncScript, now: Instant, refresh: Finish, emitted: bool, notified: bool)

  ghost function Refresh(h: Handle, s: Session, f: Finish): Synced {
    match f.reply
    case None => Synced(false, h)
    case Some(reply) =>
      if !f.current then Synced(false, h.(session := None))
      else if !UsableReply(reply, h.db.headSeqno) || h.projection.None? then Synced(false, h)
      else match InstallState(h.db, s.genesis, h.projection.value, reply.state)
        case Err(_) => Synced(false, h)
        case Ok(db) =>
          if !f.stillCurrent then Synced(false, h.(db := db, session := None)) else Synced(true, h.(db := db))
  }

  /** After the rows and the projection have advanced: refresh the signed state if
      the event changed it, and notify. */
  ghost function Announce(h: Handle, s: Session, e: Committed, sc: ProcessScript): Processed {
    var told := if sc.emitted then h.notified + [e.seqno] else h.notified;
    if IsMessage(e) then Processed(true, sc.emitted, NoFault, h.(notified := told))
    else
      var r := Refresh(h, s, sc.refresh);
      Processed(true, r.ok && sc.emitted && sc.notified, NoFault, r.after.(notified := told))
  }

  ghost function Ingest(h: Handle, s: Session, e: Committed, sc: ProcessScript): Processed {
    match (match h.projection case Some(p) => Ok(p) case None => ProjectRoom(h.db, s.genesis, sc.now))
    case Err(_) => Processed(false, false, NoFault, h)
    case Ok(p) =>
      var ahead := e.seqno > h.db.headSeqno;
      var prepared := PrepareDelta(p, e);
      if ahead && prepared.Err? then Processed(false, false, NoFault, h)
      else match AppendEvent(h.db, e)
        case Err(_) => Processed(false, false, NoFault, h)
        case Ok(stored) =>
          var h1 := h.(db := stored.after);
          if !stored.inserted then Processed(true, true, NoFault, h1)
          else if !ahead then Processed(true, false, Unprepared, h1)
          else match CommitDelta(p, prepared.value)
            case None => Processed(true, false, StaleTransition, h1)
            case Some(next) => Announce(h1.(projection := Some(next), verifiedHead := e.seqno), s, e, sc)
  }

  ghost function ProcessCanonical(h: Handle, s: Session, e: Committed, sc: ProcessScript): Processed {
    if h.session != Some(s) then Processed(false, false, NoFault, h)
    else if VerifyCommit(e, h.db.roomKey, s.genesis.nodeKey).Err? then Processed(false, false, NoFault, h)
    else if e.seqno > h.db.headSeqno + 1 then
      var r := SyncSession(h, s, sc.sync);
      if !r.ok then
        match HasEvent(r.after.db, e)
        case Err(_) => Processed(false, false, NoFault, r.after)
        case Ok(stored) => Processed(stored, false, NoFault, r.after)
      else Ingest(r.after, s, e, sc)
    else Ingest(h, s, e, sc)
  }

  // ---- What every operation keeps ---------------------------------------

  ghost predicate Healthy(db: ClientDb) {
    Holds(db, RowsInOrder(db)) && JournalTrue(db, RowsInOrder(db))
  }

  /** Notified numbers increase strictly and name stored events. */
  ghost predicate NotifiedInOrder(notified: seq<int>, head: int) {
    StrictlyIncreasing(notified) && forall n :: n in notified ==> 1 <= n <= head
  }

  ghost predicate Sane(h: Handle) {
    Healthy(h.db) && NotifiedInOrder(h.notified, h.db.headSeqno)
  }

  /** The projection beside the database is the fold of its rows, at its head. */
  ghost predicate Live(h: Handle)
    requires Healthy(h.db)
  {
    h.session.Some? ==>
      && h.db.genesis == Some(h.session.value.genesis)
      && h.projection == Some(Projected(h.session.value.genesis, RowsInOrder(h.db)))
  }

  /** Rows only grow, and only by events the environment delivered. */
  ghost predicate GrewFrom(after: ClientDb, before: ClientDb, offered: set<Committed>) {
    && after.roomKey == before.roomKey
    && RowsInOrder(before) <= RowsInOrder(after)
    && (forall e :: e in RowsInOrder(after) ==> e in RowsInOrder(before) || e in offered)
    && (before.pending.None? ==> after.pending.None?)
    && (before.pending.Some? ==> after.pending.Some? && after.pending.value.proposal == before.pending.value.proposal)
    && (before.genesis.Some? ==> after.genesis == before.genesis)
  }

  function Offered(ds: seq<Delivery>): set<Committed> {
    set d | d in ds :: d.e
  }

  lemma HealthyIsFold(db: ClientDb, g: Genesis, now: Instant)
    requires Healthy(db) && db.genesis == Some(g) && VerifyGenesis(g, now)
    ensures ProjectRoom(db, g, now) == Ok(Projected(g, RowsInOrder(db)))
  {
    ProjectRoomYieldsFold(db, RowsInOrder(db), g, now);
  }

  /** The state of a running synchronization. */
  ghost predicate OnTrack(pr: Progress, s: Session) {
    && Healthy(pr.db) && pr.db.genesis == Some(s.genesis)
    && NotifiedInOrder(pr.notified, pr.db.headSeqno)
    && (pr.status == Running ==> pr.projection == Projected(s.genesis, RowsInOrder(pr.db)))
  }

  lemma StoredRows(db: ClientDb, g: Genesis, e: Committed)
    requires Healthy(db) && db.genesis == Some(g) && Apply(Projected(g, RowsInOrder(db)), e).Ok?
    requires AppendEvent(db, e).Ok?
    ensures AppendEvent(db, e).value.inserted
    ensures Healthy(AppendEvent(db, e).value.after)
    ensures RowsInOrder(AppendEvent(db, e).value.after) == RowsInOrder(db) + [e]
  {
    var log := RowsInOrder(db);
    assert Holds(db, log) && JournalTrue(db, log);
    hide Apply, RowsInOrder, Holds, JournalTrue, AppendEvent, Contains;
    AppendPrepared(db, log, g, e);
    ReceiptOnInsert(db, log, e);
    RowsAreTheLog(AppendEvent(db, e).value.after, log + [e]);
  }

  lemma StoredGrew(db: ClientDb, e: Committed)
    requires AppendEvent(db, e).Ok? && AppendEvent(db, e).value.inserted
    requires RowsInOrder(AppendEvent(db, e).value.after) == RowsInOrder(db) + [e]
    ensures var after := AppendEvent(db, e).value.after;
            && after.headSeqno == db.headSeqno + 1 == e.seqno && after.genesis == db.genesis
            && GrewFrom(after, db, {e})
  {
    hide RowsInOrder;
  }

  /** Storing a prepared event on the fold: the rows grow by it and the committed
      delta is the fold of the grown rows. */
  lemma StorePrepared(db: ClientDb, g: Genesis, e: Committed)
    requires Healthy(db) && db.genesis == Some(g) && Apply(Projected(g, RowsInOrder(db)), e).Ok?
    requires AppendEvent(db, e).Ok?
    ensures AppendEvent(db, e).value.inserted
    ensures var after := AppendEvent(db, e).value.after;
            && Healthy(after) && RowsInOrder(after) == RowsInOrder(db) + [e]
            && after.headSeqno == db.headSeqno + 1 == e.seqno && after.genesis == db.genesis
            && GrewFrom(after, db, {e})
            && CommitDelta(Projected(g, RowsInOrder(db)), PrepareDelta(Projected(g, RowsInOrder(db)), e).value)
               == Some(Projected(g, RowsInOrder(after)))
  {
    var log := RowsInOrder(db);
    assert Replays(g, log);
    hide Apply, RowsInOrder, Healthy, AppendEvent, GrewFrom;
    StoredRows(db, g, e);
    StoredGrew(db, e);
    FoldAppend(g, log, e);
    PrepareThenCommitIsApply(Projected(g, log), e);
  }

  lemma StoreAgain(db: ClientDb, e: Committed)
    requires Healthy(db) && AppendEvent(db, e).Ok? && !AppendEvent(db, e).value.inserted
    ensures e in RowsInOrder(db)
    ensures var after := AppendEvent(db, e).value.after;
            && Healthy(after) && RowsInOrder(after) == RowsInOrder(db)
            && after.headSeqno == db.headSeqno && after.genesis == db.genesis && after.roomKey == db.roomKey
            && GrewFrom(after, db, {e})
  {
    AppendStored(db, RowsInOrder(db), e);
    RowsAreTheLog(AppendEvent(db, e).value.after, RowsInOrder(db));
  }

  lemma NotifyNext(notified: seq<int>, head: int)
    requires NotifiedInOrder(notified, head) && head >= 0
    ensures NotifiedInOrder(notified, head + 1) && NotifiedInOrder(notified + [head + 1], head + 1)
  {
    assert forall i :: 0 <= i < |notified| ==> notified[i] in notified;
  }

  lemma DeliverKeeps(pr: Progress, s: Session, d: Delivery)
    requires OnTrack(pr, s)
    ensures OnTrack(Deliver(pr, s, d), s)
    ensures GrewFrom(Deliver(pr, s, d).db, pr.db, {d.e})
    ensures pr.notified <= Deliver(pr, s, d).notified
  {
    if pr.status == Running && PrepareDelta(pr.projection, d.e).Ok? && AppendEvent(pr.db, d.e).Ok? {
      StorePrepared(pr.db, s.genesis, d.e);
      NotifyNext(pr.notified, pr.db.headSeqno);
    }
  }

  lemma GrewTransitive(a: ClientDb, b: ClientDb, c: ClientDb, x: set<Committed>, y: set<Committed>)
    requires GrewFrom(b, a, x) && GrewFrom(c, b, y)
    ensures GrewFrom(c, a, x + y)
  {
  }

  lemma {:induction false} DeliverAllKeeps(pr: Progress, s: Session, ds: seq<Delivery>)
    requires OnTrack(pr, s)
    ensures OnTrack(DeliverAll(pr, s, ds), s)
    ensures GrewFrom(DeliverAll(pr, s, ds).db, pr.db, Offered(ds))
    ensures pr.notified <= DeliverAll(pr, s, ds).notified
  {
    if ds == [] {
    } else {
      var front, d := ds[..|ds| - 1], ds[|ds| - 1];
      DeliverAllKeeps(pr, s, front);
      DeliverKeeps(DeliverAll(pr, s, front), s, d);
      GrewTransitive(pr.db, DeliverAll(pr, s, front).db, DeliverAll(pr, s, ds).db, Offered(front), {d.e});
      assert ds == front + [d];
      assert Offered(front) + {d.e} == Offered(ds);
    }
  }

  // ---- What a whole operation keeps -------------------------------------

  /** The outcome of an operation on a sane room under session `s`. */
  ghost predicate KeptBy(before: Handle, s: Session, after: Handle, offered: set<Committed>) {
    && Sane(after)
    && (after.session == Some(s) || after.session == None)
    && (after.db.genesis == before.db.genesis || after.db.genesis == Some(s.genesis))
    && GrewFrom(after.db, before.db, offered)
    && before.notified <= after.notified
  }

  lemma InstallKeeps(db: ClientDb, g: Genesis, p: Proj, s: RoomState)
    requires Healthy(db) && InstallState(db, g, p, s).Ok?
    ensures var after := InstallState(db, g, p, s).value;
            Healthy(after) && RowsInOrder(after) == RowsInOrder(db) && GrewFrom(after, db, {})
  {
    var after := InstallState(db, g, p, s).value;
    RowsAreTheLog(after, RowsInOrder(db));
  }

  lemma FinishKeeps(h: Handle, s: Session, pr: Progress, f: Finish)
    requires h.session == Some(s) && h.db == pr.db && h.notified == pr.notified
    requires OnTrack(pr, s) && pr.status == Running
    ensures var r := FinishSync(h, s, pr, f);
            && KeptBy(h, s, r.after, {}) && (r.ok ==> r.after.session == Some(s) && Live(r.after))
            && (r.after.projection == h.projection || Live(r.after))
  {
    hide GrewFrom, RowsInOrder, Healthy, NotifiedInOrder, StateMatches, UsableReply;
    GrewNot(h.db);
    match f.reply
    case None =>
    case Some(reply) =>
      var installed := InstallState(h.db, s.genesis, pr.projection, reply.state);
      if installed.Ok? { InstallKeeps(h.db, s.genesis, pr.projection, reply.state); }
  }

  lemma GrewNot(db: ClientDb)
    ensures GrewFrom(db, db, {})
  {
  }

  lemma PinKeeps(db: ClientDb, g: Genesis, now: Instant)
    requires Healthy(db) && PinGenesis(db, g, now).Ok?
    ensures var after := PinGenesis(db, g, now).value;
            && Healthy(after) && RowsInOrder(after) == RowsInOrder(db) && after.headSeqno == db.headSeqno
            && after.genesis == Some(g) && VerifyGenesis(g, now) && GrewFrom(after, db, {})
  {
    var after := PinGenesis(db, g, now).value;
    RowsAreTheLog(after, RowsInOrder(db));
  }

  /** A synchronization over the session `s`, whatever its answers and wherever it
      stops, keeps the database sane; only a complete one claims to be live. */
  lemma SyncKeeps(h: Handle, s: Session, sc: SyncScript)
    requires Sane(h) && h.session == Some(s)
    ensures var r := SyncSession(h, s, sc);
            && KeptBy(h, s, r.after, Offered(sc.deliveries))
            && (r.ok ==> r.after.session == Some(s) && Live(r.after))
            && (r.after.projection == h.projection || Live(r.after))
  {
    var pinned := PinGenesis(h.db, s.genesis, sc.now);
    if pinned.Ok? {
      PinKeeps(h.db, s.genesis, sc.now);
      HealthyIsFold(pinned.value, s.genesis, sc.now);
      var start := Progress(pinned.value, Projected(s.genesis, RowsInOrder(h.db)), h.notified, h.db.headSeqno, Running);
      DeliveredKeeps(h, s, sc, start);
    }
  }

  lemma DeliveredKeeps(h: Handle, s: Session, sc: SyncScript, start: Progress)
    requires OnTrack(start, s) && start.notified == h.notified && start.status == Running
    requires GrewFrom(start.db, h.db, {}) && h.session == Some(s)
    ensures var pr := DeliverAll(start, s, sc.deliveries);
            var h1 := h.(db := pr.db, notified := pr.notified, session := if pr.status == Dropped
                then None else h.session);
            && KeptBy(h, s, h1, Offered(sc.deliveries))
            && (pr.status == Running ==>
                  var r := FinishSync(h1, s, pr, sc.finish);
                  && KeptBy(h, s, r.after, Offered(sc.deliveries))
                  && (r.ok ==> r.after.session == Some(s) && Live(r.after))
                  && (r.after.projection == h.projection || Live(r.after)))
  {
    var pr := DeliverAll(start, s, sc.deliveries);
    DeliverAllKeeps(start, s, sc.deliveries);
    GrewTransitive(h.db, start.db, pr.db, {}, Offered(sc.deliveries));
    assert {} + Offered(sc.deliveries) == Offered(sc.deliveries);
    if pr.status == Running {
      var h1 := h.(db := pr.db, notified := pr.notified);
      FinishKeeps(h1, s, pr, sc.finish);
      GrewTransitive(h.db, pr.db, FinishSync(h1, s, pr, sc.finish).after.db, Offered(sc.deliveries), {});
      assert Offered(sc.deliveries) + {} == Offered(sc.deliveries);
    }
  }

  // ---- One queued event -------------------------------------------------

  /** What processing promises: no interpreter fault, a durable result only for a
      stored event, and a live handle whenever it reports no error. */
  ghost predicate ProcessedWell(before: Handle, s: Session, e: Committed, offered: set<Committed>, r: Processed) {
    && KeptBy(before, s, r.after, offered)
    && r.fault == NoFault
    && (r.durable ==> e in RowsInOrder(r.after.db))
    && (r.ok ==> r.durable && Live(r.after))
  }

  lemma RefreshKeeps(h: Handle, s: Session, f: Finish)
    requires Sane(h) && h.session == Some(s) && Live(h)
    ensures var r := Refresh(h, s, f);
            KeptBy(h, s, r.after, {}) && Live(r.after) && r.after.notified == h.notified
            && RowsInOrder(r.after.db) == RowsInOrder(h.db)
  {
    match f.reply
    case None =>
    case Some(reply) =>
      var installed := InstallState(h.db, s.genesis, h.projection.value, reply.state);
      if installed.Ok? { InstallKeeps(h.db, s.genesis, h.projection.value, reply.state); }
  }

  lemma AnnounceKeeps(h: Handle, s: Session, e: Committed, sc: ProcessScript)
    requires Healthy(h.db) && h.session == Some(s) && Live(h)
    requires e in RowsInOrder(h.db) && e.seqno == h.db.headSeqno
    requires h.db.headSeqno >= 1 && NotifiedInOrder(h.notified, h.db.headSeqno - 1)
    ensures ProcessedWell(h, s, e, {}, Announce(h, s, e, sc))
  {
    NotifyNext(h.notified, h.db.headSeqno - 1);
    if !IsMessage(e) { RefreshKeeps(h, s, sc.refresh); }
  }

  /** The handle once a prepared event and its projection have been installed. */
  ghost function Advanced(h: Handle, s: Session, e: Committed): Handle
    requires AppendEvent(h.db, e).Ok?
    requires Replays(s.genesis, RowsInOrder(AppendEvent(h.db, e).value.after))
  {
    var db := AppendEvent(h.db, e).value.after;
    h.(db := db, projection := Some(Projected(s.genesis, RowsInOrder(db))), verifiedHead := e.seqno)
  }

  lemma AdvanceKeeps(h: Handle, s: Session, e: Committed, sc: ProcessScript)
    requires Sane(h) && h.session == Some(s) && Live(h)
    requires e.seqno > h.db.headSeqno && PrepareDelta(h.projection.value, e).Ok? && AppendEvent(h.db, e).Ok?
    ensures Replays(s.genesis, RowsInOrder(AppendEvent(h.db, e).value.after))
    ensures Ingest(h, s, e, sc) == Announce(Advanced(h, s, e), s, e, sc)
    ensures GrewFrom(Advanced(h, s, e).db, h.db, {e}) && Advanced(h, s, e).db.genesis == h.db.genesis
    ensures ProcessedWell(Advanced(h, s, e), s, e, {}, Announce(Advanced(h, s, e), s, e, sc))
  {
    StorePrepared(h.db, s.genesis, e);
    AnnounceKeeps(Advanced(h, s, e), s, e, sc);
  }

  function Unchanged(h: Handle): Processed {
    Processed(false, false, NoFault, h)
  }

  lemma UnchangedWell(h: Handle, s: Session, e: Committed, offered: set<Committed>)
    requires Sane(h) && h.session == Some(s)
    ensures ProcessedWell(h, s, e, offered, Unchanged(h))
  {
  }

  /** An event at or below the head is stored already or refused. */
  lemma AgainKeeps(h: Handle, s: Session, e: Committed, sc: ProcessScript)
    requires Sane(h) && h.session == Some(s) && Live(h) && e.seqno <= h.db.headSeqno
    ensures ProcessedWell(h, s, e, {e}, Ingest(h, s, e, sc))
  {
    if AppendEvent(h.db, e).Ok? {
      StoreAgain(h.db, e);
      assert Ingest(h, s, e, sc) == Processed(true, true, NoFault, h.(db := AppendEvent(h.db, e).value.after));
    } else {
      assert Ingest(h, s, e, sc) == Unchanged(h);
    }
  }

  lemma AheadKeeps(h: Handle, s: Session, e: Committed, sc: ProcessScript)
    requires Sane(h) && h.session == Some(s) && Live(h) && e.seqno > h.db.headSeqno
    ensures ProcessedWell(h, s, e, {e}, Ingest(h, s, e, sc))
  {
    if PrepareDelta(h.projection.value, e).Ok? && AppendEvent(h.db, e).Ok? {
      AdvanceKeeps(h, s, e, sc);
      var mid := Advanced(h, s, e);
      var r := Announce(mid, s, e, sc);
      AdvancedWell(h, mid, s, e, r);
    } else {
      assert Ingest(h, s, e, sc) == Unchanged(h);
      UnchangedWell(h, s, e, {e});
    }
  }

  lemma AdvancedWell(h: Handle, mid: Handle, s: Session, e: Committed, r: Processed)
    requires GrewFrom(mid.db, h.db, {e}) && mid.notified == h.notified && mid.db.genesis == h.db.genesis
    requires ProcessedWell(mid, s, e, {}, r)
    ensures ProcessedWell(h, s, e, {e}, r)
  {
    GrewTransitive(h.db, mid.db, r.after.db, {e}, {});
    assert {e} + {} == {e};
  }

  /** On a live handle an event goes in without an interpreter fault: the branch
      for an insertion without a prepared change and the branch for a stale
      change cannot be reached. */
  lemma IngestKeeps(h: Handle, s: Session, e: Committed, sc: ProcessScript)
    requires Sane(h) && h.session == Some(s) && Live(h)
    ensures ProcessedWell(h, s, e, {e}, Ingest(h, s, e, sc))
  {
    if e.seqno > h.db.headSeqno { AheadKeeps(h, s, e, sc); } else { AgainKeeps(h, s, e, sc); }
  }

  /** Everything an operation may be offered. */
  function ProcessOffered(e: Committed, sc: ProcessScript): set<Committed> {
    Offered(sc.sync.deliveries) + {e}
  }

  lemma HasEventStored(db: ClientDb, e: Committed)
    requires Healthy(db) && HasEvent(db, e) == Ok(true)
    ensures e in RowsInOrder(db)
  {
    assert db.events[e.seqno] == Nth(RowsInOrder(db), e.seqno);
  }

  lemma RepairThenIngest(h: Handle, s: Session, e: Committed, sc: ProcessScript, mid: Handle)
    requires KeptBy(h, s, mid, Offered(sc.sync.deliveries)) && mid.session == Some(s) && Live(mid)
    ensures ProcessedWell(h, s, e, ProcessOffered(e, sc), Ingest(mid, s, e, sc))
  {
    IngestKeeps(mid, s, e, sc);
    GrewTransitive(h.db, mid.db, Ingest(mid, s, e, sc).after.db, Offered(sc.sync.deliveries), {e});
  }

  /** After a repair that stopped, the event may have been stored on the way. */
  lemma RepairFailed(h: Handle, s: Session, e: Committed, sc: ProcessScript, mid: Handle)
    requires KeptBy(h, s, mid, Offered(sc.sync.deliveries))
    ensures ProcessedWell(h, s, e, ProcessOffered(e, sc), Processed(HasEvent(mid.db, e)
              == Ok(true), false, NoFault, mid))
  {
    if HasEvent(mid.db, e) == Ok(true) { HasEventStored(mid.db, e); }
  }

  lemma GapKeeps(h: Handle, s: Session, e: Committed, sc: ProcessScript)
    requires Sane(h) && h.session == Some(s) && Live(h)
    requires VerifyCommit(e, h.db.roomKey, s.genesis.nodeKey).Ok? && e.seqno > h.db.headSeqno + 1
    ensures ProcessedWell(h, s, e, ProcessOffered(e, sc), ProcessCanonical(h, s, e, sc))
  {
    SyncKeeps(h, s, sc.sync);
    var r := SyncSession(h, s, sc.sync);
    if r.ok {
      RepairThenIngest(h, s, e, sc, r.after);
      assert ProcessCanonical(h, s, e, sc) == Ingest(r.after, s, e, sc);
    } else {
      RepairFailed(h, s, e, sc, r.after);
      assert ProcessCanonical(h, s, e, sc) == Processed(HasEvent(r.after.db, e) == Ok(true), false, NoFault, r.after);
    }
  }

  lemma OfferedMore(h: Handle, s: Session, e: Committed, sc: ProcessScript, r: Processed)
    requires ProcessedWell(h, s, e, {e}, r)
    ensures ProcessedWell(h, s, e, ProcessOffered(e, sc), r)
  {
  }

  /** One queued event on a live handle: whatever happens, including a repair that
      stops in the middle of a page, the rows stay a replayable log, no
      interpreter fault occurs, and a durable answer names a stored event. A
      failed repair leaves the projection behind, but then an error is reported. */
  lemma ProcessKeeps(h: Handle, s: Session, e: Committed, sc: ProcessScript)
    requires Sane(h) && h.session == Some(s) && Live(h)
    ensures ProcessedWell(h, s, e, ProcessOffered(e, sc), ProcessCanonical(h, s, e, sc))
  {
    if VerifyCommit(e, h.db.roomKey, s.genesis.nodeKey).Err? {
      UnchangedWell(h, s, e, ProcessOffered(e, sc));
    } else if e.seqno > h.db.headSeqno + 1 {
      GapKeeps(h, s, e, sc);
    } else {
      IngestKeeps(h, s, e, sc);
      OfferedMore(h, s, e, sc, Ingest(h, s, e, sc));
    }
  }

  /** A projection behind the rows of its database is not the fold of them. */
  lemma BehindIsNotLive(before: Handle, after: Handle)
    requires Sane(before) && Sane(after) && before.session.Some? && Live(before)
    requires after.session == before.session && after.projection == before.projection
    requires RowsInOrder(before.db) < RowsInOrder(after.db)
    ensures !Live(after)
  {
    if Live(after) {
      var g := before.session.value.genesis;
      FoldDescribes(g, RowsInOrder(before.db));
      FoldDescribes(g, RowsInOrder(after.db));
    }
  }

  /** Why an error must drop the session: a synchronization that stored events and
      failed, its session still there, leaves the handle live exactly if it came to
      install its own projection; otherwise the old one is behind the database. */
  lemma StoppedRepairIsNotLive(h: Handle, s: Session, sc: SyncScript)
    requires Sane(h) && h.session == Some(s) && Live(h)
    requires !SyncSession(h, s, sc).ok && SyncSession(h, s, sc).after.session == Some(s)
    requires RowsInOrder(h.db) < RowsInOrder(SyncSession(h, s, sc).after.db)
    ensures Healthy(SyncSession(h, s, sc).after.db)
    ensures Live(SyncSession(h, s, sc).after) <==> SyncSession(h, s, sc).after.projection != h.projection
  {
    hide SyncSession, RowsInOrder, Healthy, NotifiedInOrder;
    var after := SyncSession(h, s, sc).after;
    SyncKeeps(h, s, sc);
    if after.projection == h.projection { BehindIsNotLive(h, after); }
  }

  /** It does happen: a page with the next event followed by a lost answer. */
  lemma RepairCanStop(h: Handle, s: Session, e: Committed, sc: SyncScript)
    requires Sane(h) && h.session == Some(s) && Live(h) && VerifyGenesis(s.genesis, sc.now)
    requires VerifyCommit(e, h.db.roomKey, s.genesis.nodeKey).Ok?
    requires Apply(Projected(s.genesis, RowsInOrder(h.db)), e).Ok? && !Contains(RowsInOrder(h.db), e.proposal)
    requires sc.deliveries == [Delivery(e, true, true)] && sc.ending == Cut
    ensures var r := SyncSession(h, s, sc);
            && !r.ok && r.after.session == Some(s) && r.after.projection == h.projection
            && RowsInOrder(r.after.db) == RowsInOrder(h.db) + [e]
            && Healthy(r.after.db) && !Live(r.after)
  {
    hide SyncSession, RowsInOrder, Apply, VerifyCommit, NotifiedInOrder, GrewFrom, ClientDbs.AppendEvent;
    var start := Progress(h.db, Projected(s.genesis, RowsInOrder(h.db)), h.notified, h.db.headSeqno, Running);
    AppendPrepared(h.db, RowsInOrder(h.db), s.genesis, e);
    StorePrepared(h.db, s.genesis, e);
    PrepareThenCommitIsApply(start.projection, e);
    assert sc.deliveries[..0] == [];
    assert DeliverAll(start, s, sc.deliveries) == Deliver(start, s, Delivery(e, true, true));
    CutSync(h, s, sc, start);
    BehindIsNotLive(h, SyncSession(h, s, sc).after);
  }

  lemma CutSync(h: Handle, s: Session, sc: SyncScript, start: Progress)
    requires Sane(h) && h.session == Some(s) && Live(h) && VerifyGenesis(s.genesis, sc.now) && sc.ending == Cut
    requires start == Progress(h.db, Projected(s.genesis, RowsInOrder(h.db)), h.notified, h.db.headSeqno, Running)
    ensures var pr := DeliverAll(start, s, sc.deliveries);
            SyncSession(h, s, sc) ==
              Synced(false, h.(db := pr.db, notified := pr.notified, session := if pr.status == Dropped
                  then None else h.session))
    ensures Sane(SyncSession(h, s, sc).after)
  {
    hide RowsInOrder, DeliverAll, NotifiedInOrder, GrewFrom;
    HealthyIsFold(h.db, s.genesis, sc.now);
    SyncKeeps(h, s, sc);
  }
}
