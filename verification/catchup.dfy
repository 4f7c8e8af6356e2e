// What synchronizing and processing come to, exactly: which deliveries are taken,
// when a synchronization succeeds and what it leaves behind, and which events are
// stored and notified.
module Catchups {
  import opened Wrappers
  import opened Ordered
  import opened Community
  import opened Replay
  import opened ClientDbs
  import opened Projections
  import opened Rooms

  // ---- One delivered event ----------------------------------------------

  /** The event may come next and is not stored yet. */
  ghost predicate Extends(g: Genesis, rows: seq<Committed>, e: Committed)
    requires Replays(g, rows)
  {
    Apply(Projected(g, rows), e).Ok? && !Contains(rows, e.proposal)
  }

  /** A running synchronization of the session's own room. */
  ghost predicate Moving(pr: Progress, s: Session) {
    OnTrack(pr, s) && pr.status == Running && pr.db.roomKey == s.genesis.roomKey
  }

  lemma MovingReplays(pr: Progress, s: Session)
    requires Moving(pr, s)
    ensures Replays(s.genesis, RowsInOrder(pr.db)) && pr.projection == Projected(s.genesis, RowsInOrder(pr.db))
    ensures ValidGenesis(s.genesis) && UniqueIds(RowsInOrder(pr.db)) && pr.db.headSeqno == |RowsInOrder(pr.db)|
    ensures pr.projection.genesis == s.genesis
  {
    FoldDescribes(s.genesis, RowsInOrder(pr.db));
  }

  /** An event that extends the rows of a live session is stored; it is notified, and
      the synchronization goes on, if the observer takes the notification. */
  lemma ExtensionIsDelivered(pr: Progress, s: Session, d: Delivery)
    requires Moving(pr, s) && d.current
    requires Replays(s.genesis, RowsInOrder(pr.db)) && Extends(s.genesis, RowsInOrder(pr.db), d.e)
    ensures var after := Deliver(pr, s, d);
            && RowsInOrder(after.db) == RowsInOrder(pr.db) + [d.e]
            && after.status == (if d.emitted then Running else Failed)
            && after.notified == (if d.emitted then pr.notified + [|RowsInOrder(pr.db)| + 1] else pr.notified)
            && (d.emitted ==> Moving(after, s) && after.lastSeqno == |RowsInOrder(pr.db)| + 1)
  {
    hide Apply, RowsInOrder, ClientDbs.AppendEvent, CommitDelta, PrepareDelta, VerifyCommit, GrewFrom;
    var rows := RowsInOrder(pr.db);
    MovingReplays(pr, s);
    ApplyMoves(pr.projection, d.e);
    AppendPrepared(pr.db, rows, s.genesis, d.e);
    StorePrepared(pr.db, s.genesis, d.e);
    PrepareThenCommitIsApply(pr.projection, d.e);
    DeliverKeeps(pr, s, d);
    NotifyNext(pr.notified, pr.db.headSeqno);
  }

  /** Any other event ends the synchronization and changes nothing but, if the
      session is gone, that. */
  lemma OtherIsRefused(pr: Progress, s: Session, d: Delivery)
    requires Moving(pr, s) && Replays(s.genesis, RowsInOrder(pr.db))
    requires !d.current || !Extends(s.genesis, RowsInOrder(pr.db), d.e)
    ensures Deliver(pr, s, d) == pr.(status := if d.current then Failed else Dropped)
  {
    hide Apply, RowsInOrder, ClientDbs.AppendEvent, CommitDelta, VerifyCommit;
    var rows := RowsInOrder(pr.db);
    MovingReplays(pr, s);
    if d.current {
      PrepareThenCommitIsApply(pr.projection, d.e);
      if Apply(pr.projection, d.e).Ok? { AppendPrepared(pr.db, rows, s.genesis, d.e); }
    }
  }

  // ---- All deliveries ---------------------------------------------------

  function EventsOf(ds: seq<Delivery>): seq<Committed> {
    seq(|ds|, i requires 0 <= i < |ds| => ds[i].e)
  }

  /** Every delivery meets a live session and an observer. */
  predicate Undisturbed(ds: seq<Delivery>) {
    forall i :: 0 <= i < |ds| ==> ds[i].current && ds[i].emitted
  }

  /** The numbers from `from + 1` to `to`. */
  function Numbers(from: nat, to: nat): seq<int> {
    if from >= to then [] else seq(to - from, i => from + i + 1)
  }

  /** The rows with all delivered events after them are still a log. */
  ghost predicate Continues(g: Genesis, rows: seq<Committed>, events: seq<Committed>) {
    Replays(g, rows + events) && UniqueIds(rows + events)
  }

  lemma ContinuesOne(g: Genesis, rows: seq<Committed>, events: seq<Committed>, e: Committed)
    requires Continues(g, rows, events)
    ensures Continues(g, rows, events + [e]) <==> Extends(g, rows + events, e)
  {
    hide Apply;
    var grown := rows + events;
    assert rows + (events + [e]) == grown + [e];
    FoldAppend(g, grown, e);
    if !Contains(grown, e.proposal) { AppendUnique(grown, e); }
    if i :| 0 <= i < |grown| && grown[i].proposal == e.proposal {
      assert (grown + [e])[i].proposal == (grown + [e])[|grown|].proposal;
    }
  }

  lemma ContinuesFront(g: Genesis, rows: seq<Committed>, events: seq<Committed>, e: Committed)
    requires Continues(g, rows, events + [e])
    ensures Continues(g, rows, events)
  {
    var whole, grown := rows + (events + [e]), rows + events;
    assert whole == grown + [e];
    FoldPrefix(g, whole, |grown|);
    assert whole[..|grown|] == grown;
    assert forall i :: 0 <= i < |grown| ==> whole[i] == grown[i];
  }

  /** What a synchronization that is still running has done. */
  ghost predicate TookAll(pr: Progress, start: Progress, s: Session, events: seq<Committed>) {
    var rows := RowsInOrder(start.db);
    && Moving(pr, s)
    && RowsInOrder(pr.db) == rows + events
    && pr.notified == start.notified + Numbers(|rows|, |rows| + |events|)
    && pr.lastSeqno == (if events == [] then start.lastSeqno else |rows| + |events|)
  }

  lemma NumbersGrown(from: nat, count: nat)
    ensures Numbers(from, from + count + 1) == Numbers(from, from + count) + [from + count + 1]
  {
  }

  lemma Step(ds: seq<Delivery>)
    requires ds != []
    ensures EventsOf(ds) == EventsOf(ds[..|ds| - 1]) + [ds[|ds| - 1].e]
    ensures Undisturbed(ds) <==> Undisturbed(ds[..|ds| - 1]) && ds[|ds| - 1].current && ds[|ds| - 1].emitted
  {
  }

  lemma TookOneMore(pr: Progress, start: Progress, s: Session, events: seq<Committed>, d: Delivery)
    requires TookAll(pr, start, s, events) && Continues(s.genesis, RowsInOrder(start.db), events)
    ensures Deliver(pr, s, d).status == Running
            <==> d.current && d.emitted && Continues(s.genesis, RowsInOrder(start.db), events + [d.e])
    ensures Deliver(pr, s, d).status == Running ==> TookAll(Deliver(pr, s, d), start, s, events + [d.e])
  {
    hide Deliver, Moving, RowsInOrder, Extends, Continues, Apply, Numbers;
    var rows := RowsInOrder(start.db);
    ContinuesOne(s.genesis, rows, events, d.e);
    NumbersGrown(|rows|, |events|);
    MovingReplays(pr, s);
    if d.current && Extends(s.genesis, rows + events, d.e) {
      ExtensionIsDelivered(pr, s, d);
      assert rows + events + [d.e] == rows + (events + [d.e]);
      assert start.notified + Numbers(|rows|, |rows| + |events|) + [|rows| + |events| + 1]
          == start.notified + (Numbers(|rows|, |rows| + |events|) + [|rows| + |events| + 1]);
    } else {
      OtherIsRefused(pr, s, d);
    }
  }

  /** The deliveries are all taken exactly when nothing disturbs them and they
      continue the stored log; and then each is stored and notified once, in
      order. */
  lemma {:induction false} AllDeliveredIff(start: Progress, s: Session, ds: seq<Delivery>)
    requires Moving(start, s)
    ensures DeliverAll(start, s, ds).status == Running
            <==> Undisturbed(ds) && Continues(s.genesis, RowsInOrder(start.db), EventsOf(ds))
    ensures DeliverAll(start, s, ds).status == Running ==>
              TookAll(DeliverAll(start, s, ds), start, s, EventsOf(ds))
  {
    hide Deliver, Moving, RowsInOrder, Continues, TookAll, Undisturbed, EventsOf;
    if ds == [] {
      NothingTaken(start, s);
    } else {
      var front, d := ds[..|ds| - 1], ds[|ds| - 1];
      Step(ds);
      AllDeliveredIff(start, s, front);
      var pr := DeliverAll(start, s, front);
      if pr.status == Running {
        TookOneMore(pr, start, s, EventsOf(front), d);
      } else {
        assert Deliver(pr, s, d) == pr by { StoppedStays(pr, s, d); }
        if Continues(s.genesis, RowsInOrder(start.db), EventsOf(ds)) {
          ContinuesFront(s.genesis, RowsInOrder(start.db), EventsOf(front), d.e);
        }
      }
    }
  }

  lemma StoppedStays(pr: Progress, s: Session, d: Delivery)
    requires pr.status != Running
    ensures Deliver(pr, s, d) == pr
  {
  }

  lemma NothingTaken(start: Progress, s: Session)
    requires Moving(start, s)
    ensures start.status == Running && Undisturbed([]) && EventsOf([]) == []
    ensures Continues(s.genesis, RowsInOrder(start.db), []) && TookAll(start, start, s, [])
  {
    assert RowsInOrder(start.db) + [] == RowsInOrder(start.db);
    MovingReplays(start, s);
  }

  // ---- A whole synchronization ------------------------------------------

  /** A verified genesis of this room, and no other is pinned. */
  predicate Pinnable(db: ClientDb, g: Genesis, now: Instant) {
    VerifyGenesis(g, now) && g.roomKey == db.roomKey && (db.genesis.None? || db.genesis == Some(g))
  }

  lemma PinnedIff(db: ClientDb, g: Genesis, now: Instant)
    ensures PinGenesis(db, g, now).Ok? <==> Pinnable(db, g, now)
    ensures Pinnable(db, g, now) ==> PinGenesis(db, g, now) == Ok(db.(genesis := Some(g)))
  {
  }

  /** Where the deliveries start. */
  ghost function Started(h: Handle, s: Session): Progress
    requires Replays(s.genesis, RowsInOrder(h.db))
  {
    Progress(h.db.(genesis := Some(s.genesis)), Projected(s.genesis, RowsInOrder(h.db)), h.notified,
             |RowsInOrder(h.db)|, Running)
  }

  lemma StartedMoving(h: Handle, s: Session, now: Instant)
    requires Sane(h) && Pinnable(h.db, s.genesis, now)
    ensures Replays(s.genesis, RowsInOrder(h.db)) && Moving(Started(h, s), s)
    ensures RowsInOrder(Started(h, s).db) == RowsInOrder(h.db) && h.db.headSeqno == |RowsInOrder(h.db)|
    ensures ProjectRoom(Started(h, s).db, s.genesis, now) == Ok(Started(h, s).projection)
  {
    PinKeeps(h.db, s.genesis, now);
    HealthyIsFold(h.db.(genesis := Some(s.genesis)), s.genesis, now);
  }

  /** The closing reply is usable, its state is the fold of the pulled log, and
      neither the session nor the observer goes away. */
  predicate Closes(f: Finish, p: Proj, head: int) {
    && f.reply.Some? && f.current && f.stillCurrent && f.notified
    && f.reply.value.onlineUsers >= 0 && f.reply.value.replicaSeqno >= head && f.reply.value.ready
    && StateMatches(p, f.reply.value.state)
  }

  /** The handle over `rows` with this state cached. */
  ghost predicate CaughtUp(h: Handle, s: Session, rows: seq<Committed>, state: RoomState) {
    && Sane(h) && Live(h) && h.session == Some(s)
    && h.db.roomKey == s.genesis.roomKey && h.db.genesis == Some(s.genesis)
    && RowsInOrder(h.db) == rows && h.verifiedHead == |rows| && h.db.cached == Some(state)
  }

  lemma FinishIff(h: Handle, s: Session, pr: Progress, f: Finish, rows: seq<Committed>)
    requires Moving(pr, s) && RowsInOrder(pr.db) == rows && pr.lastSeqno == |rows|
    requires h.session == Some(s) && h.db == pr.db && h.notified == pr.notified
    ensures Replays(s.genesis, rows)
    ensures var r := FinishSync(h, s, pr, f);
            && (r.ok <==> Closes(f, Projected(s.genesis, rows), |rows|))
            && r.after.notified == h.notified
            && (r.ok ==> CaughtUp(r.after, s, rows, f.reply.value.state))
  {
    hide RowsInOrder, Healthy, NotifiedInOrder, StateMatches, GrewFrom;
    MovingReplays(pr, s);
    FoldDescribes(s.genesis, rows);
    MatchingIsOfTheRoom(pr.projection, f);
    FinishKeeps(h, s, pr, f);
    HeadOfRows(pr, s);
    if FinishSync(h, s, pr, f).ok { InstalledRows(pr.db, s.genesis, pr.projection, f.reply.value.state); }
  }

  lemma MatchingIsOfTheRoom(p: Proj, f: Finish)
    ensures f.reply.Some? && StateMatches(p, f.reply.value.state) ==> f.reply.value.state.roomId == p.genesis.roomKey
  {
  }

  lemma HeadOfRows(pr: Progress, s: Session)
    requires Moving(pr, s)
    ensures pr.projection.headSeq == pr.db.headSeqno && pr.projection.headHash == pr.db.headHash
  {
    FoldDescribes(s.genesis, RowsInOrder(pr.db));
  }

  lemma InstalledRows(db: ClientDb, g: Genesis, p: Proj, state: RoomState)
    requires Healthy(db) && InstallState(db, g, p, state).Ok?
    ensures InstallState(db, g, p, state).value == db.(cached := Some(state))
    ensures RowsInOrder(db.(cached := Some(state))) == RowsInOrder(db)
  {
    SameRows(db, db.(cached := Some(state)));
  }

  /** Exactly when a synchronization succeeds, in terms of what arrives, and what it
      leaves: the stored log with every delivered event after it, each new one
      notified once, the closing state cached, and the handle live. */
  lemma SyncSucceedsIff(h: Handle, s: Session, sc: SyncScript)
    requires Sane(h) && h.session == Some(s)
    ensures var r, rows, events := SyncSession(h, s, sc), RowsInOrder(h.db), EventsOf(sc.deliveries);
            && (r.ok <==>
                  && Pinnable(h.db, s.genesis, sc.now) && Undisturbed(sc.deliveries) && sc.ending == Complete
                  && Continues(s.genesis, rows, events)
                  && Closes(sc.finish, Projected(s.genesis, rows + events), |rows + events|))
            && (r.ok ==>
                  && CaughtUp(r.after, s, rows + events, sc.finish.reply.value.state)
                  && r.after.notified == h.notified + Numbers(|rows|, |rows + events|))
  {
    hide PinGenesis, ProjectRoom, FinishSync, Closes, CaughtUp, Moving, RowsInOrder, Continues, Healthy, Pinnable;
    hide NotifiedInOrder, DeliverAll, Undisturbed, EventsOf, Projected;
    var rows, events := RowsInOrder(h.db), EventsOf(sc.deliveries);
    PinnedIff(h.db, s.genesis, sc.now);
    if Pinnable(h.db, s.genesis, sc.now) {
      StartedMoving(h, s, sc.now);
      var start := Started(h, s);
      AllDeliveredIff(start, s, sc.deliveries);
      var pr := DeliverAll(start, s, sc.deliveries);
      if pr.status == Running { PulledThenFinish(h, s, sc, start, pr, rows, events); }
    }
  }

  lemma PulledThenFinish(h: Handle, s: Session, sc: SyncScript, start: Progress, pr: Progress,
                         rows: seq<Committed>, events: seq<Committed>)
    requires h.session == Some(s) && Moving(start, s) && rows == RowsInOrder(start.db) && start.notified == h.notified
    requires start.lastSeqno == |rows| && TookAll(pr, start, s, events)
    ensures Replays(s.genesis, rows + events)
    ensures var r := FinishSync(h.(db := pr.db, notified := pr.notified, session := h.session), s, pr, sc.finish);
            && (r.ok <==> Closes(sc.finish, Projected(s.genesis, rows + events), |rows + events|))
            && (r.ok ==>
                  && CaughtUp(r.after, s, rows + events, sc.finish.reply.value.state)
                  && r.after.notified == h.notified + Numbers(|rows|, |rows + events|))
  {
    hide FinishSync, Closes, CaughtUp, Moving, RowsInOrder;
    if events == [] { assert rows + events == rows; }
    FinishIff(h.(db := pr.db, notified := pr.notified, session := h.session), s, pr, sc.finish, rows + events);
  }

  // ---- Against an honest peer -------------------------------------------

  function Delivering(events: seq<Committed>): seq<Delivery> {
    seq(|events|, i requires 0 <= i < |events| => Delivery(events[i], true, true))
  }

  /** The script of a peer that holds `log`: all of it after the first `n` events,
      and then a covering state, with nothing lost on the way. */
  ghost predicate Serving(sc: SyncScript, g: Genesis, log: seq<Committed>, n: nat) {
    && Replays(g, log) && UniqueIds(log) && n <= |log|
    && sc.deliveries == Delivering(log[n..]) && sc.ending == Complete
    && Closes(sc.finish, Projected(g, log), |log|)
  }

  lemma EventsOfDelivering(events: seq<Committed>)
    ensures EventsOf(Delivering(events)) == events && Undisturbed(Delivering(events))
  {
  }

  /** Over a session to an honest peer every member catches up, a new one included:
      it ends with the peer's log, the genesis pinned, the state cached, live, and
      told of each new event once. */
  lemma HonestSyncCatchesUp(h: Handle, s: Session, sc: SyncScript, log: seq<Committed>)
    requires Sane(h) && h.session == Some(s) && RowsInOrder(h.db) <= log
    requires Pinnable(h.db, s.genesis, sc.now) && Serving(sc, s.genesis, log, |RowsInOrder(h.db)|)
    ensures var r := SyncSession(h, s, sc);
            && r.ok && CaughtUp(r.after, s, log, sc.finish.reply.value.state)
            && r.after.notified == h.notified + Numbers(|RowsInOrder(h.db)|, |log|)
  {
    hide SyncSession, RowsInOrder, CaughtUp, Closes, Pinnable, Sane, Undisturbed, EventsOf;
    var n := |RowsInOrder(h.db)|;
    EventsOfDelivering(log[n..]);
    assert RowsInOrder(h.db) + log[n..] == log;
    SyncSucceedsIff(h, s, sc);
  }

  /** The pages alone: they bring the whole log under the pinned genesis, whatever
      becomes of the closing query. */
  lemma HonestPagesArePulled(h: Handle, s: Session, sc: SyncScript, log: seq<Committed>)
    requires Sane(h) && h.session == Some(s) && RowsInOrder(h.db) <= log && Pinnable(h.db, s.genesis, sc.now)
    requires Replays(s.genesis, log) && UniqueIds(log)
    requires sc.deliveries == Delivering(log[|RowsInOrder(h.db)|..]) && sc.ending == Complete
    ensures RowsInOrder(SyncSession(h, s, sc).after.db) == log
    ensures SyncSession(h, s, sc).after.db.genesis == Some(s.genesis)
  {
    hide PinGenesis, ProjectRoom, Moving, RowsInOrder, Healthy, Pinnable, NotifiedInOrder, DeliverAll, Undisturbed;
    hide EventsOf, Projected, UniqueIds, InstallState, Delivering;
    var rows := RowsInOrder(h.db);
    var n := |rows|;
    EventsOfDelivering(log[n..]);
    assert rows + log[n..] == log;
    PinnedIff(h.db, s.genesis, sc.now);
    StartedMoving(h, s, sc.now);
    AllDeliveredIff(Started(h, s), s, sc.deliveries);
    var pr := DeliverAll(Started(h, s), s, sc.deliveries);
    FinishKeepsRows(h.(db := pr.db, notified := pr.notified, session := h.session), s, pr, sc.finish);
  }

  lemma FinishKeepsRows(h: Handle, s: Session, pr: Progress, f: Finish)
    requires h.db == pr.db && Moving(pr, s)
    ensures RowsInOrder(FinishSync(h, s, pr, f).after.db) == RowsInOrder(h.db)
    ensures FinishSync(h, s, pr, f).after.db.genesis == Some(s.genesis)
  {
    SameRows(h.db, FinishSync(h, s, pr, f).after.db);
  }

  // ---- One queued event -------------------------------------------------

  /** What the closing query of a state change must be for the state to be cached. */
  predicate Refreshes(f: Finish, p: Proj, head: int) {
    && f.reply.Some? && f.current && f.stillCurrent
    && f.reply.value.onlineUsers >= 0 && f.reply.value.replicaSeqno >= head && f.reply.value.ready
    && StateMatches(p, f.reply.value.state)
  }

  /** The handle after storing the event `e` that extends its rows, however the
      notification and the refresh go. */
  ghost predicate Advances(h: Handle, s: Session, e: Committed, sc: ProcessScript, r: Processed)
    requires Replays(s.genesis, RowsInOrder(h.db) + [e])
  {
    var rows, p := RowsInOrder(h.db) + [e], Projected(s.genesis, RowsInOrder(h.db) + [e]);
    && r.durable && r.fault == NoFault
    && RowsInOrder(r.after.db) == rows
    && r.after.projection == Some(p) && r.after.verifiedHead == |rows|
    && r.after.notified == h.notified + (if sc.emitted then [|rows|] else [])
    && (IsMessage(e) ==>
          (r.ok <==> sc.emitted) && r.after.session == Some(s) && r.after.db.cached == h.db.cached)
    && (!IsMessage(e) ==>
          && (r.ok <==> sc.emitted && sc.notified && Refreshes(sc.refresh, p, |rows|))
          && (r.ok ==> r.after.session == Some(s) && r.after.db.cached == Some(sc.refresh.reply.value.state)))
  }

  /** The next event of the log on a live handle: stored, folded in and, if the
      observer takes it, notified exactly once. */
  lemma NextIsProcessed(h: Handle, s: Session, e: Committed, sc: ProcessScript)
    requires Sane(h) && Live(h) && h.session == Some(s)
    requires Replays(s.genesis, RowsInOrder(h.db)) && Extends(s.genesis, RowsInOrder(h.db), e)
    ensures Replays(s.genesis, RowsInOrder(h.db) + [e])
    ensures Advances(h, s, e, sc, ProcessCanonical(h, s, e, sc))
  {
    RoomOfLive(h, s);
    hide Apply, VerifyCommit, RowsInOrder, ClientDbs.AppendEvent, GrewFrom, PrepareDelta, CommitDelta, Healthy;
    hide NotifiedInOrder, Advances, ProcessCanonical, Ingest, Announce;
    ExtensionIsPrepared(h, s, e);
    StorePrepared(h.db, s.genesis, e);
    FoldAppend(s.genesis, RowsInOrder(h.db), e);
    AdvanceKeeps(h, s, e, sc);
    InsertedKeepsCached(h.db, e);
    NextGoesIn(h, s, e, sc);
    AnnounceIff(h, Advanced(h, s, e), s, e, sc);
  }

  lemma ExtensionIsPrepared(h: Handle, s: Session, e: Committed)
    requires Sane(h) && Live(h) && h.session == Some(s)
    requires Replays(s.genesis, RowsInOrder(h.db)) && Extends(s.genesis, RowsInOrder(h.db), e)
    ensures VerifyCommit(e, h.db.roomKey, s.genesis.nodeKey).Ok? && e.seqno == h.db.headSeqno + 1
    ensures PrepareDelta(h.projection.value, e).Ok? && AppendEvent(h.db, e).Ok?
  {
    RoomOfLive(h, s);
    hide Apply, VerifyCommit, RowsInOrder, ClientDbs.AppendEvent, PrepareDelta, Healthy;
    FoldDescribes(s.genesis, RowsInOrder(h.db));
    ApplyMoves(h.projection.value, e);
    AppendPrepared(h.db, RowsInOrder(h.db), s.genesis, e);
    PrepareThenCommitIsApply(h.projection.value, e);
  }

  lemma NextGoesIn(h: Handle, s: Session, e: Committed, sc: ProcessScript)
    requires h.session == Some(s) && VerifyCommit(e, h.db.roomKey, s.genesis.nodeKey).Ok?
    requires e.seqno <= h.db.headSeqno + 1
    ensures ProcessCanonical(h, s, e, sc) == Ingest(h, s, e, sc)
  {
  }

  lemma InsertedKeepsCached(db: ClientDb, e: Committed)
    requires AppendEvent(db, e).Ok?
    ensures AppendEvent(db, e).value.after.cached == db.cached
  {
  }

  lemma RoomOfLive(h: Handle, s: Session)
    requires Sane(h) && Live(h) && h.session == Some(s)
    ensures h.db.roomKey == s.genesis.roomKey && ValidGenesis(s.genesis) && h.db.headSeqno == |RowsInOrder(h.db)|
    ensures Holds(h.db, RowsInOrder(h.db)) && h.db.genesis == Some(s.genesis)
    ensures Replays(s.genesis, RowsInOrder(h.db)) && h.projection == Some(Projected(s.genesis, RowsInOrder(h.db)))
  {
  }

  lemma AnnounceIff(h: Handle, next: Handle, s: Session, e: Committed, sc: ProcessScript)
    requires Replays(s.genesis, RowsInOrder(h.db) + [e])
    requires next.session == Some(s) && next.notified == h.notified && next.db.cached == h.db.cached
    requires Healthy(next.db) && Live(next) && RowsInOrder(next.db) == RowsInOrder(h.db) + [e]
    requires e.seqno == |RowsInOrder(h.db)| + 1 == next.verifiedHead
    ensures Advances(h, s, e, sc, Announce(next, s, e, sc))
  {
    hide RowsInOrder, Refresh, Refreshes, GrewFrom;
    RefreshIff(next, s, sc.refresh);
    SameRows(next.db, Refresh(next, s, sc.refresh).after.db);
  }

  lemma RefreshIff(h: Handle, s: Session, f: Finish)
    requires Healthy(h.db) && h.session == Some(s) && Live(h)
    ensures Replays(s.genesis, RowsInOrder(h.db))
    ensures var r := Refresh(h, s, f);
            && (r.ok <==> Refreshes(f, Projected(s.genesis, RowsInOrder(h.db)), |RowsInOrder(h.db)|))
            && (r.ok ==> r.after == h.(db := h.db.(cached := Some(f.reply.value.state))))
            && r.after.db.events == h.db.events && r.after.projection == h.projection
            && r.after.notified == h.notified && r.after.verifiedHead == h.verifiedHead
  {
    FoldDescribes(s.genesis, RowsInOrder(h.db));
  }

  // ---- Any queued event -------------------------------------------------

  lemma NumberedHolds(rows: seq<Committed>, e: Committed)
    requires Numbered(rows)
    ensures e in rows <==> 1 <= e.seqno <= |rows| && Nth(rows, e.seqno) == e
  {
    if e in rows {
      var i :| 0 <= i < |rows| && rows[i] == e;
      assert rows[i].seqno == i + 1;
    }
  }

  lemma RowsAreNumbered(db: ClientDb)
    requires Healthy(db)
    ensures db.events == LogTable(RowsInOrder(db)) && Numbered(RowsInOrder(db))
  {
    if db.genesis.Some? { FoldDescribes(db.genesis.value, RowsInOrder(db)); }
  }

  /** A stored event is found at its number. */
  lemma StoredAt(db: ClientDb, e: Committed)
    requires Healthy(db)
    ensures e in RowsInOrder(db) <==> e.seqno in db.events && db.events[e.seqno] == e
    ensures e.seqno in db.events <==> 1 <= e.seqno <= |RowsInOrder(db)|
  {
    hide RowsInOrder, Healthy, Numbered;
    RowsAreNumbered(db);
    NumberedHolds(RowsInOrder(db), e);
  }

  lemma HasEventIff(db: ClientDb, e: Committed)
    requires Healthy(db)
    ensures HasEvent(db, e) == Ok(true) <==> e in RowsInOrder(db)
    ensures HasEvent(db, e) == Ok(false) <==> !(1 <= e.seqno <= |RowsInOrder(db)|)
    ensures HasEvent(db, e).Err? <==> 1 <= e.seqno <= |RowsInOrder(db)| && e !in RowsInOrder(db)
  {
    StoredAt(db, e);
  }

  /** A stored event offered again is durable without error, and at most its receipt
      changes: it is not notified a second time. */
  lemma StoredIsProcessedAgain(h: Handle, s: Session, e: Committed, sc: ProcessScript)
    requires Sane(h) && Live(h) && h.session == Some(s) && e in RowsInOrder(h.db)
    ensures ProcessCanonical(h, s, e, sc)
            == Processed(true, true, NoFault, h.(db := h.db.(pending := Receipted(h.db.pending, e))))
  {
    hide RowsInOrder, VerifyCommit, Apply;
    RoomOfLive(h, s);
    FoldDescribes(s.genesis, RowsInOrder(h.db));
    StoredAt(h.db, e);
  }

  /** An event at or before the next number that is neither stored nor next changes
      nothing, and its loop is told so. */
  lemma OtherIsUnchanged(h: Handle, s: Session, e: Committed, sc: ProcessScript)
    requires Sane(h) && Live(h) && h.session == Some(s) && e.seqno <= |RowsInOrder(h.db)| + 1
    requires e !in RowsInOrder(h.db)
    requires Replays(s.genesis, RowsInOrder(h.db)) && !Extends(s.genesis, RowsInOrder(h.db), e)
    ensures ProcessCanonical(h, s, e, sc) == Processed(false, false, NoFault, h)
  {
    hide RowsInOrder, VerifyCommit, Apply, PrepareDelta, ClientDbs.AppendEvent;
    RoomOfLive(h, s);
    StoredAt(h.db, e);
    PrepareThenCommitIsApply(h.projection.value, e);
    if e.seqno > h.db.headSeqno {
      if PrepareDelta(h.projection.value, e).Ok? { AppendPrepared(h.db, RowsInOrder(h.db), s.genesis, e); }
    } else {
      OldIsRefused(h.db, e);
    }
  }

  lemma OldIsRefused(db: ClientDb, e: Committed)
    requires e.seqno <= db.headSeqno && !(e.seqno in db.events && db.events[e.seqno] == e)
    ensures AppendEvent(db, e).Err?
  {
  }

  lemma IngestDurableIff(h: Handle, s: Session, e: Committed, sc: ProcessScript)
    requires Sane(h) && Live(h) && h.session == Some(s)
    requires VerifyCommit(e, h.db.roomKey, s.genesis.nodeKey).Ok?
    ensures Ingest(h, s, e, sc).durable <==> e in RowsInOrder(Ingest(h, s, e, sc).after.db)
  {
    hide RowsInOrder, VerifyCommit, Apply, Announce, Extends;
    IngestKeeps(h, s, e, sc);
    RoomOfLive(h, s);
    StoredAt(h.db, e);
    if e.seqno <= h.db.headSeqno + 1 {
      NextGoesIn(h, s, e, sc);
      if e in RowsInOrder(h.db) {
        StoredIsProcessedAgain(h, s, e, sc);
      } else if Extends(s.genesis, RowsInOrder(h.db), e) {
        NextIsProcessed(h, s, e, sc);
      } else {
        OtherIsUnchanged(h, s, e, sc);
      }
    } else {
      FarIsRefused(h, s, e, sc);
    }
  }

  lemma FarIsRefused(h: Handle, s: Session, e: Committed, sc: ProcessScript)
    requires e.seqno > h.db.headSeqno + 1
    ensures !Ingest(h, s, e, sc).durable && Ingest(h, s, e, sc).after == h
  {
  }

  /** Processing is durable exactly if it was over the current session and the event
      is stored afterwards, a repair that stopped on the way included. */
  lemma DurableIffStored(h: Handle, s: Session, e: Committed, sc: ProcessScript)
    requires Sane(h) && Live(h)
    ensures ProcessCanonical(h, s, e, sc).durable
            <==> h.session == Some(s) && e in RowsInOrder(ProcessCanonical(h, s, e, sc).after.db)
  {
    hide RowsInOrder, VerifyCommit, Ingest, SyncSession, HasEvent, Healthy, NotifiedInOrder;
    if h.session == Some(s) {
      UnverifiedIsNotStored(h, s, e);
      if VerifyCommit(e, h.db.roomKey, s.genesis.nodeKey).Ok? {
        if e.seqno > h.db.headSeqno + 1 {
          SyncKeeps(h, s, sc.sync);
          var mid := SyncSession(h, s, sc.sync).after;
          HasEventIff(mid.db, e);
          if SyncSession(h, s, sc.sync).ok { IngestDurableIff(mid, s, e, sc); }
        } else {
          IngestDurableIff(h, s, e, sc);
        }
      }
    }
  }

  lemma UnverifiedIsNotStored(h: Handle, s: Session, e: Committed)
    requires Sane(h) && Live(h) && h.session == Some(s)
    ensures e in RowsInOrder(h.db) ==> VerifyCommit(e, h.db.roomKey, s.genesis.nodeKey).Ok?
  {
    RoomOfLive(h, s);
    FoldDescribes(s.genesis, RowsInOrder(h.db));
  }

  /** Whatever its distance, an event of the log becomes durable over a live session:
      a gap before it is repaired by an honest peer. */
  lemma LogEventIsDurable(h: Handle, s: Session, e: Committed, sc: ProcessScript, log: seq<Committed>)
    requires Sane(h) && Live(h) && h.session == Some(s) && RowsInOrder(h.db) <= log && e in log
    requires Replays(s.genesis, log) && UniqueIds(log)
    requires |RowsInOrder(h.db)| + 1 < e.seqno ==>
               VerifyGenesis(s.genesis, sc.sync.now) && Serving(sc.sync, s.genesis, log, |RowsInOrder(h.db)|)
    ensures var r, rows := ProcessCanonical(h, s, e, sc), RowsInOrder(h.db);
            && r.durable && r.fault == NoFault && RowsInOrder(r.after.db) <= log
            && (e.seqno > |rows| + 1 ==>
                  && r.ok && RowsInOrder(r.after.db) == log && r.after.session == Some(s)
                  && r.after.notified == h.notified + Numbers(|rows|, |log|))
  {
    hide RowsInOrder, VerifyCommit, Apply, Ingest, SyncSession, HasEvent, Healthy, NotifiedInOrder, CaughtUp, Serving;
    hide Advances;
    var rows := RowsInOrder(h.db);
    RoomOfLive(h, s);
    PlaceInLog(s.genesis, log, e);
    if e.seqno <= |rows| {
      assert rows[e.seqno - 1] == e;
      StoredIsProcessedAgain(h, s, e, sc);
      SameRows(h.db, h.db.(pending := Receipted(h.db.pending, e)));
    } else if e.seqno == |rows| + 1 {
      NextOfLogExtends(s.genesis, log, |rows|);
      assert log[..|rows|] == rows && log[..|rows| + 1] == rows + [e];
      NextIsProcessed(h, s, e, sc);
      AdvancesStores(h, s, e, sc, ProcessCanonical(h, s, e, sc));
    } else {
      GapIsRepaired(h, s, e, sc, log);
    }
  }

  lemma AdvancesStores(h: Handle, s: Session, e: Committed, sc: ProcessScript, r: Processed)
    requires Replays(s.genesis, RowsInOrder(h.db) + [e]) && Advances(h, s, e, sc, r)
    ensures r.durable && r.fault == NoFault && RowsInOrder(r.after.db) == RowsInOrder(h.db) + [e]
  {
  }

  lemma PlaceInLog(g: Genesis, log: seq<Committed>, e: Committed)
    requires ValidGenesis(g) && Replays(g, log) && e in log
    ensures 1 <= e.seqno <= |log| && log[e.seqno - 1] == e && VerifyCommit(e, g.roomKey, g.nodeKey).Ok?
  {
    FoldDescribes(g, log);
    var i :| 0 <= i < |log| && log[i] == e;
    assert log[i].seqno == i + 1;
  }

  lemma NextOfLogExtends(g: Genesis, log: seq<Committed>, n: nat)
    requires Replays(g, log) && UniqueIds(log) && n < |log|
    ensures Replays(g, log[..n]) && Extends(g, log[..n], log[n])
  {
    hide Apply;
    FoldPrefix(g, log, n);
    FoldPrefix(g, log, n + 1);
    assert log[..n + 1] == log[..n] + [log[n]];
    FoldAppend(g, log[..n], log[n]);
  }

  lemma GapIsRepaired(h: Handle, s: Session, e: Committed, sc: ProcessScript, log: seq<Committed>)
    requires Sane(h) && Live(h) && h.session == Some(s) && RowsInOrder(h.db) <= log && e in log
    requires e.seqno > h.db.headSeqno + 1 && VerifyGenesis(s.genesis, sc.sync.now)
    requires VerifyCommit(e, h.db.roomKey, s.genesis.nodeKey).Ok?
    requires Serving(sc.sync, s.genesis, log, |RowsInOrder(h.db)|)
    ensures var r := ProcessCanonical(h, s, e, sc);
            && r.durable && r.ok && r.fault == NoFault && RowsInOrder(r.after.db) == log && r.after.session == Some(s)
            && r.after.notified == h.notified + Numbers(|RowsInOrder(h.db)|, |log|)
  {
    hide RowsInOrder, VerifyCommit, SyncSession, Healthy, NotifiedInOrder, Serving;
    RoomOfLive(h, s);
    HonestSyncCatchesUp(h, s, sc.sync, log);
    var mid := SyncSession(h, s, sc.sync).after;
    StoredAgainAfterRepair(mid, s, e, sc);
    SameRows(mid.db, mid.db.(pending := Receipted(mid.db.pending, e)));
  }

  lemma StoredAgainAfterRepair(h: Handle, s: Session, e: Committed, sc: ProcessScript)
    requires Sane(h) && Live(h) && h.session == Some(s) && e in RowsInOrder(h.db)
    ensures Ingest(h, s, e, sc)
            == Processed(true, true, NoFault, h.(db := h.db.(pending := Receipted(h.db.pending, e))))
  {
    StoredIsProcessedAgain(h, s, e, sc);
    StoredAt(h.db, e);
    UnverifiedIsNotStored(h, s, e);
    NextGoesIn(h, s, e, sc);
  }
}
