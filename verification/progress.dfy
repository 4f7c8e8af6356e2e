// Progress of a member: when a connection comes about and what it brings, and that
// no journaled operation is ever lost silently.
module Progressing {
  import opened Wrappers
  import opened Community
  import opened Replay
  import opened Refinement
  import opened ClientDbs
  import opened Rooms
  import opened Catchups
  import opened Members
  import opened Systems

  // ---- Connecting -------------------------------------------------------

  /** Exactly when an idle member ends up connected, and what it has then. */
  lemma ConnectSucceedsIff(c: Client, w: World, s: Session, sync: SyncScript, told: bool)
    requires WorldOk(w) && ClientOk(c, w) && c.h.session.None? && s.genesis == w.genesis
    ensures var after, rows := ConnectStep(c, s, sync, told), RowsInOrder(c.h.db);
            var events := EventsOf(sync.deliveries);
            && (after.h.session == Some(s) <==>
                  && told && VerifyGenesis(s.genesis, sync.now) && Undisturbed(sync.deliveries)
                  && sync.ending == Complete && Continues(s.genesis, rows, events)
                  && Closes(sync.finish, Projected(s.genesis, rows + events), |rows + events|))
            && (after.h.session == Some(s) ==>
                  && CaughtUp(after.h, s, rows + events, sync.finish.reply.value.state)
                  && after.h.notified == c.h.notified + Numbers(|rows|, |rows + events|))
            && (after.h.session != Some(s) ==> after.h.session.None?)
            && after == c.(h := after.h)
  {
    hide SyncSession, RowsInOrder, CaughtUp, Closes, Continues, Healthy, NotifiedInOrder, Undisturbed, EventsOf;
    var h := c.h.(session := Some(s));
    SyncSucceedsIff(h, s, sync);
    SyncKeeps(h, s, sync);
  }

  /** Over an honest session every member, whatever it has stored, catches up. */
  lemma HonestConnectCatchesUp(c: Client, w: World, s: Session, sync: SyncScript)
    requires WorldOk(w) && ClientOk(c, w) && c.h.session.None? && s.genesis == w.genesis
    requires VerifyGenesis(w.genesis, sync.now) && Serving(sync, w.genesis, w.log, |RowsInOrder(c.h.db)|)
    ensures Possible(c, w, Connect(s, sync, true))
    ensures var after := ConnectStep(c, s, sync, true);
            && CaughtUp(after.h, s, w.log, sync.finish.reply.value.state)
            && after.h.notified == c.h.notified + Numbers(|RowsInOrder(c.h.db)|, |w.log|)
            && after == c.(h := after.h)
  {
    hide SyncSession, RowsInOrder, CaughtUp, Closes, Healthy, NotifiedInOrder;
    HonestSyncCatchesUp(c.h.(session := Some(s)), s, sync, w.log);
    assert forall i :: 0 <= i < |sync.deliveries| ==> sync.deliveries[i].e in w.log;
  }

  /** In every reachable state a member without a session, new or old, that connects
      to an honest peer ends with the sequencer's whole log, live, and told once of
      every event it did not have. */
  lemma MemberCatchesUp(s: System, g: Genesis, c: nat, session: Session, sync: SyncScript)
    requires Reachable(s, g) && c in s.clients && s.clients[c].h.session.None?
    requires session.genesis == g && VerifyGenesis(g, sync.now)
    requires Serving(sync, g, s.log, |RowsInOrder(s.clients[c].h.db)|)
    ensures var after := Next(s, MemberMove(c, Connect(session, sync, true)));
            && after.log == s.log && c in after.clients
            && CaughtUp(after.clients[c].h, session, s.log, sync.finish.reply.value.state)
            && after.clients[c].h.notified
               == s.clients[c].h.notified + Numbers(|RowsInOrder(s.clients[c].h.db)|, |s.log|)
  {
    hide Reachable, ConnectStep, RowsInOrder, CaughtUp, Serving, ClientOk, RelayOk, Represents, Covered;
    ReachableInv(s, g);
    WorldIsOk(s);
    HonestConnectCatchesUp(s.clients[c], WorldOf(s), session, sync);
  }

  // ---- Receiving --------------------------------------------------------

  /** In every reachable state any event of the log reaches a connected member: one
      processing stores it, repairing a gap over an honest session, and tells the
      member of the events it stores. */
  lemma EventReachesMember(s: System, g: Genesis, c: nat, session: Session, e: Committed, sc: ProcessScript)
    requires Reachable(s, g) && c in s.clients && s.clients[c].ingest.Ready?
    requires s.clients[c].h.session == Some(session) && e in s.log
    requires forall d :: d in sc.sync.deliveries ==> d.e in s.log
    requires |RowsInOrder(s.clients[c].h.db)| + 1 < e.seqno ==>
               VerifyGenesis(g, sc.sync.now) && Serving(sc.sync, g, s.log, |RowsInOrder(s.clients[c].h.db)|)
    ensures var after, rows := Next(s, MemberMove(c, Process(session, e, sc))), RowsInOrder(s.clients[c].h.db);
            && c in after.clients && e in RowsInOrder(after.clients[c].h.db)
            && (e.seqno == |rows| + 1 ==>
                  after.clients[c].h.notified == s.clients[c].h.notified + (if sc.emitted then [e.seqno] else []))
            && (e.seqno > |rows| + 1 ==>
                  after.clients[c].h.notified == s.clients[c].h.notified + Numbers(|rows|, |s.log|))
            && (e.seqno <= |rows| ==> after.clients[c].h.notified == s.clients[c].h.notified)
  {
    hide Reachable, RowsInOrder, Serving, RelayOk, Represents, Covered, Rooms.ProcessCanonical, OutcomesOk, QueriesOk;
    hide Healthy, NotifiedInOrder;
    ReachableInv(s, g);
    WorldIsOk(s);
    ReadyIsLive(s.clients[c], WorldOf(s));
    EventIsProcessed(s.clients[c].h, WorldOf(s), session, e, sc);
  }

  lemma EventIsProcessed(h: Handle, w: World, s: Session, e: Committed, sc: ProcessScript)
    requires WorldOk(w) && HandleOk(h, w) && Live(h) && h.session == Some(s) && e in w.log
    requires |RowsInOrder(h.db)| + 1 < e.seqno ==>
               VerifyGenesis(w.genesis, sc.sync.now) && Serving(sc.sync, w.genesis, w.log, |RowsInOrder(h.db)|)
    ensures var r, rows := Rooms.ProcessCanonical(h, s, e, sc), RowsInOrder(h.db);
            && e in RowsInOrder(r.after.db)
            && (e.seqno == |rows| + 1 ==> r.after.notified == h.notified + (if sc.emitted then [e.seqno] else []))
            && (e.seqno > |rows| + 1 ==> r.after.notified == h.notified + Numbers(|rows|, |w.log|))
            && (e.seqno <= |rows| ==> r.after.notified == h.notified)
  {
    hide Rooms.ProcessCanonical, RowsInOrder, Serving, Healthy, NotifiedInOrder;
    var rows := RowsInOrder(h.db);
    SessionIsOfTheRoom(h, w, s);
    LogEventIsDurable(h, s, e, sc, w.log);
    DurableIffStored(h, s, e, sc);
    PlaceInLog(w.genesis, w.log, e);
    if e.seqno <= |rows| {
      assert rows[e.seqno - 1] == e;
      StoredIsProcessedAgain(h, s, e, sc);
    } else if e.seqno == |rows| + 1 {
      NextOfLogExtends(w.genesis, w.log, |rows|);
      assert w.log[..|rows|] == rows;
      NextIsProcessed(h, s, e, sc);
    }
  }

  lemma SessionIsOfTheRoom(h: Handle, w: World, s: Session)
    requires HandleOk(h, w) && Live(h) && h.session == Some(s)
    ensures s.genesis == w.genesis
  {
  }

  // ---- The journal over whole runs --------------------------------------

  predicate Discards(moves: seq<Move>, c: nat) {
    exists i :: 0 <= i < |moves| && moves[i] == MemberMove(c, Discard)
  }

  /** Member `c` has the operation in its journal, or was told what became of it, or
      has discarded it. */
  predicate Accounted(s: System, c: nat, p: Proposal, discarded: bool) {
    && c in s.clients
    && (IsPending(s.clients[c], p) || p in s.clients[c].succeeded || p in s.clients[c].rejected || discarded)
  }

  lemma MoveAccounts(s: System, m: Move, c: nat, p: Proposal)
    requires Inv(s) && c in s.clients && IsPending(s.clients[c], p)
    ensures Accounted(Next(s, m), c, p, m == MemberMove(c, Discard))
  {
    hide ClientOk, RelayOk, Represents, Covered, ClientStep, HandleSubmit, Possible;
    if m.MemberMove? && m.c == c && Enabled(s, m) {
      WorldIsOk(s);
      JournalIsNotLost(s.clients[c], WorldOf(s), m.a, p);
    }
  }

  /** A journaled operation stays in the journal, through crashes and reconnects,
      until the member is told its outcome or discards it. */
  lemma {:induction false} OperationIsAccountedFor(s: System, g: Genesis, moves: seq<Move>, c: nat, p: Proposal)
    requires Reachable(s, g) && c in s.clients && IsPending(s.clients[c], p)
    ensures Accounted(Run(s, moves), c, p, Discards(moves, c))
  {
    hide Next, Inv, Discards, Reachable, ClientOk;
    if moves == [] {
    } else {
      var front, m := moves[..|moves| - 1], moves[|moves| - 1];
      OperationIsAccountedFor(s, g, front, c, p);
      DiscardsGrown(front, m, c);
      assert moves == front + [m];
      ReachableOnward(s, g, front);
      ReachableInv(Run(s, front), g);
      MoveIsOnward(Run(s, front), m, c);
      if IsPending(Run(s, front).clients[c], p) { MoveAccounts(Run(s, front), m, c, p); }
    }
  }

  lemma DiscardsGrown(front: seq<Move>, m: Move, c: nat)
    ensures Discards(front + [m], c) <==> Discards(front, c) || m == MemberMove(c, Discard)
  {
    var moves := front + [m];
    assert moves[|front|] == m && forall i :: 0 <= i < |front| ==> moves[i] == front[i];
  }
}
