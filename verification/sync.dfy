// Catching a replica up: the paging loop of a relay's synchronization and of a
// replica's first download, the checks that follow it, and a relay taking one
// event. The peers answer as they like, except that commits under the room key
// come from the sequencer's log.
module Sync {
  import opened Wrappers
  import opened Community
  import opened Replay
  import opened Tables
  import opened Refinement
  import opened Auditing
  import opened Replica
  import opened Stores
  import opened Pages

  /** A peer's answers by query number. It answers at most `patience` page queries
      of one synchronization before the connection is given up. */
  datatype Peer = Peer(
    pages: (nat, int) -> Option<Page>, states: nat -> Option<RoomState>, patience: nat, healthy: bool)

  ghost predicate Unforged(peer: Peer, roomKey: Key, log: seq<Committed>) {
    forall k: nat, after: int, e ::
      peer.pages(k, after).Some? && e in peer.pages(k, after).value.events ==> Genuine(e, roomKey, log)
  }

  /** The peer holds the log under a covering state and answers every query. */
  ghost predicate Honest(peer: Peer, g: Genesis, log: seq<Committed>) {
    && Replays(g, log) && UniqueIds(log)
    && (forall k: nat, after: nat :: after <= |log| ==>
          peer.pages(k, after) == Some(PageOf(log, after, MAX_PAGE_LIMIT)))
    && (forall k: nat :: peer.states(k).Some? && StateMatches(Projected(g, log), peer.states(k).value))
    && peer.patience > |log| && peer.healthy
  }

  /** A store that stands for the log answers page queries as an honest peer does. */
  method AnswerPage(source: Store, after: nat, ghost log: seq<Committed>) returns (page: Page)
    requires source.db.Some? && source.db.value.events == EventTable(log)
    ensures page == PageOf(log, after, MAX_PAGE_LIMIT)
  {
    var answer := source.Events(after, MAX_PAGE_LIMIT);
    return answer.value;
  }

  /** The tables stand for the first `h` events of the log. */
  ghost predicate At(t: Tables, g: Genesis, log: seq<Committed>, h: nat) {
    h <= |log| && t.genesis == g && Represents(t, log[..h])
  }

  // ---- What a synchronization does with any answers ---------------------

  datatype Effect = Effect(ok: bool, after: Tables)

  /** The events of one page in order, up to the first refusal. */
  function TakeAll(t: Tables, events: seq<Committed>): Effect {
    if events == [] then Effect(true, t)
    else
      var r := TakeAll(t, events[..|events| - 1]);
      if !r.ok then r
      else
        match AppendTx(r.after, events[|events| - 1])
        case Ok(a) => Effect(true, a.after)
        case Err(_) => Effect(false, r.after)
  }

  /** Page queries from the head on, until a page is the last one. */
  function Paged(t: Tables, peer: Peer, number: nat, left: nat): Effect
    decreases left
  {
    if left == 0 || peer.pages(number, t.head.seqno).None? then Effect(false, t)
    else
      var page := peer.pages(number, t.head.seqno).value;
      var r := TakeAll(t, page.events);
      if !r.ok || !page.hasMore then r
      else if page.events == [] then Effect(false, r.after)
      else Paged(r.after, peer, number + 1, left - 1)
  }

  ghost function StateTaken(t: Tables, peer: Peer, number: nat): Effect {
    match peer.states(number)
    case None => Effect(false, t)
    case Some(s) => (match InstallTx(t, s) case Ok(after) => Effect(true, after) case Err(_) => Effect(false, t))
  }

  ghost function Synchronized(t: Tables, peer: Peer, number: nat): Effect {
    var r := Paged(t, peer, number, peer.patience);
    if r.ok then StateTaken(r.after, peer, number) else r
  }

  /** Nothing comes of asking this peer to synchronize. */
  ghost predicate Fails(t: Tables, peer: Peer, number: nat) {
    !peer.healthy || !Synchronized(t, peer, number).ok
  }

  // ---- One event --------------------------------------------------------

  /** The next event of a log is always inserted by a replica of its prefix. */
  lemma NextIsInserted(t: Tables, log: seq<Committed>, h: nat)
    requires h < |log| && Represents(t, log[..h])
    requires Replays(t.genesis, log) && UniqueIds(log)
    ensures AppendTx(t, log[h]).Ok? && AppendTx(t, log[h]).value.inserted
    ensures Represents(AppendTx(t, log[h]).value.after, log[..h + 1])
    ensures AppendTx(t, log[h]).value.after.genesis == t.genesis
  {
    NextOfReplayable(t, t.genesis, log, h);
    assert log[..h + 1] == log[..h] + [log[h]];
    AppendRefinesApply(t, log[..h], log[h], AppendTx(t, log[h]).value.after);
  }

  /** What appending one event of the log does to a replica of a prefix. */
  lemma AppendOfLog(t: Tables, g: Genesis, log: seq<Committed>, h: nat, e: Committed)
    requires At(t, g, log, h) && e in log && Chained(log) && Replays(g, log) && UniqueIds(log)
    ensures e.seqno <= h ==> AppendTx(t, e) == Ok(Appended(false, t))
    ensures e.seqno == h + 1 ==>
              AppendTx(t, e).Ok? && AppendTx(t, e).value.inserted && At(AppendTx(t, e).value.after, g, log, h + 1)
    ensures e.seqno > h + 1 ==> AppendTx(t, e) == Err(Gap)
  {
    var i :| 0 <= i < |log| && log[i] == e;
    assert e.seqno == i + 1;
    FoldDescribes(g, log);
    if i < h {
      assert t.events[e.seqno] == RowOf(Nth(log[..h], e.seqno));
    } else if i == h {
      NextIsInserted(t, log, h);
    }
  }

  lemma AcceptedIsSigned(t: Tables, e: Committed)
    requires AppendTx(t, e).Ok?
    ensures e.signature == By(t.genesis.roomKey)
  {
  }

  /** Offer one event, whoever sent it. */
  method TakeOne(local: Store, e: Committed, ghost g: Genesis, ghost log: seq<Committed>, ghost h: nat)
    returns (r: Result<bool, AppendError>)
    requires local.db.Some? && At(local.db.value, g, log, h)
    requires Chained(log) && Replays(g, log) && UniqueIds(log) && Genuine(e, g.roomKey, log)
    modifies local
    ensures local.db.Some?
    ensures r.Err? ==> local.db == old(local.db)
    ensures r.Ok? ==> e in log && e.seqno <= h + 1 && At(local.db.value, g, log, if r.value then h + 1 else h)
    ensures r.Ok? ==> (r.value <==> e.seqno == h + 1)
    ensures r.Ok? <==> AppendTx(old(local.db.value), e).Ok?
    ensures r.Ok? ==> local.db.value == AppendTx(old(local.db.value), e).value.after
    ensures r.Ok? && !r.value ==> local.db == old(local.db)
    ensures e in log && e.seqno <= h + 1 ==> r.Ok?
  {
    if AppendTx(local.db.value, e).Ok? { AcceptedIsSigned(local.db.value, e); }
    ghost var t := local.db.value;
    assert t.genesis == g;
    hide At, Replays, UniqueIds, Chained;
    if e in log { AppendOfLog(t, g, log, h, e); }
    r := local.AppendReplica(e);
  }

  // ---- The paging loop --------------------------------------------------

  /** Append one page in order, up to the first refusal. */
  method AppendPage(local: Store, events: seq<Committed>, ghost g: Genesis, ghost log: seq<Committed>, ghost h: nat)
    returns (ok: bool, ghost reached: nat)
    requires local.db.Some? && At(local.db.value, g, log, h)
    requires Chained(log) && Replays(g, log) && UniqueIds(log)
    requires forall e :: e in events ==> Genuine(e, g.roomKey, log)
    modifies local
    ensures local.db.Some? && At(local.db.value, g, log, reached) && h <= reached
    ensures h + |events| <= |log| && events == log[h..h + |events|] ==> ok && reached == h + |events|
    ensures Effect(ok, local.db.value) == TakeAll(old(local.db).value, events)
  {
    hide At, Replays, UniqueIds, AppendTx, TakeAll;
    reached := h;
    ghost var start := local.db.value;
    TakeNone(start, events);
    for k := 0 to |events|
      invariant local.db.Some? && At(local.db.value, g, log, reached) && h <= reached
      invariant h + |events| <= |log| && events == log[h..h + |events|] ==> reached == h + k
      invariant TakeAll(start, events[..k]) == Effect(true, local.db.value)
    {
      if h + |events| <= |log| && events == log[h..h + |events|] {
        assert events[k] == log[h + k] && log[h + k].seqno == h + k + 1;
      }
      TakeNext(start, events, k);
      var taken := TakeOne(local, events[k], g, log, reached);
      if taken.Err? {
        return false, reached;
      }
      if taken.value { reached := reached + 1; }
    }
    assert events[..|events|] == events;
    return true, reached;
  }

  lemma TakeNone(t: Tables, events: seq<Committed>)
    ensures TakeAll(t, events[..0]) == Effect(true, t)
  {
  }

  lemma TakeNext(t: Tables, events: seq<Committed>, k: nat)
    requires k < |events| && TakeAll(t, events[..k]).ok
    ensures match AppendTx(TakeAll(t, events[..k]).after, events[k])
            case Ok(a) => TakeAll(t, events[..k + 1]) == Effect(true, a.after)
            case Err(_) => TakeAll(t, events) == Effect(false, TakeAll(t, events[..k]).after)
  {
    hide AppendTx;
    assert events[..k + 1][..k] == events[..k];
    if AppendTx(TakeAll(t, events[..k]).after, events[k]).Err? { TakeStops(t, events, k + 1); }
  }

  lemma {:induction false} TakeStops(t: Tables, events: seq<Committed>, k: nat)
    requires k <= |events| && !TakeAll(t, events[..k]).ok
    ensures TakeAll(t, events) == TakeAll(t, events[..k])
    decreases |events|
  {
    hide AppendTx;
    if k == |events| {
      assert events[..k] == events;
    } else {
      var front := events[..|events| - 1];
      assert front[..k] == events[..k];
      TakeStops(t, front, k);
    }
  }

  method HeadSeqno(local: Store, ghost g: Genesis, ghost log: seq<Committed>, ghost h: nat) returns (head: int)
    requires local.db.Some? && At(local.db.value, g, log, h)
    ensures head == h <= |log| && head == local.db.value.head.seqno
  {
    return local.db.value.head.seqno;
  }

  lemma HonestPage(peer: Peer, g: Genesis, log: seq<Committed>, k: nat, after: nat)
    requires Honest(peer, g, log) && after <= |log|
    ensures peer.pages(k, after).Some? && peer.patience > |log|
    ensures var page := peer.pages(k, after).value;
            && after + |page.events| <= |log| && page.events == log[after..after + |page.events|]
            && (!page.hasMore ==> after + |page.events| == |log|) && (page.hasMore ==> page.events != [])
  {
    assert peer.pages(k, after) == Some(PageOf(log, after, MAX_PAGE_LIMIT));
  }

  lemma PageIsGenuine(peer: Peer, roomKey: Key, log: seq<Committed>, k: nat, after: int)
    requires Unforged(peer, roomKey, log) && peer.pages(k, after).Some?
    ensures forall e :: e in peer.pages(k, after).value.events ==> Genuine(e, roomKey, log)
  {
  }

  /** Whatever the peer answers, the replica keeps a prefix of the sequencer's log
      and never loses an event; against an honest peer it ends with the whole log,
      from any prefix and whatever the page boundary. */
  method DownloadEvents(local: Store, peer: Peer, first: nat, ghost g: Genesis, ghost log: seq<Committed>, ghost h: nat)
    returns (ok: bool, ghost reached: nat)
    requires local.db.Some? && At(local.db.value, g, log, h)
    requires Chained(log) && Replays(g, log) && UniqueIds(log) && Unforged(peer, g.roomKey, log)
    modifies local
    ensures local.db.Some? && At(local.db.value, g, log, reached) && h <= reached
    ensures Honest(peer, g, log) ==> ok && reached == |log|
    ensures Effect(ok, local.db.value) == Paged(old(local.db).value, peer, first, peer.patience)
  {
    hide At, Replays, UniqueIds, Chained, Unforged, Honest, TakeAll;
    reached := h;
    ghost var start := local.db.value;
    var head := HeadSeqno(local, g, log, reached);
    var k := 0;
    while k < peer.patience
      invariant local.db.Some? && At(local.db.value, g, log, reached) && h <= reached == head <= |log|
      invariant Honest(peer, g, log) ==> k <= reached - h
      invariant k <= peer.patience && head == local.db.value.head.seqno
      invariant Paged(start, peer, first, peer.patience)
                == Paged(local.db.value, peer, first + k, peer.patience - k)
    {
      if Honest(peer, g, log) { HonestPage(peer, g, log, first + k, head); }
      var page := peer.pages(first + k, head);
      if page.None? {
        return false, reached;
      }
      PageIsGenuine(peer, g.roomKey, log, first + k, head);
      ok, reached := AppendPage(local, page.value.events, g, log, reached);
      head := HeadSeqno(local, g, log, reached);
      if !ok {
        return false, reached;
      }
      if !page.value.hasMore {
        return true, reached;
      }
      if page.value.events == [] {
        return false, reached;
      }
      k := k + 1;
    }
    if Honest(peer, g, log) { HonestPage(peer, g, log, 0, 0); }
    return false, reached;
  }

  // ---- The signed state -------------------------------------------------

  /** A covering state of the same log is always installed, and then covers. */
  lemma CoveringStateInstalls(t: Tables, s: RoomState, log: seq<Committed>)
    requires Represents(t, log) && StateMatches(Projected(t.genesis, log), s)
    ensures InstallTx(t, s).Ok?
    ensures Represents(InstallTx(t, s).value, log) && Covered(InstallTx(t, s).value, log)
    ensures InstallTx(t, s).value.genesis == t.genesis
  {
    FoldDescribes(t.genesis, log);
    if s.revisionSeqno > 0 {
      assert t.events[s.revisionSeqno] == RowOf(Nth(log, s.revisionSeqno));
    }
    InstallKeepsLog(t, log, s);
  }

  lemma InstallStaysAt(t: Tables, g: Genesis, log: seq<Committed>, h: nat, s: RoomState)
    requires At(t, g, log, h) && InstallTx(t, s).Ok?
    ensures At(InstallTx(t, s).value, g, log, h)
  {
    InstallKeepsLog(t, log[..h], s);
  }

  /** A covering state of the whole log, when a replica of a prefix accepts it at
      all, makes the replica ready: the rest of the log is messages only. */
  lemma InstalledIsReady(t: Tables, s: RoomState, log: seq<Committed>, n: nat)
    requires n <= |log| && Represents(t, log[..n]) && Replays(t.genesis, log)
    requires StateMatches(Projected(t.genesis, log), s) && InstallTx(t, s).Ok?
    ensures ReadyTx(InstallTx(t, s).value) && Represents(InstallTx(t, s).value, log[..n])
    ensures InstallTx(t, s).value.genesis == t.genesis
  {
    InstallKeepsLog(t, log[..n], s);
    FoldDescribes(t.genesis, log);
    LatestChangeOfPrefix(log, n);
    hide InstallTx, Represents;
    ReadyMeaning(InstallTx(t, s).value, log[..n]);
  }

  lemma {:induction false} LatestChangeOfPrefix(log: seq<Committed>, n: nat)
    requires n <= |log| && LatestChange(log) <= n
    ensures LatestChange(log[..n]) == LatestChange(log)
  {
    if n == |log| {
      assert log[..n] == log;
    } else {
      LatestChangeOfPrefix(log[..|log| - 1], n);
      assert log[..|log| - 1][..n] == log[..n];
    }
  }

  lemma HonestState(peer: Peer, g: Genesis, log: seq<Committed>, k: nat)
    requires Honest(peer, g, log)
    ensures peer.states(k).Some? && StateMatches(Projected(g, log), peer.states(k).value)
  {
  }

  /** Install the peer's signed state if it agrees with the stored events. */
  method InstallStateFromPeer(local: Store, peer: Peer, number: nat, ghost g: Genesis, ghost log: seq<Committed>,
      ghost h: nat)
    returns (ok: bool)
    requires local.db.Some? && At(local.db.value, g, log, h) && Replays(g, log)
    modifies local
    ensures local.db.Some? && At(local.db.value, g, log, h)
    ensures !ok ==> local.db == old(local.db)
    ensures Honest(peer, g, log) && ok ==> ReadyTx(local.db.value)
    ensures Honest(peer, g, log) && h == |log| ==>
              ok && Represents(local.db.value, log) && Covered(local.db.value, log)
    ensures Effect(ok, local.db.value) == StateTaken(old(local.db).value, peer, number)
  {
    ghost var t := local.db.value;
    if Honest(peer, g, log) { HonestState(peer, g, log, number); }
    var answer := peer.states(number);
    if answer.None? {
      return false;
    }
    if InstallTx(t, answer.value).Ok? { InstallStaysAt(t, g, log, h, answer.value); }
    if Honest(peer, g, log) { InstalledHonestly(t, g, log, h, answer.value); }
    hide Honest, InstallTx, ReadyTx, Covered, Represents;
    var installed := local.InstallReplicaState(answer.value);
    return installed.Ok?;
  }

  lemma InstalledHonestly(t: Tables, g: Genesis, log: seq<Committed>, h: nat, s: RoomState)
    requires At(t, g, log, h) && Replays(g, log) && StateMatches(Projected(g, log), s)
    ensures InstallTx(t, s).Ok? ==> ReadyTx(InstallTx(t, s).value)
    ensures h == |log| ==>
              InstallTx(t, s).Ok? && Represents(InstallTx(t, s).value, log) && Covered(InstallTx(t, s).value, log)
  {
    hide InstallTx, ReadyTx, StateMatches;
    if InstallTx(t, s).Ok? { InstalledIsReady(t, s, log, h); }
    if h == |log| {
      assert log[..h] == log;
      CoveringStateInstalls(t, s, log);
    }
  }

  // ---- Whole synchronizations -------------------------------------------

  /** All pages, then the signed state. */
  method SyncReplicaLocked(local: Store, peer: Peer, first: nat, ghost g: Genesis, ghost log: seq<Committed>,
      ghost h: nat)
    returns (ok: bool, ghost reached: nat)
    requires local.db.Some? && At(local.db.value, g, log, h)
    requires Chained(log) && Replays(g, log) && UniqueIds(log) && Unforged(peer, g.roomKey, log)
    modifies local
    ensures local.db.Some? && At(local.db.value, g, log, reached) && h <= reached
    ensures Honest(peer, g, log) ==>
              ok && reached == |log| && Represents(local.db.value, log) && Covered(local.db.value, log)
              && ReadyTx(local.db.value)
    ensures Effect(ok, local.db.value) == Synchronized(old(local.db).value, peer, first)
  {
    hide At, Honest, Covered, Represents, ReadyTx, Replays, UniqueIds, Unforged, Chained, Paged, StateTaken;
    ok, reached := DownloadEvents(local, peer, first, g, log, h);
    if ok {
      ok := InstallStateFromPeer(local, peer, first, g, log, reached);
    }
  }

  /** A replica's first download, from any peer: success means ready and passing the
      audit, over a prefix of the sequencer's log. An honest peer makes it succeed
      with the whole log. */
  method SyncReplica(local: Store, peer: Peer, now: Instant, ghost g: Genesis, ghost log: seq<Committed>, ghost h: nat)
    returns (ok: bool, ghost reached: nat)
    requires local.db.Some? && At(local.db.value, g, log, h)
    requires Chained(log) && Replays(g, log) && UniqueIds(log) && Unforged(peer, g.roomKey, log)
    modifies local
    ensures local.db.Some? && At(local.db.value, g, log, reached) && h <= reached
    ensures ok ==> ReadyTx(local.db.value) && Sound(local.db.value, now)
    ensures Honest(peer, g, log) && VerifyGenesis(g, now) ==>
              ok && reached == |log| && Covered(local.db.value, log[..reached])
  {
    hide Honest, ReadyTx, Unforged, Sound;
    ok, reached := SyncReplicaLocked(local, peer, 0, g, log, h);
    if !ok {
      return false, reached;
    }
    var ready := local.ReplicaReady();
    if !ready {
      return false, reached;
    }
    if Honest(peer, g, log) && VerifyGenesis(g, now) {
      assert log[..reached] == log;
      CoveredIsReady(local.db.value, log, now);
    }
    ok := local.Audit(now);
  }

  lemma CoveredIsReady(t: Tables, log: seq<Committed>, now: Instant)
    requires Represents(t, log) && Covered(t, log) && VerifyGenesis(t.genesis, now)
    ensures ReadyTx(t) && Sound(t, now)
  {
    FoldDescribes(t.genesis, log);
    ReadyMeaning(t, log);
    SoundIffCovered(t, log, now);
  }

  /** Synchronize from the source, if it is healthy, and otherwise, or when that
      fails, from the sequencer, if it is another peer and healthy. */
  method SyncReplicaFromPeers(local: Store, source: Peer, sequencer: Option<Peer>, first: nat,
                              ghost g: Genesis, ghost log: seq<Committed>, ghost h: nat)
    returns (ok: bool, ghost reached: nat)
    requires local.db.Some? && At(local.db.value, g, log, h)
    requires Chained(log) && Replays(g, log) && UniqueIds(log) && Unforged(source, g.roomKey, log)
    requires sequencer.Some? ==> Unforged(sequencer.value, g.roomKey, log)
    modifies local
    ensures local.db.Some? && At(local.db.value, g, log, reached) && h <= reached
    ensures Reliable(old(local.db).value, source, sequencer, first, g, log) ==>
              ok && reached == |log| && ReadyTx(local.db.value)
    ensures sequencer.Some? && Honest(sequencer.value, g, log) ==> ok
    ensures !Fails(old(local.db).value, source, first) ==>
              Effect(ok, local.db.value) == Synchronized(old(local.db).value, source, first)
    ensures sequencer.None? ==> (ok <==> !Fails(old(local.db).value, source, first))
  {
    hide At, Honest, Covered, Represents, ReadyTx, Replays, UniqueIds, Unforged, Chained, Synchronized;
    ok, reached := false, h;
    if source.healthy {
      ok, reached := SyncReplicaLocked(local, source, first, g, log, reached);
    }
    if !ok && sequencer.Some? {
      ok, reached := SyncReplicaLocked(local, sequencer.value, first + source.patience + 1, g, log, reached);
    }
  }

  /** The source is honest; or nothing comes of it, whatever it answers, and the
      sequencer is honest. */
  ghost predicate Reliable(t: Tables, source: Peer, sequencer: Option<Peer>, number: nat,
                           g: Genesis, log: seq<Committed>) {
    || (source.healthy && Honest(source, g, log))
    || (Fails(t, source, number) && sequencer.Some? && Honest(sequencer.value, g, log))
  }

  // ---- A relay taking one event -----------------------------------------

  /** The source gives no state that fits and cannot be synchronized from. */
  ghost predicate Unhelpful(t: Tables, source: Peer, number: nat) {
    !source.healthy || (!StateTaken(t, source, number).ok && !Synchronized(t, source, number + 1).ok)
  }

  /** The query after two whole synchronizations. */
  function Later(source: Peer): nat {
    2 * (source.patience + 1)
  }

  /** A relay taking one event from a source, or from its own query answer when
      there is none, repairing the gap before it. Success means that the event is
      stored. With an honest source every event of the log succeeds, and after a state
      change the replica is ready again; and so it is with an honest sequencer when
      nothing comes of the source, whatever that answers. */
  method PersistReplicaEvent(local: Store, source: Option<Peer>, sequencer: Option<Peer>, e: Committed,
                             ghost g: Genesis, ghost log: seq<Committed>, ghost h: nat)
    returns (ok: bool, ghost reached: nat)
    requires local.db.Some? && At(local.db.value, g, log, h)
    requires Chained(log) && Replays(g, log) && UniqueIds(log) && Genuine(e, g.roomKey, log)
    requires source.Some? ==> Unforged(source.value, g.roomKey, log)
    requires sequencer.Some? ==> Unforged(sequencer.value, g.roomKey, log)
    modifies local
    ensures local.db.Some? && At(local.db.value, g, log, reached) && h <= reached
    ensures ok ==> e in log && e.seqno <= reached
    ensures source.None? ==> (ok <==> AppendTx(old(local.db.value), e).Ok?)
    ensures source.Some? && source.value.healthy && Honest(source.value, g, log) && e in log ==>
              ok && (!IsMessage(e) ==> ReadyTx(local.db.value))
    ensures source.Some? && sequencer.Some? && Honest(sequencer.value, g, log) ==>
              && (AppendTx(old(local.db).value, e).Err? && e in log && Fails(old(local.db).value, source.value, 0) ==>
                    ok && reached == |log| && ReadyTx(local.db.value))
              && (AppendTx(old(local.db).value, e).Ok? ==>
                    && ok
                    && (var appended := AppendTx(old(local.db).value, e).value.after;
                        !IsMessage(e) && Unhelpful(appended, source.value, Later(source.value)) ==>
                          ReadyTx(local.db.value)))
  {
    hide At, Honest, Covered, Represents, ReadyTx, Replays, UniqueIds, Unforged, AppendTx, Unhelpful, Synchronized;
    reached := h;
    var appended := TakeOne(local, e, g, log, h);
    if appended.Err? {
      if source.None? {
        return false, reached;
      }
      ok, reached := SyncReplicaFromPeers(local, source.value, sequencer, 0, g, log, h);
      if !ok {
        return false, reached;
      }
      SeqnoWithin(log, e);
      appended := TakeOne(local, e, g, log, reached);
      if appended.Err? {
        return false, reached;
      }
    }
    if appended.value { reached := reached + 1; }
    if IsMessage(e) || source.None? {
      return true, reached;
    }
    ok, reached := StateAgain(local, source.value, sequencer, appended.value, g, log, reached);
    if !ok {
      return false, reached;
    }
  }

  lemma SeqnoWithin(log: seq<Committed>, e: Committed)
    requires Chained(log)
    ensures e in log ==> 1 <= e.seqno <= |log|
  {
    if e in log {
      var i :| 0 <= i < |log| && log[i] == e;
      assert log[i].seqno == i + 1;
    }
  }

  /** After a state change: nothing to do if it was known and covered; otherwise
      install the source's state, or synchronize if it does not fit yet. */
  method StateAgain(local: Store, source: Peer, sequencer: Option<Peer>, appended: bool,
                    ghost g: Genesis, ghost log: seq<Committed>, ghost h: nat)
    returns (ok: bool, ghost reached: nat)
    requires local.db.Some? && At(local.db.value, g, log, h)
    requires Chained(log) && Replays(g, log) && UniqueIds(log) && Unforged(source, g.roomKey, log)
    requires sequencer.Some? ==> Unforged(sequencer.value, g.roomKey, log)
    modifies local
    ensures local.db.Some? && At(local.db.value, g, log, reached) && h <= reached
    ensures !appended && ReadyTx(old(local.db).value) ==> ok && local.db == old(local.db) && reached == h
    ensures source.healthy && Honest(source, g, log) ==> ok && ReadyTx(local.db.value)
    ensures sequencer.Some? && Honest(sequencer.value, g, log) ==>
              ok && (Unhelpful(old(local.db).value, source, Later(source)) ==> ReadyTx(local.db.value))
  {
    hide At, Honest, Covered, Represents, ReadyTx, Replays, UniqueIds, Unforged, Chained, Synchronized, StateTaken;
    reached := h;
    var ready := local.ReplicaReady();
    if !appended && ready {
      return true, reached;
    }
    var number := Later(source);
    if source.healthy {
      var installed := InstallStateFromPeer(local, source, number, g, log, h);
      if installed {
        return true, reached;
      }
    }
    ok, reached := SyncReplicaFromPeers(local, source, sequencer, number + 1, g, log, h);
  }
}
