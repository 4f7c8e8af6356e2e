// Sending the journaled operation, as the submitting thread does it: one method
// over the handle and its database, proved equal to the steps of the member's
// state machine taken one after another.
module Pending {
  import opened Wrappers
  import opened Community
  import opened Replay
  import opened ClientDbs
  import opened Rooms
  import opened Members
  import opened Handles

  datatype Outcome = Sent(e: Committed) | Rejected(code: int) | Uncertain | ProtocolError

  /** What the environment does to one attempt: the answer to the query, if any,
      whether the ingest queue takes the event, and whether the final delete of the
      row goes through. */
  datatype Attempt = Attempt(reply: Option<Answer>, queued: bool, cleared: bool)

  /** An event that the ingest loop takes while the query is out. */
  datatype Queued = Queued(s: Session, e: Committed, sc: ProcessScript)

  /** The ingest loop working through a queue, closing the session of each event it
      fails on. */
  ghost function Meanwhile(c: Client, queue: seq<Queued>): Client {
    if queue == [] then c
    else
      var q := queue[|queue| - 1];
      CloseStep(ProcessStep(Meanwhile(c, queue[..|queue| - 1]), q.s, q.e, q.sc))
  }

  /** The same attempt as a chain of steps: send, let the ingest loop work, receive
      or lose, offer and let the ingest loop close the session of a failed event,
      clear. */
  ghost function StepsOf(c: Client, a: Attempt, queue: seq<Queued>, sc: ProcessScript): Client {
    var sent := SendStep(c);
    var answered :=
      match sent.submit
      case Waiting(p, s, first, q) =>
        var mid := Meanwhile(sent, queue);
        (match a.reply case None => LoseStep(mid) case Some(r) => AnswerStep(mid, p, s, first && q.Some?, r))
      case _ => sent;
    Taken(answered, a, sc)
  }

  ghost function Taken(c: Client, a: Attempt, sc: ProcessScript): Client {
    if !c.submit.Offering? then c
    else if !a.queued then AbandonStep(c)
    else
      var offered := CloseStep(OfferStep(c, sc));
      if !offered.submit.Durable? then offered
      else if a.cleared then ClearStep(offered) else offered.(submit := Quiet)
  }

  /** The handle once the event has been processed: closed on an error, and the row
      cleared after a durable result. */
  function AfterProcessing(r: Processed, s: Session, p: Proposal, cleared: bool): Handle {
    var h := if r.ok && r.durable then r.after else Disconnected(r.after, s);
    if r.durable && cleared then h.(db := ClearPending(h.db, p)) else h
  }

  lemma TakenByProcessing(c: Client, s: Session, p: Proposal, e: Committed, a: Attempt, sc: ProcessScript)
    requires c.ingest.Ready? && e.proposal == p && a.queued
    ensures Taken(Settle(c, p, s, e), a, sc).h
            == AfterProcessing(Rooms.ProcessCanonical(c.h, s, e, sc), s, p, a.cleared)
  {
    hide Rooms.ProcessCanonical;
  }

  predicate Unsendable(j: Journal, key: Key, s: Session, p: Proposal) {
    j.genesisHash != GenesisHash(s.genesis) || p.author != key || VerifyAt(p, s.genesis.nodeKey).Err?
  }

  /** An attempt that sends nothing: a row for another genesis, identity or node, or
      one that has its receipt already. */
  lemma WithoutSending(c: Client, a: Attempt, queue: seq<Queued>, sc: ProcessScript, s: Session, p: Proposal,
      first: bool)
    requires Holding(c, c.key, c.h, s, p, first)
    ensures Unsendable(c.h.db.pending.value, c.key, s, p) ==> StepsOf(c, a, queue, sc).h == c.h
    ensures !Unsendable(c.h.db.pending.value, c.key, s, p) && Receipt(c).Some? ==>
              StepsOf(c, a, queue, sc) == Taken(Settle(c, p, s, Receipt(c).value), a, sc)
  {
    hide VerifyAt, OfferStep, AbandonStep, ClearStep, CloseStep, Meanwhile;
  }

  /** The query is out. */
  lemma SendingAsks(c: Client, s: Session, p: Proposal, first: bool)
    requires Holding(c, c.key, c.h, s, p, first) && !Unsendable(c.h.db.pending.value, c.key, s, p) && Receipt(c).None?
    ensures SendStep(c).h == c.h && SendStep(c).ingest.Ready?
    ensures SendStep(c).submit.Waiting? && SendStep(c).submit.p == p && SendStep(c).submit.s == s
    ensures SendStep(c).submit.first == first && (SendStep(c).submit.query.Some? <==> Direct(s))
  {
    hide VerifyAt;
  }

  /** What each answer leads to, with the receipt the ingest loop may have written
      meanwhile. */
  lemma ByAnswer(c: Client, mid: Client, a: Attempt, queue: seq<Queued>, sc: ProcessScript, s: Session,
      p: Proposal, first: bool)
    requires SendStep(c).submit.Waiting? && SendStep(c).submit.p == p && SendStep(c).submit.s == s
    requires SendStep(c).submit.first == first && (SendStep(c).submit.query.Some? <==> Direct(s))
    requires mid == Meanwhile(SendStep(c), queue) && mid.submit == SendStep(c).submit
    ensures match a.reply
            case None =>
              if Receipt(mid).Some? then StepsOf(c, a, queue, sc) == Taken(Settle(mid, p, s, Receipt(mid).value), a, sc)
              else StepsOf(c, a, queue, sc).h == mid.h
            case Some(Accept(e)) => StepsOf(c, a, queue, sc) == Taken(Settle(mid, p, s, e), a, sc)
            case Some(Repeat(e)) => StepsOf(c, a, queue, sc) == Taken(Settle(mid, p, s, e), a, sc)
            case Some(Reject(code)) =>
              if !KnownCode(code) then StepsOf(c, a, queue, sc).h == Disconnected(mid.h, s)
              else if Receipt(mid).Some? then StepsOf(c, a, queue, sc)
                  == Taken(Settle(mid, p, s, Receipt(mid).value), a, sc)
              else StepsOf(c, a, queue, sc).h ==
                     if first && Direct(s) && Definitive(code) then mid.h.(db := ClearPending(mid.h.db, p)) else mid.h
  {
    hide SendStep, Meanwhile, VerifyAt, OfferStep, AbandonStep, ClearStep, CloseStep, Settle, Definitive, KnownCode;
  }

  lemma NotTaken(c: Client, s: Session, p: Proposal, e: Committed, a: Attempt, sc: ProcessScript)
    requires e.proposal != p || !a.queued
    ensures Taken(Settle(c, p, s, e), a, sc).h == Disconnected(c.h, s)
  {
  }

  /** The journal row of the operation, as the thread holds it. */
  ghost predicate Holding(c: Client, key: Key, h: Handle, s: Session, p: Proposal, first: bool) {
    c.key == key && c.h == h && c.ingest.Ready? && c.submit == Saved(p, s, first) && IsPending(c, p)
  }

  class Submitter {
    const handle: RoomHandle

    constructor (handle: RoomHandle)
      ensures this.handle == handle
    {
      this.handle := handle;
    }

    method CloseSessionIf(s: Session)
      requires handle.Valid()
      modifies handle`session
      ensures handle.Valid() && handle.View() == Disconnected(old(handle.View()), s)
    {
      if handle.session == Some(s) {
        handle.session := None;
      }
    }

    /** Ingest the event of an answer and clear the row once it is stored. */
    method Finish(s: Session, p: Proposal, e: Committed, a: Attempt, sc: ProcessScript, answers: Answers,
                  ghost log: seq<Committed>, ghost c: Client)
      returns (o: Outcome, ghost trace: ProcessScript)
      requires handle.Valid() && Sane(handle.View()) && Live(handle.View())
      requires RowsInOrder(handle.store.db) <= log && Chained(log)
      requires s.genesis.roomKey == handle.store.db.roomKey && Unforged(answers, s.genesis.roomKey, log)
      requires c.h == handle.View() && c.ingest.Ready? && IsPending(c, p)
      modifies handle, handle.store, if handle.projection.Some? then {handle.projection.value} else {}
      ensures handle.Valid() && handle.View() == Taken(Settle(c, p, s, e), a, trace).h
      ensures Told(o, p, handle.View()) && (o.Sent? ==> o.e == e)
      ensures !o.Rejected? && (o == ProtocolError <==> e.proposal != p)
      ensures Ingested(o, handle.View(), s, p, e, a)
      ensures RowsInOrder(old(handle.store.db)) <= RowsInOrder(handle.store.db)
    {
      hide Rooms.ProcessCanonical, Sane, Live, Unforged, RowsInOrder, Chained, Contains, Taken, Settle;
      trace := sc;
      ghost var start := handle.store.db;
      if e.proposal != p || !a.queued { NotTaken(c, s, p, e, a, sc); }
      if e.proposal != p {
        CloseSessionIf(s);
        return ProtocolError, trace;
      }
      if !a.queued {
        CloseSessionIf(s);
        return Uncertain, trace;
      }
      ghost var before := handle.View();
      var durable, ok, fault, done := handle.ProcessCanonical(s, e, sc, answers, log);
      trace := done;
      ProcessingTells(before, s, e, trace, handle.View());
      TakenByProcessing(c, s, p, e, a, trace);
      if !ok || !durable {
        CloseSessionIf(s);
      }
      if !durable || !a.cleared {
        return Uncertain, trace;
      }
      ghost var stored := handle.store.db;
      handle.store.ClearPending(p);
      ClearedTells(stored, handle.store.db, p);
      return Sent(e), trace;
    }

    /** The ingest loop taking one event. */
    method IngestOne(q: Queued, answers: Answers, ghost w: World, ghost c: Client) returns (ghost trace: ProcessScript)
      requires handle.Valid() && WorldOk(w) && HandleOk(handle.View(), w) && Live(handle.View())
      requires c.h == handle.View() && c.ingest.Ready?
      requires Real(w, q.e) && q.s.genesis.roomKey == w.genesis.roomKey && Unforged(answers, w.genesis.roomKey, w.log)
      modifies handle, handle.store, if handle.projection.Some? then {handle.projection.value} else {}
      ensures handle.Valid() && HandleOk(handle.View(), w) && Live(handle.View())
      ensures CloseStep(ProcessStep(c, q.s, q.e, trace)) == c.(h := handle.View())
      ensures trace == q.sc.(sync := trace.sync) && RealSync(w, trace.sync)
      ensures SamePending(c.h.db, handle.store.db)
      ensures handle.projection == old(handle.projection) || (handle.projection.Some? && fresh(handle.projection.value))
    {
      hide Rooms.ProcessCanonical, HandleOk, Live, Unforged, RowsInOrder, Chained, Replays, UniqueIds, Real, Genuine;
      ghost var before := handle.View();
      QueuePreconditions(before, w, answers);
      var durable, ok, fault, done := handle.ProcessCanonical(q.s, q.e, q.sc, answers, w.log);
      trace := done;
      GenuineIsReal(w, trace);
      ClosedAfterProcessing(c, w, q.s, q.e, trace, handle.View());
      if !ok {
        CloseSessionIf(q.s);
      }
    }

    /** The ingest loop working through its queue. */
    method RunIngestLoop(queue: seq<Queued>, answers: Answers, ghost w: World, ghost c: Client)
      returns (ghost traces: seq<Queued>)
      requires handle.Valid() && WorldOk(w) && HandleOk(handle.View(), w) && Live(handle.View())
      requires c.h == handle.View() && c.ingest.Ready? && Unforged(answers, w.genesis.roomKey, w.log)
      requires forall q :: q in queue ==> Real(w, q.e) && q.s.genesis.roomKey == w.genesis.roomKey
      modifies handle, handle.store, if handle.projection.Some? then {handle.projection.value} else {}
      ensures handle.Valid() && HandleOk(handle.View(), w) && Live(handle.View())
      ensures Meanwhile(c, traces) == c.(h := handle.View()) && Observes(traces, queue)
      ensures SamePending(c.h.db, handle.store.db)
      ensures handle.projection == old(handle.projection) || (handle.projection.Some? && fresh(handle.projection.value))
    {
      hide Healthy, NotifiedInOrder, Live, Unforged, WorldOk, Real, ProcessStep, CloseStep;
      traces := [];
      for i := 0 to |queue|
        invariant handle.Valid() && HandleOk(handle.View(), w) && Live(handle.View())
        invariant |traces| == i && Meanwhile(c, traces) == c.(h := handle.View()) && Observes(traces, queue[..i])
        invariant SamePending(c.h.db, handle.store.db)
        invariant handle.projection == old(handle.projection) || (handle.projection.Some?
                    && fresh(handle.projection.value))
      {
        assert queue[i] in queue;
        ghost var trace := IngestOne(queue[i], answers, w, c.(h := handle.View()));
        ghost var grown := traces + [Queued(queue[i].s, queue[i].e, trace)];
        assert grown[..i] == traces;
        assert queue[..i + 1] == queue[..i] + [queue[i]];
        traces := grown;
      }
      assert queue[..|queue|] == queue;
    }

    /** Send the journaled operation once, or settle it from its receipt, while the
        ingest loop goes on with its queue. */
    method SendPending(key: Key, s: Session, p: Proposal, firstAttempt: bool, a: Attempt, queue: seq<Queued>,
                       sc: ProcessScript, answers: Answers, ghost w: World, ghost c: Client)
      returns (o: Outcome, ghost traces: seq<Queued>, ghost trace: ProcessScript)
      requires handle.Valid() && WorldOk(w) && HandleOk(handle.View(), w) && Live(handle.View())
      requires s.genesis.roomKey == w.genesis.roomKey && Unforged(answers, w.genesis.roomKey, w.log)
      requires forall q :: q in queue ==> Real(w, q.e) && q.s.genesis.roomKey == w.genesis.roomKey
      requires Holding(c, key, handle.View(), s, p, firstAttempt)
      modifies handle, handle.store, if handle.projection.Some? then {handle.projection.value} else {}
      ensures handle.Valid() && handle.View() == StepsOf(c, a, traces, trace).h && Told(o, p, handle.View())
      ensures o.Rejected? ==> firstAttempt && Direct(s) && a.reply == Some(Reject(o.code)) && Definitive(o.code)
      ensures !Owned(old(handle.store.db).pending.value, key, s, p) ==>
                o == ProtocolError && handle.View() == old(handle.View())
      ensures Owned(old(handle.store.db).pending.value, key, s, p) ==>
                && (!Contains(RowsInOrder(old(handle.store.db)), p) ==>
                      Answered(o, handle.View(), s, p, firstAttempt, a))
                && (old(handle.store.db).pending.value.receipt.Some? ==>
                      Ingested(o, handle.View(), s, p, old(handle.store.db).pending.value.receipt.value, a))
    {
      hide StepsOf, Taken, Settle, SendStep, Sane, HandleOk, WorldOk, Live, Unforged, RowsInOrder, Chained, Real;
      hide Answered, Contains, Owned;
      hide KnownCode, Definitive, VerifyAt, Unsendable, Meanwhile, Observes;
      trace, traces := sc, [];
      QueuePreconditions(handle.View(), w, answers);
      var j := handle.store.db.pending.value;
      OwnedIsSendable(j, key, s, p);
      if Unsendable(j, key, s, p) {
        WithoutSending(c, a, traces, sc, s, p, firstAttempt);
        return ProtocolError, traces, trace;
      }
      JournalReceipt(handle.View(), p);
      if j.receipt.Some? {
        o, trace := Finish(s, p, j.receipt.value, a, sc, answers, w.log, c);
        WithoutSending(c, a, traces, trace, s, p, firstAttempt);
        return;
      }
      SendingAsks(c, s, p, firstAttempt);
      traces := RunIngestLoop(queue, answers, w, SendStep(c));
      ghost var mid := Meanwhile(SendStep(c), traces);
      o, trace := Settled(s, p, firstAttempt, a, sc, answers, w, c, mid, traces);
    }

    /** What the answer, or its loss, leads to. */
    method Settled(s: Session, p: Proposal, firstAttempt: bool, a: Attempt, sc: ProcessScript, answers: Answers,
                   ghost w: World, ghost c: Client, ghost mid: Client, ghost traces: seq<Queued>)
      returns (o: Outcome, ghost trace: ProcessScript)
      requires handle.Valid() && WorldOk(w) && HandleOk(handle.View(), w) && Live(handle.View())
      requires s.genesis.roomKey == w.genesis.roomKey && Unforged(answers, w.genesis.roomKey, w.log)
      requires SendStep(c).submit.Waiting? && SendStep(c).submit.p == p && SendStep(c).submit.s == s
      requires SendStep(c).submit.first == firstAttempt && (SendStep(c).submit.query.Some? <==> Direct(s))
      requires mid == Meanwhile(SendStep(c), traces) && mid.submit == SendStep(c).submit && mid.ingest.Ready?
      requires mid.h == handle.View() && IsPending(mid, p)
      modifies handle, handle.store, if handle.projection.Some? then {handle.projection.value} else {}
      ensures handle.Valid() && handle.View() == StepsOf(c, a, traces, trace).h && Told(o, p, handle.View())
      ensures o.Rejected? ==> firstAttempt && Direct(s) && a.reply == Some(Reject(o.code)) && Definitive(o.code)
      ensures Answered(o, handle.View(), s, p, firstAttempt, a)
    {
      hide StepsOf, Taken, Settle, SendStep, Sane, HandleOk, WorldOk, Live, Unforged, RowsInOrder, Chained;
      hide KnownCode, Definitive, Meanwhile, Contains;
      if a.reply.Some? && a.reply.value.Reject? { CodesAreNumbers(a.reply.value.code); }
      trace := sc;
      QueuePreconditions(handle.View(), w, answers);
      JournalReceipt(handle.View(), p);
      ByAnswer(c, mid, a, traces, sc, s, p, firstAttempt);
      if a.reply.Some? && !a.reply.value.Reject? {
        o, trace := Finish(s, p, a.reply.value.e, a, sc, answers, w.log, mid);
        ByAnswer(c, mid, a, traces, trace, s, p, firstAttempt);
        return;
      }
      if a.reply.Some? && !KnownCode(a.reply.value.code) {
        CloseSessionIf(s);
        return ProtocolError, trace;
      }
      ghost var before := handle.store.db;
      var current := handle.store.db.pending;
      if current.Some? && current.value.receipt.Some? {
        o, trace := Finish(s, p, current.value.receipt.value, a, sc, answers, w.log, mid);
        PrefixContains(RowsInOrder(before), RowsInOrder(handle.store.db), p);
        ByAnswer(c, mid, a, traces, trace, s, p, firstAttempt);
        return;
      }
      if a.reply.None? || !firstAttempt || !Direct(s) || !Definitive(a.reply.value.code) {
        return Uncertain, trace;
      }
      handle.store.ClearPending(p);
      return Rejected(a.reply.value.code), trace;
    }
  }

  /** The journal row of the operation stays, with or without a receipt. */
  predicate SamePending(before: ClientDb, after: ClientDb) {
    && (before.pending.None? ==> after.pending.None?)
    && (before.pending.Some? ==> after.pending.Some? && after.pending.value.proposal == before.pending.value.proposal)
  }

  /** The traces are of the queued events, with the answers their repairs got. */
  predicate Observes(traces: seq<Queued>, queue: seq<Queued>) {
    && |traces| == |queue|
    && forall i :: 0 <= i < |queue| ==> traces[i] == queue[i].(sc := queue[i].sc.(sync := traces[i].sc.sync))
  }

  lemma JournalReceipt(h: Handle, p: Proposal)
    requires Sane(h) && h.db.pending.Some? && h.db.pending.value.proposal == p
    ensures h.db.pending.value.receipt.Some? <==> Contains(RowsInOrder(h.db), p)
  {
  }

  lemma QueuePreconditions(h: Handle, w: World, answers: Answers)
    requires WorldOk(w) && HandleOk(h, w)
    ensures Sane(h) && RowsInOrder(h.db) <= w.log && Chained(w.log) && h.db.roomKey == w.genesis.roomKey
  {
    FoldDescribes(w.genesis, w.log);
  }

  lemma GenuineIsReal(w: World, trace: ProcessScript)
    requires forall d :: d in trace.sync.deliveries ==> Genuine(d.e, w.genesis.roomKey, w.log)
    ensures RealSync(w, trace.sync)
  {
  }

  /** After processing and closing, the handle is live again. */
  lemma ClosedAfterProcessing(c: Client, w: World, s: Session, e: Committed, trace: ProcessScript, after: Handle)
    requires WorldOk(w) && HandleOk(c.h, w) && Live(c.h) && c.ingest.Ready?
    requires Real(w, e) && RealSync(w, trace.sync)
    requires after == Rooms.ProcessCanonical(c.h, s, e, trace).after
    ensures var closed := if Rooms.ProcessCanonical(c.h, s, e, trace).ok then after else Disconnected(after, s);
            && CloseStep(ProcessStep(c, s, e, trace)) == c.(h := closed)
            && HandleOk(closed, w) && Live(closed) && SamePending(c.h.db, closed.db)
  {
    hide Rooms.ProcessCanonical;
    ProcessKeepsHandle(c.h, w, s, e, trace);
  }

  /** What becomes of the event of an answer: another proposal's is a protocol error;
      the right one is reported as sent unless the queue, the delete or the session
      fails. */
  predicate Ingested(o: Outcome, after: Handle, s: Session, p: Proposal, e: Committed, a: Attempt) {
    if e.proposal != p then o == ProtocolError
    else if !a.queued || !a.cleared then o == Uncertain
    else o == Sent(e) || (o == Uncertain && after.session != Some(s))
  }

  /** What each answer to the query is reported as. A rejection is final if it has
      one of the codes 1 to 15 other than 10, 12 and 14 and the sequencer itself gives
      it to the first attempt. A proposal that turns out to be stored is not
      reported as rejected or lost. */
  ghost predicate Answered(o: Outcome, after: Handle, s: Session, p: Proposal, first: bool, a: Attempt) {
    match a.reply
    case None => !Contains(RowsInOrder(after.db), p) ==> o == Uncertain
    case Some(Accept(e)) => Ingested(o, after, s, p, e, a)
    case Some(Repeat(e)) => Ingested(o, after, s, p, e, a)
    case Some(Reject(code)) =>
      if code < 1 || code > 15 then o == ProtocolError
      else
        !Contains(RowsInOrder(after.db), p) ==>
          o == if first && s.peer == s.genesis.nodeKey && code != 10 && code != 12 && code != 14
               then Rejected(code) else Uncertain
  }

  /** The row belongs to this genesis and identity, and its proposal verifies. */
  predicate Owned(j: Journal, key: Key, s: Session, p: Proposal) {
    j.genesisHash == GenesisHash(s.genesis) && p.author == key && VerifyAt(p, s.genesis.nodeKey).Ok?
  }

  lemma OwnedIsSendable(j: Journal, key: Key, s: Session, p: Proposal)
    ensures Owned(j, key, s, p) <==> !Unsendable(j, key, s, p)
  {
  }

  lemma CodesAreNumbers(code: int)
    ensures KnownCode(code) <==> 1 <= code <= 15
    ensures Definitive(code) <==> 1 <= code <= 15 && code != 10 && code != 12 && code != 14
  {
  }

  /** The outcome reported is the truth: sent means stored with the row cleared,
      rejected means cleared, anything else leaves the row. */
  ghost predicate Told(o: Outcome, p: Proposal, h: Handle) {
    match o
    case Sent(e) => e.proposal == p && Contains(RowsInOrder(h.db), p) && h.db.pending.None?
    case Rejected(_) => h.db.pending.None?
    case _ => h.db.pending.Some? && h.db.pending.value.proposal == p
  }

  /** After processing, the row is still there, and a durable event is stored. */
  lemma ProcessingTells(before: Handle, s: Session, e: Committed, sc: ProcessScript, after: Handle)
    requires Sane(before) && Live(before) && after == Rooms.ProcessCanonical(before, s, e, sc).after
    requires before.db.pending.Some? && before.db.pending.value.proposal == e.proposal
    ensures after.db.pending.Some? && after.db.pending.value.proposal == e.proposal
    ensures Rooms.ProcessCanonical(before, s, e, sc).durable ==> Contains(RowsInOrder(after.db), e.proposal)
    ensures RowsInOrder(before.db) <= RowsInOrder(after.db)
  {
    if before.session == Some(s) {
      hide Rooms.ProcessCanonical;
      ProcessKeeps(before, s, e, sc);
      if Rooms.ProcessCanonical(before, s, e, sc).durable { StoredContains(RowsInOrder(after.db), e); }
    } else {
      assert Rooms.ProcessCanonical(before, s, e, sc) == Unchanged(before);
    }
  }

  lemma ClearedTells(stored: ClientDb, after: ClientDb, p: Proposal)
    requires after == ClearPending(stored, p) && stored.pending.Some? && stored.pending.value.proposal == p
    ensures RowsInOrder(after) == RowsInOrder(stored) && after.pending.None?
  {
    SameRows(after, stored);
  }
}
