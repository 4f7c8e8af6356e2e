// One member of the room as a state machine: its handle and database, the ingest
// loop, the submitting thread with its program counter, and its queries still
// travelling to the sequencer. A step is one transaction or one operation under
// the history lock, so a crash can fall between any two of them.
module Members {
  import opened Wrappers
  import opened Community
  import opened Replay
  import opened ClientDbs
  import opened Rooms
  import opened Tables

  datatype Answer = Accept(e: Committed) | Repeat(e: Committed) | Reject(code: int)

  /** The ingest loop between events, or about to close the session of the event
      whose processing failed. */
  datatype IngestLoop = Ready | Closing(s: Session)

  /** Where the submitting thread stands. `first` marks the attempt that wrote the
      journal row. A query goes to the sequencer itself under a number, or through
      a relay under none. */
  datatype Submission =
    | Quiet
    | Saved(p: Proposal, s: Session, first: bool)
    | Waiting(p: Proposal, s: Session, first: bool, query: Option<nat>)
    | Offering(p: Proposal, s: Session, e: Committed)
    | Durable(p: Proposal)

  /** `key` is the member's identity. `asked` and `answered` are the queries and answers in flight. `made`,
      `succeeded` and `rejected` record what the member was ever told: the
      proposals it signed, those reported as sent, and those whose journal row was
      cleared because of a rejection. */
  datatype Client = Client(
    key: Key, h: Handle, ingest: IngestLoop, submit: Submission,
    asked: map<nat, Proposal>, answered: map<nat, Answer>, nextQuery: nat,
    made: set<Proposal>, succeeded: set<Proposal>, rejected: set<Proposal>)

  datatype Action =
    | Connect(s: Session, sync: SyncScript, told: bool)
    | Drop
    | Process(s: Session, e: Committed, sc: ProcessScript)
    | CloseFailed
    | Save(p: Proposal, s: Session)
    | Retry(s: Session)
    | Send
    | Receive(answer: Answer)
    | Lose
    | Offer(sc: ProcessScript)
    | Abandon
    | Clear
    | Discard
    | Reset(key: Key)
    | Crash(now: Instant)

  function NewClient(roomKey: Key, key: Key): Client {
    Client(key, Handle(NewRoom(roomKey), None, None, 0, []), Ready, Quiet, map[], map[], 0, {}, {}, {})
  }

  predicate KnownCode(code: int) {
    REJECT_MALFORMED_REQUEST <= code <= REJECT_INVALID_IDENTITY_DOMAIN
  }

  /** Rejections that a member takes as final when the sequencer itself gives them. */
  predicate Definitive(code: int) {
    && KnownCode(code)
    && code != REJECT_PERSISTENCE_FAILURE && code != REJECT_SEQUENCER_UNAVAILABLE
    && code != REJECT_INVALID_CANONICAL_STATE
  }

  /** The peer of the session is the sequencer. */
  predicate Direct(s: Session) {
    s.peer == s.genesis.nodeKey
  }

  function Disconnected(h: Handle, s: Session): Handle {
    if h.session == Some(s) then h.(session := None) else h
  }

  // ---- Steps ------------------------------------------------------------

  ghost function ConnectStep(c: Client, s: Session, sync: SyncScript, told: bool): Client {
    if c.h.session.Some? then c
    else
      var r := SyncSession(c.h.(session := Some(s)), s, sync);
      c.(h := if r.ok && told then r.after else r.after.(session := None))
  }

  ghost function ProcessStep(c: Client, s: Session, e: Committed, sc: ProcessScript): Client {
    if !c.ingest.Ready? then c
    else
      var r := ProcessCanonical(c.h, s, e, sc);
      c.(h := r.after, ingest := if r.ok then Ready else Closing(s))
  }

  function CloseStep(c: Client): Client {
    match c.ingest
    case Ready => c
    case Closing(s) => c.(h := Disconnected(c.h, s), ingest := Ready)
  }

  /** Write the journal row of a new operation. The step asks for no live session,
      so it may also fall anywhere between other steps. */
  function SaveStep(c: Client, p: Proposal, s: Session): Client {
    if !c.submit.Quiet? then c
    else match SavePending(c.h.db, s.genesis, p)
      case Err(_) => c
      case Ok(db) => c.(h := c.h.(db := db), made := c.made + {p}, submit := Saved(p, s, true))
  }

  function RetryStep(c: Client, s: Session): Client {
    if c.submit.Quiet? && c.h.db.pending.Some? then c.(submit := Saved(c.h.db.pending.value.proposal, s, false)) else c
  }

  /** Ingest the answered event if it is the proposal that was sent. */
  function Settle(c: Client, p: Proposal, s: Session, e: Committed): Client {
    if e.proposal != p then c.(h := Disconnected(c.h, s), submit := Quiet) else c.(submit := Offering(p, s, e))
  }

  function Receipt(c: Client): Option<Committed> {
    match c.h.db.pending case Some(j) => j.receipt case None => None
  }

  predicate Sendable(c: Client) {
    && c.submit.Saved? && c.h.db.pending.Some?
    && c.h.db.pending.value.genesisHash == GenesisHash(c.submit.s.genesis)
    && c.submit.p.author == c.key
    && VerifyAt(c.submit.p, c.submit.s.genesis.nodeKey).Ok?
  }

  function SendStep(c: Client): Client {
    if !c.submit.Saved? then c
    else if !Sendable(c) then c.(submit := Quiet)
    else match Receipt(c)
      case Some(e) => Settle(c, c.submit.p, c.submit.s, e)
      case None =>
        if Direct(c.submit.s) then
          c.(asked := c.asked[c.nextQuery := c.submit.p], nextQuery := c.nextQuery + 1,
             submit := Waiting(c.submit.p, c.submit.s, c.submit.first, Some(c.nextQuery)))
        else c.(submit := Waiting(c.submit.p, c.submit.s, c.submit.first, None))
  }

  /** What a send makes known to others than the sequencer. */
  function Exposed(c: Client, a: Action): set<Proposal> {
    if a.Send? && Sendable(c) && Receipt(c).None? && !Direct(c.submit.s) then {c.submit.p} else {}
  }

  function AnswerStep(c: Client, p: Proposal, s: Session, final: bool, answer: Answer): Client {
    match answer
    case Accept(e) => Settle(c, p, s, e)
    case Repeat(e) => Settle(c, p, s, e)
    case Reject(code) =>
      if !KnownCode(code) then c.(h := Disconnected(c.h, s), submit := Quiet)
      else match Receipt(c)
        case Some(e) => Settle(c, p, s, e)
        case None =>
          if final && Definitive(code) then
            c.(h := c.h.(db := ClearPending(c.h.db, p)), rejected := c.rejected + {p}, submit := Quiet)
          else c.(submit := Quiet)
  }

  function ReceiveStep(c: Client, answer: Answer): Client {
    match c.submit
    case Waiting(p, s, first, Some(q)) => if q in c.answered then AnswerStep(c, p, s, first, c.answered[q]) else c
    case Waiting(p, s, first, None) => AnswerStep(c, p, s, false, answer)
    case _ => c
  }

  function LoseStep(c: Client): Client {
    match c.submit
    case Waiting(p, s, _, _) =>
      (match Receipt(c) case Some(e) => Settle(c, p, s, e) case None => c.(submit := Quiet))
    case _ => c
  }

  ghost function OfferStep(c: Client, sc: ProcessScript): Client {
    match c.submit
    case Offering(p, s, e) =>
      if !c.ingest.Ready? then c
      else
        var r := ProcessCanonical(c.h, s, e, sc);
        c.(h := if r.durable then r.after else Disconnected(r.after, s),
           ingest := if r.ok then Ready else Closing(s), submit := if r.durable then Durable(p) else Quiet)
    case _ => c
  }

  function AbandonStep(c: Client): Client {
    match c.submit
    case Offering(_, s, _) => c.(h := Disconnected(c.h, s), submit := Quiet)
    case _ => c
  }

  function ClearStep(c: Client): Client {
    match c.submit
    case Durable(p) =>
      c.(h := c.h.(db := ClearPending(c.h.db, p)), succeeded := c.succeeded + {p}, submit := Quiet)
    case _ => c
  }

  function DiscardStep(c: Client): Client {
    if c.submit.Quiet? then c.(h := c.h.(db := c.h.db.(pending := None))) else c
  }

  /** A new identity, once nothing is being submitted; every session is closed. */
  function ResetStep(c: Client, key: Key): Client {
    if c.submit.Quiet? && c.h.db.pending.None? then c.(key := key, h := c.h.(session := None)) else c
  }

  /** Everything volatile is lost and the database is opened again. */
  ghost function CrashStep(c: Client, now: Instant): Client {
    match Reopen(c.h.db, now)
    case Err(_) => c
    case Ok(db) =>
      c.(h := Handle(db, None, None, 0, c.h.notified), ingest := Ready, submit := Quiet, answered := map[])
  }

  ghost function ClientStep(c: Client, a: Action): Client {
    match a
    case Connect(s, sync, told) => ConnectStep(c, s, sync, told)
    case Drop => c.(h := c.h.(session := None))
    case Process(s, e, sc) => ProcessStep(c, s, e, sc)
    case CloseFailed => CloseStep(c)
    case Save(p, s) => SaveStep(c, p, s)
    case Retry(s) => RetryStep(c, s)
    case Send => SendStep(c)
    case Receive(answer) => ReceiveStep(c, answer)
    case Lose => LoseStep(c)
    case Offer(sc) => OfferStep(c, sc)
    case Abandon => AbandonStep(c)
    case Clear => ClearStep(c)
    case Discard => DiscardStep(c)
    case Reset(key) => ResetStep(c, key)
    case Crash(now) => CrashStep(c, now)
  }

  // ---- What the rest of the world can show a member ---------------------

  /** The sequencer's log, and the proposals others may hold. */
  datatype World = World(genesis: Genesis, log: seq<Committed>, exposed: set<Proposal>)

  /** Only the sequencer signs commits with the room key. */
  predicate Real(w: World, e: Committed) {
    Genuine(e, w.genesis.roomKey, w.log)
  }

  predicate RealSync(w: World, sync: SyncScript) {
    forall d :: d in sync.deliveries ==> Real(w, d.e)
  }

  predicate RealAnswer(w: World, answer: Answer) {
    answer.Reject? || Real(w, answer.e)
  }

  /** A session's genesis has been checked against the room key, which signs only
      one; a fresh nonce makes a new proposal unlike any other. */
  predicate Possible(c: Client, w: World, a: Action) {
    match a
    case Connect(s, sync, _) => s.genesis == w.genesis && RealSync(w, sync)
    case Process(_, e, sc) => Real(w, e) && RealSync(w, sc.sync)
    case Save(p, _) => p.author == c.key && p !in w.exposed && p !in c.made && !Contains(w.log, p)
    case Receive(answer) => RealAnswer(w, answer)
    case Offer(sc) => RealSync(w, sc.sync)
    case _ => true
  }

  // ---- Invariant --------------------------------------------------------

  ghost predicate WorldOk(w: World) {
    ValidGenesis(w.genesis) && Replays(w.genesis, w.log) && UniqueIds(w.log)
  }

  /** The rows are a prefix of the sequencer's log under its genesis. */
  ghost predicate HandleOk(h: Handle, w: World) {
    && Sane(h)
    && h.db.roomKey == w.genesis.roomKey
    && (h.db.genesis.Some? ==> h.db.genesis == Some(w.genesis))
    && RowsInOrder(h.db) <= w.log
  }

  /** The projection is current unless the ingest loop is about to close the
      session it belongs to. */
  ghost predicate LoopOk(c: Client)
    requires Healthy(c.h.db)
  {
    Live(c.h) || (c.ingest.Closing? && c.h.session == Some(c.ingest.s))
  }

  predicate NotAsked(c: Client, p: Proposal) {
    forall q :: q in c.asked ==> c.asked[q] != p
  }

  /** Nobody but the member holds the proposal and it is on no way to the log. */
  predicate Unsent(c: Client, w: World, p: Proposal) {
    p !in w.exposed && !Contains(w.log, p) && NotAsked(c, p)
  }

  predicate IsPending(c: Client, p: Proposal) {
    c.h.db.pending.Some? && c.h.db.pending.value.proposal == p
  }

  /** The first query of a proposal, sent to the sequencer only: it is delivered at
      most once, and its final rejection leaves the proposal out of the log. */
  predicate FirstQuery(c: Client, w: World, p: Proposal, q: nat) {
    && q < c.nextQuery && p !in w.exposed
    && (forall r :: r in c.asked && c.asked[r] == p ==> r == q)
    && (q in c.asked ==> !Contains(w.log, p))
    && (q in c.answered && c.answered[q].Reject? && Definitive(c.answered[q].code) ==> !Contains(w.log, p))
  }

  ghost predicate PhaseOk(c: Client, w: World) {
    match c.submit
    case Quiet => true
    case Saved(p, _, first) => IsPending(c, p) && (first ==> Unsent(c, w, p))
    case Waiting(p, _, first, q) => IsPending(c, p) && (first && q.Some? ==> FirstQuery(c, w, p, q.value))
    case Offering(p, _, e) => IsPending(c, p) && e.proposal == p && Real(w, e)
    case Durable(p) => IsPending(c, p) && Contains(RowsInOrder(c.h.db), p)
  }

  predicate QueriesOk(c: Client, w: World) {
    && (forall q :: q in c.asked ==> q < c.nextQuery && c.asked[q] in c.made && q !in c.answered)
    && (forall q :: q in c.answered ==> q < c.nextQuery && RealAnswer(w, c.answered[q]))
  }

  ghost predicate OutcomesOk(c: Client, w: World) {
    && (c.h.db.pending.Some? ==>
          c.h.db.pending.value.proposal in c.made && c.h.db.pending.value.proposal !in c.rejected)
    && (forall p :: p in c.rejected ==> p in c.made && Unsent(c, w, p))
    && (forall p :: p in c.succeeded ==> Contains(RowsInOrder(c.h.db), p))
  }

  ghost predicate ClientOk(c: Client, w: World) {
    HandleOk(c.h, w) && LoopOk(c) && QueriesOk(c, w) && OutcomesOk(c, w) && PhaseOk(c, w)
  }

  // ---- Preservation -----------------------------------------------------

  lemma ChainedSubsetIsPrefix(rows: seq<Committed>, log: seq<Committed>)
    requires Chained(rows) && Chained(log)
    requires forall e :: e in rows ==> e in log
    ensures rows <= log
  {
    if rows != [] { assert rows[|rows| - 1] in log; }
    forall i | 0 <= i < |rows| ensures i < |log| && rows[i] == log[i] {
      assert rows[i] in rows;
      var j :| 0 <= j < |log| && log[j] == rows[i];
      assert log[j].seqno == j + 1 && rows[i].seqno == i + 1;
    }
  }

  lemma RowsArePrefix(rows: seq<Committed>, w: World)
    requires WorldOk(w) && Replays(w.genesis, rows)
    requires forall e :: e in rows ==> Real(w, e)
    ensures rows <= w.log
  {
    FoldDescribes(w.genesis, rows);
    FoldDescribes(w.genesis, w.log);
    forall e | e in rows ensures e in w.log {
      assert VerifyCommit(e, w.genesis.roomKey, w.genesis.nodeKey).Ok?;
    }
    ChainedSubsetIsPrefix(rows, w.log);
  }

  /** Whatever a kept operation adds to the rows comes from the log. */
  lemma KeptHandle(before: Handle, s: Session, after: Handle, offered: set<Committed>, w: World)
    requires WorldOk(w) && HandleOk(before, w) && s.genesis == w.genesis
    requires KeptBy(before, s, after, offered)
    requires forall e :: e in offered ==> Real(w, e)
    ensures HandleOk(after, w)
  {
    var rows := RowsInOrder(after.db);
    if after.db.genesis.Some? {
      forall e | e in rows ensures Real(w, e) {
        if e in RowsInOrder(before.db) {
          assert e in w.log;
        }
      }
      RowsArePrefix(rows, w);
    }
  }

  /** Growth of the rows disturbs neither the outcomes nor the submitter. */
  lemma KeptSubmission(c: Client, after: Client, offered: set<Committed>, w: World)
    requires OutcomesOk(c, w) && PhaseOk(c, w) && QueriesOk(c, w)
    requires after == c.(h := after.h, ingest := after.ingest) && GrewFrom(after.h.db, c.h.db, offered)
    ensures OutcomesOk(after, w) && PhaseOk(after, w) && QueriesOk(after, w)
  {
    forall p | Contains(RowsInOrder(c.h.db), p) ensures Contains(RowsInOrder(after.h.db), p) {
      var i :| 0 <= i < |RowsInOrder(c.h.db)| && RowsInOrder(c.h.db)[i].proposal == p;
      assert RowsInOrder(after.h.db)[i].proposal == p;
    }
    assert forall p :: NotAsked(after, p) <==> NotAsked(c, p);
  }

  lemma ConnectKeeps(c: Client, w: World, s: Session, sync: SyncScript, told: bool)
    requires WorldOk(w) && ClientOk(c, w) && Possible(c, w, Connect(s, sync, told))
    ensures ClientOk(ConnectStep(c, s, sync, told), w)
  {
    if c.h.session.None? {
      var h := c.h.(session := Some(s));
      SyncKeeps(h, s, sync);
      KeptHandle(h, s, SyncSession(h, s, sync).after, Offered(sync.deliveries), w);
      KeptSubmission(c, ConnectStep(c, s, sync, told), Offered(sync.deliveries), w);
    }
  }

  /** Losing a session never hurts. */
  lemma DropKeeps(c: Client, w: World, h: Handle)
    requires ClientOk(c, w) && (h == c.h || h == c.h.(session := None))
    ensures ClientOk(c.(h := h), w)
  {
    KeptSubmission(c, c.(h := h), {}, w);
  }

  lemma CloseKeeps(c: Client, w: World)
    requires ClientOk(c, w)
    ensures ClientOk(CloseStep(c), w)
  {
    KeptSubmission(c, CloseStep(c), {}, w);
  }

  /** One queued event, on the handle: the session check is the only thing that
      needs the projection to be current. */
  lemma ProcessKeepsHandle(h: Handle, w: World, s: Session, e: Committed, sc: ProcessScript)
    requires WorldOk(w) && HandleOk(h, w) && Live(h)
    requires Real(w, e) && RealSync(w, sc.sync)
    ensures var r := ProcessCanonical(h, s, e, sc);
            && HandleOk(r.after, w) && r.fault == NoFault
            && (r.durable ==> e in RowsInOrder(r.after.db))
            && (if r.ok then Live(r.after) else r.after.session == None || r.after.session == Some(s) || Live(r.after))
            && GrewFrom(r.after.db, h.db, ProcessOffered(e, sc))
            && h.notified <= r.after.notified
  {
    if h.session == Some(s) {
      ProcessKeeps(h, s, e, sc);
      KeptHandle(h, s, ProcessCanonical(h, s, e, sc).after, ProcessOffered(e, sc), w);
    } else {
      assert ProcessCanonical(h, s, e, sc) == Unchanged(h);
    }
  }

  lemma ReadyIsLive(c: Client, w: World)
    requires ClientOk(c, w) && c.ingest.Ready?
    ensures Live(c.h)
  {
  }

  lemma ProcessStepKeeps(c: Client, w: World, s: Session, e: Committed, sc: ProcessScript)
    requires WorldOk(w) && ClientOk(c, w) && Possible(c, w, Process(s, e, sc))
    ensures ClientOk(ProcessStep(c, s, e, sc), w)
  {
    if c.ingest.Ready? {
      ReadyIsLive(c, w);
      ProcessKeepsHandle(c.h, w, s, e, sc);
      KeptSubmission(c, ProcessStep(c, s, e, sc), ProcessOffered(e, sc), w);
    }
  }

  // ---- The submitting thread --------------------------------------------

  /** Steps that leave the handle alone. */
  lemma SameHandle(c: Client, after: Client, w: World)
    requires ClientOk(c, w) && after.h == c.h && after.ingest == c.ingest
    ensures HandleOk(after.h, w) && LoopOk(after)
  {
  }

  lemma JournalWrite(h: Handle, w: World, pending: Option<Journal>)
    requires HandleOk(h, w) && JournalTrue(h.db.(pending := pending), RowsInOrder(h.db))
    ensures HandleOk(h.(db := h.db.(pending := pending)), w)
    ensures RowsInOrder(h.db.(pending := pending)) == RowsInOrder(h.db)
    ensures Live(h) ==> Live(h.(db := h.db.(pending := pending)))
  {
    RowsAreTheLog(h.db.(pending := pending), RowsInOrder(h.db));
  }

  lemma PrefixContains(rows: seq<Committed>, log: seq<Committed>, p: Proposal)
    requires rows <= log && Contains(rows, p)
    ensures Contains(log, p)
  {
    var i :| 0 <= i < |rows| && rows[i].proposal == p;
    assert log[i].proposal == p;
  }

  lemma SaveKeeps(c: Client, w: World, p: Proposal, s: Session)
    requires ClientOk(c, w) && Possible(c, w, Save(p, s))
    ensures ClientOk(SaveStep(c, p, s), w)
  {
    if c.submit.Quiet? && c.h.db.pending.None? {
      var rows := RowsInOrder(c.h.db);
      if Contains(rows, p) { PrefixContains(rows, w.log, p); }
      JournalWrite(c.h, w, Some(Journal(p, GenesisHash(s.genesis), None)));
      var after := SaveStep(c, p, s);
      assert forall q :: NotAsked(after, q) <==> NotAsked(c, q);
    }
  }

  lemma RetryKeeps(c: Client, w: World, s: Session)
    requires ClientOk(c, w)
    ensures ClientOk(RetryStep(c, s), w)
  {
    var after := RetryStep(c, s);
    assert forall q :: NotAsked(after, q) <==> NotAsked(c, q);
  }

  lemma SettleKeeps(c: Client, w: World, p: Proposal, s: Session, e: Committed)
    requires ClientOk(c, w) && IsPending(c, p) && Real(w, e)
    ensures ClientOk(Settle(c, p, s, e), w)
  {
    var after := Settle(c, p, s, e);
    assert forall q :: NotAsked(after, q) <==> NotAsked(c, q);
    if e.proposal != p { DropKeeps(c, w, after.h); } else { SameHandle(c, after, w); }
  }

  lemma ReceiptIsReal(c: Client, w: World)
    requires ClientOk(c, w) && Receipt(c).Some?
    ensures Real(w, Receipt(c).value)
  {
    assert Receipt(c).value in w.log;
  }

  /** Giving up on an attempt keeps the journal row. */
  lemma QuietKeeps(c: Client, w: World)
    requires ClientOk(c, w)
    ensures ClientOk(c.(submit := Quiet), w)
  {
    var after := c.(submit := Quiet);
    assert forall q :: NotAsked(after, q) <==> NotAsked(c, q);
    SameHandle(c, after, w);
  }

  predicate WillAsk(c: Client) {
    c.submit.Saved? && Sendable(c) && Receipt(c).None?
  }

  lemma AskKeeps(c: Client, w: World)
    requires ClientOk(c, w) && WillAsk(c) && Direct(c.submit.s)
    ensures ClientOk(SendStep(c), w)
  {
    var after := SendStep(c);
    SameHandle(c, after, w);
    assert forall q :: q in c.asked ==> after.asked[q] == c.asked[q];
    assert after.asked[c.nextQuery] == c.submit.p;
    assert forall p :: p != c.submit.p && NotAsked(c, p) ==> NotAsked(after, p);
    assert c.nextQuery !in c.asked && c.nextQuery !in c.answered;
  }

  lemma ExposeKeeps(c: Client, w: World)
    requires ClientOk(c, w) && WillAsk(c) && !Direct(c.submit.s)
    ensures ClientOk(SendStep(c), w.(exposed := w.exposed + {c.submit.p}))
  {
    var after := SendStep(c);
    SameHandle(c, after, w);
    assert forall p :: NotAsked(after, p) <==> NotAsked(c, p);
  }

  /** Others learn of the proposal only when it goes through a relay. */
  lemma SendKeeps(c: Client, w: World)
    requires ClientOk(c, w)
    ensures ClientOk(SendStep(c), w.(exposed := w.exposed + Exposed(c, Send)))
  {
    var after := SendStep(c);
    if !c.submit.Saved? || !Sendable(c) {
      QuietKeeps(c, w);
    } else if Receipt(c).Some? {
      ReceiptIsReal(c, w);
      SettleKeeps(c, w, c.submit.p, c.submit.s, Receipt(c).value);
    } else if Direct(c.submit.s) {
      AskKeeps(c, w);
      assert w.exposed + {} == w.exposed;
    } else {
      ExposeKeeps(c, w);
    }
  }

  /** Clearing the row after a final rejection: nothing can bring the proposal
      into the log any more. */
  lemma BuryKeeps(c: Client, w: World, p: Proposal)
    requires ClientOk(c, w) && IsPending(c, p) && Unsent(c, w, p)
    ensures ClientOk(c.(h := c.h.(db := ClearPending(c.h.db, p)), rejected := c.rejected + {p}, submit := Quiet), w)
  {
    JournalWrite(c.h, w, None);
    var after := c.(h := c.h.(db := ClearPending(c.h.db, p)), rejected := c.rejected + {p}, submit := Quiet);
    assert forall q :: NotAsked(after, q) <==> NotAsked(c, q);
  }

  lemma AnswerKeeps(c: Client, w: World, p: Proposal, s: Session, final: bool, answer: Answer)
    requires ClientOk(c, w) && IsPending(c, p) && RealAnswer(w, answer)
    requires final && answer.Reject? && Definitive(answer.code) ==> Unsent(c, w, p)
    ensures ClientOk(AnswerStep(c, p, s, final, answer), w)
  {
    match answer
    case Accept(e) => SettleKeeps(c, w, p, s, e);
    case Repeat(e) => SettleKeeps(c, w, p, s, e);
    case Reject(code) =>
      if !KnownCode(code) {
        DropKeeps(c, w, Disconnected(c.h, s));
        QuietKeeps(c.(h := Disconnected(c.h, s)), w);
      } else if Receipt(c).Some? {
        ReceiptIsReal(c, w);
        SettleKeeps(c, w, p, s, Receipt(c).value);
      } else if final && Definitive(code) {
        BuryKeeps(c, w, p);
      } else {
        QuietKeeps(c, w);
      }
  }

  lemma ReceiveKeeps(c: Client, w: World, answer: Answer)
    requires ClientOk(c, w) && Possible(c, w, Receive(answer))
    ensures ClientOk(ReceiveStep(c, answer), w)
  {
    match c.submit
    case Waiting(p, s, first, Some(q)) =>
      if q in c.answered {
        if first { assert FirstQuery(c, w, p, q); }
        AnswerKeeps(c, w, p, s, first, c.answered[q]);
      }
    case Waiting(p, s, first, None) => AnswerKeeps(c, w, p, s, false, answer);
    case _ =>
  }

  lemma LoseKeeps(c: Client, w: World)
    requires ClientOk(c, w)
    ensures ClientOk(LoseStep(c), w)
  {
    match c.submit
    case Waiting(p, s, _, _) =>
      if Receipt(c).Some? {
        ReceiptIsReal(c, w);
        SettleKeeps(c, w, p, s, Receipt(c).value);
      } else {
        QuietKeeps(c, w);
      }
    case _ =>
  }

  lemma StoredContains(rows: seq<Committed>, e: Committed)
    requires e in rows
    ensures Contains(rows, e.proposal)
  {
    var i :| 0 <= i < |rows| && rows[i] == e;
    assert rows[i].proposal == e.proposal;
  }

  /** The handle part of offering the submitted event. */
  lemma OfferKeepsHandle(c: Client, w: World, sc: ProcessScript)
    requires WorldOk(w) && ClientOk(c, w) && RealSync(w, sc.sync)
    requires c.submit.Offering? && c.ingest.Ready?
    ensures var after := OfferStep(c, sc);
            && HandleOk(after.h, w) && LoopOk(after)
            && GrewFrom(after.h.db, c.h.db, ProcessOffered(c.submit.e, sc))
            && (after.submit == Quiet
                || (after.submit == Durable(c.submit.p) && Contains(RowsInOrder(after.h.db), c.submit.p)))
  {
    ReadyIsLive(c, w);
    ProcessKeepsHandle(c.h, w, c.submit.s, c.submit.e, sc);
    var r := ProcessCanonical(c.h, c.submit.s, c.submit.e, sc);
    if r.durable { StoredContains(RowsInOrder(r.after.db), c.submit.e); }
  }

  lemma OfferKeeps(c: Client, w: World, sc: ProcessScript)
    requires WorldOk(w) && ClientOk(c, w) && Possible(c, w, Offer(sc))
    ensures ClientOk(OfferStep(c, sc), w)
  {
    if c.submit.Offering? && c.ingest.Ready? {
      OfferKeepsHandle(c, w, sc);
      var after := OfferStep(c, sc);
      var quiet := c.(submit := Quiet);
      QuietKeeps(c, w);
      KeptSubmission(quiet, after.(submit := Quiet), ProcessOffered(c.submit.e, sc), w);
      assert forall q :: NotAsked(after, q) <==> NotAsked(quiet, q);
      assert QueriesOk(after, w) && OutcomesOk(after, w);
      assert IsPending(after, c.submit.p);
    }
  }

  lemma AbandonKeeps(c: Client, w: World)
    requires ClientOk(c, w)
    ensures ClientOk(AbandonStep(c), w)
  {
    match c.submit
    case Offering(_, s, _) =>
      DropKeeps(c, w, Disconnected(c.h, s));
      QuietKeeps(c.(h := Disconnected(c.h, s)), w);
    case _ =>
  }

  lemma ClearKeeps(c: Client, w: World)
    requires ClientOk(c, w)
    ensures ClientOk(ClearStep(c), w)
  {
    match c.submit
    case Durable(p) =>
      JournalWrite(c.h, w, None);
      var after := ClearStep(c);
      assert forall q :: NotAsked(after, q) <==> NotAsked(c, q);
    case _ =>
  }

  /** Discarding frees the journal of an idle member, and nothing but that. */
  lemma DiscardKeeps(c: Client, w: World)
    requires ClientOk(c, w)
    ensures ClientOk(DiscardStep(c), w)
    ensures c.submit == Quiet ==> DiscardStep(c).h.db.pending.None?
    ensures RowsInOrder(DiscardStep(c).h.db) == RowsInOrder(c.h.db) && DiscardStep(c).rejected == c.rejected
    ensures c.submit != Quiet ==> DiscardStep(c) == c
  {
    SameRows(c.h.db, DiscardStep(c).h.db);
    if c.submit.Quiet? {
      JournalWrite(c.h, w, None);
      var after := DiscardStep(c);
      assert forall q :: NotAsked(after, q) <==> NotAsked(c, q);
    }
  }

  /** A reset takes place exactly when nothing is being submitted or journaled; it
      changes the key, drops the session, and touches nothing else. */
  lemma ResetKeeps(c: Client, w: World, key: Key)
    requires ClientOk(c, w)
    ensures ClientOk(ResetStep(c, key), w)
    ensures c.submit != Quiet || c.h.db.pending.Some? ==> ResetStep(c, key) == c
    ensures c.submit == Quiet && c.h.db.pending.None? ==>
              var after := ResetStep(c, key);
              && after.key == key && after.h.session.None?
              && after == c.(key := after.key, h := c.h.(session := None))
  {
    if c.submit.Quiet? && c.h.db.pending.None? {
      var dropped := c.(h := c.h.(session := None));
      DropKeeps(c, w, dropped.h);
      assert forall q :: NotAsked(ResetStep(c, key), q) <==> NotAsked(dropped, q);
    }
  }

  /** Opening the database again after a crash always succeeds on a right clock,
      and can at most drop the cached state. */
  lemma ReopenOk(h: Handle, w: World, now: Instant)
    requires HandleOk(h, w) && VerifyGenesis(w.genesis, now)
    ensures Reopen(h.db, now) == Ok(h.db) || Reopen(h.db, now) == Ok(h.db.(cached := None))
  {
    ReopenRepairsOnlyState(h.db, RowsInOrder(h.db), now);
  }

  lemma ReopenKeeps(h: Handle, w: World, now: Instant, db: ClientDb)
    requires HandleOk(h, w) && Reopen(h.db, now) == Ok(db)
    ensures HandleOk(Handle(db, None, None, 0, h.notified), w)
    ensures RowsInOrder(db) == RowsInOrder(h.db) && db.pending == h.db.pending
  {
    assert db == h.db || db == h.db.(cached := None);
    RowsAreTheLog(db, RowsInOrder(h.db));
  }

  /** A crash loses the session, the submission and the answers, and keeps the rows,
      the journal, the identity and the queries already on their way. */
  lemma CrashForgets(c: Client, w: World, now: Instant)
    requires ClientOk(c, w) && VerifyGenesis(w.genesis, now)
    ensures var after := CrashStep(c, now);
            && after.h.session.None? && after.h.projection.None? && after.ingest == Ready && after.submit == Quiet
            && after.answered == map[] && after.asked == c.asked && after.key == c.key
            && RowsInOrder(after.h.db) == RowsInOrder(c.h.db) && after.h.db.pending == c.h.db.pending
            && after.h.notified == c.h.notified
  {
    hide RowsInOrder, Healthy, Reopen;
    ReopenOk(c.h, w, now);
    SameRows(c.h.db, c.h.db.(cached := None));
  }

  lemma CrashKeeps(c: Client, w: World, now: Instant)
    requires ClientOk(c, w)
    ensures ClientOk(CrashStep(c, now), w)
  {
    if Reopen(c.h.db, now).Ok? {
      var db := Reopen(c.h.db, now).value;
      ReopenKeeps(c.h, w, now, db);
      var after := CrashStep(c, now);
      assert forall q :: NotAsked(after, q) <==> NotAsked(c, q);
    }
  }

  /** Every step of a member keeps its invariant. */
  lemma StepKeeps(c: Client, w: World, a: Action)
    requires WorldOk(w) && ClientOk(c, w) && Possible(c, w, a)
    ensures ClientOk(ClientStep(c, a), w.(exposed := w.exposed + Exposed(c, a)))
  {
    assert !a.Send? ==> w.exposed + Exposed(c, a) == w.exposed;
    match a
    case Connect(s, sync, told) => ConnectKeeps(c, w, s, sync, told);
    case Drop => DropKeeps(c, w, c.h.(session := None));
    case Process(s, e, sc) => ProcessStepKeeps(c, w, s, e, sc);
    case CloseFailed => CloseKeeps(c, w);
    case Save(p, s) => SaveKeeps(c, w, p, s);
    case Retry(s) => RetryKeeps(c, w, s);
    case Send => SendKeeps(c, w);
    case Receive(answer) => ReceiveKeeps(c, w, answer);
    case Lose => LoseKeeps(c, w);
    case Offer(sc) => OfferKeeps(c, w, sc);
    case Abandon => AbandonKeeps(c, w);
    case Clear => ClearKeeps(c, w);
    case Discard => DiscardKeeps(c, w);
    case Reset(key) => ResetKeeps(c, w, key);
    case Crash(now) => CrashKeeps(c, w, now);
  }

  // ---- When the rest of the world moves ---------------------------------

  /** What others do: the log may take a proposal the member did not keep to
      itself, and others may expose proposals that are not the member's. */
  ghost predicate Outside(c: Client, w: World, next: World) {
    && next.genesis == w.genesis && w.log <= next.log && w.exposed <= next.exposed
    && (forall p :: p in c.made && p in next.exposed ==> p in w.exposed)
    && (forall p :: p in c.made && Contains(next.log, p) ==> Contains(w.log, p) || p in w.exposed)
  }

  lemma OutsideKeeps(c: Client, w: World, next: World)
    requires ClientOk(c, w) && Outside(c, w, next)
    ensures ClientOk(c, next)
  {
    assert forall e :: Real(w, e) ==> Real(next, e);
    assert forall p :: p in c.made && Unsent(c, w, p) ==> Unsent(c, next, p);
    assert PhaseOk(c, next) by {
      match c.submit
      case Waiting(p, _, first, Some(q)) => assert p in c.made;
      case _ =>
    }
  }

  /** The sequencer takes one of the member's queries from the network, and the
      answer sets out. */
  function Arrived(c: Client, q: nat, answer: Answer): Client {
    c.(asked := c.asked - {q}, answered := c.answered[q := answer])
  }

  /** The log took at most the proposal of query `q`, and the answer is true. */
  ghost predicate Handled(c: Client, w: World, next: World, q: nat, answer: Answer) {
    && q in c.asked
    && next.genesis == w.genesis && next.exposed == w.exposed && w.log <= next.log
    && (forall p :: Contains(next.log, p) ==> Contains(w.log, p) || p == c.asked[q])
    && RealAnswer(next, answer)
    && (answer.Reject? && Definitive(answer.code) ==> next.log == w.log)
  }

  lemma ArrivedOutcomes(c: Client, w: World, next: World, q: nat, answer: Answer)
    requires QueriesOk(c, w) && OutcomesOk(c, w) && Handled(c, w, next, q, answer)
    ensures QueriesOk(Arrived(c, q, answer), next) && OutcomesOk(Arrived(c, q, answer), next)
  {
    var after := Arrived(c, q, answer);
    assert forall e :: Real(w, e) ==> Real(next, e);
    assert forall p :: NotAsked(c, p) ==> p != c.asked[q] && NotAsked(after, p);
  }

  lemma ArrivedPhase(c: Client, w: World, next: World, q: nat, answer: Answer)
    requires QueriesOk(c, w) && PhaseOk(c, w) && Handled(c, w, next, q, answer)
    ensures PhaseOk(Arrived(c, q, answer), next)
  {
    var after := Arrived(c, q, answer);
    match c.submit
    case Saved(p, _, first) =>
      if first { assert p != c.asked[q] && NotAsked(after, p); }
    case Waiting(p, _, first, Some(r)) =>
      if first { assert FirstQuery(c, w, p, r); assert FirstQuery(after, next, p, r); }
    case _ =>
  }

  lemma ArrivedKeeps(c: Client, w: World, next: World, q: nat, answer: Answer)
    requires ClientOk(c, w) && Handled(c, w, next, q, answer)
    ensures ClientOk(Arrived(c, q, answer), next)
  {
    ArrivedOutcomes(c, w, next, q, answer);
    ArrivedPhase(c, w, next, q, answer);
  }

  // ---- What only grows --------------------------------------------------

  /** Reported outcomes, notifications and stored rows are never taken back. */
  ghost predicate Onward(c: Client, after: Client) {
    && c.made <= after.made && c.succeeded <= after.succeeded && c.rejected <= after.rejected
    && c.h.notified <= after.h.notified
    && RowsInOrder(c.h.db) <= RowsInOrder(after.h.db)
  }

  /** A step that writes at most the journal row and moves nothing else back. */
  predicate JournalOnly(c: Client, after: Client) {
    && after.h.db == c.h.db.(pending := after.h.db.pending)
    && after.h.notified == c.h.notified
    && c.made <= after.made && c.succeeded <= after.succeeded && c.rejected <= after.rejected
  }

  lemma JournalOnlyIsOnward(c: Client, after: Client)
    requires Healthy(c.h.db) && JournalOnly(c, after)
    ensures Onward(c, after)
  {
    RowsAreTheLog(after.h.db, RowsInOrder(c.h.db));
  }

  lemma ReceiveIsJournalOnly(c: Client, answer: Answer)
    ensures JournalOnly(c, ReceiveStep(c, answer))
  {
  }

  lemma SendIsJournalOnly(c: Client)
    ensures JournalOnly(c, SendStep(c)) && JournalOnly(c, LoseStep(c)) && JournalOnly(c, AbandonStep(c))
  {
  }

  lemma RestIsJournalOnly(c: Client, p: Proposal, s: Session)
    ensures JournalOnly(c, SaveStep(c, p, s)) && JournalOnly(c, RetryStep(c, s)) && JournalOnly(c, CloseStep(c))
    ensures JournalOnly(c, ClearStep(c)) && JournalOnly(c, DiscardStep(c))
    ensures forall key :: JournalOnly(c, ResetStep(c, key))
    ensures JournalOnly(c, c.(h := c.h.(session := None)))
  {
  }

  lemma JournalSteps(c: Client, a: Action)
    requires !a.Connect? && !a.Process? && !a.Offer? && !a.Crash?
    ensures JournalOnly(c, ClientStep(c, a))
  {
    match a
    case Save(p, s) => RestIsJournalOnly(c, p, s);
    case Send => SendIsJournalOnly(c);
    case Lose => SendIsJournalOnly(c);
    case Abandon => SendIsJournalOnly(c);
    case Receive(answer) => ReceiveIsJournalOnly(c, answer);
    case _ =>
  }

  /** The steps that run an operation under the history lock, or restart. */
  lemma OperationIsOnward(c: Client, w: World, a: Action)
    requires WorldOk(w) && ClientOk(c, w) && Possible(c, w, a)
    requires a.Process? || a.Offer? || a.Crash?
    ensures Onward(c, ClientStep(c, a))
  {
    hide Rooms.ProcessCanonical, SyncSession, Reopen, RowsInOrder, Healthy, QueriesOk, OutcomesOk, NotifiedInOrder;
    match a
    case Process(s, e, sc) =>
      if c.ingest.Ready? { ReadyIsLive(c, w); ProcessKeepsHandle(c.h, w, s, e, sc); }
    case Offer(sc) =>
      if c.submit.Offering? && c.ingest.Ready? {
        ReadyIsLive(c, w);
        ProcessKeepsHandle(c.h, w, c.submit.s, c.submit.e, sc);
      }
    case Crash(now) =>
      if Reopen(c.h.db, now).Ok? { ReopenKeeps(c.h, w, now, Reopen(c.h.db, now).value); }
  }

  lemma StepIsOnward(c: Client, w: World, a: Action)
    requires WorldOk(w) && ClientOk(c, w) && Possible(c, w, a)
    ensures Onward(c, ClientStep(c, a))
  {
    if a.Process? || a.Offer? || a.Crash? {
      OperationIsOnward(c, w, a);
    } else if a.Connect? {
      if c.h.session.None? { SyncKeeps(c.h.(session := Some(a.s)), a.s, a.sync); }
    } else {
      JournalSteps(c, a);
      JournalOnlyIsOnward(c, ClientStep(c, a));
    }
  }

  /** The journaled operation is still there, or the member was told its outcome, or
      discarded it. */
  predicate StillPending(after: Client, p: Proposal, discarded: bool) {
    || IsPending(after, p)
    || (after.h.db.pending.None? && (p in after.succeeded || p in after.rejected || discarded))
  }

  /** No step loses a journaled operation silently. */
  lemma JournalIsNotLost(c: Client, w: World, a: Action, p: Proposal)
    requires WorldOk(w) && ClientOk(c, w) && Possible(c, w, a) && IsPending(c, p)
    ensures StillPending(ClientStep(c, a), p, a.Discard?)
  {
    if a.Process? || a.Offer? || a.Crash? {
      OperationKeepsJournal(c, w, a, p);
    } else if a.Connect? {
      if c.h.session.None? { SyncKeeps(c.h.(session := Some(a.s)), a.s, a.sync); }
    } else {
      JournalStepTells(c, w, a, p);
    }
  }

  lemma OperationKeepsJournal(c: Client, w: World, a: Action, p: Proposal)
    requires WorldOk(w) && ClientOk(c, w) && Possible(c, w, a) && IsPending(c, p)
    requires a.Process? || a.Offer? || a.Crash?
    ensures IsPending(ClientStep(c, a), p)
  {
    hide Rooms.ProcessCanonical, SyncSession, Reopen, RowsInOrder, Healthy, QueriesOk, OutcomesOk, NotifiedInOrder;
    match a
    case Process(s, e, sc) =>
      if c.ingest.Ready? { ReadyIsLive(c, w); ProcessKeepsHandle(c.h, w, s, e, sc); }
    case Offer(sc) =>
      if c.submit.Offering? && c.ingest.Ready? {
        ReadyIsLive(c, w);
        ProcessKeepsHandle(c.h, w, c.submit.s, c.submit.e, sc);
      }
    case Crash(now) =>
      if Reopen(c.h.db, now).Ok? { ReopenKeeps(c.h, w, now, Reopen(c.h.db, now).value); }
  }

  lemma JournalStepTells(c: Client, w: World, a: Action, p: Proposal)
    requires ClientOk(c, w) && IsPending(c, p)
    requires !a.Connect? && !a.Process? && !a.Offer? && !a.Crash?
    ensures StillPending(ClientStep(c, a), p, a.Discard?)
  {
    hide HandleOk, QueriesOk, OutcomesOk, LoopOk, VerifyAt;
    assert PhaseOk(c, w);
  }
}
