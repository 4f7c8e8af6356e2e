// The room state that a canonical event log determines, and what every
// replayable log satisfies.
module Replay {
  import opened Wrappers
  import opened Ordered
  import opened Community

  datatype Refusal = Unverified | NonContiguous | Unauthorized | Conflict | LimitReached | NoMessage

  /** The value of a projection: its head, its state and the known messages. */
  datatype Proj = Proj(
    genesis: Genesis, revisionSeqno: int, revisionHash: Hash, content: Content,
    headSeq: int, headHash: Hash, messages: set<int>)

  function NewProj(g: Genesis): Proj {
    Proj(g, 0, GenesisHash(g), InitialContent(g), 0, ZeroHash, {})
  }

  /** Who may author which event, given the current roles and write policy. */
  predicate Authorized(roomKey: Key, c: Content, p: Proposal) {
    var owner := p.author == roomKey;
    var admin := p.author in c.admins;
    var moderator := p.author in c.moderators;
    match p.body
    case Message(_) => c.anyoneCanWrite || owner || admin
    case Metadata(_, _) => owner || admin
    case WritePolicy(_) => owner || admin
    case Pin(_) => owner || admin || moderator
    case Unpin(_) => owner || admin || moderator
    case AdminGrant(_) => owner
    case AdminRevoke(_) => owner
    case ModeratorGrant(_) => owner || admin
    case ModeratorRevoke(_) => owner || admin
  }

  function Grant(roomKey: Key, roles: seq<Key>, limit: nat, key: Key): Result<seq<Key>, Refusal> {
    if key == roomKey || key in roles then Err(Conflict)
    else if |roles| >= limit then Err(LimitReached)
    else Ok(Sort(roles + [key]))
  }

  function Revoke(roomKey: Key, roles: seq<Key>, key: Key): Result<seq<Key>, Refusal> {
    if key == roomKey || key !in roles then Err(Conflict)
    else Ok(Without(roles, key))
  }

  function WithAdmins(c: Content, r: Result<seq<Key>, Refusal>): Result<Content, Refusal> {
    match r case Ok(keys) => Ok(c.(admins := keys)) case Err(e) => Err(e)
  }

  function WithModerators(c: Content, r: Result<seq<Key>, Refusal>): Result<Content, Refusal> {
    match r case Ok(keys) => Ok(c.(moderators := keys)) case Err(e) => Err(e)
  }

  /** The content after one state-changing event. */
  function ApplyBody(roomKey: Key, c: Content, messages: set<int>, body: Body): Result<Content, Refusal>
  {
    match body
    case Message(_) => Ok(c)
    case Metadata(name, description) => Ok(c.(name := name, description := description))
    case WritePolicy(anyone) => Ok(c.(anyoneCanWrite := anyone))
    case Pin(id) =>
      if id !in messages then Err(NoMessage)
      else if id in c.pins then Err(Conflict)
      else if |c.pins| >= MAX_PINS then Err(LimitReached)
      else Ok(c.(pins := Sort(c.pins + [id])))
    case Unpin(id) =>
      if id !in c.pins then Err(Conflict) else Ok(c.(pins := Without(c.pins, id)))
    case AdminGrant(key) => WithAdmins(c, Grant(roomKey, c.admins, MAX_ADMINS, key))
    case AdminRevoke(key) => WithAdmins(c, Revoke(roomKey, c.admins, key))
    case ModeratorGrant(key) => WithModerators(c, Grant(roomKey, c.moderators, MAX_MODERATORS, key))
    case ModeratorRevoke(key) => WithModerators(c, Revoke(roomKey, c.moderators, key))
  }

  predicate Follows(p: Proj, e: Committed) {
    e.seqno == p.headSeq + 1 && e.previous == p.headHash
  }

  /** The projection after one canonical event, or why it is refused. */
  function Apply(p: Proj, e: Committed): Result<Proj, Refusal> {
    if VerifyCommit(e, p.genesis.roomKey, p.genesis.nodeKey).Err? then Err(Unverified)
    else if !Follows(p, e) then Err(NonContiguous)
    else if !Authorized(p.genesis.roomKey, p.content, e.proposal) then Err(Unauthorized)
    else if e.proposal.body.Message? then
      Ok(p.(headSeq := e.seqno, headHash := CommitHash(e), messages := p.messages + {e.messageId}))
    else
      match ApplyBody(p.genesis.roomKey, p.content, p.messages, e.proposal.body)
      case Err(why) => Err(why)
      case Ok(content) =>
        Ok(p.(headSeq := e.seqno, headHash := CommitHash(e), content := content,
              revisionSeqno := e.seqno, revisionHash := CommitHash(e)))
  }

  /** The projection of a whole log. */
  function Fold(g: Genesis, log: seq<Committed>): Result<Proj, Refusal> {
    if log == [] then Ok(NewProj(g))
    else
      match Fold(g, log[..|log| - 1])
      case Err(why) => Err(why)
      case Ok(p) => Apply(p, log[|log| - 1])
  }

  predicate Replays(g: Genesis, log: seq<Committed>) {
    Fold(g, log).Ok?
  }

  function Projected(g: Genesis, log: seq<Committed>): Proj
    requires Replays(g, log)
  {
    Fold(g, log).value
  }

  lemma FoldAppend(g: Genesis, log: seq<Committed>, e: Committed)
    ensures Fold(g, log + [e]) ==
            if Replays(g, log) then Apply(Projected(g, log), e) else Fold(g, log)
  {
    assert (log + [e])[..|log|] == log;
  }

  lemma {:induction false} FoldPrefix(g: Genesis, log: seq<Committed>, n: nat)
    requires Replays(g, log) && n <= |log|
    ensures Replays(g, log[..n])
  {
    if n < |log| {
      FoldPrefix(g, log[..|log| - 1], n);
      assert log[..|log| - 1][..n] == log[..n];
    } else {
      assert log[..n] == log;
    }
  }

  /** A signed state agrees with a projection in every field. */
  predicate StateMatches(p: Proj, s: RoomState) {
    && VerifyState(s)
    && s.roomId == p.genesis.roomKey
    && s.revisionSeqno == p.revisionSeqno
    && s.revisionHash == p.revisionHash
    && s.content == p.content
  }

  // ---- What a replayable log satisfies ----------------------------------

  function HeadHash(log: seq<Committed>): Hash {
    if log == [] then ZeroHash else CommitHash(log[|log| - 1])
  }

  /** Consecutive numbering from one, each commit naming its predecessor. */
  predicate Chained(log: seq<Committed>) {
    forall i :: 0 <= i < |log| ==> log[i].seqno == i + 1 && log[i].previous == HeadHash(log[..i])
  }

  predicate Numbered(log: seq<Committed>) {
    forall i :: 0 <= i < |log| ==> log[i].seqno == i + 1
  }

  /** The event with canonical number `n`. */
  function Nth(log: seq<Committed>, n: int): Committed
    requires 1 <= n <= |log|
  {
    log[n - 1]
  }

  predicate IsMessage(e: Committed) { e.proposal.body.Message? }

  /** Number of the last state-changing event, or zero. */
  function LatestChange(log: seq<Committed>): nat {
    if log == [] then 0
    else if !IsMessage(log[|log| - 1]) then |log|
    else LatestChange(log[..|log| - 1])
  }

  function RevisionHash(g: Genesis, log: seq<Committed>, revision: nat): Hash
    requires revision <= |log|
  {
    if revision == 0 then GenesisHash(g) else CommitHash(log[revision - 1])
  }

  lemma LatestChangeBounds(log: seq<Committed>)
    ensures LatestChange(log) <= |log|
    ensures LatestChange(log) > 0 ==> !IsMessage(log[LatestChange(log) - 1])
    ensures forall i :: LatestChange(log) <= i < |log| ==> IsMessage(log[i])
  {
    if log == [] {
    } else {
      var n := |log|;
      assert forall i :: 0 <= i < n - 1 ==> log[..n - 1][i] == log[i];
      LatestChangeBounds(log[..n - 1]);
    }
  }

  predicate MessageAt(log: seq<Committed>, id: int) {
    1 <= id <= |log| && IsMessage(log[id - 1])
  }

  /** Signed-state order, limits, and the owner never holding a delegated role. */
  predicate GoodContent(roomKey: Key, c: Content) {
    CanonicalContent(c) && roomKey !in c.admins && roomKey !in c.moderators
  }

  /** Every property of a replayed projection, in terms of its log. */
  ghost predicate Describes(p: Proj, g: Genesis, log: seq<Committed>) {
    && p.genesis == g
    && Chained(log)
    && p.headSeq == |log| && p.headHash == HeadHash(log)
    && (forall e :: e in log ==> VerifyCommit(e, g.roomKey, g.nodeKey).Ok?)
    && (forall id :: id in p.messages <==> MessageAt(log, id))
    && LatestChange(log) <= |log|
    && p.revisionSeqno == LatestChange(log)
    && p.revisionHash == RevisionHash(g, log, LatestChange(log))
    && GoodContent(g.roomKey, p.content)
  }

  /** One accepted body keeps the lists strictly sorted, within their limits and
      free of the owner. */
  lemma ApplyBodyKeepsCanonical(roomKey: Key, c: Content, messages: set<int>, body: Body)
    requires GoodContent(roomKey, c) && ValidBody(body)
    requires ApplyBody(roomKey, c, messages, body).Ok?
    ensures GoodContent(roomKey, ApplyBody(roomKey, c, messages, body).value)
  {
    match body
    case Pin(id) => SortAppend(c.pins, id); SortMembers(c.pins, id);
    case Unpin(id) => WithoutIncreasing(c.pins, id); WithoutMembers(c.pins, id);
    case AdminGrant(key) => SortAppend(c.admins, key); SortMembers(c.admins, key);
    case AdminRevoke(key) => WithoutIncreasing(c.admins, key); WithoutMembers(c.admins, key);
    case ModeratorGrant(key) => SortAppend(c.moderators, key); SortMembers(c.moderators, key);
    case ModeratorRevoke(key) => WithoutIncreasing(c.moderators, key); WithoutMembers(c.moderators, key);
    case _ =>
  }

  lemma SortMembers(s: seq<int>, x: int)
    requires StrictlyIncreasing(s) && x !in s
    ensures forall v :: v in Sort(s + [x]) <==> v in s || v == x
  {
    SortAppend(s, x);
    forall v ensures v in Sort(s + [x]) <==> v in s || v == x {
      MembersOfElements(Sort(s + [x]), v);
      MembersOfElements(s, v);
    }
  }

  lemma WithoutMembers(s: seq<int>, x: int)
    requires StrictlyIncreasing(s) && x in s
    ensures forall v :: v in Without(s, x) <==> v in s && v != x
  {
    WithoutIncreasing(s, x);
    forall v ensures v in Without(s, x) <==> v in s && v != x {
      MembersOfElements(Without(s, x), v);
      MembersOfElements(s, v);
    }
  }

  lemma ChainedGrown(log: seq<Committed>, e: Committed)
    requires Chained(log) && e.seqno == |log| + 1 && e.previous == HeadHash(log)
    ensures Chained(log + [e]) && HeadHash(log + [e]) == CommitHash(e)
  {
    var grown := log + [e];
    forall i | 0 <= i < |grown| ensures grown[i].seqno == i + 1 && grown[i].previous == HeadHash(grown[..i]) {
      assert grown[..i] == log[..i];
      if i == |log| { assert log[..i] == log; }
    }
  }

  lemma MessageAtGrown(log: seq<Committed>, e: Committed, id: int)
    ensures MessageAt(log + [e], id) <==> MessageAt(log, id) || (id == |log| + 1 && IsMessage(e))
  {
  }

  lemma LatestChangeGrown(g: Genesis, log: seq<Committed>, e: Committed)
    requires LatestChange(log) <= |log|
    ensures LatestChange(log + [e]) == if IsMessage(e) then LatestChange(log) else |log| + 1
    ensures RevisionHash(g, log + [e], LatestChange(log + [e]))
            == if IsMessage(e) then RevisionHash(g, log, LatestChange(log)) else CommitHash(e)
  {
    assert (log + [e])[..|log|] == log;
  }

  lemma ApplyKeepsContent(p: Proj, e: Committed)
    requires GoodContent(p.genesis.roomKey, p.content) && Apply(p, e).Ok?
    ensures GoodContent(p.genesis.roomKey, Apply(p, e).value.content)
  {
    if !IsMessage(e) {
      ApplyBodyKeepsCanonical(p.genesis.roomKey, p.content, p.messages, e.proposal.body);
    }
  }

  /** What applying an event moves, the content aside. */
  lemma ApplyMoves(p: Proj, e: Committed)
    requires Apply(p, e).Ok?
    ensures VerifyCommit(e, p.genesis.roomKey, p.genesis.nodeKey).Ok? && Follows(p, e)
    ensures var after := Apply(p, e).value;
            && after.genesis == p.genesis && after.headSeq == e.seqno && after.headHash == CommitHash(e)
            && after.messages == (if IsMessage(e) then p.messages + {e.seqno} else p.messages)
            && (IsMessage(e) ==> after.revisionSeqno == p.revisionSeqno && after.revisionHash == p.revisionHash)
            && (!IsMessage(e) ==> after.revisionSeqno == e.seqno && after.revisionHash == CommitHash(e))
  {
  }

  /** One applied event extends the description by that event. */
  lemma ApplyDescribes(p: Proj, g: Genesis, log: seq<Committed>, e: Committed)
    requires Describes(p, g, log) && Apply(p, e).Ok?
    ensures Describes(Apply(p, e).value, g, log + [e])
  {
    hide Apply, VerifyCommit, GoodContent, Chained, LatestChange, RevisionHash;
    ApplyMoves(p, e);
    ApplyKeepsContent(p, e);
    ChainedGrown(log, e);
    LatestChangeGrown(g, log, e);
    var after := Apply(p, e).value;
    forall id ensures id in after.messages <==> MessageAt(log + [e], id) {
      MessageAtGrown(log, e, id);
    }
  }

  lemma NothingDescribes(g: Genesis)
    requires ValidGenesis(g)
    ensures Describes(NewProj(g), g, [])
  {
  }

  /** Whatever replays from a valid genesis is hash-chained, verified, and leaves
      a canonical state whose revision is the last state change. */
  lemma {:induction false} FoldDescribes(g: Genesis, log: seq<Committed>)
    requires ValidGenesis(g) && Replays(g, log)
    ensures Describes(Projected(g, log), g, log)
  {
    hide Apply, Describes;
    if log == [] {
      NothingDescribes(g);
    } else {
      var front := log[..|log| - 1];
      FoldDescribes(g, front);
      ApplyDescribes(Projected(g, front), g, front, log[|log| - 1]);
      assert log == front + [log[|log| - 1]];
    }
  }

  lemma ChainedLast(log: seq<Committed>)
    requires Chained(log) && log != []
    ensures Chained(log[..|log| - 1]) && log[|log| - 1].previous == HeadHash(log[..|log| - 1])
  {
    ChainedPrefix(log, |log| - 1);
  }

  /** Symbolic hashes: a head hash determines the whole chain behind it. */
  lemma {:induction false} HeadDeterminesLog(a: seq<Committed>, b: seq<Committed>)
    requires Chained(a) && Chained(b) && HeadHash(a) == HeadHash(b)
    ensures a == b
    decreases |a|
  {
    hide Chained;
    if a == [] {
    } else {
      var a', b' := a[..|a| - 1], b[..|b| - 1];
      assert a[|a| - 1] == b[|b| - 1];
      ChainedLast(a);
      ChainedLast(b);
      HeadDeterminesLog(a', b');
      assert a == a' + [a[|a| - 1]] && b == b' + [b[|b| - 1]];
    }
  }

  lemma ChainedPrefix(log: seq<Committed>, n: nat)
    requires Chained(log) && n <= |log|
    ensures Chained(log[..n])
  {
    forall i | 0 <= i < n ensures log[..n][i].previous == HeadHash(log[..n][..i]) {
      assert log[..n][..i] == log[..i];
    }
  }

  /** Messages appended after the last change leave the content as it was. */
  lemma {:induction false} ContentSince(g: Genesis, log: seq<Committed>, n: nat)
    requires ValidGenesis(g) && Replays(g, log) && LatestChange(log) <= n <= |log|
    ensures Replays(g, log[..n]) && Projected(g, log[..n]).content == Projected(g, log).content
  {
    if n < |log| {
      var front := log[..|log| - 1];
      ContentSince(g, front, n);
      assert front[..n] == log[..n];
    } else {
      assert log[..n] == log;
    }
  }

  /** Only the sequencer signs with the room key: a commit under it is in the log. */
  predicate Genuine(e: Committed, roomKey: Key, log: seq<Committed>) {
    e.signature == By(roomKey) ==> e in log
  }

  // ---- Event identity ---------------------------------------------------

  predicate Contains(log: seq<Committed>, p: Proposal) {
    exists i :: 0 <= i < |log| && log[i].proposal == p
  }

  predicate UniqueIds(log: seq<Committed>) {
    forall i, j :: 0 <= i < j < |log| ==> log[i].proposal != log[j].proposal
  }

  lemma AppendUnique(log: seq<Committed>, e: Committed)
    requires UniqueIds(log) && !Contains(log, e.proposal)
    ensures UniqueIds(log + [e])
  {
  }
}
