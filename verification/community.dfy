// The room protocol's objects: proposals, commits, genesis and signed state,
// with their validation rules.
//
// Cryptography is symbolic. A hash is the term it was computed from, so equal
// hashes come from equal objects; a proposal is its own event id. A signature
// names the key it verifies under for exactly the object that carries it; a
// proposal signature also binds the sequencer's node key. Malformed has the
// wrong length, Forged has the right length and verifies under no key. Keys are their 32
// bytes read as a big-endian number, so bytes.Compare is the order on numbers.
// Instants are nanoseconds since the Unix epoch.
module Community {
  import opened Wrappers
  import opened Ordered

  type Key = int
  type Nonce = int
  type Instant = int

  const SECOND := 1_000_000_000
  const CLOCK_SKEW_SECONDS := 300
  const MUTATION_CLOCK_SKEW := CLOCK_SKEW_SECONDS * SECOND
  const NONCE_RETENTION_SECONDS := 86400

  const MAX_NAME_BYTES := 64
  const MAX_DESCRIPTION_BYTES := 512
  const MAX_NICK_BYTES := 64
  const MAX_DOMAIN_BYTES := 126
  const MAX_MESSAGE_BYTES := 2048
  const MAX_INITIAL_ADMINS := 32
  const MAX_ADMINS := 64
  const MAX_MODERATORS := 256
  const MAX_PINS := 100
  const DEFAULT_PAGE_LIMIT := 100
  const MAX_PAGE_LIMIT := 256

  /** Whole seconds of an instant, rounded down. */
  function Unix(t: Instant): int { t / SECOND }

  datatype Signature = Malformed | Forged | By(signer: Key) | ByFor(signer: Key, node: Key)

  datatype Body =
    | Message(text: string)
    | Pin(messageId: int)
    | Unpin(messageId: int)
    | Metadata(name: string, description: string)
    | WritePolicy(anyoneCanWrite: bool)
    | AdminGrant(subject: Key)
    | AdminRevoke(subject: Key)
    | ModeratorGrant(subject: Key)
    | ModeratorRevoke(subject: Key)

  datatype Proposal = Proposal(
    roomId: Key, author: Key, authorName: string, authorDomain: string,
    nonce: Nonce, timestamp: int, body: Body, signature: Signature)

  datatype Genesis = Genesis(
    roomKey: Key, nodeKey: Key, createdAt: int, name: string, description: string,
    anyoneCanWrite: bool, initialAdmins: seq<Key>, signature: Signature)

  datatype Hash = ZeroHash | GenesisHash(genesis: Genesis) | CommitHash(commit: Committed)

  datatype Committed = Committed(
    seqno: int, messageId: int, previous: Hash, proposal: Proposal,
    committedAt: int, signature: Signature)

  /** What the canonical events determine about a room. */
  datatype Content = Content(
    name: string, description: string, anyoneCanWrite: bool,
    admins: seq<Key>, moderators: seq<Key>, pins: seq<int>)

  datatype RoomState = RoomState(
    roomId: Key, revisionSeqno: int, revisionHash: Hash,
    content: Content, signature: Signature)

  datatype Invalid = WrongRoom | MalformedHash | InvalidBody | InvalidProfile |
                     BadSignature | BadTimestamp | InvalidMetadata | InvalidStateOrder

  // ---- Text -------------------------------------------------------------

  /** Number of bytes in the UTF-8 encoding. */
  function ByteLength(text: string): nat {
    if text == "" then 0
    else ByteLength(text[..|text| - 1]) + CharLength(text[|text| - 1])
  }

  function CharLength(c: char): nat {
    if c as int < 0x80 then 1
    else if c as int < 0x800 then 2
    else if c as int < 0x10000 then 3
    else 4
  }

  predicate IsControl(c: char) {
    c as int < 0x20 || 0x7f <= c as int < 0xa0
  }

  predicate ValidMetadata(name: string, description: string) {
    && name != "" && ByteLength(name) <= MAX_NAME_BYTES
    && (forall c :: c in name ==> !IsControl(c))
    && ByteLength(description) <= MAX_DESCRIPTION_BYTES
    && '\0' !in description
  }

  predicate EndsWith(text: string, suffix: string) {
    |suffix| <= |text| && text[|text| - |suffix|..] == suffix
  }

  /** Labels of a-z, 0-9 and '-' (and '_' under .t.me), none empty and none
      starting or ending with '-'. */
  predicate IsDomainName(domain: string) {
    var telegram := EndsWith(domain, ".t.me");
    && ByteLength(domain) <= MAX_DOMAIN_BYTES
    && (EndsWith(domain, ".ton") || telegram)
    && (forall c :: c in domain ==>
          'a' <= c <= 'z' || '0' <= c <= '9' || c == '-' || c == '.' || (telegram && c == '_'))
    && domain[0] != '.' && domain[0] != '-' && domain[|domain| - 1] != '-'
    && (forall i :: 0 <= i < |domain| - 1 && domain[i] == '.' ==>
          domain[i + 1] != '.' && domain[i + 1] != '-' && (i > 0 ==> domain[i - 1] != '-'))
  }

  predicate ValidProfile(name: string, domain: string) {
    ByteLength(name) <= MAX_NICK_BYTES && (domain == "" || IsDomainName(domain))
  }

  predicate ValidBody(body: Body) {
    match body
    case Message(text) => ByteLength(text) <= MAX_MESSAGE_BYTES
    case Pin(id) => id >= 1
    case Unpin(id) => id >= 1
    case Metadata(name, description) => ValidMetadata(name, description)
    case _ => true
  }

  // ---- Proposals --------------------------------------------------------

  /** A proposal's signature and fields, without the live timestamp window. */
  function VerifyAt(p: Proposal, nodeKey: Key): (r: Result<(), Invalid>) {
    if !ValidProfile(p.authorName, p.authorDomain) then Err(InvalidProfile)
    else if !ValidBody(p.body) then Err(InvalidBody)
    else if p.signature != ByFor(p.author, nodeKey) then Err(BadSignature)
    else Ok(())
  }

  predicate InWindow(timestamp: int, now: Instant) {
    now - MUTATION_CLOCK_SKEW <= timestamp * SECOND <= now + MUTATION_CLOCK_SKEW
  }

  function VerifyProposal(p: Proposal, nodeKey: Key, now: Instant): (r: Result<(), Invalid>) {
    if !ValidProfile(p.authorName, p.authorDomain) then Err(InvalidProfile)
    else if !ValidBody(p.body) then Err(InvalidBody)
    else if p.signature == Malformed then Err(BadSignature)
    else if !InWindow(p.timestamp, now) then Err(BadTimestamp)
    else if p.signature != ByFor(p.author, nodeKey) then Err(BadSignature)
    else Ok(())
  }

  // ---- Commits ----------------------------------------------------------

  /** The commit the sequencer signs; `roomKey` is the public half of its key. */
  function SignCommit(roomKey: Key, p: Proposal, seqno: int, previous: Hash, now: Instant)
    : (r: Result<Committed, Invalid>)
  {
    if roomKey != p.roomId then Err(WrongRoom)
    else if seqno < 1 then Err(MalformedHash)
    else Ok(Committed(seqno, if p.body.Message? then seqno else 0, previous, p, Unix(now), By(roomKey)))
  }

  function VerifyCommit(e: Committed, roomKey: Key, nodeKey: Key): (r: Result<(), Invalid>) {
    if e.proposal.roomId != roomKey then Err(WrongRoom)
    else if e.seqno < 1 || e.committedAt <= 0 then Err(MalformedHash)
    else if e.messageId != (if e.proposal.body.Message? then e.seqno else 0) then Err(InvalidBody)
    else if VerifyAt(e.proposal, nodeKey).Err? then VerifyAt(e.proposal, nodeKey)
    else if e.signature != By(roomKey) then Err(BadSignature)
    else Ok(())
  }

  // ---- Genesis and signed state -----------------------------------------

  /** Genesis validity apart from the wall clock. */
  predicate ValidGenesis(g: Genesis) {
    && g.createdAt > 0
    && ValidMetadata(g.name, g.description)
    && |g.initialAdmins| <= MAX_INITIAL_ADMINS
    && StrictlyIncreasing(g.initialAdmins)
    && g.roomKey !in g.initialAdmins
    && g.signature == By(g.roomKey)
  }

  predicate VerifyGenesis(g: Genesis, now: Instant) {
    ValidGenesis(g) && g.createdAt * SECOND <= now + MUTATION_CLOCK_SKEW
  }

  function InitialContent(g: Genesis): Content {
    Content(g.name, g.description, g.anyoneCanWrite, g.initialAdmins, [], [])
  }

  /** The order and size limits every signed state must meet. */
  predicate CanonicalContent(c: Content) {
    && |c.admins| <= MAX_ADMINS && |c.moderators| <= MAX_MODERATORS && |c.pins| <= MAX_PINS
    && ValidMetadata(c.name, c.description)
    && StrictlyIncreasing(c.admins) && StrictlyIncreasing(c.moderators)
    && StrictlyIncreasing(c.pins) && forall id :: id in c.pins ==> id >= 1
  }

  predicate ValidState(s: RoomState) {
    s.revisionSeqno >= 0 && CanonicalContent(s.content)
  }

  predicate VerifyState(s: RoomState) {
    ValidState(s) && s.signature == By(s.roomId)
  }

  function SignRoomState(roomKey: Key, s: RoomState): (r: Result<RoomState, Invalid>) {
    var sorted := s.content.(admins := Sort(s.content.admins),
                             moderators := Sort(s.content.moderators),
                             pins := Sort(s.content.pins));
    if roomKey != s.roomId then Err(WrongRoom)
    else if !ValidState(s.(content := sorted)) then Err(InvalidStateOrder)
    else Ok(s.(content := sorted, signature := By(roomKey)))
  }

  /** A state whose lists are already canonical is signed unchanged. */
  lemma SignCanonicalState(roomKey: Key, s: RoomState)
    requires roomKey == s.roomId && ValidState(s)
    ensures SignRoomState(roomKey, s) == Ok(s.(signature := By(roomKey)))
  {
    SortIncreasing(s.content.admins);
    SortIncreasing(s.content.moderators);
    SortIncreasing(s.content.pins);
  }

  /** The adjacent-pair scan decides strict order of the whole list. */
  method CanonicalLongs(values: seq<int>) returns (ok: bool)
    ensures ok <==> StrictlyIncreasing(values) && forall v :: v in values ==> v >= 1
  {
    for i := 0 to |values|
      invariant StrictlyIncreasing(values[..i])
      invariant forall v :: v in values[..i] ==> v >= 1
    {
      if values[i] < 1 || (i > 0 && values[i - 1] >= values[i]) {
        assert values[i] in values;
        return false;
      }
      assert values[..i + 1] == values[..i] + [values[i]];
    }
    assert values[..|values|] == values;
    return true;
  }
}
