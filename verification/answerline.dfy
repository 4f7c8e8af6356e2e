// The size of a timeline answer as one line of JSON, and why every valid event
// fits a line of its own.
module AnswerLines {
  import opened Wrappers
  import opened Community
  import opened Replay
  import opened Timelines

  const MAX_LINE_BYTES := 65536

  // ---- Sizes ------------------------------------------------------------

  /** Bytes of one character inside a JSON string. */
  function EscapedChar(c: char): nat {
    if c == '"' || c == '\\' || c == '\n' || c == '\r' || c == '\t' || c as int == 8 || c as int == 12 then 2
    else if c as int < 0x20 || c == '<' || c == '>' || c == '&' || c as int == 0x2028 || c as int == 0x2029 then 6
    else CharLength(c)
  }

  function Escaped(text: string): nat {
    if text == "" then 0 else Escaped(text[..|text| - 1]) + EscapedChar(text[|text| - 1])
  }

  /** Decimal digits of a non-negative number. */
  function Digits(n: int): nat {
    if n < 10 then 1 else 1 + Digits(n / 10)
  }

  function Kind(body: Body): string {
    match body
    case Message(_) => "message"
    case Pin(_) => "pin"
    case Unpin(_) => "unpin"
    case Metadata(_, _) => "metadata"
    case WritePolicy(_) => "write-policy"
    case AdminGrant(_) => "admin-grant"
    case AdminRevoke(_) => "admin-revoke"
    case ModeratorGrant(_) => "moderator-grant"
    case ModeratorRevoke(_) => "moderator-revoke"
  }

  /** The member or members of an item that depend on its kind: the names with
      their punctuation, and the values. A key is 43 characters of base64. */
  function BodySize(body: Body): nat {
    match body
    case Message(text) => 10 + Escaped(text)
    case Pin(id) => 23 + Digits(id)
    case Unpin(id) => 23 + Digits(id)
    case Metadata(name, description) => 27 + Escaped(name) + Escaped(description)
    case WritePolicy(anyone) => 18 + if anyone then 8 else 6
    case AdminGrant(_) => 17 + 43
    case AdminRevoke(_) => 17 + 43
    case ModeratorGrant(_) => 17 + 43
    case ModeratorRevoke(_) => 17 + 43
  }

  /** One item: 119 bytes of names and punctuation, three keys, and the values. */
  function ItemSize(e: Committed): nat {
    119 + 3 * 43 + Escaped(e.proposal.authorDomain) + Escaped(e.proposal.authorName)
    + Digits(e.committedAt) + |Kind(e.proposal.body)| + Digits(e.messageId) + Digits(e.seqno)
    + BodySize(e.proposal.body)
  }

  function ItemsSize(items: seq<Committed>): nat {
    if items == [] then 0
    else ItemsSize(items[..|items| - 1]) + (if |items| > 1 then 1 else 0) + ItemSize(items[|items| - 1])
  }

  /** The answer with its envelope, the caller's request id and the line break. */
  function LineSize(items: seq<Committed>, more: bool, idBytes: nat): nat {
    57 + idBytes + (if more then 4 else 5) + ItemsSize(items) + 1
  }

  function LineFits(idBytes: nat): Fits {
    (items: seq<Committed>, more: bool) => LineSize(items, more, idBytes) <= MAX_LINE_BYTES
  }

  // ---- Bounds -----------------------------------------------------------

  /** Escaping makes no byte longer than six. */
  lemma {:induction false} EscapedBound(text: string)
    ensures Escaped(text) <= 6 * ByteLength(text)
  {
    if text == "" {
    } else {
      EscapedBound(text[..|text| - 1]);
    }
  }

  function Power10(k: nat): nat {
    if k == 0 then 1 else 10 * Power10(k - 1)
  }

  lemma {:induction false} DigitsBound(n: int, k: nat)
    requires 0 <= n < Power10(k) && k > 0
    ensures Digits(n) <= k
    decreases k
  {
    if n < 10 {
    } else {
      DigitsBound(n / 10, k - 1);
    }
  }

  predicate Short(n: int) {
    n < Power10(19)
  }

  /** The numbers of an event have at most 19 digits, as every 64-bit number has. */
  predicate ShortNumbers(e: Committed) {
    && Short(e.seqno) && Short(e.messageId) && Short(e.committedAt)
    && (e.proposal.body.Pin? || e.proposal.body.Unpin? ==> Short(e.proposal.body.messageId))
  }

  lemma BodyBound(body: Body)
    requires ValidBody(body) && (body.Pin? || body.Unpin? ==> Short(body.messageId))
    ensures BodySize(body) <= 10 + 6 * MAX_MESSAGE_BYTES && |Kind(body)| <= 16
  {
    hide Escaped, Digits, Power10;
    match body
    case Message(text) => EscapedBound(text);
    case Pin(id) => DigitsBound(id, 19);
    case Unpin(id) => DigitsBound(id, 19);
    case Metadata(name, description) => EscapedBound(name); EscapedBound(description);
    case _ =>
  }

  lemma ProfileBound(name: string, domain: string)
    requires ValidProfile(name, domain)
    ensures Escaped(name) <= 6 * MAX_NICK_BYTES && Escaped(domain) <= 6 * MAX_DOMAIN_BYTES
  {
    EscapedBound(name);
    EscapedBound(domain);
    if domain == "" { assert ByteLength(domain) == 0; }
  }

  /** An event that passes verification takes less than 14000 bytes. */
  lemma ItemBound(e: Committed, roomKey: Key, nodeKey: Key)
    requires VerifyCommit(e, roomKey, nodeKey).Ok? && ShortNumbers(e)
    ensures ItemSize(e) < 14000
  {
    hide Escaped, Digits, Power10, BodySize, ValidProfile, ValidBody, Kind;
    assert ValidProfile(e.proposal.authorName, e.proposal.authorDomain) && ValidBody(e.proposal.body);
    ProfileBound(e.proposal.authorName, e.proposal.authorDomain);
    BodyBound(e.proposal.body);
    DigitsBound(e.seqno, 19);
    DigitsBound(e.committedAt, 19);
    DigitsBound(e.messageId, 19);
  }

  lemma SingleLine(e: Committed, more: bool, idBytes: nat)
    requires ItemSize(e) < 14000 && idBytes <= 50000
    ensures LineFits(idBytes)([e], more)
  {
    assert [e][..0] == [];
    assert ItemsSize([e]) == ItemSize(e);
  }

  /** Every event of every valid log fits a line of its own, whatever it says,
      unless the caller's request id takes up the line. */
  lemma ValidLogFits(g: Genesis, log: seq<Committed>, idBytes: nat)
    requires ValidGenesis(g) && Replays(g, log) && idBytes <= 50000
    requires forall e :: e in log ==> ShortNumbers(e)
    ensures SinglesFit(LineFits(idBytes), log)
  {
    hide ItemSize, LineFits, VerifyCommit, ShortNumbers;
    FoldDescribes(g, log);
    EmptyLine(idBytes);
    forall i | 0 <= i < |log| ensures LineFits(idBytes)([log[i]], i > 0) {
      assert log[i] in log;
      ItemBound(log[i], g.roomKey, g.nodeKey);
      SingleLine(log[i], i > 0, idBytes);
    }
  }

  lemma EmptyLine(idBytes: nat)
    requires idBytes <= 50000
    ensures LineFits(idBytes)([], false)
  {
  }

  /** So every position of every valid log is answered with a non-empty page that
      fits its line, under every limit. */
  lemma ValidLogIsServed(g: Genesis, log: seq<Committed>, idBytes: nat, before: int, limit: int)
    requires ValidGenesis(g) && Replays(g, log) && idBytes <= 50000
    requires forall e :: e in log ==> ShortNumbers(e)
    ensures Answered(log, before, limit, LineFits(idBytes))
    ensures var r := Fitted(TimelineOf(log, before, limit), LineFits(idBytes)).value;
            LineSize(r.events, r.hasMore, idBytes) <= MAX_LINE_BYTES
  {
    ValidLogFits(g, log, idBytes);
    FittedTimelineServes(log, before, limit, LineFits(idBytes));
  }
}
