// What the validation rules come to: signing and verifying are each other's inverse,
// and a domain is checked label by label.
module Validity {
  import opened Wrappers
  import opened Ordered
  import opened Community

  // ---- Signing and verifying --------------------------------------------

  /** A commit verifies exactly if it is what the room signs for its proposal at some
      instant after 1970, and the proposal verifies for the node. */
  lemma CommitVerifiesIffSigned(e: Committed, roomKey: Key, nodeKey: Key)
    ensures VerifyCommit(e, roomKey, nodeKey).Ok? <==>
              && VerifyAt(e.proposal, nodeKey).Ok? && e.committedAt > 0
              && exists now :: SignCommit(roomKey, e.proposal, e.seqno, e.previous, now) == Ok(e)
  {
    hide VerifyAt;
    var now := e.committedAt * SECOND;
    assert Unix(now) == e.committedAt;
    var signed := SignCommit(roomKey, e.proposal, e.seqno, e.previous, now);
    assert signed.Ok? <==> roomKey == e.proposal.roomId && e.seqno >= 1;
  }

  /** A state verifies exactly if it is what the room signs for some unsigned state,
      whatever the order of its lists. */
  lemma StateVerifiesIffSigned(s: RoomState)
    ensures VerifyState(s) <==> exists raw :: SignRoomState(s.roomId, raw) == Ok(s)
  {
    if VerifyState(s) {
      SignCanonicalState(s.roomId, s);
      assert SignRoomState(s.roomId, s) == Ok(s);
    }
  }

  /** A proposal passes at the sequencer exactly if it is the author's for this node,
      within the sizes of its parts and within 300 seconds of the clock. */
  lemma ProposalVerifiesIff(p: Proposal, nodeKey: Key, now: Instant)
    ensures VerifyAt(p, nodeKey).Ok? <==>
              && p.signature == ByFor(p.author, nodeKey) && WithinSizes(p.body)
              && ByteLength(p.authorName) <= 64 && (p.authorDomain == "" || IsDomainName(p.authorDomain))
    ensures VerifyProposal(p, nodeKey, now).Ok? <==>
              VerifyAt(p, nodeKey).Ok? && now - 300_000_000_000 <= p.timestamp * 1_000_000_000 <= now + 300_000_000_000
    ensures VerifyAt(p, nodeKey).Ok? && VerifyProposal(p, nodeKey, now).Err? ==>
              VerifyProposal(p, nodeKey, now) == Err(BadTimestamp)
  {
    hide IsDomainName, ByteLength;
  }

  predicate WithinSizes(body: Body) {
    match body
    case Message(text) => ByteLength(text) <= 2048
    case Pin(id) => 1 <= id
    case Unpin(id) => 1 <= id
    case Metadata(name, description) =>
      && 1 <= |name| && ByteLength(name) <= 64 && ByteLength(description) <= 512
      && (forall c :: c in name ==> ' ' <= c < 0x7f as char || 0xa0 as char <= c) && 0 as char !in description
    case _ => true
  }

  /** A genesis passes exactly if the room signed it, not more than 300 seconds ahead,
      with at most 32 admins in strict order, the owner not among them. */
  lemma GenesisVerifiesIff(g: Genesis, now: Instant)
    ensures VerifyGenesis(g, now) <==>
              && g.signature == By(g.roomKey) && 0 < g.createdAt
              && g.createdAt * 1_000_000_000 <= now + 300_000_000_000
              && WithinSizes(Metadata(g.name, g.description))
              && |g.initialAdmins| <= 32 && g.roomKey !in g.initialAdmins
              && forall i, j :: 0 <= i < j < |g.initialAdmins| ==> g.initialAdmins[i] < g.initialAdmins[j]
  {
    hide ByteLength;
  }

  /** The limits of a signed state. */
  lemma StateVerifiesIff(s: RoomState)
    ensures VerifyState(s) <==>
              && s.signature == By(s.roomId) && 0 <= s.revisionSeqno
              && WithinSizes(Metadata(s.content.name, s.content.description))
              && |s.content.admins| <= 64 && |s.content.moderators| <= 256 && |s.content.pins| <= 100
              && StrictlyIncreasing(s.content.admins) && StrictlyIncreasing(s.content.moderators)
              && StrictlyIncreasing(s.content.pins) && forall id :: id in s.content.pins ==> 1 <= id
  {
    hide ByteLength, StrictlyIncreasing;
  }

  // ---- Sizes in bytes ---------------------------------------------------

  /** UTF-8, as in section 3 of RFC 3629. */
  function Utf8(c: char): seq<int> {
    var n := c as int;
    if n <= 0x7f then [n]
    else if n <= 0x7ff then [0xc0 + n / 0x40, 0x80 + n % 0x40]
    else if n <= 0xffff then [0xe0 + n / 0x1000, 0x80 + n / 0x40 % 0x40, 0x80 + n % 0x40]
    else [0xf0 + n / 0x40000, 0x80 + n / 0x1000 % 0x40, 0x80 + n / 0x40 % 0x40, 0x80 + n % 0x40]
  }

  function Encoded(text: string): seq<int> {
    if text == "" then [] else Encoded(text[..|text| - 1]) + Utf8(text[|text| - 1])
  }

  /** The size that the limits count is that of the encoded text. */
  lemma {:induction false} SizeIsOfTheEncoding(text: string)
    ensures |Encoded(text)| == ByteLength(text)
  {
    if text == "" {
    } else {
      SizeIsOfTheEncoding(text[..|text| - 1]);
    }
  }

  // ---- Domains by label ------------------------------------------------

  /** The labels between the dots, as a split yields them. */
  function Labels(domain: string): (r: seq<string>)
    ensures r != []
  {
    if domain == "" then [""]
    else
      var front, c := Labels(domain[..|domain| - 1]), domain[|domain| - 1];
      if c == '.' then front + [""] else front[..|front| - 1] + [front[|front| - 1] + [c]]
  }

  predicate Allowed(c: char, telegram: bool) {
    'a' <= c <= 'z' || '0' <= c <= '9' || c == '-' || (telegram && c == '_')
  }

  /** A label that may still grow. */
  predicate Started(part: string, telegram: bool) {
    (part != "" ==> part[0] != '-') && forall c :: c in part ==> Allowed(c, telegram)
  }

  predicate GoodLabel(part: string, telegram: bool) {
    part != "" && part[|part| - 1] != '-' && Started(part, telegram)
  }

  /** All labels before the last are good and the last may still grow. */
  predicate GoodSoFar(labels: seq<string>, telegram: bool)
    requires labels != []
  {
    && (forall i :: 0 <= i < |labels| - 1 ==> GoodLabel(labels[i], telegram))
    && Started(labels[|labels| - 1], telegram)
  }

  /** The adjacency rules on a prefix of a domain. */
  predicate Adjacent(domain: string, telegram: bool) {
    && (forall c :: c in domain ==> Allowed(c, telegram) || c == '.')
    && (domain != "" ==> domain[0] != '.' && domain[0] != '-')
    && (forall i :: 0 <= i < |domain| - 1 && domain[i] == '.' ==>
          domain[i + 1] != '.' && domain[i + 1] != '-')
    && (forall i :: 0 < i < |domain| && domain[i] == '.' ==> domain[i - 1] != '-')
  }

  lemma AdjacentGrown(domain: string, c: char, telegram: bool)
    ensures Adjacent(domain + [c], telegram) <==>
              && Adjacent(domain, telegram) && (Allowed(c, telegram) || c == '.')
              && ((domain == "" || domain[|domain| - 1] == '.') ==> c != '.' && c != '-')
              && (domain != "" && c == '.' ==> domain[|domain| - 1] != '-')
  {
    var grown := domain + [c];
    assert grown[|domain|] == c && forall i :: 0 <= i < |domain| ==> grown[i] == domain[i];
    if Adjacent(grown, telegram) {
      assert forall x :: x in domain ==> x in grown;
    }
  }

  lemma LastLabel(domain: string)
    ensures var last := Labels(domain)[|Labels(domain)| - 1];
            && (last == "" <==> domain == "" || domain[|domain| - 1] == '.')
            && (last != "" ==> last[|last| - 1] == domain[|domain| - 1])
  {
  }

  lemma {:induction false} AdjacentIffLabels(domain: string, telegram: bool)
    ensures Adjacent(domain, telegram) <==> GoodSoFar(Labels(domain), telegram)
  {
    if domain == "" {
    } else {
      var front, c := domain[..|domain| - 1], domain[|domain| - 1];
      AdjacentIffLabels(front, telegram);
      LastLabel(front);
      AdjacentGrown(front, c, telegram);
      assert domain == front + [c];
      LabelsGrown(Labels(front), c, telegram);
    }
  }

  lemma LabelsGrown(labels: seq<string>, c: char, telegram: bool)
    requires labels != []
    ensures var last := labels[|labels| - 1];
            && (c == '.' ==> (GoodSoFar(labels + [""], telegram) <==>
                                GoodSoFar(labels, telegram) && last != "" && last[|last| - 1] != '-'))
            && (c != '.' ==> (GoodSoFar(labels[..|labels| - 1] + [last + [c]], telegram) <==>
                                && GoodSoFar(labels, telegram) && Allowed(c, telegram)
                                && (last == "" ==> c != '-')))
  {
    var n, last := |labels|, labels[|labels| - 1];
    var ended, longer := labels + [""], labels[..n - 1] + [last + [c]];
    assert forall i :: 0 <= i < n ==> ended[i] == labels[i];
    assert forall i :: 0 <= i < n - 1 ==> longer[i] == labels[i];
    assert longer[n - 1] == last + [c];
    assert ended[n] == "";
    StartedGrown(last, c, telegram);
  }

  lemma StartedGrown(part: string, c: char, telegram: bool)
    ensures Started(part + [c], telegram) <==>
              Started(part, telegram) && Allowed(c, telegram) && (part == "" ==> c != '-')
  {
    assert (part + [c])[|part|] == c;
    assert forall x :: x in part ==> x in part + [c];
  }

  /** The scan for bad neighbours accepts exactly the domains under .ton or .t.me, of
      at most 126 bytes, every label of which is good. */
  lemma DomainByLabels(domain: string)
    ensures IsDomainName(domain) <==>
              var telegram := EndsWith(domain, ".t.me");
              && ByteLength(domain) <= 126 && (EndsWith(domain, ".ton") || telegram)
              && forall part :: part in Labels(domain) ==> GoodLabel(part, telegram)
  {
    var telegram, labels := EndsWith(domain, ".t.me"), Labels(domain);
    AdjacentIffLabels(domain, telegram);
    LastLabel(domain);
    AllGood(labels, telegram);
    SameRules(domain);
  }

  lemma AllGood(labels: seq<string>, telegram: bool)
    requires labels != []
    ensures (forall part :: part in labels ==> GoodLabel(part, telegram)) <==>
              GoodSoFar(labels, telegram) && GoodLabel(labels[|labels| - 1], telegram)
  {
    hide GoodLabel, Started;
    GoodIsStarted(labels[|labels| - 1], telegram);
    if GoodSoFar(labels, telegram) && GoodLabel(labels[|labels| - 1], telegram) {
      forall part | part in labels ensures GoodLabel(part, telegram) {
        var i :| 0 <= i < |labels| && labels[i] == part;
      }
    }
  }

  lemma GoodIsStarted(part: string, telegram: bool)
    ensures GoodLabel(part, telegram) <==> part != "" && part[|part| - 1] != '-' && Started(part, telegram)
  {
  }

  lemma SameRules(domain: string)
    ensures IsDomainName(domain) <==>
              var telegram := EndsWith(domain, ".t.me");
              && ByteLength(domain) <= 126 && (EndsWith(domain, ".ton") || telegram)
              && Adjacent(domain, telegram) && domain[|domain| - 1] != '-'
  {
  }
}
