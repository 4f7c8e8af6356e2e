// The answer line itself, as JSON text, and the proof that the sizes of AnswerLines
// are the sizes of that text.
module JsonLines {
  import opened Wrappers
  import opened Community
  import opened Replay
  import opened AnswerLines
  import opened Pages
  import opened Timelines

  // ---- Sizes of pieces --------------------------------------------------

  predicate Ascii(text: string) {
    forall i :: 0 <= i < |text| ==> text[i] as int < 0x80
  }

  lemma {:induction false} AsciiSize(text: string)
    requires Ascii(text)
    ensures ByteLength(text) == |text|
  {
    if text == "" {
    } else {
      AsciiSize(text[..|text| - 1]);
    }
  }

  lemma {:induction false} Joining(a: string, b: string)
    ensures ByteLength(a + b) == ByteLength(a) + ByteLength(b)
  {
    if b == "" {
      assert a + b == a;
    } else {
      Joining(a, b[..|b| - 1]);
      assert (a + b)[..|a + b| - 1] == a + b[..|b| - 1];
    }
  }

  // ---- Text -------------------------------------------------------------

  function Hex(n: nat): char
    requires n < 16
  {
    "0123456789abcdef"[n]
  }

  /** One character inside a JSON string. */
  function EscapeChar(c: char): string {
    if c == '"' then "\\\""
    else if c == '\\' then "\\\\"
    else if c == '\n' then "\\n"
    else if c == '\r' then "\\r"
    else if c == '\t' then "\\t"
    else if c as int == 8 then "\\b"
    else if c as int == 12 then "\\f"
    else if c as int < 0x20 || c == '<' || c == '>' || c == '&' then
      "\\u00" + [Hex(c as int / 16), Hex(c as int % 16)]
    else if c as int == 0x2028 then "\\u2028"
    else if c as int == 0x2029 then "\\u2029"
    else [c]
  }

  function Escape(text: string): string {
    if text == "" then "" else Escape(text[..|text| - 1]) + EscapeChar(text[|text| - 1])
  }

  lemma EscapeCharSize(c: char)
    ensures ByteLength(EscapeChar(c)) == EscapedChar(c)
  {
    var text := EscapeChar(c);
    if |text| > 1 { AsciiSize(text); } else { assert text[..0] == ""; }
  }

  lemma {:induction false} EscapeSize(text: string)
    ensures ByteLength(Escape(text)) == Escaped(text)
  {
    if text == "" {
    } else {
      EscapeSize(text[..|text| - 1]);
      EscapeCharSize(text[|text| - 1]);
      Joining(Escape(text[..|text| - 1]), EscapeChar(text[|text| - 1]));
    }
  }

  function Decimal(n: nat): string {
    if n < 10 then [Hex(n)] else Decimal(n / 10) + [Hex(n % 10)]
  }

  lemma {:induction false} DecimalSize(n: nat)
    ensures Ascii(Decimal(n)) && |Decimal(n)| == Digits(n) && ByteLength(Decimal(n)) == Digits(n)
  {
    if n < 10 {
    } else {
      DecimalSize(n / 10);
    }
    AsciiSize(Decimal(n));
  }

  // ---- Objects ----------------------------------------------------------

  function Quoted(text: string): string {
    "\"" + text + "\""
  }

  function Member(name: string, value: string): string {
    Quoted(name) + ":" + value
  }

  function Joined(parts: seq<string>): string {
    if parts == [] then ""
    else if |parts| == 1 then parts[0]
    else Joined(parts[..|parts| - 1]) + "," + parts[|parts| - 1]
  }

  function Object(members: seq<string>): string {
    "{" + Joined(members) + "}"
  }

  function Total(parts: seq<string>): nat {
    if parts == [] then 0 else Total(parts[..|parts| - 1]) + ByteLength(parts[|parts| - 1])
  }

  lemma QuotedSize(text: string)
    ensures ByteLength(Quoted(text)) == ByteLength(text) + 2
  {
    AsciiSize("\"");
    Joining("\"", text);
    Joining("\"" + text, "\"");
  }

  lemma MemberSize(name: string, value: string)
    requires Ascii(name)
    ensures ByteLength(Member(name, value)) == |name| + 3 + ByteLength(value)
  {
    AsciiSize(name);
    QuotedSize(name);
    AsciiSize(":");
    Joining(Quoted(name), ":");
    Joining(Quoted(name) + ":", value);
  }

  lemma {:induction false} JoinedSize(parts: seq<string>)
    ensures ByteLength(Joined(parts)) == Total(parts) + if parts == [] then 0 else |parts| - 1
  {
    if parts == [] {
    } else if |parts| == 1 {
      assert parts[..0] == [];
    } else {
      var front, last := parts[..|parts| - 1], parts[|parts| - 1];
      JoinedSize(front);
      AsciiSize(",");
      Joining(Joined(front), ",");
      Joining(Joined(front) + ",", last);
    }
  }

  lemma ObjectSize(members: seq<string>)
    requires members != []
    ensures ByteLength(Object(members)) == Total(members) + |members| + 1
  {
    JoinedSize(members);
    AsciiSize("{");
    AsciiSize("}");
    Joining("{", Joined(members));
    Joining("{" + Joined(members), "}");
  }

  // ---- The line ---------------------------------------------------------

  /** How keys, and proposals by their hash, are written: 43 characters of base64. */
  datatype Names = Names(key: Key -> string, event: Proposal -> string)

  predicate Base64(text: string) {
    Ascii(text) && |text| == 43
  }

  ghost predicate Proper(names: Names) {
    (forall k :: Base64(names.key(k))) && forall p :: Base64(names.event(p))
  }

  function Actor(e: Committed, names: Names): string {
    Object([Member("domain", Quoted(Escape(e.proposal.authorDomain))),
            Member("key", Quoted(names.key(e.proposal.author))),
            Member("name", Quoted(Escape(e.proposal.authorName)))])
  }

  /** The members every item has. */
  function Common(e: Committed, names: Names): seq<string>
    requires e.committedAt >= 0 && e.messageId >= 0 && e.seqno >= 0
  {
    [Member("actor", Actor(e, names)), Member("committed_at", Decimal(e.committedAt)),
     Member("event_id", Quoted(names.event(e.proposal))), Member("kind", Quoted(Kind(e.proposal.body))),
     Member("message_id", Quoted(Decimal(e.messageId))), Member("room", Quoted(names.key(e.proposal.roomId))),
     Member("seqno", Quoted(Decimal(e.seqno)))]
  }

  /** The members of one kind of item. */
  function Own(body: Body, names: Names): seq<string>
    requires body.Pin? || body.Unpin? ==> body.messageId >= 0
  {
    match body
    case Message(text) => [Member("text", Quoted(Escape(text)))]
    case Pin(id) => [Member("target_message_id", Quoted(Decimal(id)))]
    case Unpin(id) => [Member("target_message_id", Quoted(Decimal(id)))]
    case Metadata(name, description) =>
      [Member("name", Quoted(Escape(name))), Member("description", Quoted(Escape(description)))]
    case WritePolicy(anyone) => [Member("write_policy", Quoted(if anyone then "everyone" else "admins"))]
    case AdminGrant(key) => [Member("subject_key", Quoted(names.key(key)))]
    case AdminRevoke(key) => [Member("subject_key", Quoted(names.key(key)))]
    case ModeratorGrant(key) => [Member("subject_key", Quoted(names.key(key)))]
    case ModeratorRevoke(key) => [Member("subject_key", Quoted(names.key(key)))]
  }

  predicate Countable(e: Committed) {
    && e.committedAt >= 0 && e.messageId >= 0 && e.seqno >= 0
    && (e.proposal.body.Pin? || e.proposal.body.Unpin? ==> e.proposal.body.messageId >= 0)
  }

  /** The members in any order: the encoder sorts them by name, which does not change
      the size. */
  function Item(e: Committed, names: Names): string
    requires Countable(e)
  {
    Object(Common(e, names) + Own(e.proposal.body, names))
  }

  function Items(items: seq<Committed>, names: Names): seq<string>
    requires forall e :: e in items ==> Countable(e)
  {
    seq(|items|, i requires 0 <= i < |items| => Item(items[i], names))
  }

  function Result(list: string, more: bool): string {
    Object([Member("has_more", if more then "true" else "false"), Member("items", list)])
  }

  /** The answer to the request `id`, with its line break. */
  function Line(items: seq<Committed>, more: bool, id: string, names: Names): string
    requires forall e :: e in items ==> Countable(e)
  {
    Object([Member("jsonrpc", Quoted("2.0")), Member("id", id),
            Member("result", Result("[" + Joined(Items(items, names)) + "]", more))]) + "\n"
  }

  // ---- Its size ---------------------------------------------------------

  lemma TotalOne(a: string)
    ensures Total([a]) == ByteLength(a)
  {
    assert [a][..0] == [];
  }

  lemma TotalMore(parts: seq<string>, a: string)
    ensures Total(parts + [a]) == Total(parts) + ByteLength(a)
  {
    assert (parts + [a])[..|parts|] == parts;
  }

  lemma TotalThree(a: string, b: string, c: string)
    ensures Total([a, b, c]) == ByteLength(a) + ByteLength(b) + ByteLength(c)
    ensures Total([a, b]) == ByteLength(a) + ByteLength(b)
  {
    TotalOne(a);
    assert [a, b] == [a] + [b] && [a, b, c] == [a, b] + [c];
    TotalMore([a], b);
    TotalMore([a, b], c);
  }

  lemma QuotedKey(name: string, text: string)
    requires Ascii(name) && Base64(text)
    ensures ByteLength(Member(name, Quoted(text))) == |name| + 48
  {
    AsciiSize(text);
    QuotedSize(text);
    MemberSize(name, Quoted(text));
  }

  lemma QuotedText(name: string, text: string)
    requires Ascii(name)
    ensures ByteLength(Member(name, Quoted(Escape(text)))) == |name| + 5 + Escaped(text)
  {
    EscapeSize(text);
    QuotedSize(Escape(text));
    MemberSize(name, Quoted(Escape(text)));
  }

  lemma QuotedNumber(name: string, n: nat)
    requires Ascii(name)
    ensures ByteLength(Member(name, Quoted(Decimal(n)))) == |name| + 5 + Digits(n)
    ensures ByteLength(Member(name, Decimal(n))) == |name| + 3 + Digits(n)
  {
    DecimalSize(n);
    QuotedSize(Decimal(n));
    MemberSize(name, Quoted(Decimal(n)));
    MemberSize(name, Decimal(n));
  }

  lemma ActorSize(e: Committed, names: Names)
    requires Proper(names)
    ensures ByteLength(Actor(e, names)) == 75 + Escaped(e.proposal.authorDomain) + Escaped(e.proposal.authorName)
  {
    hide ByteLength, Escaped, Escape, Member, Object, Total;
    var domain := Member("domain", Quoted(Escape(e.proposal.authorDomain)));
    var key := Member("key", Quoted(names.key(e.proposal.author)));
    var name := Member("name", Quoted(Escape(e.proposal.authorName)));
    QuotedText("domain", e.proposal.authorDomain);
    QuotedKey("key", names.key(e.proposal.author));
    QuotedText("name", e.proposal.authorName);
    TotalThree(domain, key, name);
    ObjectSize([domain, key, name]);
  }

  lemma KindIsAscii(body: Body)
    ensures Ascii(Kind(body)) && ByteLength(Kind(body)) == |Kind(body)|
  {
    hide ByteLength;
    AsciiSize(Kind(body));
  }

  lemma CommonSize(e: Committed, names: Names)
    requires Proper(names) && Countable(e)
    ensures Total(Common(e, names)) + 8
            == 119 + 3 * 43 + Escaped(e.proposal.authorDomain) + Escaped(e.proposal.authorName)
               + Digits(e.committedAt) + |Kind(e.proposal.body)| + Digits(e.messageId) + Digits(e.seqno)
  {
    hide Escaped, Digits, Actor, Kind, Decimal, Escape, ByteLength, Total;
    ActorSize(e, names);
    KindIsAscii(e.proposal.body);
    MemberSize("actor", Actor(e, names));
    QuotedNumber("committed_at", e.committedAt);
    QuotedKey("event_id", names.event(e.proposal));
    QuotedSize(Kind(e.proposal.body));
    MemberSize("kind", Quoted(Kind(e.proposal.body)));
    QuotedNumber("message_id", e.messageId);
    QuotedKey("room", names.key(e.proposal.roomId));
    QuotedNumber("seqno", e.seqno);
    var c := Common(e, names);
    hide Member, Quoted;
    SevenTotal(c);
  }

  lemma SevenTotal(c: seq<string>)
    requires |c| == 7
    ensures Total(c) == ByteLength(c[0]) + ByteLength(c[1]) + ByteLength(c[2]) + ByteLength(c[3]) + ByteLength(c[4])
                        + ByteLength(c[5]) + ByteLength(c[6])
  {
    TotalThree(c[0], c[1], c[2]);
    assert [c[0], c[1], c[2]] == c[..3];
    assert c[..4] == c[..3] + [c[3]] && c[..5] == c[..4] + [c[4]] && c[..6] == c[..5] + [c[5]] && c == c[..6] + [c[6]];
    TotalMore(c[..3], c[3]);
    TotalMore(c[..4], c[4]);
    TotalMore(c[..5], c[5]);
    TotalMore(c[..6], c[6]);
  }

  /** The members of a kind, each with the comma before it. */
  lemma OwnSize(body: Body, names: Names)
    requires Proper(names) && (body.Pin? || body.Unpin? ==> body.messageId >= 0)
    ensures Total(Own(body, names)) + |Own(body, names)| == BodySize(body)
  {
    hide Escaped, Digits, Decimal, Escape, ByteLength, Total, Member;
    match body
    case Message(text) => QuotedText("text", text); TotalOne(Own(body, names)[0]);
    case Pin(id) => QuotedNumber("target_message_id", id); TotalOne(Own(body, names)[0]);
    case Unpin(id) => QuotedNumber("target_message_id", id); TotalOne(Own(body, names)[0]);
    case Metadata(name, description) =>
      QuotedText("name", name);
      QuotedText("description", description);
      TotalThree(Own(body, names)[0], Own(body, names)[1], "");
    case WritePolicy(anyone) =>
      WordMember("write_policy", if anyone then "everyone" else "admins");
      TotalOne(Own(body, names)[0]);
    case AdminGrant(key) => QuotedKey("subject_key", names.key(key)); TotalOne(Own(body, names)[0]);
    case AdminRevoke(key) => QuotedKey("subject_key", names.key(key)); TotalOne(Own(body, names)[0]);
    case ModeratorGrant(key) => QuotedKey("subject_key", names.key(key)); TotalOne(Own(body, names)[0]);
    case ModeratorRevoke(key) => QuotedKey("subject_key", names.key(key)); TotalOne(Own(body, names)[0]);
  }

  lemma {:induction false} TotalConcat(a: seq<string>, b: seq<string>)
    ensures Total(a + b) == Total(a) + Total(b)
  {
    if b == [] {
      assert a + b == a;
    } else {
      TotalConcat(a, b[..|b| - 1]);
      assert (a + b)[..|a + b| - 1] == a + b[..|b| - 1];
    }
  }

  lemma ItemIsSized(e: Committed, names: Names)
    requires Proper(names) && Countable(e)
    ensures ByteLength(Item(e, names)) == ItemSize(e)
  {
    hide Escaped, Digits, Kind, BodySize, Total, Object, Own;
    CommonSize(e, names);
    OwnSize(e.proposal.body, names);
    TotalConcat(Common(e, names), Own(e.proposal.body, names));
    ObjectSize(Common(e, names) + Own(e.proposal.body, names));
  }

  lemma {:induction false} ItemsAreSized(items: seq<Committed>, names: Names)
    requires Proper(names) && forall e :: e in items ==> Countable(e)
    ensures Total(Items(items, names)) + (if items == [] then 0 else |items| - 1) == ItemsSize(items)
  {
    hide ItemSize, Item;
    if items == [] {
    } else {
      var front, last := items[..|items| - 1], items[|items| - 1];
      ItemsAreSized(front, names);
      ItemIsSized(last, names);
      assert Items(items, names) == Items(front, names) + [Item(last, names)];
      TotalMore(Items(front, names), Item(last, names));
    }
  }

  lemma WordMember(name: string, word: string)
    requires Ascii(name) && Ascii(word)
    ensures ByteLength(Member(name, word)) == |name| + 3 + |word|
    ensures ByteLength(Member(name, Quoted(word))) == |name| + 5 + |word|
  {
    AsciiSize(word);
    QuotedSize(word);
    MemberSize(name, word);
    MemberSize(name, Quoted(word));
  }

  lemma ResultSize(list: string, more: bool)
    ensures ByteLength(Result(list, more)) == 22 + (if more then 4 else 5) + ByteLength(list)
  {
    hide Member, Object, ByteLength, Total;
    var flag := if more then "true" else "false";
    WordMember("has_more", flag);
    MemberSize("items", list);
    TotalThree(Member("has_more", flag), Member("items", list), "");
    ObjectSize([Member("has_more", flag), Member("items", list)]);
  }

  lemma EnvelopeSize(result: string, id: string)
    ensures ByteLength(Object([Member("jsonrpc", Quoted("2.0")), Member("id", id), Member("result", result)]))
            == 33 + ByteLength(id) + ByteLength(result)
  {
    WordMember("jsonrpc", "2.0");
    MemberSize("id", id);
    MemberSize("result", result);
    hide Member, Object, ByteLength, Total, Quoted;
    TotalThree(Member("jsonrpc", Quoted("2.0")), Member("id", id), Member("result", result));
    ObjectSize([Member("jsonrpc", Quoted("2.0")), Member("id", id), Member("result", result)]);
  }

  /** The measured size is the size of the line. */
  lemma LineIsSized(items: seq<Committed>, more: bool, id: string, names: Names)
    requires Proper(names) && forall e :: e in items ==> Countable(e)
    ensures ByteLength(Line(items, more, id, names)) == LineSize(items, more, ByteLength(id))
  {
    hide ItemSize, Item, Items, ItemsSize, Object, Joined, Member, ByteLength, Quoted;
    var list := "[" + Joined(Items(items, names)) + "]";
    ListSize(items, names);
    ResultSize(list, more);
    EnvelopeSize(Result(list, more), id);
    AsciiSize("\n");
    Joining(Object([Member("jsonrpc", Quoted("2.0")), Member("id", id), Member("result", Result(list, more))]), "\n");
  }

  lemma ListSize(items: seq<Committed>, names: Names)
    requires Proper(names) && forall e :: e in items ==> Countable(e)
    ensures ByteLength("[" + Joined(Items(items, names)) + "]") == ItemsSize(items) + 2
  {
    hide Item;
    ItemsAreSized(items, names);
    JoinedSize(Items(items, names));
    AsciiSize("[");
    AsciiSize("]");
    Joining("[", Joined(Items(items, names)));
    Joining("[" + Joined(Items(items, names)), "]");
  }

  /** Every answer to a position of a valid log is a line of at most 64 KiB. */
  lemma ServedLineFits(g: Genesis, log: seq<Committed>, before: int, limit: int, id: string, names: Names)
    requires ValidGenesis(g) && Replays(g, log) && ByteLength(id) <= 50000 && Proper(names)
    requires forall e :: e in log ==> ShortNumbers(e)
    ensures var r := Fitted(TimelineOf(log, before, limit), LineFits(ByteLength(id)));
            && r.Some? && Serves(r.value, log, before) && (forall e :: e in r.value.events ==> Countable(e))
            && ByteLength(Line(r.value.events, r.value.hasMore, id, names)) <= 65536
  {
    hide TimelineOf, Fitted, ItemSize, LineFits, Line, ByteLength, ShortNumbers;
    ValidLogIsServed(g, log, ByteLength(id), before, limit);
    var page := Fitted(TimelineOf(log, before, limit), LineFits(ByteLength(id))).value;
    StoredAreCountable(g, log);
    assert forall e :: e in page.events ==> e in log;
    LineIsSized(page.events, page.hasMore, id, names);
  }

  lemma StoredAreCountable(g: Genesis, log: seq<Committed>)
    requires ValidGenesis(g) && Replays(g, log)
    ensures forall e :: e in log ==> Countable(e)
  {
    FoldDescribes(g, log);
    forall e | e in log ensures Countable(e) { VerifiedIsCountable(e, g); }
  }

  lemma VerifiedIsCountable(e: Committed, g: Genesis)
    requires VerifyCommit(e, g.roomKey, g.nodeKey).Ok?
    ensures Countable(e)
  {
  }
}
