// The in-memory projection with its two-phase Prepare and Commit. Key and pin
// lists are slices over heap arrays that removal and sorting shift in place.
module Projections {
  import opened Wrappers
  import opened Ordered
  import opened Community
  import opened Replay

  // ---- Two-phase update on values ---------------------------------------

  /** A prepared change: the head it was prepared on and what it installs. */
  datatype Delta = Delta(
    baseSeq: int, baseHash: Hash, nextSeq: int, nextHash: Hash,
    nextContent: Option<Content>, messageId: int)

  function PrepareDelta(p: Proj, e: Committed): Result<Delta, Refusal> {
    match Apply(p, e)
    case Err(why) => Err(why)
    case Ok(next) =>
      Ok(Delta(p.headSeq, p.headHash, e.seqno, CommitHash(e),
               if IsMessage(e) then None else Some(next.content), e.messageId))
  }

  function CommitDelta(p: Proj, d: Delta): Option<Proj> {
    if d.nextSeq != p.headSeq + 1 || d.baseSeq != p.headSeq || d.baseHash != p.headHash then None
    else
      var moved := p.(headSeq := d.nextSeq, headHash := d.nextHash,
                      messages := if d.messageId > 0 then p.messages + {d.messageId} else p.messages);
      match d.nextContent
      case None => Some(moved)
      case Some(c) => Some(moved.(content := c, revisionSeqno := d.nextSeq, revisionHash := d.nextHash))
  }

  /** Prepare followed by Commit is Apply. */
  lemma PrepareThenCommitIsApply(p: Proj, e: Committed)
    ensures PrepareDelta(p, e).Ok? <==> Apply(p, e).Ok?
    ensures Apply(p, e).Ok? ==> CommitDelta(p, PrepareDelta(p, e).value) == Some(Apply(p, e).value)
  {
  }

  /** Offer prepared changes one after another; a refused one changes nothing. */
  function CommitAll(p: Proj, ds: seq<Delta>): Proj {
    if ds == [] then p
    else
      var q := CommitAll(p, ds[..|ds| - 1]);
      match CommitDelta(q, ds[|ds| - 1]) case None => q case Some(next) => next
  }

  predicate Commits(p: Proj, ds: seq<Delta>, i: nat)
    requires i < |ds|
  {
    CommitDelta(CommitAll(p, ds[..i]), ds[i]).Some?
  }

  lemma {:induction false} HeadNeverRetreats(p: Proj, ds: seq<Delta>, i: nat)
    requires i <= |ds|
    ensures CommitAll(p, ds[..i]).headSeq <= CommitAll(p, ds).headSeq
    decreases |ds|
  {
    if i == |ds| {
      assert ds[..i] == ds;
    } else {
      var front := ds[..|ds| - 1];
      assert front[..i] == ds[..i];
      HeadNeverRetreats(p, front, i);
    }
  }

  /** Of all changes prepared on one head, at most one ever commits, in any
      order of attempts and however many are offered in between. */
  lemma AtMostOneCommits(p: Proj, ds: seq<Delta>, i: nat, j: nat)
    requires i < j < |ds|
    requires ds[i].baseSeq == ds[j].baseSeq
    ensures !(Commits(p, ds, i) && Commits(p, ds, j))
  {
    if Commits(p, ds, i) {
      assert ds[..i + 1][..i] == ds[..i];
      assert CommitAll(p, ds[..i + 1]).headSeq == ds[i].baseSeq + 1;
      assert ds[..j][..i + 1] == ds[..i + 1];
      HeadNeverRetreats(p, ds[..j], i + 1);
    }
  }

  // ---- Slices -----------------------------------------------------------

  /** A window over the start of a backing array. */
  datatype Slice = Slice(buf: array<int>, len: nat)

  function Items(s: Slice): seq<int>
    requires s.len <= s.buf.Length
    reads s.buf
  {
    s.buf[..s.len]
  }

  method CopySlice(s: Slice) returns (r: Slice)
    requires s.len <= s.buf.Length
    ensures fresh(r.buf) && r.len == s.len == r.buf.Length
    ensures Items(r) == Items(s)
  {
    var buf := new int[s.len](i requires 0 <= i < s.len <= s.buf.Length reads s.buf => s.buf[i]);
    r := Slice(buf, s.len);
  }

  method FromList(keys: seq<int>) returns (r: Slice)
    ensures fresh(r.buf) && r.len == r.buf.Length
    ensures Items(r) == keys
  {
    var buf := new int[|keys|](i requires 0 <= i < |keys| => keys[i]);
    r := Slice(buf, |keys|);
  }

  method ContainsItem(s: Slice, x: int) returns (found: bool)
    requires s.len <= s.buf.Length
    ensures found <==> x in Items(s)
  {
    for i := 0 to s.len
      invariant x !in s.buf[..i]
    {
      if s.buf[i] == x {
        assert Items(s)[i] == x;
        return true;
      }
    }
    return false;
  }

  /** Append in place while the backing array has room, otherwise move. */
  method AppendItem(s: Slice, x: int) returns (r: Slice)
    requires s.len <= s.buf.Length
    modifies s.buf
    ensures r.len == s.len + 1 <= r.buf.Length && (r.buf == s.buf || fresh(r.buf))
    ensures Items(r) == old(Items(s)) + [x]
  {
    if s.len < s.buf.Length {
      s.buf[s.len] := x;
      r := Slice(s.buf, s.len + 1);
    } else {
      var buf := new int[2 * s.len + 1];
      for i := 0 to s.len
        invariant buf[..i] == s.buf[..i]
        invariant s.buf[..] == old(s.buf[..])
      {
        buf[i] := s.buf[i];
      }
      buf[s.len] := x;
      r := Slice(buf, s.len + 1);
    }
  }

  /** Reorder the window in place. */
  method SortItems(s: Slice)
    requires s.len <= s.buf.Length && StrictlyIncreasing(Sort(Items(s)))
    requires |Sort(Items(s))| == s.len
    modifies s.buf
    ensures Items(s) == Sort(old(Items(s)))
  {
    ghost var before := Items(s);
    var sorted := Sort(Items(s));
    for i := 0 to s.len
      invariant s.buf[..i] == sorted[..i]
    {
      s.buf[i] := sorted[i];
    }
  }

  /** Shift everything after the first occurrence one place down. */
  method RemoveItem(s: Slice, x: int) returns (r: Slice, removed: bool)
    requires s.len <= s.buf.Length
    modifies s.buf
    ensures removed <==> x in old(Items(s))
    ensures removed ==> r == Slice(s.buf, s.len - 1) && s.len > 0 && Items(r) == Without(old(Items(s)), x)
    ensures !removed ==> r == s && Items(s) == old(Items(s))
  {
    ghost var before := Items(s);
    for i := 0 to s.len
      invariant s.buf[..s.len] == before && x !in before[..i]
    {
      if s.buf[i] == x {
        for j := i + 1 to s.len
          invariant s.buf[..j - 1] == before[..i] + before[i + 1..j]
          invariant forall k :: j <= k < s.len ==> s.buf[k] == before[k]
        {
          s.buf[j - 1] := s.buf[j];
        }
        WithoutAt(before, i);
        assert before[i] in before;
        return Slice(s.buf, s.len - 1), true;
      }
    }
    return s, false;
  }

  // ---- The projection object --------------------------------------------

  /** The room state record held by a projection: scalars and three slices. */
  datatype LiveState = LiveState(
    revisionSeqno: int, revisionHash: Hash, name: string, description: string,
    anyoneCanWrite: bool, admins: Slice, moderators: Slice, pins: Slice)

  ghost predicate InBounds(s: LiveState) {
    && s.admins.len <= s.admins.buf.Length
    && s.moderators.len <= s.moderators.buf.Length
    && s.pins.len <= s.pins.buf.Length
  }

  ghost function ContentOf(s: LiveState): Content
    requires InBounds(s)
    reads s.admins.buf, s.moderators.buf, s.pins.buf
  {
    Content(s.name, s.description, s.anyoneCanWrite, Items(s.admins), Items(s.moderators), Items(s.pins))
  }

  datatype Transition = Transition(
    owner: Projection, baseSeq: int, baseHash: Hash, nextSeq: int, nextHash: Hash,
    stateChanged: bool, nextState: LiveState, messageId: int)

  ghost function DeltaOf(t: Transition): Delta
    requires InBounds(t.nextState)
    reads t.nextState.admins.buf, t.nextState.moderators.buf, t.nextState.pins.buf
  {
    Delta(t.baseSeq, t.baseHash, t.nextSeq, t.nextHash,
          if t.stateChanged then Some(ContentOf(t.nextState)) else None, t.messageId)
  }

  ghost predicate RevisionMatches(t: Transition) {
    t.stateChanged ==> t.nextState.revisionSeqno == t.nextSeq && t.nextState.revisionHash == t.nextHash
  }

  method CopyState(s: LiveState) returns (r: LiveState)
    requires InBounds(s)
    ensures InBounds(r) && ContentOf(r) == ContentOf(s)
    ensures r.revisionSeqno == s.revisionSeqno && r.revisionHash == s.revisionHash
    ensures fresh({r.admins.buf, r.moderators.buf, r.pins.buf})
    ensures r.admins.buf != r.moderators.buf && r.admins.buf != r.pins.buf && r.moderators.buf != r.pins.buf
  {
    var admins := CopySlice(s.admins);
    var moderators := CopySlice(s.moderators);
    var pins := CopySlice(s.pins);
    r := s.(admins := admins, moderators := moderators, pins := pins);
  }

  method GrantProjectedRole(roomKey: Key, roles: Slice, limit: nat, key: Key) returns (r: Result<Slice, Refusal>)
    requires roles.len <= roles.buf.Length && StrictlyIncreasing(Items(roles))
    modifies roles.buf
    ensures r.Ok? ==> r.value.len <= r.value.buf.Length && (r.value.buf == roles.buf || fresh(r.value.buf))
    ensures match Grant(roomKey, old(Items(roles)), limit, key)
            case Ok(keys) => r.Ok? && Items(r.value) == keys
            case Err(why) => r == Err(why)
  {
    if key == roomKey {
      return Err(Conflict);
    }
    var held := ContainsItem(roles, key);
    if held {
      return Err(Conflict);
    }
    if roles.len >= limit {
      return Err(LimitReached);
    }
    SortAppend(Items(roles), key);
    var grown := AppendItem(roles, key);
    SortItems(grown);
    return Ok(grown);
  }

  method RevokeProjectedRole(roomKey: Key, roles: Slice, key: Key) returns (r: Result<Slice, Refusal>)
    requires roles.len <= roles.buf.Length
    modifies roles.buf
    ensures r.Ok? ==> r.value.len <= r.value.buf.Length && r.value.buf == roles.buf
    ensures match Revoke(roomKey, old(Items(roles)), key)
            case Ok(keys) => r.Ok? && Items(r.value) == keys
            case Err(why) => r == Err(why)
  {
    if key == roomKey {
      return Err(Conflict);
    }
    var shrunk, removed := RemoveItem(roles, key);
    if !removed {
      return Err(Conflict);
    }
    return Ok(shrunk);
  }

  ghost predicate SortedLists(c: Content) {
    StrictlyIncreasing(c.admins) && StrictlyIncreasing(c.moderators) && StrictlyIncreasing(c.pins)
  }

  lemma ApplyBodyKeepsSorted(roomKey: Key, c: Content, messages: set<int>, body: Body)
    requires SortedLists(c) && ApplyBody(roomKey, c, messages, body).Ok?
    ensures SortedLists(ApplyBody(roomKey, c, messages, body).value)
  {
    match body
    case Pin(id) => SortAppend(c.pins, id);
    case Unpin(id) => WithoutIncreasing(c.pins, id);
    case AdminGrant(key) => SortAppend(c.admins, key);
    case AdminRevoke(key) => WithoutIncreasing(c.admins, key);
    case ModeratorGrant(key) => SortAppend(c.moderators, key);
    case ModeratorRevoke(key) => WithoutIncreasing(c.moderators, key);
    case _ =>
  }

  /** Edit a privately owned copy of the state in place. */
  method ApplyProjectedStateBody(roomKey: Key, s: LiveState, messages: set<int>, body: Body)
    returns (r: Result<LiveState, Refusal>)
    requires InBounds(s) && SortedLists(ContentOf(s))
    requires s.admins.buf != s.moderators.buf && s.admins.buf != s.pins.buf && s.moderators.buf != s.pins.buf
    modifies s.admins.buf, s.moderators.buf, s.pins.buf
    ensures r.Ok? ==> InBounds(r.value)
    ensures r.Ok? ==> (r.value.admins.buf == s.admins.buf || fresh(r.value.admins.buf))
                      && (r.value.moderators.buf == s.moderators.buf || fresh(r.value.moderators.buf))
                      && (r.value.pins.buf == s.pins.buf || fresh(r.value.pins.buf))
    ensures match ApplyBody(roomKey, old(ContentOf(s)), messages, body)
            case Ok(c) => r.Ok? && ContentOf(r.value) == c
            case Err(why) => r == Err(why)
  {
    match body {
      case Message(_) =>
        return Ok(s);
      case Metadata(name, description) =>
        return Ok(s.(name := name, description := description));
      case WritePolicy(anyone) =>
        return Ok(s.(anyoneCanWrite := anyone));
      case Pin(id) =>
        if id !in messages {
          return Err(NoMessage);
        }
        var pinned := ContainsItem(s.pins, id);
        if pinned {
          return Err(Conflict);
        }
        if s.pins.len >= MAX_PINS {
          return Err(LimitReached);
        }
        SortAppend(Items(s.pins), id);
        var grown := AppendItem(s.pins, id);
        SortItems(grown);
        return Ok(s.(pins := grown));
      case Unpin(id) =>
        var shrunk, removed := RemoveItem(s.pins, id);
        if !removed {
          return Err(Conflict);
        }
        return Ok(s.(pins := shrunk));
      case AdminGrant(key) =>
        var roles := GrantProjectedRole(roomKey, s.admins, MAX_ADMINS, key);
        return match roles case Ok(keys) => Ok(s.(admins := keys)) case Err(why) => Err(why);
      case AdminRevoke(key) =>
        var roles := RevokeProjectedRole(roomKey, s.admins, key);
        return match roles case Ok(keys) => Ok(s.(admins := keys)) case Err(why) => Err(why);
      case ModeratorGrant(key) =>
        var roles := GrantProjectedRole(roomKey, s.moderators, MAX_MODERATORS, key);
        return match roles case Ok(keys) => Ok(s.(moderators := keys)) case Err(why) => Err(why);
      case ModeratorRevoke(key) =>
        var roles := RevokeProjectedRole(roomKey, s.moderators, key);
        return match roles case Ok(keys) => Ok(s.(moderators := keys)) case Err(why) => Err(why);
    }
  }

  class Projection {
    const genesis: Genesis
    var state: LiveState
    var headSeq: int
    var headHash: Hash
    var messages: set<int>

    ghost predicate Valid()
      reads this, state.admins.buf, state.moderators.buf, state.pins.buf
    {
      InBounds(state) && SortedLists(ContentOf(state))
    }

    /** The value this object stands for. */
    ghost function View(): Proj
      requires Valid()
      reads this, state.admins.buf, state.moderators.buf, state.pins.buf
    {
      Proj(genesis, state.revisionSeqno, state.revisionHash, ContentOf(state), headSeq, headHash, messages)
    }

    constructor (g: Genesis)
      requires ValidGenesis(g)
      ensures Valid() && View() == NewProj(g)
      ensures fresh({state.admins.buf, state.moderators.buf, state.pins.buf})
    {
      genesis := g;
      var admins := FromList(g.initialAdmins);
      var moderators := FromList([]);
      var pins := FromList([]);
      state := LiveState(0, GenesisHash(g), g.name, g.description, g.anyoneCanWrite, admins, moderators, pins);
      headSeq, headHash, messages := 0, ZeroHash, {};
    }

    /** Validate an event and build its change. The method may modify nothing
        that was allocated before the call: removal shifts only the copies. */
    method Prepare(e: Committed) returns (r: Result<Transition, Refusal>)
      requires Valid()
      ensures match PrepareDelta(View(), e)
              case Err(why) => r == Err(why)
              case Ok(d) => r.Ok? && InBounds(r.value.nextState) && DeltaOf(r.value) == d
      ensures r.Ok? ==> r.value.owner == this && RevisionMatches(r.value)
      ensures r.Ok? && r.value.stateChanged ==>
                fresh({r.value.nextState.admins.buf, r.value.nextState.moderators.buf, r.value.nextState.pins.buf})
                && SortedLists(ContentOf(r.value.nextState))
    {
      if VerifyCommit(e, genesis.roomKey, genesis.nodeKey).Err? {
        return Err(Unverified);
      }
      if e.seqno != headSeq + 1 || e.previous != headHash {
        return Err(NonContiguous);
      }
      var admins, moderators := Items(state.admins), Items(state.moderators);
      if !Authorized(genesis.roomKey, Content(state.name, state.description, state.anyoneCanWrite, admins,
          moderators, []), e.proposal) {
        return Err(Unauthorized);
      }
      if e.proposal.body.Message? {
        return Ok(Transition(this, headSeq, headHash, e.seqno, CommitHash(e), false, state, e.messageId));
      }
      var copy := CopyState(state);
      ghost var before := ContentOf(copy);
      var next := ApplyProjectedStateBody(genesis.roomKey, copy, messages, e.proposal.body);
      match next {
        case Err(why) => return Err(why);
        case Ok(s) =>
          ApplyBodyKeepsSorted(genesis.roomKey, before, messages, e.proposal.body);
          var revised := s.(revisionSeqno := e.seqno, revisionHash := CommitHash(e));
          return Ok(Transition(this, headSeq, headHash, e.seqno, CommitHash(e), true, revised, 0));
      }
    }

    /** Install a prepared change if the head has not moved. */
    method Commit(t: Transition) returns (ok: bool)
      requires Valid() && InBounds(t.nextState) && RevisionMatches(t)
      requires t.stateChanged ==> SortedLists(ContentOf(t.nextState))
      modifies this
      ensures Valid()
      ensures ok <==> t.owner == this && CommitDelta(old(View()), DeltaOf(t)).Some?
      ensures ok ==> View() == CommitDelta(old(View()), DeltaOf(t)).value
      ensures !ok ==> View() == old(View())
    {
      if t.owner != this || t.nextSeq != headSeq + 1 || t.baseSeq != headSeq || t.baseHash != headHash {
        return false;
      }
      headSeq := t.nextSeq;
      headHash := t.nextHash;
      if t.messageId > 0 {
        messages := messages + {t.messageId};
      }
      if t.stateChanged {
        state := t.nextState;
      }
      return true;
    }

    method ApplyEvent(e: Committed) returns (r: Result<(), Refusal>)
      requires Valid()
      modifies this
      ensures Valid()
      ensures match Apply(old(View()), e)
              case Ok(p) => r == Ok(()) && View() == p
              case Err(why) => r == Err(why) && View() == old(View())
    {
      PrepareThenCommitIsApply(View(), e);
      var prepared := Prepare(e);
      match prepared {
        case Err(why) => return Err(why);
        case Ok(t) =>
          var ok := Commit(t);
          assert ok;
          return Ok(());
      }
    }

    method ValidateState(s: RoomState) returns (ok: bool)
      requires Valid()
      ensures ok <==> StateMatches(View(), s)
    {
      var expected := Content(state.name, state.description, state.anyoneCanWrite,
                              Items(state.admins), Items(state.moderators), Items(state.pins));
      ok := VerifyState(s) && s.roomId == genesis.roomKey && s.revisionSeqno == state.revisionSeqno
            && s.revisionHash == state.revisionHash && s.content == expected;
    }
  }
}
