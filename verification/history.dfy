// What a replayed room is, read off its log: who holds a role, what is pinned and
// how the room is called follow from the last event about each, and which event
// may come next follows from that.
module Histories {
  import opened Wrappers
  import opened Ordered
  import opened Community
  import opened Replay

  // ---- The last word ----------------------------------------------------

  /** From place `i` on, no event has this body. */
  predicate Never(log: seq<Committed>, i: nat, body: Body) {
    forall j :: i <= j < |log| ==> log[j].proposal.body != body
  }

  predicate SaidLast(log: seq<Committed>, i: nat, on: Body, off: Body) {
    i < |log| && log[i].proposal.body == on && Never(log, i, off)
  }

  /** The last of the two bodies to appear is `on`, or neither does and it was so
      initially. */
  ghost predicate Stands(log: seq<Committed>, on: Body, off: Body, initially: bool) {
    || (initially && Never(log, 0, off))
    || exists i: nat :: SaidLast(log, i, on, off)
  }

  lemma NeverGrown(log: seq<Committed>, e: Committed, i: nat, body: Body)
    requires i <= |log|
    ensures Never(log + [e], i, body) <==> Never(log, i, body) && e.proposal.body != body
  {
    var grown := log + [e];
    assert grown[|log|] == e;
    if Never(grown, i, body) {
      forall j | i <= j < |log| ensures log[j].proposal.body != body {
        assert grown[j] == log[j];
      }
    }
  }

  lemma SaidGrown(log: seq<Committed>, e: Committed, i: nat, on: Body, off: Body)
    requires on != off
    ensures SaidLast(log + [e], i, on, off)
            <==> (SaidLast(log, i, on, off) && e.proposal.body != off) || (i == |log| && e.proposal.body == on)
  {
    hide Never;
    if i <= |log| { NeverGrown(log, e, i, off); }
    NothingAfter(log, off);
  }

  lemma StandsGrown(log: seq<Committed>, e: Committed, on: Body, off: Body, initially: bool)
    requires on != off
    ensures Stands(log + [e], on, off, initially)
            <==> e.proposal.body == on || (e.proposal.body != off && Stands(log, on, off, initially))
  {
    hide Never, SaidLast;
    NeverGrown(log, e, 0, off);
    forall i: nat
      ensures SaidLast(log + [e], i, on, off)
              <==> (SaidLast(log, i, on, off) && e.proposal.body != off) || (i == |log| && e.proposal.body == on)
    {
      SaidGrown(log, e, i, on, off);
    }
    assert e.proposal.body == on ==> SaidLast(log + [e], |log|, on, off);
  }

  lemma NothingAfter(log: seq<Committed>, body: Body)
    ensures Never(log, |log|, body)
  {
  }

  /** Place `i` holds the last event of its kind. */
  predicate LastSuch(log: seq<Committed>, i: nat, kind: Body -> bool) {
    && i < |log| && kind(log[i].proposal.body)
    && forall j :: i < j < |log| ==> !kind(log[j].proposal.body)
  }

  predicate NoneSuch(log: seq<Committed>, kind: Body -> bool) {
    forall j :: 0 <= j < |log| ==> !kind(log[j].proposal.body)
  }

  lemma LastGrown(log: seq<Committed>, e: Committed, kind: Body -> bool)
    ensures NoneSuch(log + [e], kind) <==> NoneSuch(log, kind) && !kind(e.proposal.body)
    ensures forall i: nat :: LastSuch(log + [e], i, kind)
                             <==> if kind(e.proposal.body) then i == |log| else LastSuch(log, i, kind)
  {
    var grown := log + [e];
    assert grown[|log|] == e && forall j :: 0 <= j < |log| ==> grown[j] == log[j];
  }

  function Renaming(): Body -> bool {
    (b: Body) => b.Metadata?
  }

  function Opening(): Body -> bool {
    (b: Body) => b.WritePolicy?
  }

  /** The name and description are those of the last metadata event, or of the
      genesis. */
  ghost predicate NamedBy(c: Content, g: Genesis, log: seq<Committed>) {
    && (NoneSuch(log, Renaming()) ==> c.name == g.name && c.description == g.description)
    && forall i: nat :: LastSuch(log, i, Renaming()) ==>
         c.name == log[i].proposal.body.name && c.description == log[i].proposal.body.description
  }

  /** Anyone may write as the last policy event says, or the genesis. */
  ghost predicate OpenBy(c: Content, g: Genesis, log: seq<Committed>) {
    && (NoneSuch(log, Opening()) ==> c.anyoneCanWrite == g.anyoneCanWrite)
    && forall i: nat :: LastSuch(log, i, Opening()) ==> c.anyoneCanWrite == log[i].proposal.body.anyoneCanWrite
  }

  ghost predicate ListedBy(c: Content, g: Genesis, log: seq<Committed>) {
    && (forall k :: k in c.admins <==> Stands(log, AdminGrant(k), AdminRevoke(k), k in g.initialAdmins))
    && (forall k :: k in c.moderators <==> Stands(log, ModeratorGrant(k), ModeratorRevoke(k), false))
    && (forall id :: id in c.pins <==> Stands(log, Pin(id), Unpin(id), false))
  }

  // ---- One more event ---------------------------------------------------

  lemma NamesMove(p: Proj, e: Committed)
    requires Apply(p, e).Ok?
    ensures var c, after, body := p.content, Apply(p, e).value.content, e.proposal.body;
            && after.name == (if body.Metadata? then body.name else c.name)
            && after.description == (if body.Metadata? then body.description else c.description)
            && after.anyoneCanWrite == (if body.WritePolicy? then body.anyoneCanWrite else c.anyoneCanWrite)
  {
  }

  lemma NamedGrown(p: Proj, g: Genesis, log: seq<Committed>, e: Committed)
    requires NamedBy(p.content, g, log) && OpenBy(p.content, g, log) && Apply(p, e).Ok?
    ensures NamedBy(Apply(p, e).value.content, g, log + [e]) && OpenBy(Apply(p, e).value.content, g, log + [e])
  {
    NamesMove(p, e);
    hide Apply, LastSuch, NoneSuch;
    LastGrown(log, e, Renaming());
    LastGrown(log, e, Opening());
    assert forall i: nat :: LastSuch(log, i, Renaming()) ==> i < |log| by { LastIsWithin(log, Renaming()); }
    assert forall i: nat :: LastSuch(log, i, Opening()) ==> i < |log| by { LastIsWithin(log, Opening()); }
  }

  lemma LastIsWithin(log: seq<Committed>, kind: Body -> bool)
    ensures forall i: nat :: LastSuch(log, i, kind) ==> i < |log| && kind(log[i].proposal.body)
  {
  }

  /** What one body does to the members of the lists. */
  lemma ListsMove(roomKey: Key, c: Content, messages: set<int>, body: Body)
    requires StrictlyIncreasing(c.admins) && StrictlyIncreasing(c.moderators) && StrictlyIncreasing(c.pins)
    requires ApplyBody(roomKey, c, messages, body).Ok?
    ensures var after := ApplyBody(roomKey, c, messages, body).value;
            && (forall k :: k in after.admins <==> body == AdminGrant(k) || (body != AdminRevoke(k) && k in c.admins))
            && (forall k :: k in after.moderators <==>
                  body == ModeratorGrant(k) || (body != ModeratorRevoke(k) && k in c.moderators))
            && (forall id :: id in after.pins <==> body == Pin(id) || (body != Unpin(id) && id in c.pins))
  {
    match body
    case Pin(id) => SortMembers(c.pins, id);
    case Unpin(id) => WithoutMembers(c.pins, id);
    case AdminGrant(key) => SortMembers(c.admins, key);
    case AdminRevoke(key) => WithoutMembers(c.admins, key);
    case ModeratorGrant(key) => SortMembers(c.moderators, key);
    case ModeratorRevoke(key) => WithoutMembers(c.moderators, key);
    case _ =>
  }

  lemma ListedGrown(p: Proj, g: Genesis, log: seq<Committed>, e: Committed)
    requires ListedBy(p.content, g, log) && Apply(p, e).Ok?
    requires StrictlyIncreasing(p.content.admins) && StrictlyIncreasing(p.content.moderators)
    requires StrictlyIncreasing(p.content.pins)
    ensures ListedBy(Apply(p, e).value.content, g, log + [e])
  {
    hide Stands;
    if !IsMessage(e) { ListsMove(p.genesis.roomKey, p.content, p.messages, e.proposal.body); }
    var after := Apply(p, e).value.content;
    forall k ensures k in after.admins <==> Stands(log + [e], AdminGrant(k), AdminRevoke(k), k in g.initialAdmins) {
      StandsGrown(log, e, AdminGrant(k), AdminRevoke(k), k in g.initialAdmins);
    }
    forall k ensures k in after.moderators <==> Stands(log + [e], ModeratorGrant(k), ModeratorRevoke(k), false) {
      StandsGrown(log, e, ModeratorGrant(k), ModeratorRevoke(k), false);
    }
    forall id ensures id in after.pins <==> Stands(log + [e], Pin(id), Unpin(id), false) {
      StandsGrown(log, e, Pin(id), Unpin(id), false);
    }
  }

  /** The replayed content is what the last event about each role, pin, name and
      policy says. With the lists sorted this determines it completely. */
  lemma {:induction false} HistoryDecides(g: Genesis, log: seq<Committed>)
    requires ValidGenesis(g) && Replays(g, log)
    ensures ListedBy(Projected(g, log).content, g, log)
    ensures NamedBy(Projected(g, log).content, g, log) && OpenBy(Projected(g, log).content, g, log)
  {
    hide Apply, ListedBy, NamedBy, OpenBy;
    if log == [] {
      NothingSaid(g);
    } else {
      var front, e := log[..|log| - 1], log[|log| - 1];
      HistoryDecides(g, front);
      FoldDescribes(g, front);
      assert log == front + [e];
      ListedGrown(Projected(g, front), g, front, e);
      NamedGrown(Projected(g, front), g, front, e);
    }
  }

  lemma NothingSaid(g: Genesis)
    ensures ListedBy(InitialContent(g), g, []) && NamedBy(InitialContent(g), g, []) && OpenBy(InitialContent(g), g, [])
  {
  }

  // ---- Which event may come next ----------------------------------------

  /** The owner may do anything; an admin anything but appointing admins; a
      moderator may pin and unpin; and in an open room anyone may write. */
  predicate Permitted(roomKey: Key, c: Content, p: Proposal) {
    || p.author == roomKey
    || (p.author in c.admins && !p.body.AdminGrant? && !p.body.AdminRevoke?)
    || (p.author in c.moderators && (p.body.Pin? || p.body.Unpin?))
    || (c.anyoneCanWrite && p.body.Message?)
  }

  /** The event would change something, and leaves every list within its limit. */
  predicate Effective(roomKey: Key, c: Content, log: seq<Committed>, body: Body) {
    match body
    case Pin(id) => MessageAt(log, id) && id !in c.pins && |c.pins| < 100
    case Unpin(id) => id in c.pins
    case AdminGrant(key) => key != roomKey && key !in c.admins && |c.admins| < 64
    case AdminRevoke(key) => key in c.admins
    case ModeratorGrant(key) => key != roomKey && key !in c.moderators && |c.moderators| < 256
    case ModeratorRevoke(key) => key in c.moderators
    case _ => true
  }

  lemma PermittedIff(roomKey: Key, c: Content, p: Proposal)
    ensures Authorized(roomKey, c, p) <==> Permitted(roomKey, c, p)
  {
  }

  lemma EffectiveIff(roomKey: Key, c: Content, messages: set<int>, log: seq<Committed>, body: Body)
    requires roomKey !in c.admins && roomKey !in c.moderators
    requires forall id :: id in messages <==> MessageAt(log, id)
    ensures ApplyBody(roomKey, c, messages, body).Ok? <==> Effective(roomKey, c, log, body)
  {
  }

  /** Exactly which events extend a replayable log: the verified and contiguous ones
      whose author may do this and whose effect is possible. */
  lemma NextIsAcceptedIff(g: Genesis, log: seq<Committed>, e: Committed)
    requires ValidGenesis(g) && Replays(g, log)
    ensures Apply(Projected(g, log), e).Ok? <==>
              && VerifyCommit(e, g.roomKey, g.nodeKey).Ok?
              && e.seqno == |log| + 1 && e.previous == HeadHash(log)
              && Permitted(g.roomKey, Projected(g, log).content, e.proposal)
              && Effective(g.roomKey, Projected(g, log).content, log, e.proposal.body)
    ensures Replays(g, log + [e]) <==> Apply(Projected(g, log), e).Ok?
  {
    var p := Projected(g, log);
    FoldDescribes(g, log);
    FoldAppend(g, log, e);
    hide VerifyCommit, Authorized, ApplyBody, Permitted, Effective;
    PermittedIff(g.roomKey, p.content, e.proposal);
    EffectiveIff(g.roomKey, p.content, p.messages, log, e.proposal.body);
    MessageIsEffective(g.roomKey, p.content, log, e);
  }

  lemma MessageIsEffective(roomKey: Key, c: Content, log: seq<Committed>, e: Committed)
    ensures IsMessage(e) ==> Effective(roomKey, c, log, e.proposal.body)
  {
  }
}
