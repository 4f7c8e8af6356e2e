// What the full replay check establishes, and how it relates to the tables
// standing for a log.
module Auditing {
  import opened Wrappers
  import opened Ordered
  import opened Community
  import opened Replay
  import opened Tables
  import opened Refinement

  /** The commits stored in the events table, in ascending row order. */
  ghost function StoredLog(t: Tables): seq<Committed> {
    var numbers := Ascending(t.events.Keys);
    seq(|numbers|, i requires 0 <= i < |numbers| =>
      assert numbers[i] in Elements(numbers);
      t.events[numbers[i]].commit)
  }

  /** One row agrees with the commit it stores and with its place in the chain. */
  predicate RowMatches(n: int, row: EventRow, i: nat, previous: Hash) {
    && n == i + 1 && row.commit.seqno == n
    && row.previous == previous && row.commit.previous == previous
    && row.eventId == row.commit.proposal && row.commitHash == CommitHash(row.commit)
  }

  ghost predicate RowsMatch(t: Tables, k: nat)
    requires k <= |Ascending(t.events.Keys)|
  {
    var numbers := Ascending(t.events.Keys);
    AscendingMembers(t.events.Keys);
    forall i :: 0 <= i < k ==>
      RowMatches(numbers[i], t.events[numbers[i]], i, HeadHash(StoredLog(t)[..i]))
  }

  /** Everything the audit checks, the integrity pragma aside. */
  ghost predicate Sound(t: Tables, now: Instant) {
    var log := StoredLog(t);
    && VerifyGenesis(t.genesis, now) && t.genesisHash == GenesisHash(t.genesis)
    && Replays(t.genesis, log)
    && RowsMatch(t, |log|)
    && t.messages == MessageTable(log)
    && t.head == Head(|log|, HeadHash(log))
    && StateMatches(Projected(t.genesis, log), t.signed)
    && t.signed.content == ContentOf(t.rows)
  }

  lemma StoredLogOfTable(t: Tables, log: seq<Committed>)
    requires t.events == EventTable(log)
    ensures StoredLog(t) == log
    ensures Ascending(t.events.Keys) == seq(|log|, i => i + 1)
  {
    AscendingRange(|log|, t.events.Keys);
    forall i | 0 <= i < |log| ensures StoredLog(t)[i] == log[i] {
      assert t.events[i + 1] == RowOf(Nth(log, i + 1));
    }
  }

  /** A matching row has the number of its place. */
  lemma MatchingNumbers(t: Tables)
    requires RowsMatch(t, |StoredLog(t)|)
    ensures forall i :: 0 <= i < |StoredLog(t)| ==> Ascending(t.events.Keys)[i] == i + 1
  {
    var numbers, log := Ascending(t.events.Keys), StoredLog(t);
    forall i | 0 <= i < |log| ensures numbers[i] == i + 1 {
      assert RowMatches(numbers[i], t.events[numbers[i]], i, HeadHash(log[..i]));
    }
  }

  predicate RowHolds(row: EventRow, e: Committed) {
    row.commit == e && row.eventId == e.proposal && row.commitHash == CommitHash(e) && row.previous == e.previous
  }

  lemma MatchingRow(t: Tables, n: int)
    requires RowsMatch(t, |StoredLog(t)|) && 1 <= n <= |StoredLog(t)|
    ensures n in t.events && StoredLog(t)[n - 1].seqno == n && RowHolds(t.events[n], StoredLog(t)[n - 1])
  {
    var numbers, log := Ascending(t.events.Keys), StoredLog(t);
    MatchingNumbers(t);
    assert numbers[n - 1] == n;
    assert RowMatches(numbers[n - 1], t.events[numbers[n - 1]], n - 1, HeadHash(log[..n - 1]));
  }

  lemma MatchingRowsAreTheTable(t: Tables)
    requires RowsMatch(t, |StoredLog(t)|)
    ensures forall i :: 0 <= i < |StoredLog(t)| ==> StoredLog(t)[i].seqno == i + 1
    ensures forall n :: n in t.events <==> 1 <= n <= |StoredLog(t)|
    ensures forall n :: n in t.events ==> RowHolds(t.events[n], StoredLog(t)[n - 1])
  {
    hide RowHolds;
    var numbers, log := Ascending(t.events.Keys), StoredLog(t);
    AscendingMembers(t.events.Keys);
    MatchingNumbers(t);
    forall i | 0 <= i < |log| ensures log[i].seqno == i + 1 { MatchingRow(t, i + 1); }
    forall n ensures n in t.events <==> 1 <= n <= |log| {
      if n in t.events { assert n in numbers; }
      if 1 <= n <= |log| { MatchingRow(t, n); }
    }
    forall n | n in t.events ensures RowHolds(t.events[n], log[n - 1]) { MatchingRow(t, n); }
  }

  lemma ChainOfLog(g: Genesis, log: seq<Committed>)
    requires ValidGenesis(g) && Replays(g, log)
    ensures Chained(log) && GoodContent(g.roomKey, Projected(g, log).content)
  {
    FoldDescribes(g, log);
  }

  /** On tables standing for a log, the audit passes exactly when the genesis
      clock is right and the signed state covers the log. */
  lemma SoundIffCovered(t: Tables, log: seq<Committed>, now: Instant)
    requires Represents(t, log)
    ensures Sound(t, now) <==> VerifyGenesis(t.genesis, now) && Covered(t, log)
  {
    hide Describes, UniqueIds, MessageTable;
    StoredLogOfTable(t, log);
    ChainOfLog(t.genesis, log);
    var numbers := Ascending(t.events.Keys);
    forall i | 0 <= i < |log|
      ensures RowMatches(numbers[i], t.events[numbers[i]], i, HeadHash(log[..i]))
    {
      assert numbers[i] == i + 1;
      assert t.events[i + 1] == RowOf(Nth(log, i + 1));
    }
  }

  lemma EventsAreTheTable(t: Tables)
    requires RowsMatch(t, |StoredLog(t)|)
    requires forall n :: n in t.events ==> t.events[n].stateChanging == !IsMessage(t.events[n].commit)
    ensures t.events == EventTable(StoredLog(t))
  {
    hide RowsMatch, StoredLog;
    var log := StoredLog(t);
    MatchingRowsAreTheTable(t);
    var table := EventTable(log);
    assert t.events.Keys == table.Keys;
    forall n | n in t.events ensures t.events[n] == table[n] {
      HeldRow(t.events[n], Nth(log, n));
    }
  }

  lemma HeldRow(row: EventRow, e: Committed)
    requires RowHolds(row, e) && row.stateChanging == !IsMessage(row.commit)
    ensures row == RowOf(e)
  {
  }

  /** The audit is complete: whatever passes it, with the unique index on event
      ids, stands for its own stored log under a covering signature; except that
      it cannot tell a row's body-type column, which it never reads. */
  lemma SoundTablesRepresent(t: Tables, now: Instant)
    requires Sound(t, now) && UniqueIds(StoredLog(t))
    requires forall n :: n in t.events ==> t.events[n].stateChanging == !IsMessage(t.events[n].commit)
    ensures Represents(t, StoredLog(t)) && Covered(t, StoredLog(t))
  {
    EventsAreTheTable(t);
  }

  // ---- Counting messages ------------------------------------------------

  function MessagesIn(log: seq<Committed>): seq<Committed> {
    if log == [] then []
    else
      var e := log[|log| - 1];
      var before := MessagesIn(log[..|log| - 1]);
      if IsMessage(e) then before + [e] else before
  }

  lemma {:induction false} MessagesInTable(log: seq<Committed>)
    requires Numbered(log)
    ensures |MessagesIn(log)| == |MessageTable(log)|
    ensures forall m :: m in MessagesIn(log) <==> m in log && IsMessage(m)
  {
    if log == [] {
      assert MessageTable(log) == map[];
    } else {
      var front, e := log[..|log| - 1], log[|log| - 1];
      MessagesInTable(front);
      MessageTableGrown(front, e);
      assert log == front + [e];
      if IsMessage(e) {
        assert e.seqno !in MessageTable(front);
      }
    }
  }

  /** The two halves of the message check, every message present and equal
      counts, say that the messages table is exactly the log's. */
  lemma MessageCheck(log: seq<Committed>, messages: map<int, Committed>)
    requires Numbered(log)
    ensures messages == MessageTable(log)
            <==> |messages| == |MessagesIn(log)|
                 && forall m :: m in MessagesIn(log) ==> m.seqno in messages && messages[m.seqno] == m
  {
    MessagesInTable(log);
    var table := MessageTable(log);
    if messages == table {
      forall m | m in MessagesIn(log) ensures m.seqno in messages && messages[m.seqno] == m {
        var i :| 0 <= i < |log| && log[i] == m;
        assert Nth(log, i + 1) == m;
      }
    }
    if |messages| == |table| && forall m :: m in MessagesIn(log) ==> m.seqno in messages && messages[m.seqno] == m {
      forall n | n in table ensures n in messages && messages[n] == table[n] {
        assert Nth(log, n) in log && Nth(log, n).seqno == n;
      }
      SubsetOfSameSize(table.Keys, messages.Keys);
      assert messages == table;
    }
  }

  lemma SubsetOfSameSize(a: set<int>, b: set<int>)
    requires a <= b && |a| == |b|
    ensures a == b
  {
    assert |b - a| == 0;
  }
}
