// Reading the stored log backwards: the timeline query, the shrinking of an answer
// until it fits one line, the walk from the newest page to the oldest, and the
// window that a viewer keeps while it loads older and newer pages.
module Timelines {
  import opened Wrappers
  import opened Ordered
  import opened Community
  import opened Replay
  import opened ClientDbs
  import opened Pages

  function EffectiveLimit(limit: int): (r: nat)
    ensures 1 <= r <= MAX_PAGE_LIMIT
  {
    if limit <= 0 || limit > MAX_PAGE_LIMIT then DEFAULT_PAGE_LIMIT else limit
  }

  /** How many events come before position `before`, zero standing for the end. */
  function Below(log: seq<Committed>, before: int): (n: nat)
    ensures n <= |log|
  {
    if before <= 0 || before - 1 >= |log| then |log| else before - 1
  }

  /** The newest events before a position, in ascending order. */
  function TimelineOf(log: seq<Committed>, before: int, limit: int): Page {
    var n, k := Below(log, before), EffectiveLimit(limit);
    if n > k then Page(log[n - k..n], true) else Page(log[..n], false)
  }

  /** Swap the ends of the first `kept` elements, then the next pair, and so on. */
  method ReverseFront(rows: array<Committed>, kept: nat)
    requires kept <= rows.Length
    modifies rows
    ensures forall i :: 0 <= i < kept ==> rows[i] == old(rows[kept - 1 - i])
  {
    var left, right := 0, kept - 1;
    while left < right
      invariant 0 <= left <= kept && left + right == kept - 1 && left <= right + 1
      invariant forall i :: 0 <= i < left || right < i < kept ==> rows[i] == old(rows[kept - 1 - i])
      invariant forall i :: left <= i <= right ==> rows[i] == old(rows[i])
    {
      rows[left], rows[right] := rows[right], rows[left];
      left, right := left + 1, right - 1;
    }
  }

  /** The newest `count` events below the position, newest first. */
  method Descending(db: ClientDb, numbers: seq<int>, count: nat, ghost log: seq<Committed>, ghost n: nat)
    returns (rows: array<Committed>)
    requires db.events == LogTable(log) && count <= n <= |log| && numbers == seq(n, i => i + 1)
    ensures fresh(rows) && rows.Length == count
    ensures forall i :: 0 <= i < count ==> rows[i] == Nth(log, n - i)
  {
    assert forall k :: 0 <= k < |numbers| ==> numbers[k] in db.events && db.events[numbers[k]] == Nth(log, numbers[k]);
    rows := new Committed[count](i requires 0 <= i < count <= |numbers|
                                   && (forall k :: 0 <= k < |numbers| ==> numbers[k] in db.events) =>
                                 db.events[numbers[|numbers| - 1 - i]]);
  }

  /** The descending query, cut to the limit and reversed in place. */
  method Timeline(db: ClientDb, before: int, limit: int, ghost log: seq<Committed>) returns (page: Page)
    requires db.events == LogTable(log)
    ensures page == TimelineOf(log, before, limit)
  {
    var most := EffectiveLimit(limit);
    var wanted := set n | n in db.events && (before > 0 ==> n < before);
    var numbers := OrderBy(wanted);
    AscendingRange(Below(log, before), wanted);
    var count := if |numbers| < most + 1 then |numbers| else most + 1;
    var rows := Descending(db, numbers, count, log, Below(log, before));
    var hasMore := count > most;
    var kept := if hasMore then most else count;
    ReverseFront(rows, kept);
    page := Page(rows[..kept], hasMore);
    ghost var n := Below(log, before);
    assert forall i :: 0 <= i < kept ==> rows[i] == Nth(log, n - (kept - 1 - i));
    assert page.events == log[n - kept..n];
    assert log[0..n] == log[..n];
  }

  // ---- Fitting an answer to a line --------------------------------------

  /** Whether an answer with these items and this flag fits one line. */
  type Fits = (seq<Committed>, bool) -> bool

  function Shrunk(items: seq<Committed>, fits: Fits): Option<Page> {
    if items == [] then None
    else if fits(items[1..], true) then Some(Page(items[1..], true))
    else Shrunk(items[1..], fits)
  }

  function Fitted(page: Page, fits: Fits): Option<Page> {
    if fits(page.events, page.hasMore) then Some(page) else Shrunk(page.events, fits)
  }

  /** Drop the oldest item and promise more until the answer fits. */
  method FitResponse(page: Page, fits: Fits) returns (r: Option<Page>)
    ensures r == Fitted(page, fits)
  {
    if fits(page.events, page.hasMore) {
      return Some(page);
    }
    var items := page.events;
    while true
      invariant Shrunk(items, fits) == Shrunk(page.events, fits)
      decreases |items|
    {
      if items == [] {
        return None;
      }
      items := items[1..];
      if fits(items, true) {
        return Some(Page(items, true));
      }
    }
  }

  /** The empty answer fits a line, and so does every event of the log on its own,
      promising more unless it is the first. */
  predicate SinglesFit(fits: Fits, log: seq<Committed>) {
    fits([], false) && forall i :: 0 <= i < |log| ==> fits([log[i]], i > 0)
  }

  /** Dropping stops before the last item is gone. */
  lemma {:induction false} ShrunkKeepsSome(items: seq<Committed>, fits: Fits)
    requires |items| > 1 && fits([items[|items| - 1]], true)
    ensures exists k :: 1 <= k < |items| && Shrunk(items, fits) == Some(Page(items[k..], true))
              && fits(items[k..], true)
  {
    var rest := items[1..];
    if |rest| == 1 { assert rest == [items[|items| - 1]]; }
    if fits(rest, true) {
      assert items[1..] == rest;
    } else {
      ShrunkKeepsSome(rest, fits);
      var k :| 1 <= k < |rest| && Shrunk(rest, fits) == Some(Page(rest[k..], true)) && fits(rest[k..], true);
      assert rest[k..] == items[k + 1..];
    }
  }

  /** What an answer for a position always is: the newest events before it, at
      least one if there is one, with `hasMore` exactly if older ones remain. */
  predicate Serves(page: Page, log: seq<Committed>, before: int) {
    var n, k := Below(log, before), |page.events|;
    && k <= n && (n > 0 ==> k > 0)
    && page.events == log[n - k..n] && (page.hasMore <==> k < n)
  }

  lemma TimelineServes(log: seq<Committed>, before: int, limit: int)
    ensures Serves(TimelineOf(log, before, limit), log, before)
  {
    var n := Below(log, before);
    assert log[0..n] == log[..n];
  }

  lemma SuffixServes(page: Page, log: seq<Committed>, before: int, k: nat)
    requires Serves(page, log, before) && 1 <= k < |page.events|
    ensures Serves(Page(page.events[k..], true), log, before)
  {
    var n := Below(log, before);
    assert page.events[k..] == log[n - (|page.events| - k)..n];
  }

  /** The answer for a position exists and serves it. */
  predicate Answered(log: seq<Committed>, before: int, limit: int, fits: Fits) {
    var r := Fitted(TimelineOf(log, before, limit), fits);
    r.Some? && Serves(r.value, log, before)
  }

  /** A page of one item, or of none, fits as it is. */
  lemma SmallPageFits(log: seq<Committed>, before: int, limit: int, fits: Fits)
    requires SinglesFit(fits, log)
    ensures var page := TimelineOf(log, before, limit);
            && (|page.events| <= 1 ==> fits(page.events, page.hasMore))
            && (|page.events| > 1 ==> fits([page.events[|page.events| - 1]], true))
  {
    var page, n := TimelineOf(log, before, limit), Below(log, before);
    if page.events == [] {
      assert page == Page([], false);
    } else {
      var last := page.events[|page.events| - 1];
      assert last == log[n - 1] && fits([log[n - 1]], n - 1 > 0);
      if |page.events| == 1 { assert page.events == [last]; }
    }
  }

  /** Shrinking a page of several items ends at a page that still serves. */
  lemma ShrunkServes(page: Page, log: seq<Committed>, before: int, fits: Fits)
    requires Serves(page, log, before) && |page.events| > 1 && fits([page.events[|page.events| - 1]], true)
    ensures var r := Shrunk(page.events, fits);
            r.Some? && Serves(r.value, log, before) && fits(r.value.events, r.value.hasMore)
  {
    hide Serves, Shrunk;
    ShrunkKeepsSome(page.events, fits);
    var k :| 1 <= k < |page.events| && Shrunk(page.events, fits) == Some(Page(page.events[k..], true))
             && fits(page.events[k..], true);
    SuffixServes(page, log, before, k);
  }

  /** If every event fits on its own, every fitted answer serves its position, and
      fits. */
  lemma FittedTimelineServes(log: seq<Committed>, before: int, limit: int, fits: Fits)
    requires SinglesFit(fits, log)
    ensures Answered(log, before, limit, fits)
    ensures var r := Fitted(TimelineOf(log, before, limit), fits).value; fits(r.events, r.hasMore)
  {
    hide TimelineOf, Serves, Shrunk, SinglesFit;
    var page := TimelineOf(log, before, limit);
    TimelineServes(log, before, limit);
    SmallPageFits(log, before, limit, fits);
    if |page.events| > 1 { ShrunkServes(page, log, before, fits); }
  }

  /** An event that fits no line of its own is not shown where it stands alone. */
  lemma OversizedEventIsNeverShown(log: seq<Committed>, i: nat, limit: int, fits: Fits)
    requires i < |log| && !fits([log[i]], i > 0) && (limit == 1 || i == 0)
    ensures var r := Fitted(TimelineOf(log, i + 2, limit), fits); r.None? || r.value.events == []
    ensures !Answered(log, i + 2, limit, fits)
  {
    assert Below(log, i + 2) == i + 1;
    assert TimelineOf(log, i + 2, limit).events == [log[i]];
    assert [log[i]][1..] == [];
    assert Shrunk([], fits) == None;
  }

  /** The condition is exact: every position is answered, under every limit, if and
      only if every event of the log fits a line of its own and so does the empty
      answer. */
  lemma TimelineServesIff(log: seq<Committed>, fits: Fits)
    ensures (forall before, limit :: Answered(log, before, limit, fits)) <==> SinglesFit(fits, log)
  {
    if SinglesFit(fits, log) {
      forall before, limit ensures Answered(log, before, limit, fits) {
        FittedTimelineServes(log, before, limit, fits);
      }
    } else if !fits([], false) {
      assert TimelineOf(log, 1, 1) == Page([], false);
      assert !Answered(log, 1, 1, fits);
    } else {
      var i :| 0 <= i < |log| && !fits([log[i]], i > 0);
      OversizedEventIsNeverShown(log, i, 1, fits);
    }
  }

  /** The k-th suffix is the first to fit. */
  predicate FirstFit(items: seq<Committed>, fits: Fits, k: nat) {
    1 <= k <= |items| && fits(items[k..], true) && forall j :: 1 <= j < k ==> !fits(items[j..], true)
  }

  lemma {:induction false} ShrunkIsFirstFit(items: seq<Committed>, fits: Fits)
    ensures match Shrunk(items, fits)
            case None => forall j :: 1 <= j <= |items| ==> !fits(items[j..], true)
            case Some(page) => exists k: nat :: FirstFit(items, fits, k) && page == Page(items[k..], true)
  {
    if items == [] {
    } else if fits(items[1..], true) {
      assert FirstFit(items, fits, 1);
    } else {
      var rest := items[1..];
      ShrunkIsFirstFit(rest, fits);
      assert forall j :: 1 <= j <= |rest| ==> rest[j..] == items[j + 1..];
      match Shrunk(rest, fits)
      case None =>
        forall j | 1 <= j <= |items| ensures !fits(items[j..], true) {
          if j > 1 { assert items[j..] == rest[j - 1..]; }
        }
      case Some(page) =>
        var k: nat :| FirstFit(rest, fits, k) && page == Page(rest[k..], true);
        forall j | 1 <= j < k + 1 ensures !fits(items[j..], true) {
          if j > 1 { assert items[j..] == rest[j - 1..]; }
        }
        assert FirstFit(items, fits, k + 1);
    }
  }

  /** Fitting drops no more than it must: a page that fits is answered whole, and
      otherwise the longest shorter one that fits, if there is any. */
  lemma FittedIsLongest(page: Page, fits: Fits)
    ensures if fits(page.events, page.hasMore) then Fitted(page, fits) == Some(page)
            else match Fitted(page, fits)
                 case None => forall j :: 1 <= j <= |page.events| ==> !fits(page.events[j..], true)
                 case Some(r) =>
                   exists k: nat :: FirstFit(page.events, fits, k) && r == Page(page.events[k..], true)
  {
    ShrunkIsFirstFit(page.events, fits);
  }

  /** The query is answered in full: as many of the events numbered below the
      position as the limit allows, 1 to 256 as asked and 100 otherwise. */
  lemma TimelineIsFull(log: seq<Committed>, before: int, limit: int)
    requires Numbered(log)
    ensures var page, n := TimelineOf(log, before, limit), Below(log, before);
            var most := if 1 <= limit <= 256 then limit else 100;
            && (forall i :: 0 <= i < |log| ==> (i < n <==> before <= 0 || log[i].seqno < before))
            && |page.events| == (if n < most then n else most)
            && page.events == log[n - |page.events|..n] && (page.hasMore <==> n > most)
  {
    var n := Below(log, before);
    assert log[0..n] == log[..n];
  }

  // ---- Walking back -----------------------------------------------------

  /** Answers by query number and position, from a log that may grow meanwhile. */
  type Backend = (nat, int) -> Option<Page>

  ghost predicate Faithful(backend: Backend, logs: nat -> seq<Committed>) {
    && (forall k: nat, before: int :: backend(k, before).Some? ==> Serves(backend(k, before).value, logs(k), before))
    && Growing(logs)
  }

  /** A numbered log that only grows from query to query. */
  ghost predicate Growing(logs: nat -> seq<Committed>) {
    && (forall k: nat :: Numbered(logs(k)))
    && (forall j: nat, k: nat :: j <= k ==> logs(j) <= logs(k))
  }

  /** Asking again and again for what precedes the first item yields the whole
      log, once and in order, however the answers were cut. */
  method WalkBack(backend: Backend, ghost logs: nat -> seq<Committed>) returns (all: Option<seq<Committed>>)
    requires Faithful(backend, logs)
    ensures all.Some? ==> all.value == logs(0)
    ensures (forall k: nat, before: int :: backend(k, before).Some?) ==> all.Some?
  {
    var first := backend(0, 0);
    if first.None? {
      return None;
    }
    var collected, hasMore, k := first.value.events, first.value.hasMore, 1;
    ghost var at := |logs(0)| - |collected|;
    while hasMore
      invariant 0 <= at <= |logs(0)| && collected == logs(0)[at..]
      invariant hasMore <==> at > 0
      invariant collected == [] ==> logs(0) == []
      decreases at
    {
      var page := backend(k, collected[0].seqno);
      if page.None? {
        return None;
      }
      OlderPage(backend, logs, k, at, collected[0].seqno);
      collected := page.value.events + collected;
      hasMore := page.value.hasMore;
      at := at - |page.value.events|;
      k := k + 1;
    }
    return Some(collected);
  }

  /** The backend that answers with fitted timelines of a growing log. */
  function FittedBackend(logs: nat -> seq<Committed>, limit: int, fits: Fits): Backend {
    (k: nat, before: int) => Fitted(TimelineOf(logs(k), before, limit), fits)
  }

  lemma FittedBackendIsFaithful(logs: nat -> seq<Committed>, limit: int, fits: Fits)
    requires Growing(logs) && forall k: nat :: SinglesFit(fits, logs(k))
    ensures Faithful(FittedBackend(logs, limit, fits), logs)
    ensures forall k: nat, before: int :: FittedBackend(logs, limit, fits)(k, before).Some?
    ensures forall k: nat, before: int ::
              FittedBackend(logs, limit, fits)(k, before) == Fitted(TimelineOf(logs(k), before, limit), fits)
  {
    hide SinglesFit, Numbered, Serves;
    forall k: nat, before: int
      ensures FittedBackend(logs, limit, fits)(k, before).Some?
      ensures Serves(FittedBackend(logs, limit, fits)(k, before).value, logs(k), before)
    {
      FittedTimelineServes(logs(k), before, limit, fits);
    }
  }

  /** One query: the stored timeline, shrunk to a line. */
  method AnswerTimeline(db: ClientDb, before: int, limit: int, fits: Fits, ghost log: seq<Committed>)
    returns (r: Option<Page>)
    requires db.events == LogTable(log)
    ensures r == Fitted(TimelineOf(log, before, limit), fits)
  {
    var page := Timeline(db, before, limit, log);
    r := FitResponse(page, fits);
  }

  /** The walk has collected the events after number `at`. */
  ghost predicate Collected(all: seq<Committed>, hasMore: bool, log: seq<Committed>, at: int) {
    0 <= at <= |log| && all == log[at..] && (hasMore <==> at > 0) && (all == [] ==> log == [])
  }

  /** One step of the walk: ask for what precedes the first item. */
  method StepBack(db: ClientDb, limit: int, fits: Fits, all: seq<Committed>,
                  ghost logs: nat -> seq<Committed>, ghost k: nat, ghost at: int)
    returns (grown: seq<Committed>, hasMore: bool, ghost before: int)
    requires Growing(logs) && db.events == LogTable(logs(k)) && forall i: nat :: SinglesFit(fits, logs(i))
    requires Collected(all, true, logs(0), at) && all != []
    ensures Collected(grown, hasMore, logs(0), before) && before < at
  {
    ghost var backend := FittedBackend(logs, limit, fits);
    FittedBackendIsFaithful(logs, limit, fits);
    hide Faithful, Growing, Numbered, TimelineOf, Fitted, SinglesFit, LogTable, FittedBackend, Serves;
    CursorOf(backend, logs, at, all);
    var page := AnswerTimeline(db, all[0].seqno, limit, fits, logs(k));
    OlderPage(backend, logs, k, at, at + 1);
    return page.value.events + all, page.value.hasMore, at - |page.value.events|;
  }

  /** Paging backwards through the stored timeline and the line limit together:
      whatever the limit, and however the log grows meanwhile, the walk ends with
      the whole log it started on, once and in order. */
  method WalkStored(dbs: nat -> ClientDb, limit: int, fits: Fits, ghost logs: nat -> seq<Committed>)
    returns (all: seq<Committed>)
    requires Growing(logs) && forall k: nat :: dbs(k).events == LogTable(logs(k)) && SinglesFit(fits, logs(k))
    ensures all == logs(0)
  {
    var page := AnswerTimeline(dbs(0), 0, limit, fits, logs(0));
    FirstIsCollected(logs, limit, fits, page);
    hide Growing, LogTable, SinglesFit, Collected;
    var hasMore, k := page.value.hasMore, 1;
    all := page.value.events;
    ghost var at := |logs(0)| - |all|;
    while hasMore
      invariant Collected(all, hasMore, logs(0), at)
      decreases at
    {
      CollectedBounds(all, logs(0), at);
      all, hasMore, at := StepBack(dbs(k), limit, fits, all, logs, k, at);
      k := k + 1;
    }
    AllCollected(all, logs(0), at);
  }

  lemma CollectedBounds(all: seq<Committed>, log: seq<Committed>, at: int)
    requires Collected(all, true, log, at)
    ensures at > 0 && all != []
  {
  }

  lemma AllCollected(all: seq<Committed>, log: seq<Committed>, at: int)
    requires Collected(all, false, log, at)
    ensures all == log
  {
  }

  lemma FirstIsCollected(logs: nat -> seq<Committed>, limit: int, fits: Fits, page: Option<Page>)
    requires Growing(logs) && forall k: nat :: SinglesFit(fits, logs(k))
    requires page == Fitted(TimelineOf(logs(0), 0, limit), fits)
    ensures page.Some? && Collected(page.value.events, page.value.hasMore, logs(0), |logs(0)| - |page.value.events|)
  {
    hide Growing, TimelineOf, Fitted, SinglesFit, Serves, Collected;
    FittedTimelineServes(logs(0), 0, limit, fits);
    ServedIsCollected(page.value, logs(0));
  }

  lemma ServedIsCollected(page: Page, log: seq<Committed>)
    requires Serves(page, log, 0)
    ensures Collected(page.events, page.hasMore, log, |log| - |page.events|)
  {
    assert log[|log| - |page.events|..|log|] == log[|log| - |page.events|..];
  }

  lemma CursorOf(backend: Backend, logs: nat -> seq<Committed>, at: nat, tail: seq<Committed>)
    requires Faithful(backend, logs) && at < |logs(0)| && tail == logs(0)[at..]
    ensures tail[0].seqno == at + 1
  {
    assert Numbered(logs(0));
  }

  /** The page before event number `at + 1`. */
  lemma OlderPage(backend: Backend, logs: nat -> seq<Committed>, k: nat, at: nat, cursor: int)
    requires Faithful(backend, logs) && 0 < at < |logs(0)| && cursor == at + 1
    requires backend(k, cursor).Some?
    ensures var page := backend(k, cursor).value;
            && 0 < |page.events| <= at
            && page.events == logs(0)[at - |page.events|..at]
            && page.events + logs(0)[at..] == logs(0)[at - |page.events|..]
            && (page.hasMore <==> at - |page.events| > 0)
  {
    var page := backend(k, cursor).value;
    assert Serves(page, logs(k), cursor);
    assert logs(0) <= logs(k);
    assert Below(logs(k), cursor) == at;
    assert logs(k)[at - |page.events|..at] == logs(0)[at - |page.events|..at];
  }

  // ---- The viewer's window ----------------------------------------------

  /** Merge two ascending lists of events, the incoming copy winning. */
  function Merged(current: seq<Committed>, incoming: seq<Committed>): seq<Committed> {
    if current == [] then incoming
    else if incoming == [] then current
    else if current[0].seqno < incoming[0].seqno then [current[0]] + Merged(current[1..], incoming)
    else if current[0].seqno > incoming[0].seqno then [incoming[0]] + Merged(current, incoming[1..])
    else [incoming[0]] + Merged(current[1..], incoming[1..])
  }

  method MergeEvents(current: seq<Committed>, incoming: seq<Committed>) returns (merged: seq<Committed>)
    ensures merged == Merged(current, incoming)
  {
    var c, i := current, incoming;
    merged := [];
    while |c| > 0 && |i| > 0
      invariant merged + Merged(c, i) == Merged(current, incoming)
      decreases |c| + |i|
    {
      ghost var before, rest := merged, Merged(c, i);
      if c[0].seqno < i[0].seqno {
        merged, c := merged + [c[0]], c[1..];
        assert rest == [merged[|before|]] + Merged(c, i);
      } else if c[0].seqno > i[0].seqno {
        merged, i := merged + [i[0]], i[1..];
        assert rest == [merged[|before|]] + Merged(c, i);
      } else {
        merged := merged + [i[0]];
        c, i := c[1..], i[1..];
        assert rest == [merged[|before|]] + Merged(c, i);
      }
      MovedOver(before, merged[|before|], Merged(c, i));
    }
    merged := merged + c;
    merged := merged + i;
  }

  lemma MovedOver(s: seq<Committed>, e: Committed, t: seq<Committed>)
    ensures s + ([e] + t) == (s + [e]) + t
  {
  }

  function Min(a: nat, b: nat): nat { if a < b then a else b }

  function Max(a: nat, b: nat): nat { if a < b then b else a }

  /** Events number a + 1 to b. */
  function Stretch(log: seq<Committed>, a: nat, b: nat): seq<Committed>
    requires a <= b <= |log|
  {
    log[a..b]
  }

  lemma StretchHead(log: seq<Committed>, a: nat, b: nat)
    requires Numbered(log) && a <= b <= |log|
    ensures Stretch(log, a, b) == [] <==> a == b
    ensures a < b ==>
              && Stretch(log, a, b)[0] == log[a] && log[a].seqno == a + 1
              && Stretch(log, a, b)[1..] == Stretch(log, a + 1, b)
              && [log[a]] + Stretch(log, a + 1, b) == Stretch(log, a, b)
  {
  }

  /** Two stretches of one log that overlap or touch merge into one stretch,
      without a gap and without a duplicate. */
  lemma {:induction false} MergedStretches(log: seq<Committed>, a: nat, b: nat, c: nat, d: nat)
    requires Numbered(log) && a <= b <= |log| && c <= d <= |log| && c <= b && a <= d
    ensures Merged(Stretch(log, a, b), Stretch(log, c, d)) == Stretch(log, Min(a, c), Max(b, d))
    decreases b - a + d - c
  {
    hide Stretch, Numbered;
    StretchHead(log, a, b);
    StretchHead(log, c, d);
    if a < b && c < d {
      StretchHead(log, Min(a, c), Max(b, d));
      if a < c {
        MergedStretches(log, a + 1, b, c, d);
      } else if a > c {
        MergedStretches(log, a, b, c + 1, d);
      } else {
        MergedStretches(log, a + 1, b, c + 1, d);
      }
    }
  }

  /** The items are one stretch of the log, and `hasMore` tells exactly whether
      anything precedes it. */
  predicate IsStretch(p: Page, log: seq<Committed>) {
    p.events == [] || StretchAt(p, log, p.events[0].seqno - 1)
  }

  predicate StretchAt(p: Page, log: seq<Committed>, a: int) {
    && 0 <= a && a + |p.events| <= |log| && p.events == log[a..a + |p.events|]
    && (p.hasMore <==> a > 0)
  }

  class Window {
    var items: seq<Committed>
    var hasMore: bool

    ghost function View(): Page
      reads this
    {
      Page(items, hasMore)
    }

    constructor ()
      ensures View() == Page([], false)
    {
      items, hasMore := [], false;
    }

    method MergePage(page: Page, older: bool)
      modifies this
      ensures View() == MergedPage(old(View()), page, older)
    {
      if items == [] || older || (page.events != [] && page.events[0].seqno < items[0].seqno) {
        hasMore := page.hasMore;
      }
      items := MergeEvents(items, page.events);
    }

    /** Load the newest page, and older ones until they reach the window. */
    method LoadRecent(backend: Backend, ghost logs: nat -> seq<Committed>) returns (page: Option<Page>)
      requires Faithful(backend, logs) && IsStretch(View(), logs(0))
      ensures page.Some? ==> IsStretch(page.value, logs(0)) && Reaches(View(), page.value, logs(0))
    {
      hide Numbered, IsStretch, IsTail, Reaches, Serves;
      page := backend(0, 0);
      if page.None? {
        return;
      }
      FirstPage(backend, logs, View());
      if items == [] {
        return;
      }
      var head := items[|items| - 1].seqno;
      ghost var at := |logs(0)| - |page.value.events|;
      var events, more, k := page.value.events, page.value.hasMore, 1;
      while more && events != [] && events[0].seqno > head + 1
        invariant IsTail(Page(events, more), logs(0), at)
        decreases at
      {
        var cursor := events[0].seqno;
        var older := backend(k, cursor);
        if older.None? {
          return None;
        }
        PrependedPage(backend, logs, k, at, Page(events, more));
        if older.value.events == [] || older.value.events[0].seqno >= cursor {
          return None;
        }
        events := older.value.events + events;
        more := older.value.hasMore;
        at := at - |older.value.events|;
        k := k + 1;
      }
      page := Some(Page(events, more));
      TailReaches(View(), page.value, logs(0), at);
    }

    /** Show what is new. */
    method Refresh(backend: Backend, ghost logs: nat -> seq<Committed>) returns (ok: bool)
      requires Faithful(backend, logs) && IsStretch(View(), logs(0))
      modifies this
      ensures IsStretch(View(), logs(0))
      ensures !ok ==> View() == old(View())
      ensures ok && logs(0) != [] ==> items != [] && items[|items| - 1] == logs(0)[|logs(0)| - 1]
    {
      hide IsStretch, Reaches, MergedPage, Serves;
      var page := LoadRecent(backend, logs);
      if page.None? {
        return false;
      }
      MergeReaching(View(), page.value, logs(0));
      MergePage(page.value, false);
      return true;
    }

    /** Show what came before. */
    method Older(backend: Backend, ghost logs: nat -> seq<Committed>) returns (ok: bool)
      requires Faithful(backend, logs) && IsStretch(View(), logs(0))
      modifies this
      ensures IsStretch(View(), logs(0))
      ensures ok <==> old(hasMore) && old(items) != [] && backend(0, old(items[0].seqno)).Some?
      ensures ok ==> |items| > |old(items)| && items[|items| - |old(items)|..] == old(items)
      ensures !ok ==> View() == old(View())
    {
      hide IsStretch, MergedPage, Serves, Numbered;
      if !hasMore || items == [] {
        return false;
      }
      var page := backend(0, items[0].seqno);
      if page.None? {
        return false;
      }
      MergeOlder(View(), page.value, logs(0), backend, logs);
      MergePage(page.value, true);
      return true;
    }
  }

  function MergedPage(window: Page, page: Page, older: bool): Page {
    Page(Merged(window.events, page.events),
         if window.events == [] || older || (page.events != [] && page.events[0].seqno < window.events[0].seqno)
         then page.hasMore else window.hasMore)
  }

  /** The page runs to the end of the log and leaves no gap after the window. */
  predicate Reaches(window: Page, page: Page, log: seq<Committed>) {
    && (log == [] ==> page == Page([], false))
    && (log != [] ==> page.events != [] && page.events[|page.events| - 1] == log[|log| - 1])
    && (window.events != [] && page.events != [] ==>
          page.events[0].seqno <= window.events[|window.events| - 1].seqno + 1)
  }

  /** The page is the log from event number `at + 1` on. */
  predicate IsTail(page: Page, log: seq<Committed>, at: int) {
    0 <= at <= |log| && page.events == log[at..] && (page.hasMore <==> at > 0) && (page.events == [] ==> log == [])
  }

  lemma ServedIsTail(page: Page, log: seq<Committed>)
    requires Serves(page, log, 0)
    ensures |page.events| <= |log| && IsTail(page, log, |log| - |page.events|)
  {
    assert log[|log| - |page.events|..|log|] == log[|log| - |page.events|..];
  }

  lemma EmptyLogPage(page: Page, log: seq<Committed>, window: Page)
    requires Serves(page, log, 0) && log == []
    ensures IsStretch(page, log) && (window.events == [] ==> Reaches(window, page, log))
  {
    hide StretchAt, Numbered;
  }

  lemma NonEmptyLogPage(page: Page, log: seq<Committed>, window: Page, at: int)
    requires Numbered(log) && IsTail(page, log, at) && log != []
    ensures IsStretch(page, log) && (window.events == [] ==> Reaches(window, page, log))
  {
    hide IsStretch, IsTail, Numbered;
    TailIs(page, log, at);
  }

  lemma WholePage(page: Page, log: seq<Committed>, window: Page)
    requires Serves(page, log, 0) && Numbered(log)
    ensures |page.events| <= |log| && IsTail(page, log, |log| - |page.events|) && IsStretch(page, log)
    ensures window.events == [] ==> Reaches(window, page, log)
  {
    hide Serves, Numbered, IsTail, IsStretch, StretchAt, Reaches;
    ServedIsTail(page, log);
    if log == [] {
      EmptyLogPage(page, log, window);
    } else {
      NonEmptyLogPage(page, log, window, |log| - |page.events|);
    }
  }

  lemma FirstPage(backend: Backend, logs: nat -> seq<Committed>, window: Page)
    requires Faithful(backend, logs) && backend(0, 0).Some?
    ensures var page := backend(0, 0).value;
            && IsTail(page, logs(0), |logs(0)| - |page.events|) && IsStretch(page, logs(0))
            && (window.events == [] ==> Reaches(window, page, logs(0)))
  {
    hide Serves, Numbered, IsTail, IsStretch, Reaches, Growing;
    LogIsNumbered(backend, logs);
    WholePage(backend(0, 0).value, logs(0), window);
  }

  lemma PrependedPage(backend: Backend, logs: nat -> seq<Committed>, k: nat, at: int, page: Page)
    requires Faithful(backend, logs) && IsTail(page, logs(0), at)
    requires page.hasMore && page.events != [] && backend(k, page.events[0].seqno).Some?
    ensures var older := backend(k, page.events[0].seqno).value;
            && older.events != [] && older.events[0].seqno < page.events[0].seqno
            && |older.events| <= at
            && IsTail(Page(older.events + page.events, older.hasMore), logs(0), at - |older.events|)
  {
    assert page.events[0] == logs(0)[at];
    OlderPage(backend, logs, k, at, at + 1);
    var older := backend(k, at + 1).value;
    assert older.events[0] == logs(0)[at - |older.events|];
  }

  lemma TailReaches(window: Page, page: Page, log: seq<Committed>, at: int)
    requires Numbered(log) && IsTail(page, log, at) && IsStretch(window, log) && window.events != []
    requires !(page.hasMore && page.events != [] && page.events[0].seqno > window.events[|window.events| - 1].seqno + 1)
    ensures IsStretch(page, log) && Reaches(window, page, log)
  {
    hide IsStretch, Numbered, Stretch;
    StretchOf(window, log);
    TailIs(page, log, at);
  }

  lemma TailIs(page: Page, log: seq<Committed>, at: int)
    requires Numbered(log) && IsTail(page, log, at) && log != []
    ensures IsStretch(page, log) && page.events != []
    ensures page.events[0].seqno == at + 1 && page.events[|page.events| - 1] == log[|log| - 1]
    ensures log[|log| - 1].seqno == |log|
  {
    assert page.events[0] == log[at];
  }

  lemma StretchOf(page: Page, log: seq<Committed>)
    requires Numbered(log) && IsStretch(page, log) && page.events != []
    ensures var a := page.events[0].seqno - 1; var b := a + |page.events|;
            && 0 <= a < b <= |log| && page.events == Stretch(log, a, b)
            && page.events[|page.events| - 1] == log[b - 1] && log[b - 1].seqno == b
            && (page.hasMore <==> a > 0)
  {
    hide StretchAt, Stretch, Numbered;
    StretchAtOf(page, log, page.events[0].seqno - 1);
  }

  lemma StretchAtOf(page: Page, log: seq<Committed>, a: int)
    requires Numbered(log) && StretchAt(page, log, a) && page.events != []
    ensures var b := a + |page.events|;
            && 0 <= a < b <= |log| && page.events == Stretch(log, a, b)
            && page.events[|page.events| - 1] == log[b - 1] && log[b - 1].seqno == b
            && (page.hasMore <==> a > 0)
  {
  }

  lemma StretchIs(log: seq<Committed>, a: nat, b: nat)
    requires Numbered(log) && a < b <= |log|
    ensures IsStretch(Page(Stretch(log, a, b), a > 0), log)
    ensures |Stretch(log, a, b)| == b - a && Stretch(log, a, b)[b - a - 1] == log[b - 1]
  {
    assert Stretch(log, a, b)[0] == log[a];
  }

  lemma MergeIntoEmpty(window: Page, page: Page)
    requires window.events == []
    ensures MergedPage(window, page, false) == page
  {
  }

  lemma MergeStretchPages(log: seq<Committed>, window: Page, page: Page, older: bool, a: nat, b: nat, c: nat, d: nat)
    requires Numbered(log) && a < b <= |log| && c < d <= |log| && c <= b && a <= d
    requires window == Page(Stretch(log, a, b), a > 0) && page == Page(Stretch(log, c, d), c > 0)
    requires older ==> c <= a
    ensures MergedPage(window, page, older) == Page(Stretch(log, Min(a, c), Max(b, d)), Min(a, c) > 0)
  {
    hide Stretch, Numbered, Merged;
    StretchHead(log, a, b);
    StretchHead(log, c, d);
    MergedStretches(log, a, b, c, d);
  }

  lemma ReachesEnd(window: Page, page: Page, log: seq<Committed>)
    requires Numbered(log) && IsStretch(window, log) && IsStretch(page, log) && Reaches(window, page, log)
    requires window.events != []
    ensures page.events != [] && page.events[0].seqno - 1 + |page.events| == |log|
    ensures page.events[0].seqno - 1 <= window.events[0].seqno - 1 + |window.events|
  {
    hide IsStretch, Stretch, Numbered;
    StretchOf(window, log);
    assert log != [];
    StretchEnd(page, log);
  }

  lemma StretchEnd(page: Page, log: seq<Committed>)
    requires Numbered(log) && IsStretch(page, log) && page.events != []
    requires log != [] && page.events[|page.events| - 1] == log[|log| - 1]
    ensures page.events[0].seqno - 1 + |page.events| == |log|
  {
    hide IsStretch, Stretch;
    StretchOf(page, log);
  }

  lemma UnionIsStretch(log: seq<Committed>, r: Page, lo: nat, hi: nat)
    requires Numbered(log) && lo < hi == |log| && r == Page(Stretch(log, lo, hi), lo > 0)
    ensures IsStretch(r, log) && r.events != [] && r.events[|r.events| - 1] == log[|log| - 1]
  {
    StretchIs(log, lo, hi);
  }

  lemma MergeOverlapping(window: Page, page: Page, log: seq<Committed>, a: nat, b: nat, c: nat)
    requires Numbered(log) && IsStretch(window, log) && IsStretch(page, log)
    requires window.events != [] && page.events != []
    requires a == window.events[0].seqno - 1 && b == a + |window.events|
    requires c == page.events[0].seqno - 1 && c + |page.events| == |log| && c <= b
    ensures var r := MergedPage(window, page, false);
            IsStretch(r, log) && r.events != [] && r.events[|r.events| - 1] == log[|log| - 1]
  {
    hide Stretch, Numbered, Merged, IsStretch, MergedPage;
    StretchOf(window, log);
    StretchOf(page, log);
    MergeStretchPages(log, window, page, false, a, b, c, |log|);
    UnionIsStretch(log, MergedPage(window, page, false), Min(a, c), |log|);
  }

  lemma MergeReaching(window: Page, page: Page, log: seq<Committed>)
    requires Numbered(log) && IsStretch(window, log) && IsStretch(page, log) && Reaches(window, page, log)
    ensures IsStretch(MergedPage(window, page, false), log)
    ensures log != [] ==>
              var items := MergedPage(window, page, false).events;
              items != [] && items[|items| - 1] == log[|log| - 1]
  {
    hide IsStretch, MergedPage, Numbered;
    if window.events == [] {
      MergeIntoEmpty(window, page);
    } else {
      ReachesEnd(window, page, log);
      PageBounds(window, log);
      PageBounds(page, log);
      MergeOverlapping(window, page, log, window.events[0].seqno - 1,
                       window.events[0].seqno - 1 + |window.events|, page.events[0].seqno - 1);
    }
  }

  lemma PageBounds(page: Page, log: seq<Committed>)
    requires IsStretch(page, log) && page.events != []
    ensures page.events[0].seqno >= 1
  {
  }

  lemma LogIsNumbered(backend: Backend, logs: nat -> seq<Committed>)
    requires Faithful(backend, logs)
    ensures Numbered(logs(0))
  {
  }

  /** The page before a window ends where the window begins. */
  lemma OlderTouches(window: Page, page: Page, log: seq<Committed>, backend: Backend, logs: nat -> seq<Committed>,
                     a: nat, b: nat, c: int)
    requires Faithful(backend, logs) && log == logs(0) && IsStretch(window, log)
    requires window.events != [] && window.hasMore && backend(0, window.events[0].seqno) == Some(page)
    requires a == window.events[0].seqno - 1 && b == a + |window.events| && c == a - |page.events|
    ensures Numbered(log) && 0 <= c < a < b <= |log|
    ensures window == Page(Stretch(log, a, b), a > 0) && page == Page(Stretch(log, c, a), c > 0)
  {
    hide Faithful, Growing, IsStretch, Stretch, Numbered;
    LogIsNumbered(backend, logs);
    StretchOf(window, log);
    OlderPage(backend, logs, 0, a, a + 1);
    StretchSlice(log, page.events, c, a);
  }

  lemma MergeTouching(log: seq<Committed>, a: nat, b: nat, c: nat, window: Page, page: Page)
    requires Numbered(log) && c < a < b <= |log|
    requires window == Page(Stretch(log, a, b), a > 0) && page == Page(Stretch(log, c, a), c > 0)
    ensures MergedPage(window, page, true) == Page(Stretch(log, c, b), c > 0)
    ensures |Stretch(log, c, b)| == b - c && Stretch(log, c, b)[a - c..] == Stretch(log, a, b)
  {
    hide Stretch, Merged, MergedPage, Numbered;
    MergeStretchPages(log, window, page, true, a, b, c, a);
    StretchTail(log, c, a, b);
  }

  lemma MergeOlder(window: Page, page: Page, log: seq<Committed>, backend: Backend, logs: nat -> seq<Committed>)
    requires Faithful(backend, logs) && log == logs(0) && IsStretch(window, log)
    requires window.events != [] && window.hasMore && backend(0, window.events[0].seqno) == Some(page)
    ensures var after := MergedPage(window, page, true);
            && IsStretch(after, log)
            && |after.events| > |window.events|
            && after.events[|after.events| - |window.events|..] == window.events
  {
    hide Faithful, IsStretch, Stretch, Numbered, MergedPage;
    PageBounds(window, log);
    var a := window.events[0].seqno - 1;
    var b, c := a + |window.events|, a - |page.events|;
    OlderTouches(window, page, log, backend, logs, a, b, c);
    MergeTouching(log, a, b, c, window, page);
    StretchIs(log, c, b);
    StretchTail(log, a, a, b);
  }

  lemma StretchSlice(log: seq<Committed>, s: seq<Committed>, a: nat, b: nat)
    requires a <= b <= |log| && s == log[a..b]
    ensures s == Stretch(log, a, b)
  {
  }

  lemma StretchTail(log: seq<Committed>, c: nat, a: nat, b: nat)
    requires c <= a <= b <= |log|
    ensures |Stretch(log, c, b)| == b - c && Stretch(log, c, b)[a - c..] == Stretch(log, a, b)
  {
  }

  /** A growing log leaves a window as good as it was. */
  lemma StretchGrows(page: Page, log: seq<Committed>, grown: seq<Committed>)
    requires IsStretch(page, log) && log <= grown
    ensures IsStretch(page, grown)
  {
    hide StretchAt;
    if page.events != [] { StretchAtGrows(page, log, grown, page.events[0].seqno - 1); }
  }

  lemma StretchAtGrows(page: Page, log: seq<Committed>, grown: seq<Committed>, a: int)
    requires StretchAt(page, log, a) && log <= grown
    ensures StretchAt(page, grown, a)
  {
    var b := a + |page.events|;
    assert forall i :: 0 <= i < |page.events| ==> page.events[i] == log[a + i] == grown[a + i];
    assert page.events == grown[a..b];
  }

  /** Any mix of loads over a log that grows between and during them keeps the
      window one stretch of the log. */
  method Browse(window: Window, older: seq<bool>, backends: nat -> Backend, ghost logs: nat -> nat -> seq<Committed>)
    requires IsStretch(window.View(), logs(0)(0))
    requires forall i: nat :: Faithful(backends(i), logs(i)) && logs(i)(0) <= logs(i + 1)(0)
    modifies window
    ensures IsStretch(window.View(), logs(|older|)(0))
  {
    hide IsStretch, Faithful;
    for i := 0 to |older|
      invariant IsStretch(window.View(), logs(i)(0))
    {
      var loaded;
      if older[i] {
        loaded := window.Older(backends(i), logs(i));
      } else {
        loaded := window.Refresh(backends(i), logs(i));
      }
      StretchGrows(window.View(), logs(i)(0), logs(i + 1)(0));
    }
  }
}
