// Received direct messages: the replay cache with its lazy pruning, and delivery
// over runs of one identity epoch. A message is its own identifier, so its expiry
// is fixed by its identifier.
module DirectMessages {
  import opened Wrappers
  import opened Community

  const MAX_RECEIVED := 8192

  datatype Direct = Direct(from: Key, to: Key, timestamp: int, authorName: string, sealedText: seq<int>)

  /** The expiry of a message stamped `t`. */
  function ExpiryAt(t: int): Instant {
    t * SECOND + MUTATION_CLOCK_SKEW
  }

  function Expiry(d: Direct): Instant {
    ExpiryAt(d.timestamp)
  }

  type Entries = map<Direct, Instant>

  /** What a full filter would keep. */
  function Live(entries: Entries, now: Instant): Entries {
    map d | d in entries && now <= entries[d] :: entries[d]
  }

  /** `next` is no later than any expiry, and unset only for an empty cache. */
  predicate LowerBound(entries: Entries, next: Option<Instant>) {
    match next
    case None => entries == map[]
    case Some(bound) => forall d :: d in entries ==> bound <= entries[d]
  }

  /** Before the earliest expiry there is nothing to prune. */
  lemma NothingExpired(entries: Entries, next: Option<Instant>, now: Instant)
    requires LowerBound(entries, next) && (next.Some? ==> now <= next.value)
    ensures Live(entries, now) == entries
  {
  }

  /** One arrival: whether its session is still the current one, and whether the
      observer takes the notification. */
  datatype Arrival = Arrival(d: Direct, now: Instant, current: bool, taken: bool)

  datatype Verdict = Verdict(delivered: bool, entries: Entries)

  function Receive(entries: Entries, a: Arrival): Verdict {
    if !a.current || a.now > Expiry(a.d) then Verdict(false, entries)
    else
      var live := Live(entries, a.now);
      if a.d in live || |live| >= MAX_RECEIVED || !a.taken then Verdict(false, live)
      else Verdict(true, live[a.d := Expiry(a.d)])
  }

  class ReplayCache {
    var entries: Entries
    var nextExpiry: Option<Instant>

    ghost predicate Valid()
      reads this
    {
      LowerBound(entries, nextExpiry)
    }

    constructor ()
      ensures Valid() && entries == map[]
    {
      entries, nextExpiry := map[], None;
    }

    /** Skip the scan while nothing can have expired; otherwise delete what has,
        in whatever order the map yields it, and find the new earliest expiry. */
    method Prune(now: Instant)
      requires Valid()
      modifies this
      ensures Valid() && entries == Live(old(entries), now)
    {
      if nextExpiry.None? || !(now > nextExpiry.value) {
        NothingExpired(entries, nextExpiry, now);
        return;
      }
      ghost var before := entries;
      nextExpiry := None;
      var rest := entries.Keys;
      while rest != {}
        invariant rest <= before.Keys
        invariant forall d :: d in entries <==> d in before && (d in rest || now <= before[d])
        invariant forall d :: d in entries ==> entries[d] == before[d]
        invariant nextExpiry.None? ==> forall d :: d in entries ==> d in rest
        invariant nextExpiry.Some? ==> forall d :: d in entries && d !in rest ==> nextExpiry.value <= entries[d]
        decreases rest
      {
        assert (forall d :: d !in rest) ==> rest == {};
        var d :| d in rest;
        if now > entries[d] {
          entries := entries - {d};
        } else if nextExpiry.None? || entries[d] < nextExpiry.value {
          nextExpiry := Some(entries[d]);
        }
        rest := rest - {d};
      }
      if nextExpiry.None? { assert entries == map[]; }
    }

    method Record(d: Direct, expires: Instant)
      requires Valid()
      modifies this
      ensures Valid() && entries == old(entries)[d := expires]
    {
      entries := entries[d := expires];
      if nextExpiry.None? || expires < nextExpiry.value {
        nextExpiry := Some(expires);
      }
    }

    method NotifyDirect(a: Arrival) returns (delivered: bool)
      requires Valid()
      modifies this
      ensures Valid() && Verdict(delivered, entries) == Receive(old(entries), a)
    {
      if !a.current || a.now > Expiry(a.d) {
        return false;
      }
      Prune(a.now);
      if a.d in entries || |entries| >= MAX_RECEIVED || !a.taken {
        return false;
      }
      Record(a.d, Expiry(a.d));
      return true;
    }
  }

  // ---- Runs of one identity epoch ---------------------------------------

  function CacheAfter(arrivals: seq<Arrival>): Entries {
    if arrivals == [] then map[]
    else Receive(CacheAfter(arrivals[..|arrivals| - 1]), arrivals[|arrivals| - 1]).entries
  }

  /** Whether arrival `i` of a run is delivered. */
  predicate Delivered(arrivals: seq<Arrival>, i: nat)
    requires i < |arrivals|
  {
    Receive(CacheAfter(arrivals[..i]), arrivals[i]).delivered
  }

  predicate ClockAdvances(arrivals: seq<Arrival>) {
    forall i, j :: 0 <= i < j < |arrivals| ==> arrivals[i].now <= arrivals[j].now
  }

  predicate OwnExpiries(entries: Entries) {
    forall d :: d in entries ==> entries[d] == Expiry(d)
  }

  lemma LiveIsSmaller(entries: Entries, now: Instant)
    ensures |Live(entries, now)| <= |entries|
  {
    SubsetSize(Live(entries, now).Keys, entries.Keys);
  }

  lemma {:induction false} SubsetSize<T>(a: set<T>, b: set<T>)
    requires a <= b
    ensures |a| <= |b|
  {
    if a == {} {
    } else {
      assert (forall x :: x !in a) ==> a == {};
      var x :| x in a;
      SubsetSize(a - {x}, b - {x});
    }
  }

  /** The cache holds only unexpired entries under their own expiry, and never
      more than its capacity. */
  lemma {:induction false} CacheIsBounded(arrivals: seq<Arrival>)
    ensures OwnExpiries(CacheAfter(arrivals))
    ensures |CacheAfter(arrivals)| <= MAX_RECEIVED
  {
    if arrivals == [] {
    } else {
      var before, a := CacheAfter(arrivals[..|arrivals| - 1]), arrivals[|arrivals| - 1];
      CacheIsBounded(arrivals[..|arrivals| - 1]);
      LiveIsSmaller(before, a.now);
      var live := Live(before, a.now);
      assert live[a.d := Expiry(a.d)].Keys == live.Keys + {a.d};
    }
  }

  /** One more arrival keeps an entry that it does not find expired. */
  lemma ReceiveKeepsLive(entries: Entries, a: Arrival, d: Direct)
    requires d in entries && entries[d] == Expiry(d) && a.now <= Expiry(d)
    ensures d in Receive(entries, a).entries && Receive(entries, a).entries[d] == Expiry(d)
  {
  }

  /** A delivered message stays in the cache as long as no later clock reading has
      passed its expiry, whatever else arrives. */
  lemma {:induction false} LiveIsNeverEvicted(arrivals: seq<Arrival>, i: nat)
    requires i < |arrivals| && Delivered(arrivals, i)
    requires forall k :: i < k < |arrivals| ==> arrivals[k].now <= Expiry(arrivals[i].d)
    ensures arrivals[i].d in CacheAfter(arrivals)
    ensures CacheAfter(arrivals)[arrivals[i].d] == Expiry(arrivals[i].d)
    decreases |arrivals|
  {
    var front := arrivals[..|arrivals| - 1];
    if i == |arrivals| - 1 {
      assert front == arrivals[..i];
    } else {
      assert front[..i] == arrivals[..i];
      LiveIsNeverEvicted(front, i);
      ReceiveKeepsLive(CacheAfter(front), arrivals[|arrivals| - 1], arrivals[i].d);
    }
  }

  /** If a message is delivered twice, some reading in between had passed its
      expiry. */
  lemma RepeatNeedsExpiry(arrivals: seq<Arrival>, i: nat, j: nat)
    requires i < j < |arrivals| && arrivals[i].d == arrivals[j].d
    requires Delivered(arrivals, i) && Delivered(arrivals, j)
    ensures exists k :: i < k < j && arrivals[k].now > Expiry(arrivals[i].d)
  {
    if forall k :: i < k < j ==> arrivals[k].now <= Expiry(arrivals[i].d) {
      assert arrivals[..j][..i] == arrivals[..i];
      LiveIsNeverEvicted(arrivals[..j], i);
    }
  }

  /** Under a clock that does not go back, no message is delivered twice. */
  lemma AtMostOnce(arrivals: seq<Arrival>, i: nat, j: nat)
    requires ClockAdvances(arrivals) && i < j < |arrivals| && arrivals[i].d == arrivals[j].d
    ensures !(Delivered(arrivals, i) && Delivered(arrivals, j))
  {
    if Delivered(arrivals, i) && Delivered(arrivals, j) {
      assert arrivals[..j][..i] == arrivals[..i];
      LiveIsNeverEvicted(arrivals[..j], i);
    }
  }

  // ---- Exactly which clocks are good enough -----------------------------

  /** The clock passes an expiry between two readings that have not reached it. */
  predicate PassesAndReturns(ts: seq<Instant>, i: int, k: int, j: int, t: int) {
    0 <= i < k < j < |ts| && ts[i] <= ExpiryAt(t) && ts[j] <= ExpiryAt(t) < ts[k]
  }

  /** The arrivals come at these readings. */
  predicate ReadAt(arrivals: seq<Arrival>, ts: seq<Instant>) {
    |arrivals| == |ts| && forall i :: 0 <= i < |ts| ==> arrivals[i].now == ts[i]
  }

  predicate DeliveredTwice(arrivals: seq<Arrival>, i: nat, j: nat) {
    i < j < |arrivals| && arrivals[i].d == arrivals[j].d && Delivered(arrivals, i) && Delivered(arrivals, j)
  }

  ghost predicate NoneTwice(arrivals: seq<Arrival>) {
    forall i: nat, j: nat :: !DeliveredTwice(arrivals, i, j)
  }

  lemma {:induction false} IdleKeeps(arrivals: seq<Arrival>, a: nat, b: nat)
    requires a <= b <= |arrivals| && forall n :: a <= n < b ==> !arrivals[n].current
    ensures CacheAfter(arrivals[..b]) == CacheAfter(arrivals[..a])
    decreases b
  {
    if a == b {
    } else {
      IdleKeeps(arrivals, a, b - 1);
      assert arrivals[..b][..b - 1] == arrivals[..b - 1];
    }
  }

  lemma CacheNext(arrivals: seq<Arrival>, n: nat)
    requires n < |arrivals|
    ensures CacheAfter(arrivals[..n + 1]) == Receive(CacheAfter(arrivals[..n]), arrivals[n]).entries
  {
    assert arrivals[..n + 1][..n] == arrivals[..n];
  }

  /** A message and a later one: the later one's arrival prunes the first. */
  function ReplayRun(ts: seq<Instant>, i: nat, k: nat, j: nat, d: Direct, other: Direct): seq<Arrival>
    requires i < k < j < |ts|
  {
    seq(|ts|, n requires 0 <= n < |ts| =>
      if n == i || n == j then Arrival(d, ts[n], true, true)
      else if n == k then Arrival(other, ts[n], true, true)
      else Arrival(d, ts[n], false, false))
  }

  predicate Takes(run: seq<Arrival>, n: nat, d: Direct) {
    n < |run| && run[n].d == d && run[n].current && run[n].taken && run[n].now <= Expiry(d)
  }

  lemma FirstIsDelivered(run: seq<Arrival>, i: nat, d: Direct)
    requires Takes(run, i, d) && forall n :: 0 <= n < i ==> !run[n].current
    ensures Delivered(run, i) && CacheAfter(run[..i + 1]) == map[d := Expiry(d)]
  {
    IdleKeeps(run, 0, i);
    assert run[..0] == [];
    assert Live(map[], run[i].now) == map[];
    CacheNext(run, i);
  }

  lemma LaterOnePrunes(run: seq<Arrival>, i: nat, k: nat, d: Direct, other: Direct)
    requires i < k && Takes(run, k, other) && forall n :: i < n < k ==> !run[n].current
    requires CacheAfter(run[..i + 1]) == map[d := Expiry(d)] && run[k].now > Expiry(d)
    ensures CacheAfter(run[..k + 1]) == map[other := Expiry(other)]
  {
    IdleKeeps(run, i + 1, k);
    assert Live(map[d := Expiry(d)], run[k].now) == map[];
    CacheNext(run, k);
  }

  lemma PrunedIsDelivered(run: seq<Arrival>, k: nat, j: nat, d: Direct, other: Direct)
    requires k < j && d != other && Takes(run, j, d) && forall n :: k < n < j ==> !run[n].current
    requires CacheAfter(run[..k + 1]) == map[other := Expiry(other)]
    ensures Delivered(run, j)
  {
    IdleKeeps(run, k + 1, j);
    LiveIsSmaller(map[other := Expiry(other)], run[j].now);
  }

  lemma ReplayDelivered(ts: seq<Instant>, i: nat, k: nat, j: nat, d: Direct, other: Direct)
    requires i < k < j < |ts| && d != other
    requires ts[i] <= Expiry(d) && ts[j] <= Expiry(d) < ts[k] <= Expiry(other)
    ensures DeliveredTwice(ReplayRun(ts, i, k, j, d, other), i, j)
  {
    hide Delivered, CacheAfter;
    var run := ReplayRun(ts, i, k, j, d, other);
    FirstIsDelivered(run, i, d);
    LaterOnePrunes(run, i, k, d, other);
    PrunedIsDelivered(run, k, j, d, other);
  }

  /** A clock that passes an expiry and returns lets a replay through. */
  lemma SteppingBackRepeats(ts: seq<Instant>, i: int, k: int, j: int, t: int) returns (arrivals: seq<Arrival>)
    requires PassesAndReturns(ts, i, k, j, t)
    ensures ReadAt(arrivals, ts) && DeliveredTwice(arrivals, i, j)
  {
    var d, other := Direct(1, 2, t, "", []), Direct(1, 2, Unix(ts[k]) + 1, "", []);
    assert Expiry(d) == ExpiryAt(t) && ts[k] <= Expiry(other);
    assert d.timestamp != other.timestamp;
    arrivals := ReplayRun(ts, i, k, j, d, other);
    ReplayDelivered(ts, i, k, j, d, other);
  }

  lemma RepeatPassesAndReturns(arrivals: seq<Arrival>, ts: seq<Instant>, i: nat, j: nat)
    requires ReadAt(arrivals, ts) && DeliveredTwice(arrivals, i, j)
    ensures exists k :: PassesAndReturns(ts, i, k, j, arrivals[i].d.timestamp)
  {
    RepeatNeedsExpiry(arrivals, i, j);
    var k :| i < k < j && arrivals[k].now > Expiry(arrivals[i].d);
    assert PassesAndReturns(ts, i, k, j, arrivals[i].d.timestamp);
  }

  /** The exact condition on the clock: no run of arrivals at these readings
      delivers a message twice if and only if the readings never pass an expiry and
      return. */
  lemma DeliveredOnceIff(ts: seq<Instant>)
    ensures (forall arrivals :: ReadAt(arrivals, ts) ==> NoneTwice(arrivals))
            <==> !(exists i, k, j, t :: PassesAndReturns(ts, i, k, j, t))
  {
    if i, k, j, t :| PassesAndReturns(ts, i, k, j, t) {
      var arrivals := SteppingBackRepeats(ts, i, k, j, t);
      assert !NoneTwice(arrivals);
    } else {
      forall arrivals | ReadAt(arrivals, ts) ensures NoneTwice(arrivals) {
        forall i: nat, j: nat ensures !DeliveredTwice(arrivals, i, j) {
          if DeliveredTwice(arrivals, i, j) { RepeatPassesAndReturns(arrivals, ts, i, j); }
        }
      }
    }
  }

  // ---- Exactly what is delivered ----------------------------------------

  /** The messages delivered before arrival `i` that have not expired by then. */
  function Unexpired(arrivals: seq<Arrival>, i: nat): set<Direct>
    requires i < |arrivals|
  {
    set j | 0 <= j < i && Delivered(arrivals, j) && arrivals[i].now <= Expiry(arrivals[j].d) :: arrivals[j].d
  }

  predicate DeliveredBefore(arrivals: seq<Arrival>, n: nat, d: Direct)
    requires n <= |arrivals|
  {
    exists j: nat :: j < n && Delivered(arrivals, j) && arrivals[j].d == d
  }

  /** Every entry of the cache was delivered. */
  lemma {:induction false} EntriesWereDelivered(arrivals: seq<Arrival>, n: nat, d: Direct)
    requires n <= |arrivals| && d in CacheAfter(arrivals[..n])
    ensures DeliveredBefore(arrivals, n, d)
  {
    if n == 0 {
    } else {
      CacheNext(arrivals, n - 1);
      if d in CacheAfter(arrivals[..n - 1]) {
        EntriesWereDelivered(arrivals, n - 1, d);
      } else {
        assert Delivered(arrivals, n - 1) && arrivals[n - 1].d == d;
      }
    }
  }

  /** Under an advancing clock what is live in the cache is what was delivered and has
      not expired. */
  lemma LiveIsUnexpired(arrivals: seq<Arrival>, i: nat)
    requires ClockAdvances(arrivals) && i < |arrivals|
    ensures Live(CacheAfter(arrivals[..i]), arrivals[i].now).Keys == Unexpired(arrivals, i)
  {
    hide Delivered, CacheAfter;
    var cache, now := CacheAfter(arrivals[..i]), arrivals[i].now;
    CacheIsBounded(arrivals[..i]);
    forall d ensures d in Live(cache, now) <==> d in Unexpired(arrivals, i) {
      if d in Live(cache, now) { EntriesWereDelivered(arrivals, i, d); }
      if d in Unexpired(arrivals, i) {
        var j :| 0 <= j < i && Delivered(arrivals, j) && now <= Expiry(arrivals[j].d) && arrivals[j].d == d;
        SamePrefix(arrivals, i, j);
        LiveIsNeverEvicted(arrivals[..i], j);
      }
    }
  }

  lemma SamePrefix(arrivals: seq<Arrival>, i: nat, j: nat)
    requires j < i <= |arrivals|
    ensures Delivered(arrivals[..i], j) <==> Delivered(arrivals, j)
  {
    assert arrivals[..i][..j] == arrivals[..j];
  }

  /** Exactly which arrivals are delivered under an advancing clock: those over the
      current session, taken by the observer, at most 300 seconds after their stamp,
      not delivered before, while fewer than 8192 delivered ones are unexpired. */
  lemma DeliveredIff(arrivals: seq<Arrival>, i: nat)
    requires ClockAdvances(arrivals) && i < |arrivals|
    ensures var a := arrivals[i];
            Delivered(arrivals, i) <==>
              && a.current && a.taken && a.now <= (a.d.timestamp + 300) * 1_000_000_000
              && !DeliveredBefore(arrivals, i, a.d) && |Unexpired(arrivals, i)| < 8192
  {
    hide CacheAfter;
    var a := arrivals[i];
    var live := Live(CacheAfter(arrivals[..i]), a.now);
    LiveIsUnexpired(arrivals, i);
    assert |live| == |live.Keys|;
    if a.now <= Expiry(a.d) {
      assert a.d in Unexpired(arrivals, i) <==> DeliveredBefore(arrivals, i, a.d);
    }
  }
}
