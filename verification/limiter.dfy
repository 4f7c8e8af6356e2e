// The token bucket that limits each peer, over real numbers and a monotonic clock.
module Limiters {

  datatype Bucket = Bucket(tokens: real, max: real, rate: real, last: real)

  predicate Sound(b: Bucket) {
    0.0 <= b.tokens <= b.max && 0.0 <= b.rate
  }

  /** What flows in between two instants. */
  function Flow(rate: real, from: real, to: real): real {
    (to - from) * rate
  }

  lemma FlowIsPositive(rate: real, from: real, to: real)
    requires rate >= 0.0 && from <= to
    ensures Flow(rate, from, to) >= 0.0
  {
  }

  lemma FlowAdds(rate: real, a: real, b: real, c: real)
    ensures Flow(rate, a, b) + Flow(rate, b, c) == Flow(rate, a, c)
    ensures Flow(rate, a, a) == 0.0
  {
  }

  function Refilled(b: Bucket, now: real): real {
    var grown := b.tokens + Flow(b.rate, b.last, now);
    if grown > b.max then b.max else grown
  }

  datatype Taken = Taken(ok: bool, after: Bucket)

  function Draw(b: Bucket, n: real, now: real): Taken {
    var tokens := Refilled(b, now);
    if tokens >= n then Taken(true, b.(tokens := tokens - n, last := now))
    else Taken(false, b.(tokens := tokens, last := now))
  }

  class TokenBucket {
    var tokens: real
    const max: real
    const refillPerSec: real
    var last: real

    ghost function View(): Bucket
      reads this
    {
      Bucket(tokens, max, refillPerSec, last)
    }

    constructor (max: real, refillPerSec: real, now: real)
      ensures View() == Bucket(max, max, refillPerSec, now)
    {
      tokens, this.max, this.refillPerSec, last := max, max, refillPerSec, now;
    }

    method Take(n: real, now: real) returns (ok: bool)
      modifies this
      ensures Taken(ok, View()) == Draw(old(View()), n, now)
    {
      tokens := tokens + Flow(refillPerSec, last, now);
      if tokens > max {
        tokens := max;
      }
      last := now;
      if tokens >= n {
        tokens := tokens - n;
        return true;
      }
      return false;
    }
  }

  // ---- Runs -------------------------------------------------------------

  datatype Request = Request(n: real, at: real)

  function After(b: Bucket, requests: seq<Request>): Bucket {
    if requests == [] then b
    else
      var r := requests[|requests| - 1];
      Draw(After(b, requests[..|requests| - 1]), r.n, r.at).after
  }

  /** The tokens handed out over a run. */
  function Granted(b: Bucket, requests: seq<Request>): real {
    if requests == [] then 0.0
    else
      var front, r := requests[..|requests| - 1], requests[|requests| - 1];
      Granted(b, front) + if Draw(After(b, front), r.n, r.at).ok then r.n else 0.0
  }

  /** Non-negative requests at instants that do not go back. */
  predicate Timely(b: Bucket, requests: seq<Request>) {
    && (forall i :: 0 <= i < |requests| ==> requests[i].n >= 0.0 && requests[i].at >= b.last)
    && (forall i, j :: 0 <= i < j < |requests| ==> requests[i].at <= requests[j].at)
  }

  lemma TakeIsSound(b: Bucket, n: real, now: real)
    requires Sound(b) && n >= 0.0 && now >= b.last
    ensures var t := Draw(b, n, now);
            && Sound(t.after) && t.after.max == b.max && t.after.rate == b.rate && t.after.last == now
            && (if t.ok then n else 0.0) + t.after.tokens <= b.tokens + Flow(b.rate, b.last, now)
  {
    hide Flow;
    FlowIsPositive(b.rate, b.last, now);
  }

  /** Nothing is handed out that was not there or refilled since. */
  lemma {:induction false} GrantedPlusLeft(b: Bucket, requests: seq<Request>)
    requires Sound(b) && Timely(b, requests)
    ensures var end := After(b, requests);
            && Sound(end) && end.max == b.max && end.rate == b.rate
            && b.last <= end.last && (requests != [] ==> end.last == requests[|requests| - 1].at)
            && Granted(b, requests) + end.tokens <= b.tokens + Flow(b.rate, b.last, end.last)
  {
    hide Flow, Draw;
    if requests == [] {
      FlowAdds(b.rate, b.last, b.last, b.last);
    } else {
      var front, r := requests[..|requests| - 1], requests[|requests| - 1];
      GrantedPlusLeft(b, front);
      var mid := After(b, front);
      if front != [] { assert mid.last == requests[|front| - 1].at; }
      TakeIsSound(mid, r.n, r.at);
      FlowAdds(b.rate, b.last, mid.last, r.at);
    }
  }

  lemma {:induction false} AfterSplit(b: Bucket, requests: seq<Request>, i: nat)
    requires i <= |requests|
    ensures After(b, requests) == After(After(b, requests[..i]), requests[i..])
    ensures Granted(b, requests) == Granted(b, requests[..i]) + Granted(After(b, requests[..i]), requests[i..])
    decreases |requests|
  {
    if i == |requests| {
      assert requests[..i] == requests && requests[i..] == [];
    } else {
      var front := requests[..|requests| - 1];
      AfterSplit(b, front, i);
      assert front[..i] == requests[..i];
      assert requests[i..][..|requests[i..]| - 1] == front[i..];
    }
  }

  lemma WindowIsTimely(b: Bucket, requests: seq<Request>, i: nat, j: nat, start: Bucket)
    requires Timely(b, requests) && i < j <= |requests|
    requires start.last <= requests[i].at
    ensures Timely(start, requests[..j][i..])
  {
    var window := requests[..j][i..];
    assert forall k :: 0 <= k < |window| ==> window[k] == requests[i + k];
    forall k | 0 <= k < |window| ensures window[k].n >= 0.0 && window[k].at >= start.last {
      assert requests[i].at <= requests[i + k].at;
    }
  }

  /** In every window of every run, the bucket hands out at most its capacity plus
      the refill over the window, counted from the last request before it. */
  lemma WindowBound(b: Bucket, requests: seq<Request>, i: nat, j: nat)
    requires Sound(b) && Timely(b, requests) && i < j <= |requests|
    ensures var start := After(b, requests[..i]);
            Granted(b, requests[..j]) - Granted(b, requests[..i])
            <= b.max + Flow(b.rate, start.last, requests[j - 1].at)
  {
    hide Flow, Draw;
    var upTo := requests[..j];
    AfterSplit(b, upTo, i);
    assert upTo[..i] == requests[..i];
    GrantedPlusLeft(b, requests[..i]);
    var start := After(b, requests[..i]);
    if i > 0 { assert start.last == requests[i - 1].at; }
    var window := upTo[i..];
    WindowIsTimely(b, requests, i, j, start);
    GrantedPlusLeft(start, window);
    assert window[|window| - 1] == requests[j - 1];
  }

  /** A refused request that fits the capacity is granted after the missing tokens
      have had time to flow in. */
  lemma RefusalIsTemporary(b: Bucket, n: real, now: real, later: real)
    requires Sound(b) && b.rate > 0.0 && 0.0 <= n <= b.max && now >= b.last
    requires !Draw(b, n, now).ok
    requires later >= now + (n - Draw(b, n, now).after.tokens) / b.rate
    ensures Draw(Draw(b, n, now).after, n, later).ok
  {
    var mid := Draw(b, n, now).after;
    var missing := n - mid.tokens;
    assert (missing / b.rate) * b.rate == missing;
    TimesMonotone(missing / b.rate, later - now, b.rate);
  }

  lemma TimesMonotone(x: real, y: real, k: real)
    requires x <= y && k >= 0.0
    ensures x * k <= y * k
  {
    assert (y - x) * k >= 0.0;
  }

  // ---- No refusal without need ------------------------------------------

  /** From request `i` on, the bucket having been full then, everything that flowed
      in has been handed out but for what is left. */
  predicate FullAt(b: Bucket, requests: seq<Request>, i: nat) {
    && i < |requests|
    && After(b, requests).tokens
       == b.max + Flow(b.rate, requests[i].at, After(b, requests).last)
          - (Granted(b, requests) - Granted(b, requests[..i]))
  }

  /** Nothing was lost since the start. */
  predicate NeverFull(b: Bucket, requests: seq<Request>) {
    After(b, requests).tokens == b.tokens + Flow(b.rate, b.last, After(b, requests).last) - Granted(b, requests)
  }

  lemma DrawnExactly(b: Bucket, n: real, now: real)
    ensures var t := Draw(b, n, now);
            && t.after.max == b.max && t.after.rate == b.rate && t.after.last == now
            && t.after.tokens == Refilled(b, now) - (if t.ok then n else 0.0)
            && (Refilled(b, now) == b.max || Refilled(b, now) == b.tokens + Flow(b.rate, b.last, now))
  {
  }

  /** The level is exact: no token is lost except by overflow. */
  lemma {:induction false} LevelIsExact(b: Bucket, requests: seq<Request>)
    requires Sound(b) && Timely(b, requests)
    ensures NeverFull(b, requests) || exists i: nat :: FullAt(b, requests, i)
  {
    hide Flow, Draw;
    if requests == [] {
      FlowAdds(b.rate, b.last, b.last, b.last);
    } else {
      var front, r := requests[..|requests| - 1], requests[|requests| - 1];
      LevelIsExact(b, front);
      GrantedPlusLeft(b, front);
      var mid := After(b, front);
      DrawnExactly(mid, r.n, r.at);
      if Refilled(mid, r.at) == b.max {
        FlowAdds(b.rate, r.at, r.at, r.at);
        assert requests[..|front|] == front;
        assert FullAt(b, requests, |front|);
      } else if NeverFull(b, front) {
        FlowAdds(b.rate, b.last, mid.last, r.at);
      } else {
        var i: nat :| FullAt(b, front, i);
        FlowAdds(b.rate, requests[i].at, mid.last, r.at);
        assert front[..i] == requests[..i];
        assert FullAt(b, requests, i);
      }
    }
  }

  /** A request is refused only if granting it would break the bound of some window
      that ends with it, counted from the start or from an earlier request. */
  lemma RefusalIsNeeded(b: Bucket, requests: seq<Request>, r: Request)
    requires Sound(b) && Timely(b, requests + [r]) && !Draw(After(b, requests), r.n, r.at).ok
    ensures || r.n > b.max
            || Granted(b, requests) + r.n > b.tokens + Flow(b.rate, b.last, r.at)
            || exists i :: 0 <= i < |requests|
                  && Granted(b, requests) - Granted(b, requests[..i]) + r.n > b.max + Flow(b.rate, requests[i].at, r.at)
  {
    hide Flow;
    assert (requests + [r])[..|requests|] == requests;
    assert forall i :: 0 <= i < |requests| ==> (requests + [r])[i] == requests[i];
    assert (requests + [r])[|requests|] == r;
    LevelIsExact(b, requests);
    GrantedPlusLeft(b, requests);
    var mid := After(b, requests);
    if r.n <= b.max {
      if NeverFull(b, requests) {
        FlowAdds(b.rate, b.last, mid.last, r.at);
      } else {
        var i: nat :| FullAt(b, requests, i);
        FlowAdds(b.rate, requests[i].at, mid.last, r.at);
      }
    }
  }
}
