// The client's estimate of the sequencer's clock: one measured query, cached for
// five minutes and advanced by the local clock. Local instants are readings of a
// monotonic clock; the sequencer's clock is the local one plus a constant offset.
module SequencerClocks {
  import opened Wrappers
  import opened Community

  const CLOCK_TTL := 300 * SECOND

  datatype ClockError = SessionChanged | Unavailable | SkewTooLarge

  /** The session and identity epoch a calibration belongs to. */
  datatype Binding = Binding(session: int, epoch: int)

  /** The measured query: when it was sent, served and answered, what the local
      wall clock adds to the monotonic one, and when the caller gets the result. */
  datatype Exchange = Exchange(
    current: bool, reachable: bool, started: Instant, served: Instant, ended: Instant,
    answered: bool, stillCurrent: bool, returned: Instant)

  predicate InOrder(x: Exchange) {
    x.started <= x.served <= x.ended <= x.returned
  }

  /** A time halfway through the exchange, as integer division has it. */
  function Midpoint(x: Exchange): Instant
    requires InOrder(x)
  {
    x.started + (x.ended - x.started) / 2
  }

  /** Whole seconds of a non-negative duration. */
  function Seconds(d: int): int { d / SECOND }

  /** How far the sequencer's clock is ahead of a timestamp handed out at `at`. */
  function Lag(timestamp: int, at: Instant, offset: int): int {
    at + offset - timestamp * SECOND
  }

  /** Between half a round trip too high and half a round trip and less than two
      seconds too low. */
  predicate Accurate(timestamp: int, at: Instant, offset: int, roundTrip: nat) {
    -((roundTrip + 1) / 2) <= Lag(timestamp, at, offset) < roundTrip / 2 + 2 * SECOND
  }

  datatype Calibration = Calibration(binding: Binding, remote: int, at: Instant)

  /** The sequencer read `remote` within half a round trip of `at`. */
  ghost predicate Measured(c: Calibration, offset: int, roundTrip: nat) {
    exists served: Instant :: MeasuredAt(c, offset, roundTrip, served)
  }

  predicate MeasuredAt(c: Calibration, offset: int, roundTrip: nat, served: Instant) {
    c.at - roundTrip / 2 <= served <= c.at + (roundTrip + 1) / 2 && c.remote == Unix(served + offset)
  }

  lemma ExchangeMeasures(x: Exchange, b: Binding, offset: int, roundTrip: nat)
    requires InOrder(x) && x.ended - x.started <= roundTrip
    ensures Measured(Calibration(b, Unix(x.served + offset), Midpoint(x)), offset, roundTrip)
  {
    assert MeasuredAt(Calibration(b, Unix(x.served + offset), Midpoint(x)), offset, roundTrip, x.served);
  }

  /** A timestamp extrapolated from a calibration stays accurate for any age. */
  lemma ExtrapolationIsAccurate(c: Calibration, offset: int, roundTrip: nat, now: Instant)
    requires Measured(c, offset, roundTrip) && now >= c.at
    ensures Accurate(c.remote + Seconds(now - c.at), now, offset, roundTrip)
  {
    var served :| MeasuredAt(c, offset, roundTrip, served);
  }

  class SequencerClock {
    var cached: Option<Calibration>

    ghost predicate Valid(offset: int, roundTrip: nat)
      reads this
    {
      cached.Some? ==> Measured(cached.value, offset, roundTrip)
    }

    constructor ()
      ensures cached == None
    {
      cached := None;
    }

    /** Forget a calibration together with its session. */
    method Invalidate(session: Option<int>)
      modifies this
      ensures cached == if old(cached).Some? && (session.None? || old(cached).value.binding.session == session.value)
                        then None else old(cached)
    {
      if cached.Some? && (session.None? || cached.value.binding.session == session.value) {
        cached := None;
      }
    }

    /** The sequencer's time for a new proposal. `wall` is what the local wall
        clock adds to the monotonic one. */
    method SequencerTimestamp(b: Binding, now: Instant, x: Exchange, wall: int, remoteOffset: int, ghost roundTrip: nat)
      returns (r: Result<int, ClockError>, at: Instant)
      requires Valid(remoteOffset, roundTrip) && InOrder(x) && now <= x.started
      requires x.ended - x.started <= roundTrip
      modifies this
      ensures Valid(remoteOffset, roundTrip)
      ensures r.Ok? ==> Accurate(r.value, at, remoteOffset, roundTrip)
      ensures r.Ok? ==>
                (at == now && cached == old(cached))
                || (at == x.returned && x.current && x.answered && x.stillCurrent)
      ensures r.Ok? ==> cached.Some? && cached.value.binding == b
      ensures r.Ok? && at != x.returned ==> 0 <= now - cached.value.at <= CLOCK_TTL
      ensures r.Err? ==> cached == old(cached)
      ensures r.Ok? <==> || (old(cached).Some? && old(cached).value.binding == b
                              && 0 <= now - old(cached).value.at <= 300 * 1_000_000_000)
                         || (x.current && x.reachable && x.answered && x.stillCurrent
                             && -300 <= Unix(x.served + remoteOffset) - Unix(Midpoint(x) + wall) <= 300)
      ensures r == Err(SkewTooLarge) <==>
                !Fresh(old(cached), b, now) && x.current && x.reachable && x.answered
                    && !WithinSkew(x, wall, remoteOffset)
    {
      if Fresh(cached, b, now) {
        ExtrapolationIsAccurate(cached.value, remoteOffset, roundTrip, now);
        return Ok(cached.value.remote + Seconds(now - cached.value.at)), now;
      }
      if !x.current {
        return Err(SessionChanged), now;
      }
      if !x.reachable || !x.answered {
        return Err(Unavailable), now;
      }
      var remote, midpoint := Unix(x.served + remoteOffset), Midpoint(x);
      var offset := remote - Unix(midpoint + wall);
      if offset < -CLOCK_SKEW_SECONDS || offset > CLOCK_SKEW_SECONDS {
        return Err(SkewTooLarge), now;
      }
      if !x.stillCurrent {
        return Err(SessionChanged), now;
      }
      cached := Some(Calibration(b, remote, midpoint));
      ExchangeMeasures(x, b, remoteOffset, roundTrip);
      ExtrapolationIsAccurate(cached.value, remoteOffset, roundTrip, x.returned);
      return Ok(remote + Seconds(x.returned - midpoint)), x.returned;
    }
  }

  /** The cached calibration belongs to the session and is young enough. */
  predicate Fresh(cached: Option<Calibration>, b: Binding, now: Instant) {
    cached.Some? && cached.value.binding == b && 0 <= now - cached.value.at <= CLOCK_TTL
  }

  predicate WithinSkew(x: Exchange, wall: int, remoteOffset: int)
    requires InOrder(x)
  {
    -CLOCK_SKEW_SECONDS <= Unix(x.served + remoteOffset) - Unix(Midpoint(x) + wall) <= CLOCK_SKEW_SECONDS
  }

  /** With a round trip of at most three seconds, a proposal stamped this way and
      received within 296 seconds passes the sequencer's timestamp check. */
  lemma StampedProposalArrivesInTime(timestamp: int, at: Instant, offset: int, roundTrip: nat, delay: nat)
    requires Accurate(timestamp, at, offset, roundTrip)
    requires roundTrip <= 3 * SECOND && delay <= 296 * SECOND
    ensures InWindow(timestamp, at + delay + offset)
  {
    assert roundTrip / 2 <= 3 * SECOND / 2 && (roundTrip + 1) / 2 <= (3 * SECOND + 1) / 2;
  }

  /** The low bound is reached: with offset zero, an exchange that is served at its
      very end can leave the stamp half a round trip ahead of the sequencer. */
  lemma StampCanBeAhead(roundTrip: nat) returns (x: Exchange)
    requires roundTrip % 2 == 0
    ensures InOrder(x) && x.ended - x.started == roundTrip
    ensures Lag(Unix(x.served) + Seconds(x.returned - Midpoint(x)), x.returned, 0) == -(roundTrip / 2)
  {
    var half := roundTrip / 2;
    var wait := (SECOND - half % SECOND) % SECOND;
    x := Exchange(true, true, 0 - roundTrip, 0, 0, true, true, wait);
    assert roundTrip == 2 * half;
    HalfAligned(half, wait);
    assert Midpoint(x) == 0 - half;
  }

  lemma HalfAligned(half: nat, wait: int)
    requires wait == (SECOND - half % SECOND) % SECOND
    ensures (half + wait) / SECOND * SECOND == half + wait
  {
    assert half == half / SECOND * SECOND + half % SECOND;
  }
}
