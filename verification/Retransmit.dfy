/** Connection::schedule_retransmit: rounding a nanosecond deadline to the timer's microseconds. */
module Retransmit {

  datatype Timer = Stopped | Immediate | After(sec: nat, usec: nat)

  // numeric_limits<ngtcp2_tstamp>::max(): no expiry
  const NEVER: nat := 0xFFFF_FFFF_FFFF_FFFF

  /** The timer set for an expiry at `expiry` ns, seen at `now` ns. */
  function Schedule(expiry: nat, now: nat): Timer {
    if expiry == NEVER then Stopped
    else
      var delta := expiry - now;
      if delta > 0 then
        var up := delta + 999;
        After(up / 1_000_000_000, (up % 1_000_000_000) / 1_000)
      else Immediate
  }

  function Micros(t: Timer): nat
    requires t.After?
  {
    t.sec * 1_000_000 + t.usec
  }

  /** It is stopped exactly when ngtcp2 has no expiry, and fires at once exactly when the expiry has passed. */
  lemma {:induction false} WhenItFires(expiry: nat, now: nat)
    ensures Schedule(expiry, now) == Stopped <==> expiry == NEVER
    ensures Schedule(expiry, now) == Immediate <==> expiry != NEVER && expiry <= now
    ensures Schedule(expiry, now).After? <==> expiry != NEVER && expiry > now
  {
  }

  /** The timer is never early, less than a microsecond late, and its microsecond field is in range. */
  lemma {:induction false} NeverEarly(expiry: nat, now: nat)
    requires expiry != NEVER && expiry > now
    ensures var t := Schedule(expiry, now);
      t.After? && t.usec < 1_000_000 && expiry - now <= Micros(t) * 1_000 < expiry - now + 1_000
  {
    var up := expiry - now + 999;
    var sec, rest := up / 1_000_000_000, up % 1_000_000_000;
    assert up == sec * 1_000_000_000 + rest;
    assert rest == 1_000 * (rest / 1_000) + rest % 1_000;
  }
}
