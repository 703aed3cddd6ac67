/** The idle timer of a UDP session: a polling loop over the last activity stamp. */
module Idle {
  const CHECK_INTERVAL := 10.0
  const IDLE_TIMEOUT := 60.0

  /** Activity stamps never go back; the first is taken when the session begins. */
  ghost predicate Trace(stamps: seq<real>) {
    stamps != [] && forall i, j | 0 <= i <= j < |stamps| :: stamps[i] <= stamps[j]
  }

  /** The stamp found at a given time: the latest one not after it. */
  function LastStamp(stamps: seq<real>, now: real): (last: real)
    requires Trace(stamps) && stamps[0] <= now
    ensures last in stamps && last <= now
    ensures forall s | s in stamps && s <= now :: s <= last
  {
    var n := |stamps| - 1;
    if stamps[n] <= now then stamps[n]
    else
      assert forall s | s in stamps && s <= now :: s in stamps[..n];
      LastStamp(stamps[..n], now)
  }

  predicate Expired(stamps: seq<real>, now: real)
    requires Trace(stamps) && stamps[0] <= now
  {
    now - LastStamp(stamps, now) > IDLE_TIMEOUT
  }

  /** When the i-th check (from 0) happens; sleep i overshoots by `late(i)`. */
  ghost function CheckTime(begin: real, late: nat -> real, i: nat): real {
    (if i == 0 then begin else CheckTime(begin, late, i - 1)) + CHECK_INTERVAL + late(i)
  }

  lemma {:induction false} ChecksGoOn(begin: real, late: nat -> real, i: nat)
    requires forall k :: late(k) >= 0.0
    ensures CheckTime(begin, late, i) >= begin + CHECK_INTERVAL * (i + 1) as real
  {
    if i > 0 { ChecksGoOn(begin, late, i - 1); }
  }

  /** Sleeps, looks, and returns at the first check that finds the session idle. It returns
      for every finite trace. */
  method IdleTimeout(stamps: seq<real>, begin: real, late: nat -> real) returns (now: real, ghost checks: nat)
    requires Trace(stamps) && stamps[0] <= begin
    requires forall k :: late(k) >= 0.0
    ensures now == CheckTime(begin, late, checks) && now >= stamps[0]
    ensures Expired(stamps, now)
    ensures forall k | 0 <= k < checks ::
              CheckTime(begin, late, k) >= stamps[0] && !Expired(stamps, CheckTime(begin, late, k))
  {
    now := begin;
    checks := 0;
    var i: nat := 0;
    ghost var final := stamps[|stamps| - 1];
    while true
      invariant i == checks && now == (if checks == 0 then begin else CheckTime(begin, late, checks - 1))
      invariant stamps[0] <= now
      invariant forall k | 0 <= k < checks ::
                  CheckTime(begin, late, k) >= stamps[0] && !Expired(stamps, CheckTime(begin, late, k))
      invariant checks > 0 ==> now - final <= IDLE_TIMEOUT
      decreases (if begin > final then begin else final) + IDLE_TIMEOUT + CHECK_INTERVAL - now
    {
      now := now + CHECK_INTERVAL + late(i);
      var last := LastStamp(stamps, now);
      if now - last > IDLE_TIMEOUT {
        return;
      }
      i, checks := i + 1, checks + 1;
    }
  }

  function Max(a: real, b: real): real {
    if a >= b then a else b
  }

  /** When the timer returns, no stamp lies within 60 s before; and with L the last stamp by
      then, it returns by L + 70 s plus the overshoot of its very last sleep (counted from the
      start of the timer when that is later than L + 60 s). */
  lemma FiresBetween60And70(stamps: seq<real>, begin: real, late: nat -> real, n: nat)
    requires Trace(stamps) && stamps[0] <= begin && forall k :: late(k) >= 0.0
    requires var now := CheckTime(begin, late, n); now >= stamps[0] && Expired(stamps, now)
    requires forall k | 0 <= k < n ::
               CheckTime(begin, late, k) >= stamps[0] && !Expired(stamps, CheckTime(begin, late, k))
    ensures var now := CheckTime(begin, late, n);
            var last := LastStamp(stamps, now);
            && last + IDLE_TIMEOUT < now <= Max(last + IDLE_TIMEOUT, begin) + CHECK_INTERVAL + late(n)
            && forall s | s in stamps && s <= now :: s + IDLE_TIMEOUT < now
  {
    var now := CheckTime(begin, late, n);
    if n > 0 {
      var before := CheckTime(begin, late, n - 1);
      assert !Expired(stamps, before);
      assert LastStamp(stamps, before) <= LastStamp(stamps, now);
    }
  }

  /** The bound is met: with exact sleeps a session that is never used again after its first
      stamp is dropped at 70 s sharp, although it has been idle for 60 s at the check before. */
  lemma UnusedSessionEndsAt70(late: nat -> real, n: nat)
    requires forall k :: late(k) == 0.0
    ensures CheckTime(0.0, late, n) >= 0.0
    ensures Expired([0.0], CheckTime(0.0, late, n)) <==> n >= 6
    ensures CheckTime(0.0, late, 5) == 60.0 && CheckTime(0.0, late, 6) == 70.0
  {
    ExactChecks(late, n);
    ExactChecks(late, 5);
    ExactChecks(late, 6);
  }

  lemma {:induction false} ExactChecks(late: nat -> real, n: nat)
    requires forall k :: late(k) == 0.0
    ensures CheckTime(0.0, late, n) == CHECK_INTERVAL * (n + 1) as real
  {
    if n > 0 { ExactChecks(late, n - 1); }
  }
}
