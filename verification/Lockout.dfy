/** The wrong-code lockout: an attempt counter and a lock flag, both kept in a cache that forgets them after a time. */
module Lockout {
  import opened Common

  const THRESHOLD: nat := 5
  const LOCK_SECONDS: int := 900
  const WINDOW_SECONDS: int := 900

  datatype Counter = Counter(count: nat, expires: int)

  datatype Cache = Cache(attempts: Option<Counter>, lockedUntil: Option<int>)

  /** How strict a lockout is; second-factor codes use `STRICT`. */
  datatype Policy = Policy(threshold: nat, lockFor: int, window: int)

  const STRICT: Policy := Policy(THRESHOLD, LOCK_SECONDS, WINDOW_SECONDS)

  /** An entry set with a timeout is gone once its time has come. */
  predicate IsLocked(c: Cache, now: int) { c.lockedUntil.Some? && now < c.lockedUntil.value }

  function Attempts(c: Cache, now: int): nat {
    if c.attempts.Some? && now < c.attempts.value.expires then c.attempts.value.count else 0
  }

  function FailedAttempt(c: Cache, now: int, p: Policy): Cache {
    var count := Attempts(c, now) + 1;
    if count >= p.threshold then Cache(None, Some(now + p.lockFor))
    else c.(attempts := Some(Counter(count, now + p.window)))
  }

  /** A wrong code presented at a time: refused unexamined while locked, counted otherwise. */
  function WrongCode(c: Cache, now: int, p: Policy): Cache {
    if IsLocked(c, now) then c else FailedAttempt(c, now, p)
  }

  function WrongCodes(c: Cache, times: seq<int>, p: Policy): Cache {
    if times == [] then c else WrongCode(WrongCodes(c, times[..|times| - 1], p), times[|times| - 1], p)
  }

  /** How many of the wrong codes were actually examined in the span from `a` up to but not including `a + span`. */
  function ExaminedIn(c: Cache, times: seq<int>, p: Policy, a: int, span: int): nat {
    if times == [] then 0
    else
      var front, t := times[..|times| - 1], times[|times| - 1];
      ExaminedIn(c, front, p, a, span)
      + if a <= t < a + span && !IsLocked(WrongCodes(c, front, p), t) then 1 else 0
  }

  ghost predicate Ordered(times: seq<int>) {
    forall i, j :: 0 <= i < j < |times| ==> times[i] <= times[j]
  }

  /** Until the span ends, the cache remembers the n codes examined in it: as a lock, or in the counter. */
  ghost predicate Remembers(c: Cache, n: nat, p: Policy, from: int, until: int) {
    n > 0 ==> forall now :: from <= now < until ==> IsLocked(c, now) || n <= Attempts(c, now)
  }

  lemma RemembersMore(c: Cache, n: nat, p: Policy, from: int, now: int, a: int, span: int)
    requires p.threshold > 0 && span <= p.lockFor && span <= p.window && from <= now
    requires Remembers(c, n, p, from, a + span) && a <= now < a + span && !IsLocked(c, now)
    ensures Remembers(FailedAttempt(c, now, p), n + 1, p, now, a + span)
  {
    assert n > 0 ==> n <= Attempts(c, now);
  }

  lemma CounterBelowThreshold(c: Cache, times: seq<int>, p: Policy)
    requires p.threshold > 0 && (c.attempts.Some? ==> c.attempts.value.count < p.threshold)
    ensures
      var d := WrongCodes(c, times, p);
      d.attempts.Some? ==> d.attempts.value.count < p.threshold
  {
    if times != [] {
      CounterBelowThreshold(c, times[..|times| - 1], p);
    }
  }

  lemma {:induction false} SpanRemembered(c: Cache, times: seq<int>, p: Policy, a: int, span: int)
    requires p.threshold > 0 && span <= p.lockFor && span <= p.window && Ordered(times)
    requires c.attempts.Some? ==> c.attempts.value.count < p.threshold
    ensures ExaminedIn(c, times, p, a, span) <= p.threshold
    ensures times != [] ==>
      Remembers(WrongCodes(c, times, p), ExaminedIn(c, times, p, a, span), p, times[|times| - 1], a + span)
  {
    if times != [] {
      var front, t := times[..|times| - 1], times[|times| - 1];
      SpanRemembered(c, front, p, a, span);
      CounterBelowThreshold(c, front, p);
      var d, n := WrongCodes(c, front, p), ExaminedIn(c, front, p, a, span);
      if front == [] {
        assert n == 0;
      } else {
        assert front[|front| - 1] <= t;
      }
      if a <= t < a + span && !IsLocked(d, t) {
        var from := if front == [] then t else front[|front| - 1];
        RemembersMore(d, n, p, from, t, a, span);
      } else if t < a && n > 0 {
        NoneYet(c, front, p, a, span);
      }
    }
  }

  /** Before the span begins nothing was examined in it. */
  lemma {:induction false} NoneYet(c: Cache, times: seq<int>, p: Policy, a: int, span: int)
    requires forall i :: 0 <= i < |times| ==> times[i] < a
    ensures ExaminedIn(c, times, p, a, span) == 0
  {
    if times != [] {
      NoneYet(c, times[..|times| - 1], p, a, span);
    }
  }

  /**
   For any time-ordered wrong codes with no accepted one among them, whatever the cache held before, at most
   five are examined in any half-open span of fifteen minutes, even though the counter expires and is reset.
   */
  lemma AtMostFiveExamined(c: Cache, times: seq<int>, a: int)
    requires Ordered(times) && (c.attempts.Some? ==> c.attempts.value.count < 5)
    ensures ExaminedIn(c, times, STRICT, a, 900) <= 5
  {
    SpanRemembered(c, times, STRICT, a, LOCK_SECONDS);
  }

  /** Fewer than five wrong codes never lock, however fast they come, and every one of them is examined. */
  lemma {:induction false} FewNeverLock(times: seq<int>, now: int)
    requires |times| < 5
    ensures
      var c := WrongCodes(Cache(None, None), times, STRICT);
      && c.lockedUntil.None? && !IsLocked(c, now)
      && (c.attempts.Some? ==> c.attempts.value.count <= |times|)
  {
    if times != [] {
      FewNeverLock(times[..|times| - 1], times[|times| - 1]);
    }
  }

  /** Every code is less than fifteen minutes after the one before it. */
  ghost predicate Close(times: seq<int>) {
    forall i :: 0 < i < |times| ==> times[i - 1] <= times[i] < times[i - 1] + 900
  }

  lemma {:induction false} CloseOnesCount(times: seq<int>)
    requires 0 < |times| < 5 && Close(times)
    ensures
      WrongCodes(Cache(None, None), times, STRICT)
      == Cache(Some(Counter(|times|, times[|times| - 1] + 900)), None)
  {
    var n := |times| - 1;
    if n > 0 {
      CloseOnesCount(times[..n]);
    } else {
      assert WrongCodes(Cache(None, None), times[..0], STRICT) == Cache(None, None);
    }
  }

  /** The fifth wrong code in a row, each within fifteen minutes of the last, locks for exactly fifteen minutes. */
  lemma FifthLocks(times: seq<int>, now: int)
    requires |times| == 5 && Close(times)
    ensures
      var c := WrongCodes(Cache(None, None), times, STRICT);
      c.attempts.None? && (IsLocked(c, now) <==> now < times[4] + 900)
  {
    CloseOnesCount(times[..4]);
  }

  /** A wrong code fifteen minutes or more after the last one starts the count again. */
  lemma LateOneStartsAgain(c: Cache, now: int)
    requires !IsLocked(c, now) && (c.attempts.Some? ==> c.attempts.value.expires <= now)
    ensures WrongCode(c, now, STRICT).attempts == Some(Counter(1, now + 900))
  {
  }

  // ----- The check itself -----

  datatype RecoveryCode = RecoveryCode(hash: string, used: bool)

  predicate Usable(codes: seq<RecoveryCode>, k: nat, entered: string) {
    k < |codes| && !codes[k].used && codes[k].hash == entered
  }

  datatype Verdict = Refused | Accepted | Wrong

  class SecondFactor {
    var cache: Cache
    var codes: seq<RecoveryCode>

    constructor (codes: seq<RecoveryCode>)
      ensures cache == Cache(None, None) && this.codes == codes
    {
      cache, this.codes := Cache(None, None), codes;
    }

    /** `register_failed_attempt`: true the moment this attempt causes a new lock. */
    method RegisterFailedAttempt(now: int, p: Policy) returns (locked: bool)
      modifies this`cache
      ensures cache == FailedAttempt(old(cache), now, p)
      ensures locked <==> Attempts(old(cache), now) + 1 >= p.threshold
      ensures locked && p.lockFor > 0 ==> IsLocked(cache, now)
    {
      var count := Attempts(cache, now) + 1;
      cache := cache.(attempts := Some(Counter(count, now + p.window)));
      if count >= p.threshold {
        cache := cache.(lockedUntil := Some(now + p.lockFor));
        cache := cache.(attempts := None);
        return true;
      }
      return false;
    }

    /**
     `mfa_verify_code_or_recovery`: a locked account is refused unexamined; a right authenticator code or an unused
     recovery code clears the count, and the recovery code is spent by it; anything else counts as a wrong code.
     */
    method Check(now: int, authenticator: bool, entered: string) returns (v: Verdict)
      modifies this
      ensures v.Refused? <==> IsLocked(old(cache), now)
      ensures v.Refused? ==> cache == old(cache) && codes == old(codes)
      ensures !v.Refused? ==> (v.Accepted? <==> authenticator || exists k: nat :: Usable(old(codes), k, entered))
      ensures v.Accepted? ==> cache == Cache(None, None)
      ensures v.Wrong? ==> cache == WrongCode(old(cache), now, STRICT) && codes == old(codes)
      ensures v.Accepted? && authenticator ==> codes == old(codes)
      ensures v.Accepted? && !authenticator ==>
        exists k: nat :: Usable(old(codes), k, entered) && codes == old(codes)[k := old(codes)[k].(used := true)]
    {
      if IsLocked(cache, now) {
        return Refused;
      }
      if authenticator {
        cache := Cache(None, None);
        return Accepted;
      }
      var k := 0;
      while k < |codes|
        invariant k <= |codes| && codes == old(codes) && cache == old(cache)
        invariant forall j :: 0 <= j < k ==> !Usable(codes, j, entered)
      {
        if !codes[k].used && codes[k].hash == entered {
          assert Usable(old(codes), k, entered);
          codes := codes[k := codes[k].(used := true)];
          cache := Cache(None, None);
          return Accepted;
        }
        k := k + 1;
      }
      var _ := RegisterFailedAttempt(now, STRICT);
      return Wrong;
    }
  }
}
