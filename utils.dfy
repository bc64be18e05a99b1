/** The per-key call throttle of lib/utils.ts (`isRateLimited` over the
    module-level `rateLimiters` map). The clock is the explicit parameter `now`. */
module Utils {

  /** The interval used when the caller gives none. */
  const DEFAULT_LIMIT_MS: int := 5000

  /** `lastCall && now - lastCall < limitMs`: a stored 0 is falsy and counts as absent. */
  predicate Limited(lastCalls: map<string, int>, key: string, now: int, limitMs: int) {
    key in lastCalls && lastCalls[key] != 0 && now - lastCalls[key] < limitMs
  }

  /** The map after one call: unchanged when limited, else `key` records `now`. */
  function AfterCall(lastCalls: map<string, int>, key: string, now: int, limitMs: int): map<string, int> {
    if Limited(lastCalls, key, now, limitMs) then lastCalls else lastCalls[key := now]
  }

  class RateLimiters {
    var lastCalls: map<string, int>

    constructor ()
      ensures lastCalls == map[]
    {
      lastCalls := map[];
    }

    method IsRateLimited(key: string, now: int, limitMs: int := DEFAULT_LIMIT_MS) returns (limited: bool)
      modifies this
      ensures limited == Limited(old(lastCalls), key, now, limitMs)
      ensures lastCalls == AfterCall(old(lastCalls), key, now, limitMs)
    {
      if key in lastCalls && lastCalls[key] != 0 && now - lastCalls[key] < limitMs {
        return true;
      }
      lastCalls := lastCalls[key := now];
      return false;
    }
  }

  /** A key with no stored timestamp is never limited, and the call records `now`. */
  lemma FirstCallPasses(lastCalls: map<string, int>, key: string, now: int, limitMs: int)
    requires key !in lastCalls
    ensures !Limited(lastCalls, key, now, limitMs)
    ensures AfterCall(lastCalls, key, now, limitMs) == lastCalls[key := now]
  {
  }

  /** A call at `limitMs` or more after the stored one passes; one sooner is
      limited and changes nothing. */
  lemma IntervalBoundary(lastCalls: map<string, int>, key: string, last: int, limitMs: int)
    requires key in lastCalls && lastCalls[key] == last && last != 0
    ensures !Limited(lastCalls, key, last + limitMs, limitMs)
    ensures Limited(lastCalls, key, last + limitMs - 1, limitMs)
    ensures AfterCall(lastCalls, key, last + limitMs - 1, limitMs) == lastCalls
  {
  }

  /** An immediate second call with the same key and a positive interval is
      limited, provided the first call's time is not 0. */
  lemma SecondCallLimited(lastCalls: map<string, int>, key: string, now: int, limitMs: int)
    requires now != 0 && limitMs > 0
    ensures Limited(AfterCall(lastCalls, key, now, limitMs), key, now, limitMs)
  {
  }

  /** A call that passes at time 0 records a falsy timestamp, so a repeat call passes too. */
  lemma ZeroTimeNeverLimits(lastCalls: map<string, int>, key: string, limitMs: int)
    requires !Limited(lastCalls, key, 0, limitMs)
    ensures !Limited(AfterCall(lastCalls, key, 0, limitMs), key, 0, limitMs)
  {
  }

  /** A stored timestamp of 0 behaves exactly as a missing one: the call is
      never limited, and it leaves the map as it would have without the entry. */
  lemma StoredZeroIsAbsent(lastCalls: map<string, int>, key: string, now: int, limitMs: int)
    requires key in lastCalls && lastCalls[key] == 0
    ensures !Limited(lastCalls, key, now, limitMs)
    ensures !Limited(lastCalls - {key}, key, now, limitMs)
    ensures AfterCall(lastCalls, key, now, limitMs) == AfterCall(lastCalls - {key}, key, now, limitMs)
  {
    assert lastCalls[key := now] == (lastCalls - {key})[key := now];
  }

  /** A call for one key never changes another key's entry. */
  lemma OtherKeysUntouched(lastCalls: map<string, int>, key: string, other: string, now: int, limitMs: int)
    requires other != key
    ensures (other in AfterCall(lastCalls, key, now, limitMs)) == (other in lastCalls)
    ensures other in lastCalls ==> AfterCall(lastCalls, key, now, limitMs)[other] == lastCalls[other]
  {
  }

  /** The map after a sequence of calls for one key at the given times. */
  function Replay(lastCalls: map<string, int>, key: string, times: seq<int>, limitMs: int): map<string, int>
    decreases |times|
  {
    if times == [] then lastCalls
    else Replay(AfterCall(lastCalls, key, times[0], limitMs), key, times[1..], limitMs)
  }

  /** Whether the call at position `i` of the sequence passed the throttle. */
  predicate Passed(lastCalls: map<string, int>, key: string, times: seq<int>, limitMs: int, i: int)
    requires 0 <= i < |times|
  {
    !Limited(Replay(lastCalls, key, times[..i], limitMs), key, times[i], limitMs)
  }

  lemma {:induction false} ReplaySnoc(lastCalls: map<string, int>, key: string, times: seq<int>, limitMs: int, i: int)
    requires 0 <= i < |times|
    ensures Replay(lastCalls, key, times[..i + 1], limitMs)
         == AfterCall(Replay(lastCalls, key, times[..i], limitMs), key, times[i], limitMs)
    decreases i
  {
    if i > 0 {
      var m := AfterCall(lastCalls, key, times[0], limitMs);
      assert times[..i + 1][1..] == times[1..][..i];
      assert times[..i][1..] == times[1..][..i - 1];
      ReplaySnoc(m, key, times[1..], limitMs, i - 1);
    }
  }

  /** After a call passed at position `i` and every call up to `j` was limited,
      the stored timestamp is still that of call `i`. */
  lemma {:induction false} StoredSinceLastPass(lastCalls: map<string, int>, key: string, times: seq<int>, limitMs: int, i: int, j: int)
    requires 0 <= i < j <= |times|
    requires Passed(lastCalls, key, times, limitMs, i)
    requires forall k :: i < k < j ==> !Passed(lastCalls, key, times, limitMs, k)
    ensures var m := Replay(lastCalls, key, times[..j], limitMs); key in m && m[key] == times[i]
    decreases j - i
  {
    ReplaySnoc(lastCalls, key, times, limitMs, j - 1);
    if j - 1 > i {
      StoredSinceLastPass(lastCalls, key, times, limitMs, i, j - 1);
      assert !Passed(lastCalls, key, times, limitMs, j - 1);
    }
  }

  /** Two consecutive calls that pass for the same key are at least `limitMs`
      apart, unless the earlier one was recorded at time 0. */
  lemma PassedCallsAreSpaced(lastCalls: map<string, int>, key: string, times: seq<int>, limitMs: int, i: int, j: int)
    requires 0 <= i < j < |times|
    requires Passed(lastCalls, key, times, limitMs, i) && Passed(lastCalls, key, times, limitMs, j)
    requires forall k :: i < k < j ==> !Passed(lastCalls, key, times, limitMs, k)
    requires times[i] != 0
    ensures times[j] - times[i] >= limitMs
  {
    StoredSinceLastPass(lastCalls, key, times, limitMs, i, j);
  }
}
