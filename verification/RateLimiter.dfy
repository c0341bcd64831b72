/** The fixed-window rate limiter of the activation server. Times are in seconds. */
module RateLimiter {

  /** `now % 60` of a signed 64-bit integer: the remainder has the sign of `now`. */
  function TruncatedRemainder(now: int): int {
    if now >= 0 then now % 60 else -((-now) % 60)
  }

  /** The start of the aligned minute a time falls into. */
  function Window(now: int): int {
    now - TruncatedRemainder(now)
  }

  datatype Bucket = Bucket(start: int, count: nat)
  type Buckets = map<string, Bucket>

  function Check(buckets: Buckets, now: int, key: string, max: nat): (Buckets, bool) {
    var window := Window(now);
    var bucket := if key in buckets && buckets[key].start == window then buckets[key] else Bucket(window, 0);
    if bucket.count >= max then (buckets[key := bucket], false)
    else (buckets[key := bucket.(count := bucket.count + 1)], true)
  }

  class Limiter {
    var buckets: Buckets

    constructor ()
      ensures buckets == map[]
    {
      buckets := map[];
    }

    /** `check_rate_limit`, while holding the lock. */
    method CheckRateLimit(now: int, key: string, max: nat) returns (admitted: bool)
      modifies this
      ensures (buckets, admitted) == Check(old(buckets), now, key, max)
    {
      var window := Window(now);
      if key !in buckets {
        buckets := buckets[key := Bucket(window, 0)];
      }
      if buckets[key].start != window {
        buckets := buckets[key := Bucket(window, 0)];
      }
      ghost var bucket := buckets[key];
      assert buckets == old(buckets)[key := bucket];
      if buckets[key].count >= max {
        return false;
      }
      buckets := buckets[key := buckets[key].(count := buckets[key].count + 1)];
      assert buckets == old(buckets)[key := bucket.(count := bucket.count + 1)];
      admitted := true;
    }
  }

  // ----- call traces -----

  datatype Call = Call(now: int, key: string, max: nat)

  function After(calls: seq<Call>): Buckets {
    if calls == [] then map[]
    else
      var last := calls[|calls| - 1];
      Check(After(calls[..|calls| - 1]), last.now, last.key, last.max).0
  }

  /** Whether call `i` is admitted. */
  predicate Admitted(calls: seq<Call>, i: nat)
    requires i < |calls|
  {
    Check(After(calls[..i]), calls[i].now, calls[i].key, calls[i].max).1
  }

  /** The calls admitted for a key from `lo` until before `hi`. */
  function AdmittedBetween(calls: seq<Call>, key: string, lo: int, hi: int): nat {
    if calls == [] then 0
    else
      var n := |calls| - 1;
      AdmittedBetween(calls[..n], key, lo, hi) +
      (if Admitted(calls, n) && calls[n].key == key && lo <= calls[n].now < hi then 1 else 0)
  }

  /** The calls admitted for a key in one aligned minute. */
  function AdmittedIn(calls: seq<Call>, key: string, window: int): nat {
    if calls == [] then 0
    else
      var n := |calls| - 1;
      AdmittedIn(calls[..n], key, window) +
      (if Admitted(calls, n) && calls[n].key == key && Window(calls[n].now) == window then 1 else 0)
  }

  // ----- when a bucket counts right -----

  /** A key that has left an aligned minute does not come back to it. */
  ghost predicate NeverReturns(calls: seq<Call>, key: string) {
    forall i, j, l :: 0 <= i < j < l < |calls| && calls[i].key == key && calls[j].key == key && calls[l].key == key
                      && Window(calls[i].now) == Window(calls[l].now)
      ==> Window(calls[j].now) == Window(calls[i].now)
  }

  /** The index of the last call of a key, or -1. */
  function LastCall(calls: seq<Call>, key: string): (p: int)
    ensures -1 <= p < |calls|
    ensures p >= 0 ==> calls[p].key == key
    ensures forall i :: p < i < |calls| ==> calls[i].key != key
  {
    if calls == [] then -1
    else if calls[|calls| - 1].key == key then |calls| - 1
    else LastCall(calls[..|calls| - 1], key)
  }

  /** Whatever the clock does, a bucket is that of the minute its key was last called in, and
      it counts no more than was admitted in that minute. */
  ghost predicate BucketIsLast(calls: seq<Call>, key: string) {
    var buckets, p := After(calls), LastCall(calls, key);
    && (key in buckets <==> p >= 0)
    && (p >= 0 ==>
          && buckets[key].start == Window(calls[p].now)
          && buckets[key].count <= AdmittedIn(calls, key, buckets[key].start))
  }

  lemma {:induction false} BucketsAreLast(calls: seq<Call>, key: string)
    ensures BucketIsLast(calls, key)
  {
    hide Window;
    if calls != [] {
      BucketsAreLast(calls[..|calls| - 1], key);
    }
  }

  lemma {:induction false} NoCallNoAdmission(calls: seq<Call>, key: string, window: int)
    requires forall i :: 0 <= i < |calls| && calls[i].key == key ==> Window(calls[i].now) != window
    ensures AdmittedIn(calls, key, window) == 0
  {
    if calls != [] {
      NoCallNoAdmission(calls[..|calls| - 1], key, window);
    }
  }

  /** If the key never returns, the bucket found for its next call counts exactly the calls
      admitted in that call's minute. */
  lemma NextMinuteIsNew(calls: seq<Call>, key: string)
    requires calls != [] && calls[|calls| - 1].key == key && NeverReturns(calls, key)
    ensures var n := |calls| - 1;
            var p, window := LastCall(calls[..n], key), Window(calls[n].now);
            p < 0 || Window(calls[p].now) != window ==> AdmittedIn(calls[..n], key, window) == 0
  {
    var n := |calls| - 1;
    var before, window := calls[..n], Window(calls[n].now);
    var p := LastCall(before, key);
    if p < 0 || Window(calls[p].now) != window {
      forall i | 0 <= i < n && before[i].key == key ensures Window(before[i].now) != window {
        assert before[i] == calls[i] && before[p] == calls[p];
        assert i <= p;
      }
      NoCallNoAdmission(before, key, window);
    }
  }

  lemma {:induction false} BucketsCount(calls: seq<Call>, key: string)
    requires NeverReturns(calls, key)
    ensures key in After(calls) ==> After(calls)[key].count == AdmittedIn(calls, key, After(calls)[key].start)
  {
    hide Window;
    if calls != [] {
      var n := |calls| - 1;
      assert forall i :: 0 <= i < n ==> calls[..n][i] == calls[i];
      BucketsCount(calls[..n], key);
      BucketsAreLast(calls[..n], key);
      if calls[n].key == key {
        NextMinuteIsNew(calls, key);
      }
    }
  }

  /** A call is admitted exactly when fewer than its limit were admitted for its key in the
      current aligned minute, provided the key has not come back to that minute. */
  lemma AdmittedIff(calls: seq<Call>, i: nat)
    requires i < |calls| && NeverReturns(calls[..i + 1], calls[i].key)
    ensures Admitted(calls, i) <==>
              AdmittedIn(calls[..i], calls[i].key, Window(calls[i].now)) < calls[i].max
  {
    var now, key := calls[..i + 1], calls[i].key;
    assert now[..i] == calls[..i];
    assert forall k :: 0 <= k < i ==> calls[..i][k] == now[k];
    BucketsCount(calls[..i], key);
    BucketsAreLast(calls[..i], key);
    NextMinuteIsNew(now, key);
  }

  ghost predicate LimitIs(calls: seq<Call>, key: string, max: nat) {
    forall i :: 0 <= i < |calls| && calls[i].key == key ==> calls[i].max == max
  }

  /** No aligned minute admits more than the limit. */
  lemma {:induction false} MinuteBound(calls: seq<Call>, key: string, max: nat, window: int)
    requires NeverReturns(calls, key) && LimitIs(calls, key, max)
    ensures AdmittedIn(calls, key, window) <= max
  {
    if calls != [] {
      var n := |calls| - 1;
      assert calls[..n + 1] == calls;
      assert forall i :: 0 <= i < n ==> calls[..n][i] == calls[i];
      MinuteBound(calls[..n], key, max, window);
      if calls[n].key == key {
        AdmittedIff(calls, n);
      }
    }
  }

  // ----- what a return costs -----

  /** With limit 1 every minute a key is called in admits a call. */
  lemma {:induction false} EveryMinuteAdmits(calls: seq<Call>, key: string, i: nat)
    requires LimitIs(calls, key, 1) && i < |calls| && calls[i].key == key
    ensures AdmittedIn(calls, key, Window(calls[i].now)) >= 1
  {
    var n := |calls| - 1;
    assert forall k :: 0 <= k < n ==> calls[..n][k] == calls[k];
    if i < n {
      EveryMinuteAdmits(calls[..n], key, i);
    } else {
      BucketsAreLast(calls[..n], key);
    }
  }

  /** Coming back to a minute that was left admits a second call there. */
  lemma {:induction false} ReturnAdmitsAgain(calls: seq<Call>, key: string, i: nat, j: nat, l: nat)
    requires LimitIs(calls, key, 1) && i < j < l < |calls|
    requires calls[i].key == key && calls[j].key == key && calls[l].key == key
    requires Window(calls[i].now) == Window(calls[l].now) != Window(calls[j].now)
    ensures AdmittedIn(calls, key, Window(calls[i].now)) >= 2
    decreases |calls|
  {
    var n := |calls| - 1;
    var before := calls[..n];
    assert forall k :: 0 <= k < n ==> before[k] == calls[k];
    if l < n {
      ReturnAdmitsAgain(before, key, i, j, l);
    } else {
      var p := LastCall(before, key);
      assert before[j].key == key && j <= p;
      if Window(calls[p].now) == Window(calls[l].now) {
        ReturnAdmitsAgain(before, key, i, j, p);
      } else {
        BucketsAreLast(before, key);
        EveryMinuteAdmits(before, key, i);
      }
    }
  }

  /** The same calls, with another limit for one key. */
  function WithLimit(calls: seq<Call>, key: string, max: nat): (limited: seq<Call>)
    ensures |limited| == |calls|
    ensures forall i :: 0 <= i < |calls| ==>
              limited[i] == if calls[i].key == key then calls[i].(max := max) else calls[i]
  {
    if calls == [] then []
    else
      var last := calls[|calls| - 1];
      WithLimit(calls[..|calls| - 1], key, max) + [if last.key == key then last.(max := max) else last]
  }

  ghost predicate EveryLimitHolds(calls: seq<Call>, key: string) {
    forall max: nat, window: int :: AdmittedIn(WithLimit(calls, key, max), key, window) <= max
  }

  lemma LimitedNeverReturns(calls: seq<Call>, key: string, max: nat)
    requires NeverReturns(calls, key)
    ensures NeverReturns(WithLimit(calls, key, max), key) && LimitIs(WithLimit(calls, key, max), key, max)
  {
    hide Window, WithLimit;
    var limited := WithLimit(calls, key, max);
    assert forall i :: 0 <= i < |calls| ==> limited[i].now == calls[i].now && limited[i].key == calls[i].key;
  }

  lemma LimitOneIsExceeded(calls: seq<Call>, key: string, i: nat, j: nat, l: nat)
    requires i < j < l < |calls|
    requires calls[i].key == key && calls[j].key == key && calls[l].key == key
    requires Window(calls[i].now) == Window(calls[l].now) != Window(calls[j].now)
    ensures AdmittedIn(WithLimit(calls, key, 1), key, Window(calls[i].now)) >= 2
  {
    hide Window, WithLimit, AdmittedIn;
    ReturnAdmitsAgain(WithLimit(calls, key, 1), key, i, j, l);
  }

  /** The limiter keeps every limit in every aligned minute exactly when the key never comes
      back to a minute it has left. */
  lemma EveryLimitHoldsIff(calls: seq<Call>, key: string)
    ensures EveryLimitHolds(calls, key) <==> NeverReturns(calls, key)
  {
    hide Window, WithLimit, AdmittedIn;
    if NeverReturns(calls, key) {
      forall max: nat, window: int ensures AdmittedIn(WithLimit(calls, key, max), key, window) <= max {
        LimitedNeverReturns(calls, key, max);
        MinuteBound(WithLimit(calls, key, max), key, max, window);
      }
    } else {
      var i, j, l :| 0 <= i < j < l < |calls| && calls[i].key == key && calls[j].key == key && calls[l].key == key
                     && Window(calls[i].now) == Window(calls[l].now) && Window(calls[j].now) != Window(calls[i].now);
      LimitOneIsExceeded(calls, key, i, j, l);
    }
  }

  // ----- clocks that do not go back -----

  ghost predicate ClockAscends(calls: seq<Call>) {
    forall i, j :: 0 <= i < j < |calls| ==> calls[i].now <= calls[j].now
  }

  /** Windows are multiples of 60, less than a minute away. */
  lemma WindowIsNear(now: int) returns (q: int)
    ensures Window(now) == 60 * q
    ensures if now >= 0 then 60 * q <= now < 60 * q + 60 && q >= 0 else 60 * q - 60 < now <= 60 * q && q <= 0
  {
    q := if now >= 0 then now / 60 else -((-now) / 60);
  }

  lemma WindowIsMonotone(a: int, b: int)
    requires a <= b
    ensures Window(a) <= Window(b)
  {
    hide Window;
    var p := WindowIsNear(a);
    var q := WindowIsNear(b);
  }

  lemma AscendingNeverReturns(calls: seq<Call>, key: string)
    requires ClockAscends(calls)
    ensures NeverReturns(calls, key)
  {
    forall i, j, l | 0 <= i < j < l < |calls| && Window(calls[i].now) == Window(calls[l].now)
      ensures Window(calls[j].now) == Window(calls[i].now)
    {
      WindowIsMonotone(calls[i].now, calls[j].now);
      WindowIsMonotone(calls[j].now, calls[l].now);
    }
  }

  /** In particular with a clock that does not go back. */
  lemma AscendingClockBounds(calls: seq<Call>, key: string, max: nat, from: int)
    requires ClockAscends(calls) && LimitIs(calls, key, max)
    ensures AdmittedIn(calls, key, Window(from)) <= max
    ensures AdmittedBetween(calls, key, from, from + 60) <= 2 * max
    ensures forall i :: 0 <= i < |calls| ==>
              (Admitted(calls, i) <==>
                 AdmittedIn(calls[..i], calls[i].key, Window(calls[i].now)) < calls[i].max)
  {
    AscendingNeverReturns(calls, key);
    MinuteBound(calls, key, max, Window(from));
    SlidingBound(calls, key, max, from);
    forall i | 0 <= i < |calls|
      ensures Admitted(calls, i) <==>
                AdmittedIn(calls[..i], calls[i].key, Window(calls[i].now)) < calls[i].max
    {
      AscendingNeverReturns(calls[..i + 1], calls[i].key);
      AdmittedIff(calls, i);
    }
  }

  // ----- sixty consecutive seconds -----

  lemma WindowsOfAMinute(from: int, t: int)
    requires from <= t < from + 60
    ensures Window(t) == Window(from) || Window(t) == Window(from + 59)
  {
    hide Window;
    var a := WindowIsNear(from);
    var b := WindowIsNear(t);
    var c := WindowIsNear(from + 59);
  }

  lemma {:induction false} SplitByWindow(calls: seq<Call>, key: string, from: int)
    ensures AdmittedBetween(calls, key, from, from + 60) <=
              AdmittedIn(calls, key, Window(from)) + AdmittedIn(calls, key, Window(from + 59))
  {
    if calls != [] {
      var n := |calls| - 1;
      SplitByWindow(calls[..n], key, from);
      if from <= calls[n].now < from + 60 {
        WindowsOfAMinute(from, calls[n].now);
      }
    }
  }

  /** Any 60 consecutive seconds admit at most twice the limit. */
  lemma SlidingBound(calls: seq<Call>, key: string, max: nat, from: int)
    requires NeverReturns(calls, key) && LimitIs(calls, key, max)
    ensures AdmittedBetween(calls, key, from, from + 60) <= 2 * max
  {
    SplitByWindow(calls, key, from);
    MinuteBound(calls, key, max, Window(from));
    MinuteBound(calls, key, max, Window(from + 59));
  }

  /** Twice the limit can be reached: across the turn of a minute. */
  lemma SlidingBoundIsTight()
    ensures var calls := [Call(59, "k", 1), Call(60, "k", 1)];
            ClockAscends(calls) && AdmittedBetween(calls, "k", 59, 119) == 2
  {
    var calls := [Call(59, "k", 1), Call(60, "k", 1)];
    assert calls[..1] == [Call(59, "k", 1)] && calls[..1][..0] == [] && calls[..0] == [];
    assert After(calls[..1]) == map["k" := Bucket(0, 1)];
    assert Admitted(calls[..1], 0) && Admitted(calls, 1);
    assert AdmittedBetween(calls[..1], "k", 59, 119) == 1;
  }

  /** A clock that steps back to a minute the key has left: that minute admits twice its limit. */
  lemma ReturningClockOverAdmits()
    ensures var calls := [Call(60, "k", 1), Call(59, "k", 1), Call(60, "k", 1)];
            AdmittedIn(calls, "k", 60) == 2
  {
    var calls := [Call(60, "k", 1), Call(59, "k", 1), Call(60, "k", 1)];
    assert calls[..2][..1] == calls[..1] && calls[..1][..0] == [] && calls[..0] == [];
    assert After(calls[..1]) == map["k" := Bucket(60, 1)];
    assert After(calls[..2]) == map["k" := Bucket(0, 1)];
    assert Admitted(calls[..1], 0) && Admitted(calls, 2);
    assert AdmittedIn(calls[..1], "k", 60) == 1;
  }
}
