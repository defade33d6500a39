/** Which requests the rate limiter allows, told from the sequence of calls alone.
  *
  * A key's calls fall into fixed windows: a window starts with the first call of its key, and the
  * first call sixty seconds or more after that starts the next.  `WindowOf` reads this off the calls,
  * whether they were allowed or not.
  */
module LimiterRuns {
  import opened Basics
  import opened RateLimiter

  /** The start of a key's present window and the number of its calls in it. */
  datatype CallWindow = NoWindow | CallWindow(start: int, calls: nat)

  function WindowOf(calls: seq<Call>, k: string): CallWindow {
    if calls == [] then NoWindow
    else if Last(calls).key != k then WindowOf(Init(calls), k)
    else
      match WindowOf(Init(calls), k)
      case NoWindow => CallWindow(Last(calls).now, 1)
      case CallWindow(start, n) =>
        if Last(calls).now >= start + 60 then CallWindow(Last(calls).now, 1) else CallWindow(start, n + 1)
  }

  /** The keys that were called after time `t`. */
  function KeysSince(calls: seq<Call>, t: int): set<string> {
    set i | 0 <= i < |calls| && calls[i].now > t :: calls[i].key
  }

  lemma {:induction false} FewerKeys(a: set<string>, b: set<string>)
    requires a <= b
    ensures |a| <= |b|
  {
    assert b == a + (b - a);
  }

  /** Every window was started by a call, less than a minute before the last cleanup or after it. */
  ghost predicate Held(l: Limiter, calls: seq<Call>, now: int) {
    && l.lastCleanup <= now
    && (forall k :: k in l.windows ==>
      Call(l.windows[k].startedAt, k) in calls && l.windows[k].startedAt > l.lastCleanup - 60)
  }

  lemma {:induction false} CleanupHolds(l: Limiter, calls: seq<Call>, was: int, now: int)
    requires Held(l, calls, was) && was <= now
    ensures Held(Cleaned(l, now), calls, now) && Cleaned(l, now).lastCleanup > now - 60
  {
  }

  lemma {:induction false} RunHolds(start: int, calls: seq<Call>)
    requires Ordered(start, calls)
    ensures Held(Run(start, calls), calls, Clock(start, calls))
  {
    hide Cleaned;
    if calls != [] {
      RunHolds(start, Init(calls));
      CleanupHolds(Run(start, Init(calls)), Init(calls), Clock(start, Init(calls)), Last(calls).now);
      assert Init(calls) + [Last(calls)] == calls;
    }
  }

  /** A call is refused for want of capacity only if ten thousand other keys were called in the two
    * minutes before it. */
  lemma {:induction false} CapacityNeedsManyKeys(start: int, calls: seq<Call>)
    requires Ordered(start, calls) && calls != [] && OutOfCapacity(start, calls)
    ensures |KeysSince(Init(calls), Last(calls).now - 120) - {Last(calls).key}| >= 10_000
  {
    hide Cleaned;
    RunHolds(start, Init(calls));
    CleanupHolds(Run(start, Init(calls)), Init(calls), Clock(start, Init(calls)), Last(calls).now);
    var c := Cleaned(Run(start, Init(calls)), Last(calls).now);
    forall k | k in c.windows ensures k in KeysSince(Init(calls), Last(calls).now - 120) {
      var i :| 0 <= i < |Init(calls)| && Init(calls)[i] == Call(c.windows[k].startedAt, k);
    }
    FewerKeys(c.windows.Keys, KeysSince(Init(calls), Last(calls).now - 120) - {Last(calls).key});
  }

  /** At call `n` no more than ten thousand keys, with its own, have been called for two minutes. */
  predicate FewKeysAt(calls: seq<Call>, n: nat)
    requires n < |calls|
  {
    |KeysSince(calls[..n], calls[n].now - 120) + {calls[n].key}| <= 10_000
  }

  predicate FewKeys(calls: seq<Call>) {
    forall n :: 0 <= n < |calls| ==> FewKeysAt(calls, n)
  }

  lemma {:induction false} CapacityNeedsOneMore(start: int, calls: seq<Call>)
    requires Ordered(start, calls) && calls != [] && FewKeysAt(calls, |calls| - 1)
    ensures !OutOfCapacity(start, calls)
  {
    hide OutOfCapacity, KeysSince;
    var keys, k := KeysSince(Init(calls), Last(calls).now - 120), Last(calls).key;
    assert calls[..|calls| - 1] == Init(calls);
    assert keys + {k} == (keys - {k}) + {k};
    if OutOfCapacity(start, calls) {
      CapacityNeedsManyKeys(start, calls);
    }
  }

  lemma {:induction false} FewBefore(start: int, calls: seq<Call>)
    requires Ordered(start, calls) && calls != [] && FewKeys(calls)
    ensures FewKeys(Init(calls)) && !OutOfCapacity(start, calls)
  {
    hide OutOfCapacity, KeysSince;
    var before := Init(calls);
    forall n | 0 <= n < |before| ensures FewKeysAt(before, n) {
      assert before[..n] == calls[..n] && FewKeysAt(calls, n);
    }
    CapacityNeedsOneMore(start, calls);
  }

  /** In particular that is so when no more than ten thousand keys are ever called. */
  lemma {:induction false} FewKeysInAll(calls: seq<Call>, keys: set<string>)
    requires |keys| <= 10_000 && forall i :: 0 <= i < |calls| ==> calls[i].key in keys
    ensures FewKeys(calls)
  {
    forall n | 0 <= n < |calls| ensures FewKeysAt(calls, n) {
      FewerKeys(KeysSince(calls[..n], calls[n].now - 120) + {calls[n].key}, keys);
    }
  }

  /** The limiter's window of a key is the one told by its calls, its count cut off at 120; it may be
    * missing once it has run its sixty seconds. */
  ghost predicate Tracks(l: Limiter, calls: seq<Call>, now: int, k: string) {
    if k in l.windows then
      && WindowOf(calls, k).CallWindow?
      && l.windows[k].startedAt == WindowOf(calls, k).start
      && l.windows[k].requests == (if WindowOf(calls, k).calls <= 120 then WindowOf(calls, k).calls else 120)
    else
      WindowOf(calls, k).CallWindow? ==> now >= WindowOf(calls, k).start + 60
  }

  lemma {:induction false} TracksCleaned(l: Limiter, calls: seq<Call>, was: int, now: int, k: string)
    requires was <= now && Tracks(l, calls, was, k)
    ensures Tracks(Cleaned(l, now), calls, now, k)
  {
  }

  lemma {:induction false} CallTracks(start: int, calls: seq<Call>, k: string)
    requires calls != [] && !OutOfCapacity(start, calls)
    requires Tracks(Cleaned(Run(start, Init(calls)), Last(calls).now), Init(calls), Last(calls).now, k)
    ensures Tracks(Run(start, calls), calls, Last(calls).now, k)
    ensures Last(calls).key == k ==>
      WindowOf(calls, k).CallWindow? && (Answer(start, calls) <==> WindowOf(calls, k).calls <= 120)
  {
    hide Cleaned;
  }

  lemma {:induction false} RunTracks(start: int, calls: seq<Call>, k: string)
    requires Ordered(start, calls) && FewKeys(calls)
    ensures Tracks(Run(start, calls), calls, Clock(start, calls), k)
    ensures calls != [] && Last(calls).key == k ==>
      WindowOf(calls, k).CallWindow? && (Answer(start, calls) <==> WindowOf(calls, k).calls <= 120)
  {
    hide Tracks, WindowOf, FewKeys, Cleaned, Run, Answer;
    if calls == [] {
      NothingTracked(start, k);
    } else {
      FewBefore(start, calls);
      RunTracks(start, Init(calls), k);
      TracksCleaned(Run(start, Init(calls)), Init(calls), Clock(start, Init(calls)), Last(calls).now, k);
      CallTracks(start, calls, k);
    }
  }

  lemma {:induction false} NothingTracked(start: int, k: string)
    ensures Tracks(Run(start, []), [], start, k)
  {
  }

  /** As long as at most ten thousand keys are called within two minutes, a call is allowed exactly when
    * it is among the first 120 calls of its key's window. */
  lemma {:induction false} AllowedExactly(start: int, calls: seq<Call>)
    requires Ordered(start, calls) && calls != [] && FewKeys(calls)
    ensures WindowOf(calls, Last(calls).key).CallWindow?
    ensures Answer(start, calls) <==> WindowOf(calls, Last(calls).key).calls <= 120
  {
    RunTracks(start, calls, Last(calls).key);
  }

  /** The number of calls of `k` in `calls[from..]`. */
  function CallsSince(calls: seq<Call>, k: string, from: nat): nat
    requires from <= |calls|
  {
    if from == |calls| then 0
    else CallsSince(Init(calls), k, from) + if Last(calls).key == k then 1 else 0
  }

  /** Call `first` starts a window of its key: it is the key's first call, or sixty seconds or more
    * after the start of the window before. */
  predicate StartsWindow(calls: seq<Call>, first: nat) {
    first < |calls| &&
    match WindowOf(calls[..first], calls[first].key)
    case NoWindow => true
    case CallWindow(start, _) => calls[first].now >= start + 60
  }

  lemma {:induction false} WindowCountsCalls(start: int, calls: seq<Call>, first: nat)
    requires Ordered(start, calls) && StartsWindow(calls, first) && Last(calls).now < calls[first].now + 60
    ensures WindowOf(calls, calls[first].key) == CallWindow(calls[first].now, CallsSince(calls, calls[first].key, first))
    decreases |calls|
  {
    var k := calls[first].key;
    if first == |calls| - 1 {
      assert calls[..first] == Init(calls);
      assert CallsSince(Init(calls), k, first) == 0;
    } else {
      var before := Init(calls);
      assert before[..first] == calls[..first] && before[first] == calls[first];
      WindowCountsCalls(start, before, first);
    }
  }

  /** In the sixty seconds from the start of a key's window, its first 120 calls are allowed, whatever
    * other keys do, and every later one is refused. */
  lemma {:induction false} First120AreAllowed(start: int, calls: seq<Call>, first: nat)
    requires Ordered(start, calls) && FewKeys(calls) && StartsWindow(calls, first)
    requires Last(calls).key == calls[first].key && Last(calls).now < calls[first].now + 60
    ensures Answer(start, calls) <==> CallsSince(calls, calls[first].key, first) <= 120
  {
    WindowCountsCalls(start, calls, first);
    AllowedExactly(start, calls);
  }

  /** The call that starts a window is allowed: a key's first call, and its first call sixty seconds or
    * more after the start of the window before. */
  lemma {:induction false} WindowOpensAllowed(start: int, calls: seq<Call>)
    requires Ordered(start, calls) && calls != [] && FewKeys(calls) && StartsWindow(calls, |calls| - 1)
    ensures Answer(start, calls)
  {
    assert calls[..|calls| - 1] == Init(calls);
    AllowedExactly(start, calls);
  }
}
