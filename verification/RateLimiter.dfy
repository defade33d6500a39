/** The fixed-window rate limiter of the authentication endpoints.
  *
  * One reading of the clock, in seconds, serves a whole call, and readings never go back.
  */
module RateLimiter {
  import opened Basics

  const RATE_LIMIT: nat := 120
  const PERIOD: int := 60
  const MAX_KEYS: nat := 10_000

  // ---- Keys ----

  datatype Operation =
    | Login
    | Refresh
    | AdminLogin
    | AdminRefresh
    | AdminReauth
    | PayloadUpload
    | Purge
    | InvitationActivation
    | Register
    | WebLogin
    | WebRefresh
    | WebInvitationActivation
    | WebLogout

  function NameOf(operation: Operation): string {
    match operation
    case Login => "login"
    case Refresh => "refresh"
    case AdminLogin => "admin_login"
    case AdminRefresh => "admin_refresh"
    case AdminReauth => "admin_reauth"
    case PayloadUpload => "payload_upload"
    case Purge => "purge"
    case InvitationActivation => "invitation_activation"
    case Register => "register"
    case WebLogin => "web_login"
    case WebRefresh => "web_refresh"
    case WebInvitationActivation => "web_invitation_activation"
    case WebLogout => "web_logout"
  }

  function RateKey(operation: Operation, key: string): string {
    NameOf(operation) + ":" + key
  }

  lemma {:induction false} FirstColon(a: string, x: string, b: string, y: string)
    requires ':' !in a && ':' !in b && a + ":" + x == b + ":" + y
    ensures a == b && x == y
  {
    var s := a + ":" + x;
    assert s[|a|] == ':' && s[|b|] == ':';
    assert forall i :: 0 <= i < |a| ==> s[i] == a[i] && a[i] in a;
    assert forall i :: 0 <= i < |b| ==> s[i] == b[i] && b[i] in b;
    assert a == s[..|a|] && b == s[..|b|];
    assert x == s[|a| + 1..] && y == s[|b| + 1..];
  }

  lemma {:induction false} NamesAreDistinct(a: Operation, b: Operation)
    ensures ':' !in NameOf(a)
    ensures NameOf(a) == NameOf(b) ==> a == b
  {
  }

  /** Distinct pairs of operation and key never share a window. */
  lemma {:induction false} KeysAreDistinct(a: Operation, x: string, b: Operation, y: string)
    ensures RateKey(a, x) == RateKey(b, y) <==> a == b && x == y
  {
    if RateKey(a, x) == RateKey(b, y) {
      NamesAreDistinct(a, b);
      NamesAreDistinct(b, a);
      FirstColon(NameOf(a), x, NameOf(b), y);
    }
  }

  // ---- The limiter ----

  datatype RateWindow = RateWindow(startedAt: int, requests: nat)

  datatype Limiter = Limiter(windows: map<string, RateWindow>, lastCleanup: int)

  predicate Expired(w: RateWindow, now: int) {
    now - w.startedAt >= PERIOD
  }

  function Cleaned(l: Limiter, now: int): Limiter {
    if now - l.lastCleanup >= PERIOD
    then Limiter(map k | k in l.windows && !Expired(l.windows[k], now) :: l.windows[k], now)
    else l
  }

  /** The window a request is counted in. */
  function WindowFor(windows: map<string, RateWindow>, now: int, k: string): RateWindow {
    if k !in windows || Expired(windows[k], now) then RateWindow(now, 0) else windows[k]
  }

  predicate Full(l: Limiter, k: string) {
    k !in l.windows && |l.windows| >= MAX_KEYS
  }

  function Counted(w: RateWindow): RateWindow {
    if w.requests >= RATE_LIMIT then w else w.(requests := w.requests + 1)
  }

  function Allow(l: Limiter, now: int, k: string): (Limiter, bool) {
    var c := Cleaned(l, now);
    if Full(c, k) then (c, false)
    else
      var w := WindowFor(c.windows, now, k);
      (c.(windows := c.windows[k := Counted(w)]), w.requests < RATE_LIMIT)
  }

  class AuthRateLimiter {
    var windows: map<string, RateWindow>
    var lastCleanup: int

    ghost function Contents(): Limiter
      reads this
    {
      Limiter(windows, lastCleanup)
    }

    constructor (now: int)
      ensures Contents() == Limiter(map[], now)
    {
      windows, lastCleanup := map[], now;
    }

    method AllowRequest(now: int, operation: Operation, key: string) returns (allowed: bool)
      modifies this
      ensures (Contents(), allowed) == Allow(old(Contents()), now, RateKey(operation, key))
    {
      if now - lastCleanup >= PERIOD {
        windows := map k | k in windows && now - windows[k].startedAt < PERIOD :: windows[k];
        lastCleanup := now;
      }
      assert Contents() == Cleaned(old(Contents()), now);
      ghost var kept := windows;
      var rateKey := RateKey(operation, key);
      if rateKey !in windows && |windows| >= MAX_KEYS {
        return false;
      }
      if rateKey !in windows {
        windows := windows[rateKey := RateWindow(now, 0)];
      }
      var window := windows[rateKey];
      if now - window.startedAt >= PERIOD {
        window := RateWindow(now, 0);
        windows := windows[rateKey := window];
      }
      if window.requests >= RATE_LIMIT {
        assert windows == kept[rateKey := window];
        return false;
      }
      windows := windows[rateKey := window.(requests := window.requests + 1)];
      assert windows == kept[rateKey := window.(requests := window.requests + 1)];
      return true;
    }
  }

  // ---- Runs ----

  datatype Call = Call(now: int, key: string)

  predicate Ordered(start: int, calls: seq<Call>) {
    && (forall i :: 0 <= i < |calls| ==> start <= calls[i].now)
    && (forall i, j :: 0 <= i < j < |calls| ==> calls[i].now <= calls[j].now)
  }

  function Run(start: int, calls: seq<Call>): Limiter {
    if calls == [] then Limiter(map[], start)
    else Allow(Run(start, Init(calls)), Last(calls).now, Last(calls).key).0
  }

  /** The answer to the last call. */
  predicate Answer(start: int, calls: seq<Call>)
    requires calls != []
  {
    Allow(Run(start, Init(calls)), Last(calls).now, Last(calls).key).1
  }

  /** The number of requests of `k` allowed at a time in `[from, to)`. */
  function AllowedIn(start: int, calls: seq<Call>, k: string, from: int, to: int): nat {
    if calls == [] then 0
    else
      AllowedIn(start, Init(calls), k, from, to)
      + if Last(calls).key == k && from <= Last(calls).now < to && Answer(start, calls) then 1 else 0
  }

  lemma {:induction false} AllowedSplits(start: int, calls: seq<Call>, k: string, from: int, mid: int, to: int)
    requires from <= mid <= to
    ensures AllowedIn(start, calls, k, from, to) == AllowedIn(start, calls, k, from, mid) + AllowedIn(start, calls, k, mid, to)
  {
    if calls != [] {
      AllowedSplits(start, Init(calls), k, from, mid, to);
    }
  }

  lemma {:induction false} AllowedGrows(start: int, calls: seq<Call>, k: string, from: int, from': int, to': int, to: int)
    requires from <= from' && to' <= to
    ensures AllowedIn(start, calls, k, from', to') <= AllowedIn(start, calls, k, from, to)
  {
    if calls != [] {
      AllowedGrows(start, Init(calls), k, from, from', to', to);
    }
  }

  function Clock(start: int, calls: seq<Call>): int {
    if calls == [] then start else Last(calls).now
  }

  /** Every allowed request lies at or before the clock. */
  lemma {:induction false} NothingAfterClock(start: int, calls: seq<Call>, k: string, from: int, to: int)
    requires Ordered(start, calls) && from > Clock(start, calls)
    ensures AllowedIn(start, calls, k, from, to) == 0
  {
    if calls != [] {
      NothingAfterClock(start, Init(calls), k, from, to);
    }
  }

  /** For a key with a window: the window counts what was allowed since it started, all of it
    * within one period, and less than a period before it started at most one window's worth was
    * allowed.  For a key without one: at most one window's worth within the last period. */
  ghost predicate KeyOk(start: int, calls: seq<Call>, l: Limiter, now: int, k: string) {
    if k in l.windows then
      var w := l.windows[k];
      && w.startedAt <= now
      && w.requests <= RATE_LIMIT
      && (forall to :: to > now ==> AllowedIn(start, calls, k, w.startedAt, to) == w.requests)
      && (forall from, to :: from >= w.startedAt + PERIOD ==> AllowedIn(start, calls, k, from, to) == 0)
      && (forall t :: t > w.startedAt - PERIOD ==> AllowedIn(start, calls, k, t, w.startedAt) <= RATE_LIMIT)
    else
      && (forall t, to :: t > now - PERIOD ==> AllowedIn(start, calls, k, t, to) <= RATE_LIMIT)
      && (forall to :: AllowedIn(start, calls, k, now, to) == 0)
  }

  lemma {:induction false} Recent(start: int, calls: seq<Call>, l: Limiter, now: int, k: string, t: int, to: int)
    requires KeyOk(start, calls, l, now, k) && k in l.windows && t >= l.windows[k].startedAt
    ensures AllowedIn(start, calls, k, t, to) <= l.windows[k].requests
  {
    var w := l.windows[k];
    var end := if to > now then to else now + 1;
    AllowedGrows(start, calls, k, w.startedAt, t, to, end);
  }

  /** Time passes, and expired windows may be dropped. */
  lemma {:induction false} Ages(start: int, calls: seq<Call>, l: Limiter, was: int, now: int, k: string)
    requires was <= now && KeyOk(start, calls, l, was, k)
    ensures KeyOk(start, calls, Cleaned(l, now), now, k)
  {
    var c := Cleaned(l, now);
    if k !in c.windows {
      forall t, to | t > now - PERIOD ensures AllowedIn(start, calls, k, t, to) <= RATE_LIMIT {
        if k in l.windows {
          Recent(start, calls, l, was, k, t, to);
        }
      }
      forall to ensures AllowedIn(start, calls, k, now, to) == 0 {
        if k in l.windows {
          AllowedGrows(start, calls, k, l.windows[k].startedAt + PERIOD, now, to, to);
        } else {
          AllowedGrows(start, calls, k, was, now, to, to);
        }
      }
    }
  }

  /** A call for another key. */
  lemma {:induction false} OtherCall(start: int, calls: seq<Call>, c: Limiter, k: string)
    requires calls != [] && Last(calls).key != k && c == Cleaned(Run(start, Init(calls)), Last(calls).now)
    requires KeyOk(start, Init(calls), c, Last(calls).now, k)
    ensures KeyOk(start, calls, Run(start, calls), Last(calls).now, k)
  {
    forall from, to ensures AllowedIn(start, calls, k, from, to) == AllowedIn(start, Init(calls), k, from, to) {
    }
  }

  /** A call that opens a window. */
  lemma {:induction false} OpeningCall(start: int, calls: seq<Call>, c: Limiter, k: string)
    requires Ordered(start, calls) && calls != [] && Last(calls).key == k
    requires c == Cleaned(Run(start, Init(calls)), Last(calls).now)
    requires KeyOk(start, Init(calls), c, Last(calls).now, k)
    requires !Full(c, k) && WindowFor(c.windows, Last(calls).now, k) == RateWindow(Last(calls).now, 0)
    requires k in c.windows ==> Expired(c.windows[k], Last(calls).now)
    ensures KeyOk(start, calls, Run(start, calls), Last(calls).now, k)
  {
    var now := Last(calls).now;
    var before := Init(calls);
    assert Answer(start, calls) && Run(start, calls).windows[k] == RateWindow(now, 1);
    forall to ensures AllowedIn(start, before, k, now, to) == 0 {
      if k in c.windows {
        AllowedGrows(start, before, k, c.windows[k].startedAt + PERIOD, now, to, to);
      }
    }
    forall from, to | from >= now + PERIOD ensures AllowedIn(start, calls, k, from, to) == 0 {
      NothingAfterClock(start, calls, k, from, to);
    }
    forall t | t > now - PERIOD ensures AllowedIn(start, calls, k, t, now) <= RATE_LIMIT {
      if k in c.windows {
        Recent(start, before, c, now, k, t, now);
      }
    }
  }

  /** A call within a window, allowed or not. */
  lemma {:induction false} InnerCall(start: int, calls: seq<Call>, c: Limiter, k: string)
    requires calls != [] && Last(calls).key == k
    requires c == Cleaned(Run(start, Init(calls)), Last(calls).now)
    requires KeyOk(start, Init(calls), c, Last(calls).now, k)
    requires k in c.windows && !Expired(c.windows[k], Last(calls).now)
    ensures KeyOk(start, calls, Run(start, calls), Last(calls).now, k)
  {
    var w := c.windows[k];
    assert Answer(start, calls) == (w.requests < RATE_LIMIT);
    assert Run(start, calls).windows[k] == Counted(w);
    forall t ensures AllowedIn(start, calls, k, t, w.startedAt) == AllowedIn(start, Init(calls), k, t, w.startedAt) {
    }
    forall from, to | from >= w.startedAt + PERIOD
      ensures AllowedIn(start, calls, k, from, to) == AllowedIn(start, Init(calls), k, from, to)
    {
    }
  }

  /** A call refused for want of capacity. */
  lemma {:induction false} RefusedCall(start: int, calls: seq<Call>, c: Limiter, k: string)
    requires calls != [] && Last(calls).key == k && c == Cleaned(Run(start, Init(calls)), Last(calls).now)
    requires KeyOk(start, Init(calls), c, Last(calls).now, k) && Full(c, k)
    ensures KeyOk(start, calls, Run(start, calls), Last(calls).now, k)
  {
    assert !Answer(start, calls);
    forall from, to ensures AllowedIn(start, calls, k, from, to) == AllowedIn(start, Init(calls), k, from, to) {
    }
  }

  lemma {:induction false} RunKeepsKey(start: int, calls: seq<Call>, k: string)
    requires Ordered(start, calls)
    ensures KeyOk(start, calls, Run(start, calls), Clock(start, calls), k)
  {
    hide KeyOk, AllowedIn;
    if calls == [] {
      NothingYet(start, k);
    } else {
      RunKeepsKey(start, Init(calls), k);
      var before, now := Run(start, Init(calls)), Last(calls).now;
      var c := Cleaned(before, now);
      Ages(start, Init(calls), before, Clock(start, Init(calls)), now, k);
      if Last(calls).key != k {
        OtherCall(start, calls, c, k);
      } else if Full(c, k) {
        RefusedCall(start, calls, c, k);
      } else if k in c.windows && !Expired(c.windows[k], now) {
        InnerCall(start, calls, c, k);
      } else {
        OpeningCall(start, calls, c, k);
      }
    }
  }

  lemma {:induction false} NothingYet(start: int, k: string)
    ensures KeyOk(start, [], Run(start, []), start, k)
  {
  }

  /** Over any sequence of calls, in any half-open span of sixty seconds at most 240 requests are
    * allowed per key. */
  lemma {:induction false} SpanIsBounded(start: int, calls: seq<Call>, k: string, t: int)
    requires Ordered(start, calls)
    ensures AllowedIn(start, calls, k, t, t + 60) <= 240
  {
    if calls != [] {
      var now := Last(calls).now;
      SpanIsBounded(start, Init(calls), k, t);
      if Last(calls).key == k && t <= now < t + PERIOD && Answer(start, calls) {
        RunKeepsKey(start, calls, k);
        AllowedHasWindow(start, calls);
        SpanNow(start, calls, Run(start, calls), now, k, t);
      }
    }
  }

  /** An allowed request leaves its key with a window that has not expired. */
  lemma {:induction false} AllowedHasWindow(start: int, calls: seq<Call>)
    requires calls != [] && Answer(start, calls)
    ensures Last(calls).key in Run(start, calls).windows
    ensures !Expired(Run(start, calls).windows[Last(calls).key], Last(calls).now)
  {
  }

  /** A span that includes the present meets at most two windows. */
  lemma {:induction false} SpanNow(start: int, calls: seq<Call>, l: Limiter, now: int, k: string, t: int)
    requires KeyOk(start, calls, l, now, k) && k in l.windows && !Expired(l.windows[k], now)
    requires t <= now < t + PERIOD
    ensures AllowedIn(start, calls, k, t, t + 60) <= 240
  {
    var w := l.windows[k];
    if t >= w.startedAt {
      Recent(start, calls, l, now, k, t, t + PERIOD);
    } else {
      AllowedSplits(start, calls, k, t, w.startedAt, t + PERIOD);
    }
  }

  lemma {:induction false} CleaningShrinks(l: Limiter, now: int)
    ensures |Cleaned(l, now).windows| <= |l.windows|
  {
    var c := Cleaned(l, now);
    assert l.windows.Keys == c.windows.Keys + (l.windows.Keys - c.windows.Keys);
  }

  /** The limiter never holds more than 10,000 keys. */
  lemma {:induction false} CapacityIsKept(start: int, calls: seq<Call>)
    ensures |Run(start, calls).windows| <= 10_000
  {
    if calls != [] {
      CapacityIsKept(start, Init(calls));
      CleaningShrinks(Run(start, Init(calls)), Last(calls).now);
      var c := Cleaned(Run(start, Init(calls)), Last(calls).now);
      var u := Run(start, calls);
      if !Full(c, Last(calls).key) {
        assert u.windows.Keys == c.windows.Keys + {Last(calls).key};
      }
    }
  }

  // ---- A limiter that never prunes ----

  /** The same limiter without cleanup and without a bound on its keys. */
  function Unpruned(calls: seq<Call>): map<string, RateWindow> {
    if calls == [] then map[]
    else
      var windows := Unpruned(Init(calls));
      windows[Last(calls).key := Counted(WindowFor(windows, Last(calls).now, Last(calls).key))]
  }

  predicate UnprunedAnswer(calls: seq<Call>)
    requires calls != []
  {
    WindowFor(Unpruned(Init(calls)), Last(calls).now, Last(calls).key).requests < RATE_LIMIT
  }

  /** The last call finds no window for its key and no room for a new one. */
  predicate OutOfCapacity(start: int, calls: seq<Call>)
    requires calls != []
  {
    var windows := Cleaned(Run(start, Init(calls)), Last(calls).now).windows;
    Last(calls).key !in windows && |windows| >= 10_000
  }

  /** Every window the two limiters share is the same, and the others have expired. */
  ghost predicate Agree(pruned: map<string, RateWindow>, all: map<string, RateWindow>, now: int) {
    && (forall k :: k in pruned ==> k in all && all[k] == pruned[k])
    && (forall k :: k in all && k !in pruned ==> Expired(all[k], now))
  }

  lemma {:induction false} AgreeAfterCleaning(l: Limiter, all: map<string, RateWindow>, was: int, now: int)
    requires was <= now && Agree(l.windows, all, was)
    ensures Agree(Cleaned(l, now).windows, all, now)
  {
  }

  ghost predicate NeverOutOfCapacity(start: int, calls: seq<Call>) {
    forall i :: 0 < i <= |calls| ==> !OutOfCapacity(start, calls[..i])
  }

  lemma {:induction false} LimitersAgree(start: int, calls: seq<Call>)
    requires Ordered(start, calls) && NeverOutOfCapacity(start, calls)
    ensures Agree(Run(start, calls).windows, Unpruned(calls), Clock(start, calls))
  {
    if calls != [] {
      var before := Init(calls);
      forall i | 0 < i <= |before| ensures !OutOfCapacity(start, before[..i]) {
        assert before[..i] == calls[..i];
      }
      LimitersAgree(start, before);
      AgreeAfterCleaning(Run(start, before), Unpruned(before), Clock(start, before), Last(calls).now);
      assert calls[..|calls|] == calls;
      assert !OutOfCapacity(start, calls);
    }
  }

  /** Cleanup is invisible: as long as no call was refused for want of capacity, the next answer is
    * that of a limiter that never prunes exactly when this call is not refused for it either. */
  lemma {:induction false} CleanupIsInvisible(start: int, calls: seq<Call>)
    requires Ordered(start, calls) && calls != [] && NeverOutOfCapacity(start, Init(calls))
    ensures Answer(start, calls) == UnprunedAnswer(calls) <==> !OutOfCapacity(start, calls)
  {
    var before, now, k := Init(calls), Last(calls).now, Last(calls).key;
    LimitersAgree(start, before);
    AgreeAfterCleaning(Run(start, before), Unpruned(before), Clock(start, before), now);
  }
}
