/** The chat relay's in-memory, per-client fixed-window rate limiter
    (`checkRateLimit` and `rateLimitMap` in supabase/functions/Chat.ts).
    The process-wide map becomes an explicit value threaded through calls, and
    `Date.now()` becomes the `now` argument (milliseconds). */
module RateLimiter {
  import opened Js

  /** Most requests a client key may make in one window. */
  const RATE_LIMIT: int := 5
  /** Window length in milliseconds. */
  const WINDOW_MS: int := 60 * 1000

  /** The record kept per client key. */
  datatype WindowRecord = WindowRecord(count: int, lastReset: int)

  type Limiter = map<string, WindowRecord>

  /** Every record the limiter can have stored: at least the request that
      opened its window, at most the limit. */
  ghost predicate Valid(m: Limiter) {
    forall k :: k in m ==> 1 <= m[k].count <= RATE_LIMIT
  }

  /** A request at `now` opens a new window for `key`: no record yet, or
      strictly more than a window has passed since the last reset. */
  predicate Expired(m: Limiter, key: string, now: int) {
    key !in m || now - m[key].lastReset > WINDOW_MS
  }

  /** The two limiters hold the same record (or none) for `key`. */
  predicate SameRecord(m1: Limiter, m2: Limiter, key: string) {
    (key in m1 <==> key in m2) && (key in m1 ==> m1[key] == m2[key])
  }

  datatype Decision = Decision(allowed: bool, limiter: Limiter)

  /** One call of `checkRateLimit(key)` at time `now`. */
  function Check(m: Limiter, key: string, now: int): (d: Decision)
    // a new window: allowed, and the window restarts with this request
    ensures Expired(m, key, now) ==>
              d.allowed && d.limiter == m[key := WindowRecord(1, now)]
    // inside the window and under the limit: allowed, counted, same window
    ensures !Expired(m, key, now) && m[key].count < RATE_LIMIT ==>
              d.allowed && d.limiter == m[key := m[key].(count := m[key].count + 1)]
    // inside the window at (or over) the limit: denied, nothing recorded
    ensures !Expired(m, key, now) && m[key].count >= RATE_LIMIT ==>
              !d.allowed && d.limiter == m
    // only the queried key's record can change
    ensures key in d.limiter && d.limiter.Keys == m.Keys + {key}
    ensures forall k :: k != key ==> SameRecord(m, d.limiter, k)
    ensures Valid(m) ==> Valid(d.limiter)
  {
    if Expired(m, key, now) then
      Decision(true, m[key := WindowRecord(1, now)])
    else if m[key].count < RATE_LIMIT then
      Decision(true, m[key := m[key].(count := m[key].count + 1)])
    else
      Decision(false, m)
  }

  /** One request reaching the limiter: the client key and the time. */
  datatype Call = Call(key: string, now: int)

  datatype Trace = Trace(allowed: seq<bool>, limiter: Limiter)

  /** A sequence of calls, handled one after another as the single-threaded
      event loop does. */
  function Replay(m: Limiter, calls: seq<Call>): (t: Trace)
    ensures |t.allowed| == |calls|
    ensures Valid(m) ==> Valid(t.limiter)
    decreases |calls|
  {
    if |calls| == 0 then Trace([], m)
    else
      var d := Check(m, calls[0].key, calls[0].now);
      var rest := Replay(d.limiter, calls[1..]);
      Trace([d.allowed] + rest.allowed, rest.limiter)
  }

  /** The calls in `calls` made by `key`, in order. */
  function CallsBy(calls: seq<Call>, key: string): (r: seq<Call>)
    ensures |r| <= |calls|
    ensures forall i :: 0 <= i < |r| ==> r[i].key == key
  {
    if |calls| == 0 then []
    else if calls[0].key == key then [calls[0]] + CallsBy(calls[1..], key)
    else CallsBy(calls[1..], key)
  }

  /** The decisions, among `allowed`, that answered calls made by `key`. */
  function DecisionsFor(calls: seq<Call>, allowed: seq<bool>, key: string): seq<bool>
    requires |allowed| == |calls|
  {
    if |calls| == 0 then []
    else if calls[0].key == key then [allowed[0]] + DecisionsFor(calls[1..], allowed[1..], key)
    else DecisionsFor(calls[1..], allowed[1..], key)
  }

  /** Calls by other clients neither change a key's record nor the decisions
      it gets: replaying an interleaved sequence gives `key` exactly the
      decisions and the final record that replaying its own calls alone does. */
  lemma {:induction false} KeysAreIsolated(m1: Limiter, m2: Limiter, calls: seq<Call>, key: string)
    requires SameRecord(m1, m2, key)
    ensures DecisionsFor(calls, Replay(m2, calls).allowed, key) == Replay(m1, CallsBy(calls, key)).allowed
    ensures SameRecord(Replay(m1, CallsBy(calls, key)).limiter, Replay(m2, calls).limiter, key)
    decreases |calls|
  {
    if |calls| > 0 {
      var c := calls[0];
      var d2 := Check(m2, c.key, c.now);
      if c.key == key {
        var d1 := Check(m1, c.key, c.now);
        assert d1.allowed == d2.allowed && SameRecord(d1.limiter, d2.limiter, key);
        KeysAreIsolated(d1.limiter, d2.limiter, calls[1..], key);
        assert CallsBy(calls, key) == [c] + CallsBy(calls[1..], key);
        assert ([c] + CallsBy(calls[1..], key))[1..] == CallsBy(calls[1..], key);
      } else {
        assert SameRecord(m1, d2.limiter, key);
        KeysAreIsolated(m1, d2.limiter, calls[1..], key);
      }
    }
  }

  /** The i-th decision of a replay is the first call's, or the (i-1)-th of
      the rest of the replay. */
  lemma ReplayStep(m: Limiter, calls: seq<Call>, i: nat)
    requires i < |calls|
    ensures var d := Check(m, calls[0].key, calls[0].now);
            Replay(m, calls).allowed[i] == if i == 0 then d.allowed else Replay(d.limiter, calls[1..]).allowed[i - 1]
  {
  }

  /** Number of `true` entries. */
  function CountAllowed(allowed: seq<bool>): (n: nat)
    ensures n <= |allowed|
  {
    if |allowed| == 0 then 0
    else (if allowed[0] then 1 else 0) + CountAllowed(allowed[1..])
  }

  /** Every call is by `key` and arrives no more than a window after `start`. */
  predicate WithinWindow(calls: seq<Call>, key: string, start: int) {
    forall i :: 0 <= i < |calls| ==> calls[i].key == key && calls[i].now - start <= WINDOW_MS
  }

  /** Inside a window no reset happens: starting from a count of `c`, the
      i-th further call is allowed exactly when `c + i` is under the limit,
      and the record ends at `min(c + n, limit)` with the window start kept. */
  lemma {:induction false} CallsInsideWindow(m: Limiter, key: string, calls: seq<Call>)
    requires key in m && 1 <= m[key].count <= RATE_LIMIT
    requires WithinWindow(calls, key, m[key].lastReset)
    ensures var t := Replay(m, calls);
      && (forall i :: 0 <= i < |calls| ==> (t.allowed[i] <==> m[key].count + i < RATE_LIMIT))
      && key in t.limiter
      && t.limiter[key] == WindowRecord(Min(m[key].count + |calls|, RATE_LIMIT), m[key].lastReset)
    decreases |calls|
  {
    if |calls| > 0 {
      var r := m[key];
      var d := Check(m, key, calls[0].now);
      assert !Expired(m, key, calls[0].now);
      assert WithinWindow(calls[1..], key, r.lastReset) by {
        forall i | 0 <= i < |calls| - 1
          ensures calls[1..][i].key == key && calls[1..][i].now - r.lastReset <= WINDOW_MS
        {
          assert calls[1..][i] == calls[i + 1];
        }
      }
      if r.count < RATE_LIMIT {
        assert d.limiter[key] == WindowRecord(r.count + 1, r.lastReset);
        CallsInsideWindow(d.limiter, key, calls[1..]);
      } else {
        CallsInsideWindow(d.limiter, key, calls[1..]);
      }
    }
  }

  /** The fixed-window promise: once a request opens a window, that request
      and the next four are allowed and every later request inside the same
      window is denied, so at most five are allowed per window. */
  lemma {:induction false} FiveAllowedPerWindow(m: Limiter, calls: seq<Call>)
    requires |calls| > 0
    requires Expired(m, calls[0].key, calls[0].now)
    requires WithinWindow(calls, calls[0].key, calls[0].now)
    ensures forall i :: 0 <= i < |calls| ==> (Replay(m, calls).allowed[i] <==> i < RATE_LIMIT)
    ensures CountAllowed(Replay(m, calls).allowed) == Min(|calls|, RATE_LIMIT)
    ensures calls[0].key in Replay(m, calls).limiter
    ensures Replay(m, calls).limiter[calls[0].key]
            == WindowRecord(Min(|calls|, RATE_LIMIT), calls[0].now)
  {
    var key, start := calls[0].key, calls[0].now;
    var d := Check(m, key, start);
    assert d.limiter[key] == WindowRecord(1, start);
    assert WithinWindow(calls[1..], key, start) by {
      forall i | 0 <= i < |calls| - 1
        ensures calls[1..][i].key == key && calls[1..][i].now - start <= WINDOW_MS
      {
        assert calls[1..][i] == calls[i + 1];
      }
    }
    CallsInsideWindow(d.limiter, key, calls[1..]);
    var allowed := Replay(m, calls).allowed;
    CountFirstN(allowed, RATE_LIMIT);
  }

  /** A run of decisions that allows exactly its first `n` entries. */
  lemma {:induction false} CountFirstN(allowed: seq<bool>, n: nat)
    requires forall i :: 0 <= i < |allowed| ==> (allowed[i] <==> i < n)
    ensures CountAllowed(allowed) == Min(|allowed|, n)
  {
    if |allowed| > 0 {
      if n > 0 {
        assert forall i :: 0 <= i < |allowed| - 1 ==> (allowed[1..][i] <==> i < n - 1);
        CountFirstN(allowed[1..], n - 1);
      } else {
        assert forall i :: 0 <= i < |allowed| - 1 ==> (allowed[1..][i] <==> i < n);
        CountFirstN(allowed[1..], n);
      }
    }
  }

  /** Replaying two sequences one after the other is replaying their
      concatenation. */
  lemma {:induction false} ReplayAppend(m: Limiter, a: seq<Call>, b: seq<Call>)
    ensures Replay(m, a + b).allowed == Replay(m, a).allowed + Replay(Replay(m, a).limiter, b).allowed
    ensures Replay(m, a + b).limiter == Replay(Replay(m, a).limiter, b).limiter
    decreases |a|
  {
    if |a| > 0 {
      var d := Check(m, a[0].key, a[0].now);
      assert (a + b)[0] == a[0];
      assert (a + b)[1..] == a[1..] + b;
      ReplayAppend(d.limiter, a[1..], b);
      var rest := Replay(d.limiter, a[1..]);
      var tb := Replay(rest.limiter, b);
      assert [d.allowed] + (rest.allowed + tb.allowed) == ([d.allowed] + rest.allowed) + tb.allowed;
    } else {
      assert a + b == b;
    }
  }

  lemma {:induction false} CountAllowedAppend(a: seq<bool>, b: seq<bool>)
    ensures CountAllowed(a + b) == CountAllowed(a) + CountAllowed(b)
  {
    if |a| > 0 {
      assert (a + b)[0] == a[0];
      assert (a + b)[1..] == a[1..] + b;
      CountAllowedAppend(a[1..], b);
      assert CountAllowed(a + b) == (if a[0] then 1 else 0) + CountAllowed(a[1..] + b);
    } else {
      assert a + b == b;
    }
  }

  /** The boundary burst the fixed-window policy accepts: after one request at
      time 0, four requests just before the window edge and five just after it
      are all allowed, nine allowed requests within two milliseconds. */
  lemma BoundaryBurst(key: string)
    ensures var calls := [Call(key, 0)]
                       + seq(4, _ => Call(key, WINDOW_MS - 1))
                       + seq(5, _ => Call(key, WINDOW_MS + 1));
            CountAllowed(Replay(map[], calls).allowed) == 10
  {
    var early := [Call(key, 0)] + seq(4, _ => Call(key, WINDOW_MS - 1));
    var late := seq(5, _ => Call(key, WINDOW_MS + 1));
    var m0: Limiter := map[];
    FiveAllowedPerWindow(m0, early);
    var t1 := Replay(m0, early);
    assert t1.limiter[key].lastReset == 0;
    FiveAllowedPerWindow(t1.limiter, late);
    ReplayAppend(m0, early, late);
    CountAllowedAppend(t1.allowed, Replay(t1.limiter, late).allowed);
    assert early + late == [Call(key, 0)]
                       + seq(4, _ => Call(key, WINDOW_MS - 1))
                       + seq(5, _ => Call(key, WINDOW_MS + 1));
  }
}
