/** The sliding-window rate limiter: a pruned queue of admission times per client, held
    against the full history of admissions. Times are exact reals on a monotone clock. */
module RateLimiter {
  import opened Options

  /** `Crashed` is the `IndexError` that reading the oldest entry of an empty queue raises. */
  datatype Response = Passed | TooMany(retryAfter: int) | Crashed

  ghost const WINDOW: real := 60.0

  // ---------------------------------------------------------------- histories

  /** How many of the times in `h` lie in the closed interval from `lo` to `hi`. */
  ghost function Count(h: seq<real>, lo: real, hi: real): nat {
    if h == [] then 0
    else Count(h[..|h| - 1], lo, hi) + if lo <= h[|h| - 1] <= hi then 1 else 0
  }

  ghost predicate Sorted(h: seq<real>) {
    forall i, j | 0 <= i < j < |h| :: h[i] <= h[j]
  }

  /** A history the limiter may produce: at each admission fewer than `rpm` earlier ones lay
      in the window. */
  ghost predicate Admissible(h: seq<real>, rpm: int) {
    && Sorted(h)
    && forall i | 0 <= i < |h| :: Count(h[..i], h[i] - WINDOW, h[i]) < rpm
  }

  lemma {:induction false} CountConcat(a: seq<real>, b: seq<real>, lo: real, hi: real)
    ensures Count(a + b, lo, hi) == Count(a, lo, hi) + Count(b, lo, hi)
  {
    if b == [] {
      assert a + b == a;
    } else {
      assert (a + b)[..|a + b| - 1] == a + b[..|b| - 1];
      CountConcat(a, b[..|b| - 1], lo, hi);
    }
  }

  lemma {:induction false} CountAll(h: seq<real>, lo: real, hi: real)
    requires forall i | 0 <= i < |h| :: lo <= h[i] <= hi
    ensures Count(h, lo, hi) == |h|
  {
    if h != [] { CountAll(h[..|h| - 1], lo, hi); }
  }

  lemma {:induction false} CountNone(h: seq<real>, lo: real, hi: real)
    requires forall i | 0 <= i < |h| :: !(lo <= h[i] <= hi)
    ensures Count(h, lo, hi) == 0
  {
    if h != [] { CountNone(h[..|h| - 1], lo, hi); }
  }

  lemma {:induction false} CountWider(h: seq<real>, lo: real, hi: real, lo': real, hi': real)
    requires forall i | 0 <= i < |h| && lo <= h[i] <= hi :: lo' <= h[i] <= hi'
    ensures Count(h, lo, hi) <= Count(h, lo', hi') <= |h|
  {
    if h != [] {
      assert forall i | 0 <= i < |h| - 1 && lo <= h[..|h| - 1][i] <= hi :: lo' <= h[i] <= hi';
      CountWider(h[..|h| - 1], lo, hi, lo', hi');
    }
  }

  lemma AdmissibleInit(h: seq<real>, rpm: int)
    requires Admissible(h, rpm) && h != []
    ensures var init, last := h[..|h| - 1], h[|h| - 1];
            && Admissible(init, rpm)
            && Count(init, last - WINDOW, last) < rpm
            && forall i | 0 <= i < |init| :: init[i] <= last
  {
    hide Count;
    assert forall i | 0 <= i < |h| - 1 :: h[..|h| - 1][..i] == h[..i];
  }

  /** No closed interval of sixty seconds, wherever it lies, holds more than `rpm` admissions
      of a client. */
  lemma {:induction false} AnyWindowHoldsAtMostRpm(h: seq<real>, rpm: int, a: real)
    requires Admissible(h, rpm) && rpm >= 0
    ensures Count(h, a, a + 60.0) <= rpm
  {
    hide Admissible;
    if h != [] {
      AdmissibleInit(h, rpm);
      var init, last := h[..|h| - 1], h[|h| - 1];
      if a <= last <= a + WINDOW {
        CountWider(init, a, a + WINDOW, last - WINDOW, last);
      } else {
        AnyWindowHoldsAtMostRpm(init, rpm, a);
      }
    }
  }

  /** Times that have left the window stay out of it, and the ones still in it are all
      counted. */
  lemma QueueCounts(dropped: seq<real>, q: seq<real>, now: real)
    requires forall i | 0 <= i < |dropped| :: now - dropped[i] > WINDOW
    requires forall i | 0 <= i < |q| :: now - WINDOW <= q[i] <= now
    ensures Count(dropped + q, now - WINDOW, now) == |q|
  {
    CountConcat(dropped, q, now - WINDOW, now);
    CountNone(dropped, now - WINDOW, now);
    CountAll(q, now - WINDOW, now);
  }

  /** With a full queue and no further requests, a retry `r` seconds on is admitted exactly
      when the oldest entry has left the window by then. */
  lemma LoneRetry(dropped: seq<real>, q: seq<real>, now: real, r: nat)
    requires q != [] && Sorted(q)
    requires forall i | 0 <= i < |dropped| :: now - dropped[i] > WINDOW
    requires forall i | 0 <= i < |q| :: now - WINDOW <= q[i] <= now
    ensures var later := now + r as real;
            Count(dropped + q, later - WINDOW, later) < |q| <==> later - q[0] > WINDOW
  {
    hide Count;
    var later := now + r as real;
    var lo := later - WINDOW;
    CountConcat(dropped, q, lo, later);
    CountNone(dropped, lo, later);
    if later - q[0] > WINDOW {
      assert q == [q[0]] + q[1..];
      CountConcat([q[0]], q[1..], lo, later);
      CountNone([q[0]], lo, later);
      CountWider(q[1..], lo, later, lo, later);
    } else {
      CountAll(q, lo, later);
    }
  }

  // ---------------------------------------------------------------- the middleware

  class RateLimiterMiddleware {
    const rpm: int
    const enabled: bool
    var clients: map<string, seq<real>>

    /** Every admission ever made, per client, and the time of the last request. */
    ghost var history: map<string, seq<real>>
    ghost var clock: real

    ghost function History(client: string): seq<real>
      reads this
    {
      if client in history then history[client] else []
    }

    ghost function Queue(client: string): seq<real>
      reads this
    {
      if client in clients then clients[client] else []
    }

    /** The queue is the history without some times that are out of the window for good. */
    ghost predicate Valid()
      reads this
    {
      forall client: string :: Kept(History(client), Queue(client), rpm, clock)
    }

    constructor (rpm: int, enabled: bool)
      ensures Valid() && this.rpm == rpm && this.enabled == enabled
      ensures history == map[]
    {
      this.rpm, this.enabled := rpm, enabled;
      clients, history, clock := map[], map[], 0.0;
    }

    /** `dispatch`, up to the call of the next handler. A limited request is admitted exactly
        when fewer than `rpm` admissions of its client lie in the closed window that ends
        now; a refusal names the least whole number of seconds after which a lone retry is
        admitted. */
    method Dispatch(path: string, host: Option<string>, now: real) returns (r: Response)
      requires Valid() && now >= clock
      modifies this
      ensures Valid()
      ensures !enabled || path == "/health" ==> r == Passed && history == old(history) && clients == old(clients)
      ensures var client := if host.Some? then host.value else "unknown";
              var h := old(History(client));
              enabled && path != "/health" ==>
                && clock == now
                && (r.Passed? <==> Count(h, now - 60.0, now) < rpm)
                && (r.Crashed? <==> rpm <= 0)
                && History(client) == (if r.Passed? then h + [now] else h)
                && (forall c | c != client :: History(c) == old(History(c)))
                && (r.TooMany? ==> LeastAdmitted(h, rpm, now, r.retryAfter))
    {
      hide Kept, Count, Admissible, Tail, Sorted, LeastAdmitted;
      if !enabled || path == "/health" {
        return Passed;
      }
      var client := if host.Some? then host.value else "unknown";
      Others(now);
      ghost var h := History(client);
      var q := if client in clients then clients[client] else [];
      assert Kept(h, q, rpm, clock);
      ghost var dropped;
      q, dropped := Prune(q, h, rpm, clock, now);
      clients := clients[client := q];
      clock := now;
      assert Valid() by {
        forall c: string ensures Kept(History(c), Queue(c), rpm, clock) {
          if c == client {
            assert History(c) == h && Queue(c) == q;
          } else {
            assert old(Kept(History(c), Queue(c), rpm, now));
            assert History(c) == old(History(c)) && Queue(c) == old(Queue(c));
          }
        }
      }
      if |q| >= rpm {
        if q == [] {
          return Crashed;
        }
        var retry := (60.0 - (now - q[0])).Floor + 1;
        LeastRetry(dropped, q, now, retry);
        return TooMany(retry);
      }
      clients := clients[client := q + [now]];
      history := history[client := h + [now]];
      AdmitOne(h, q, rpm, now);
      assert forall c | c != client :: History(c) == old(History(c));
      assert Valid() by {
        forall c: string ensures Kept(History(c), Queue(c), rpm, clock) {
          if c == client {
            assert History(c) == h + [now] && Queue(c) == q + [now];
          } else {
            assert old(Kept(History(c), Queue(c), rpm, now));
            assert History(c) == old(History(c)) && Queue(c) == old(Queue(c));
          }
        }
      }
      return Passed;
    }

    /** Time passing changes nothing for clients without a request. */
    lemma Others(now: real)
      requires Valid() && clock <= now
      ensures forall c: string :: Kept(History(c), Queue(c), rpm, now)
    {
      forall c: string ensures Kept(History(c), Queue(c), rpm, now) {
        KeptLater(History(c), Queue(c), rpm, clock, now);
      }
    }
  }

  /** The pruning loop: times more than a window old leave the front of the queue. */
  method Prune(before: seq<real>, ghost h: seq<real>, ghost rpm: int, ghost clock: real, now: real)
    returns (q: seq<real>, ghost dropped: seq<real>)
    requires Kept(h, before, rpm, clock) && clock <= now
    ensures h == dropped + q && forall i | 0 <= i < |dropped| :: now - dropped[i] > WINDOW
    ensures Kept(h, q, rpm, now) && Sorted(q) && Count(h, now - WINDOW, now) == |q| <= (if rpm < 0 then 0 else rpm)
    ensures forall i | 0 <= i < |q| :: now - WINDOW <= q[i] <= now
  {
    hide Kept, Count, Sorted;
    StartDropping(h, before, rpm, clock, now);
    q, dropped := before, h[..|h| - |before|];
    while q != [] && now - q[0] > 60.0
      invariant h == dropped + q && |q| <= |before|
      invariant forall i | 0 <= i < |dropped| :: now - dropped[i] > WINDOW
    {
      dropped := dropped + [q[0]];
      q := q[1..];
    }
    InTheWindow(h, before, dropped, q, rpm, clock, now);
  }

  /** What the limiter keeps of a client's history `h`. */
  ghost predicate Kept(h: seq<real>, q: seq<real>, rpm: int, clock: real) {
    && Admissible(h, rpm)
    && (forall i | 0 <= i < |h| :: h[i] <= clock)
    && Tail(h, q, clock)
    && |q| <= if rpm < 0 then 0 else rpm
  }

  lemma KeptLater(h: seq<real>, q: seq<real>, rpm: int, clock: real, now: real)
    requires Kept(h, q, rpm, clock) && clock <= now
    ensures Kept(h, q, rpm, now)
  {
    hide Admissible;
  }

  lemma StartDropping(h: seq<real>, q: seq<real>, rpm: int, clock: real, now: real)
    requires Kept(h, q, rpm, clock) && clock <= now
    ensures |q| <= |h|
    ensures var d := h[..|h| - |q|]; h == d + q && forall i | 0 <= i < |d| :: now - d[i] > WINDOW
  {
    hide Admissible;
  }

  /** `q` is `h` without a prefix of times out of the window at time `now`. */
  ghost predicate Tail(h: seq<real>, q: seq<real>, now: real) {
    && |q| <= |h| && q == h[|h| - |q|..]
    && forall i | 0 <= i < |h| - |q| :: now - h[i] > WINDOW
  }

  /** A request at `now + r`, with no other request in between, is admitted. */
  ghost predicate RetryAdmitted(h: seq<real>, rpm: int, now: real, r: nat) {
    Count(h, now + r as real - 60.0, now + r as real) < rpm
  }

  /** The pruned queue holds exactly the admissions in the window that ends now. */
  lemma InTheWindow(h: seq<real>, before: seq<real>, dropped: seq<real>, q: seq<real>, rpm: int, clock: real, now: real)
    requires Kept(h, before, rpm, clock) && clock <= now
    requires h == dropped + q && |q| <= |before|
    requires forall i | 0 <= i < |dropped| :: now - dropped[i] > WINDOW
    requires q != [] ==> now - q[0] <= WINDOW
    ensures Kept(h, q, rpm, now) && Sorted(q) && Count(h, now - WINDOW, now) == |q| <= (if rpm < 0 then 0 else rpm)
    ensures forall i | 0 <= i < |q| :: now - WINDOW <= q[i] <= now
  {
    hide Count, Kept, Sorted;
    KeptWithin(h, dropped, q, rpm, clock, now);
    KeptFewer(h, before, dropped, q, rpm, clock, now);
    QueueCounts(dropped, q, now);
  }

  /** What is left of the history is in order and in the window. */
  lemma KeptWithin(h: seq<real>, dropped: seq<real>, q: seq<real>, rpm: int, clock: real, now: real)
    requires (exists before :: Kept(h, before, rpm, clock)) && clock <= now
    requires h == dropped + q && (q != [] ==> now - q[0] <= WINDOW)
    ensures Sorted(q) && forall i | 0 <= i < |q| :: now - WINDOW <= q[i] <= now
  {
    hide Count, Tail;
    assert forall i | 0 <= i < |q| :: q[i] == h[|dropped| + i];
  }

  lemma KeptFewer(h: seq<real>, before: seq<real>, dropped: seq<real>, q: seq<real>, rpm: int, clock: real, now: real)
    requires Kept(h, before, rpm, clock) && clock <= now && h == dropped + q && |q| <= |before|
    requires forall i | 0 <= i < |dropped| :: now - dropped[i] > WINDOW
    ensures Kept(h, q, rpm, now) && |q| <= if rpm < 0 then 0 else rpm
  {
    hide Admissible;
    assert h[|h| - |q|..] == q;
  }

  /** `retry` is the least whole number of seconds, at least one, after which a request is
      admitted. */
  ghost predicate LeastAdmitted(h: seq<real>, rpm: int, now: real, retry: int) {
    && retry >= 1
    && RetryAdmitted(h, rpm, now, retry)
    && forall s: nat | s < retry :: !RetryAdmitted(h, rpm, now, s)
  }

  lemma LeastRetry(dropped: seq<real>, q: seq<real>, now: real, retry: int)
    requires q != [] && Sorted(q)
    requires forall i | 0 <= i < |dropped| :: now - dropped[i] > WINDOW
    requires forall i | 0 <= i < |q| :: now - WINDOW <= q[i] <= now
    requires retry == (WINDOW - (now - q[0])).Floor + 1
    ensures LeastAdmitted(dropped + q, |q|, now, retry)
  {
    LoneRetry(dropped, q, now, retry);
    forall s: nat | s < retry ensures !RetryAdmitted(dropped + q, |q|, now, s) {
      LoneRetry(dropped, q, now, s);
    }
  }

  lemma AdmissibleSnoc(h: seq<real>, rpm: int, now: real)
    requires Admissible(h, rpm) && Count(h, now - WINDOW, now) < rpm
    requires forall i | 0 <= i < |h| :: h[i] <= now
    ensures Admissible(h + [now], rpm)
  {
    hide Count;
    var g := h + [now];
    forall i | 0 <= i < |g| ensures Count(g[..i], g[i] - WINDOW, g[i]) < rpm {
      assert g[..i] == h[..i];
    }
  }

  lemma AdmitOne(h: seq<real>, q: seq<real>, rpm: int, now: real)
    requires Kept(h, q, rpm, now) && |q| < rpm
    requires Count(h, now - WINDOW, now) == |q|
    ensures Kept(h + [now], q + [now], rpm, now)
  {
    AdmissibleSnoc(h, rpm, now);
    hide Admissible, Count;
    assert (h + [now])[|h| - |q|..] == q + [now];
  }
}
