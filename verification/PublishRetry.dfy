/** Publishing with retries through the circuit breaker. The bus, the clock and the caller's
    cancellation are decided by the environment. */
module PublishRetry {
  import opened Schema
  import opened Collections
  import B = Breaker
  import Backoff

  /** What happens at one attempt: the clock at Allow and at Failure, the bus's answer (no id for
      an error), and whether the caller cancels during the wait that follows. */
  datatype Moment = Moment(allowTime: int, failTime: int, reply: Option<string>, cancelled: bool)

  /** What an attempt came to. */
  datatype Try = Rejected | Refused | Sent(id: string)

  datatype RetrySettings = RetrySettings(retryMax: int, backoffMs: int, maxBackoffMs: int)

  function Attempts(c: RetrySettings): (n: nat)
    ensures n >= 1
  {
    if c.retryMax <= 0 then 1 else c.retryMax
  }

  /** The first wait; zero or less means 150 ms. */
  function FirstWait(c: RetrySettings): int {
    var w := Backoff.Wrap64(c.backoffMs * Backoff.MS);
    if w <= 0 then 150 * Backoff.MS else w
  }

  function WaitCap(c: RetrySettings): int {
    var w := Backoff.Wrap64(c.maxBackoffMs * Backoff.MS);
    if w <= 0 then 3000 * Backoff.MS else w
  }

  function NextWait(wait: int, cap: int): int {
    var w := Backoff.Wrap64(wait * 2);
    if w > cap then cap else w
  }

  /** The wait after attempt i. */
  function WaitAfter(c: RetrySettings, i: nat): int {
    if i == 0 then FirstWait(c) else NextWait(WaitAfter(c, i - 1), WaitCap(c))
  }

  /** The first n waits of a call. */
  function Waits(c: RetrySettings, n: nat): seq<int> {
    if n == 0 then [] else Waits(c, n - 1) + [WaitAfter(c, n - 1)]
  }

  /** The breaker calls one attempt makes. */
  function CallsOf(t: Try, m: Moment): seq<B.Call> {
    match t
    case Rejected => [B.AllowCall(m.allowTime)]
    case Refused => [B.AllowCall(m.allowTime), B.FailureCall(m.failTime)]
    case Sent(_) => [B.AllowCall(m.allowTime), B.SuccessCall]
  }

  function TraceOf(tries: seq<Try>, ms: nat -> Moment): seq<B.Call> {
    if tries == [] then [] else
    TraceOf(tries[..|tries| - 1], ms) + CallsOf(tries[|tries| - 1], ms(|tries| - 1))
  }

  /** An attempt reaches the bus exactly when the breaker grants it, and then the bus decides. */
  predicate TryFits(l: B.Limits, before: seq<B.Call>, t: Try, m: Moment) {
    var granted := B.Granted(B.Run(l, before), l, m.allowTime);
    match t
    case Rejected => !granted
    case Refused => granted && m.reply.None?
    case Sent(id) => granted && m.reply == Some(id)
  }

  method BusPublish(b: B.CircuitBreaker, m: Moment) returns (t: Try)
    requires b.Valid()
    modifies b
    ensures b.Valid() && b.trace == old(b.trace) + CallsOf(t, m)
    ensures TryFits(b.limits, old(b.trace), t, m)
    ensures t.Rejected? ==> b.Now() == old(b.Now())
    ensures t.Refused? ==> b.consecutiveFailures == old(b.consecutiveFailures) + 1
  {
    var ok := b.Allow(m.allowTime);
    if !ok { return Rejected; }
    if m.reply.None? {
      b.Failure(m.failTime);
      return Refused;
    }
    b.Success();
    t := Sent(m.reply.value);
  }

  /** Every attempt fits the breaker and the bus at its moment. */
  ghost predicate TriesFit(l: B.Limits, before: seq<B.Call>, tries: seq<Try>, ms: nat -> Moment) {
    tries == [] ||
    var earlier := tries[..|tries| - 1];
    TriesFit(l, before, earlier, ms) && TryFits(l, before + TraceOf(earlier, ms), tries[|tries| - 1], ms(|tries| - 1))
  }

  /** The attempts go on until one is sent, the caller cancels, or they are used up. */
  ghost predicate StopsRight(c: RetrySettings, tries: seq<Try>, ms: nat -> Moment) {
    && 1 <= |tries| <= Attempts(c)
    && (forall i :: 0 <= i < |tries| - 1 ==> !tries[i].Sent? && !ms(i).cancelled)
    && (tries[|tries| - 1].Sent? || |tries| == Attempts(c) || ms(|tries| - 1).cancelled)
  }

  /** No attempt was sent and no wait was cancelled so far. */
  ghost predicate Unsent(tries: seq<Try>, ms: nat -> Moment) {
    forall i :: 0 <= i < |tries| ==> !tries[i].Sent? && !ms(i).cancelled
  }

  lemma Stopped(c: RetrySettings, tries: seq<Try>, t: Try, ms: nat -> Moment)
    requires Unsent(tries, ms) && |tries| < Attempts(c)
    requires t.Sent? || |tries| + 1 == Attempts(c) || ms(|tries|).cancelled
    ensures StopsRight(c, tries + [t], ms)
    ensures t.Sent? <==> exists i :: 0 <= i < |tries + [t]| && (tries + [t])[i].Sent?
  {
    assert (tries + [t])[|tries|] == t;
  }

  lemma WaitsNext(c: RetrySettings, waits: seq<int>, wait: int)
    requires waits == Waits(c, |waits|) && wait == WaitAfter(c, |waits|)
    ensures waits + [wait] == Waits(c, |waits + [wait]|)
    ensures NextWait(wait, WaitCap(c)) == WaitAfter(c, |waits + [wait]|)
  {
    assert |waits + [wait]| == |waits| + 1;
  }

  lemma GoesOn(tries: seq<Try>, t: Try, ms: nat -> Moment)
    requires Unsent(tries, ms) && !t.Sent? && !ms(|tries|).cancelled
    ensures Unsent(tries + [t], ms)
  {
  }

  lemma TraceNext(before: seq<B.Call>, tries: seq<Try>, t: Try, ms: nat -> Moment)
    ensures before + TraceOf(tries + [t], ms) == before + TraceOf(tries, ms) + CallsOf(t, ms(|tries|))
  {
    TraceMore(tries, t, ms);
    Regroup(before, TraceOf(tries, ms), CallsOf(t, ms(|tries|)));
  }

  lemma TraceMore(tries: seq<Try>, t: Try, ms: nat -> Moment)
    ensures TraceOf(tries + [t], ms) == TraceOf(tries, ms) + CallsOf(t, ms(|tries|))
  {
    assert (tries + [t])[..|tries|] == tries;
  }

  lemma FitNext(l: B.Limits, before: seq<B.Call>, tries: seq<Try>, t: Try, ms: nat -> Moment)
    requires TriesFit(l, before, tries, ms) && TryFits(l, before + TraceOf(tries, ms), t, ms(|tries|))
    ensures TriesFit(l, before, tries + [t], ms)
  {
    assert (tries + [t])[..|tries|] == tries;
  }

  /** At most the configured number of attempts, none after the first success; the call succeeds
      exactly when an attempt did, with its id; every bus call was granted by the breaker; the
      waits between attempts double up to the cap. */
  method PublishWithRetry(b: B.CircuitBreaker, c: RetrySettings, ms: nat -> Moment)
      returns (id: Option<string>, tries: seq<Try>, waits: seq<int>)
    requires b.Valid()
    modifies b
    ensures b.Valid() && b.trace == old(b.trace) + TraceOf(tries, ms)
    ensures StopsRight(c, tries, ms) && TriesFit(b.limits, old(b.trace), tries, ms)
    ensures id.Some? <==> exists i :: 0 <= i < |tries| && tries[i].Sent?
    ensures id.Some? ==> tries[|tries| - 1] == Sent(id.value)
    ensures waits == Waits(c, |waits|)
    ensures |waits| == if id.Some? || |tries| == Attempts(c) then |tries| - 1 else |tries|
  {
    tries, waits := [], [];
    var wait := FirstWait(c);
    var attempt := 1;
    while true
      invariant 1 <= attempt <= Attempts(c) && |tries| == attempt - 1
      invariant b.Valid() && b.trace == old(b.trace) + TraceOf(tries, ms)
      invariant TriesFit(b.limits, old(b.trace), tries, ms)
      invariant Unsent(tries, ms)
      invariant wait == WaitAfter(c, |waits|)
      invariant waits == Waits(c, |waits|) && |waits| == attempt - 1
      decreases Attempts(c) - attempt
    {
      var moment := ms(|tries|);
      var t := BusPublish(b, moment);
      FitNext(b.limits, old(b.trace), tries, t, ms);
      TraceNext(old(b.trace), tries, t, ms);
      if t.Sent? || attempt == Attempts(c) || moment.cancelled {
        Stopped(c, tries, t, ms);
      } else {
        GoesOn(tries, t, ms);
      }
      tries := tries + [t];
      if t.Sent? { return Some(t.id), tries, waits; }
      if attempt == Attempts(c) { return None, tries, waits; }
      WaitsNext(c, waits, wait);
      waits := waits + [wait];
      if moment.cancelled { return None, tries, waits; }
      wait := NextWait(wait, WaitCap(c));
      attempt := attempt + 1;
    }
  }

  function Capped(w: int, cap: int): int {
    if w > cap then cap else w
  }

  lemma PowerStep(first: int, i: nat)
    requires i > 0
    ensures first * Backoff.Pow2(i) == 2 * (first * Backoff.Pow2(i - 1))
  {
  }

  /** The intended wait after attempt i: the first wait doubled i times, capped from the second wait on. */
  function Intended(c: RetrySettings, i: nat): int {
    if i == 0 then FirstWait(c) else Capped(FirstWait(c) * Backoff.Pow2(i), WaitCap(c))
  }

  lemma WaitsInt64(c: RetrySettings)
    ensures 0 < FirstWait(c) < Backoff.TWO63 && 0 < WaitCap(c) < Backoff.TWO63
  {
  }

  lemma IntendedInt64(c: RetrySettings, i: nat)
    ensures 0 < Intended(c, i) < Backoff.TWO63
  {
    WaitsInt64(c);
    Backoff.Pow2Above(i);
    Backoff.MulMono(1, FirstWait(c), Backoff.Pow2(i));
  }

  /** The intended waits double up to the cap. */
  lemma IntendedNext(c: RetrySettings, i: nat)
    ensures Intended(c, i + 1) == Capped(2 * Intended(c, i), WaitCap(c))
  {
    WaitsInt64(c);
    PowerStep(FirstWait(c), i + 1);
    assert Backoff.Pow2(0) == 1;
  }

  /** From the second wait on the intended waits do not fall. */
  lemma {:induction false} IntendedGrows(c: RetrySettings, i: nat, j: nat)
    requires 1 <= i <= j
    ensures Intended(c, i) <= Intended(c, j)
    decreases j
  {
    if i < j {
      IntendedGrows(c, i, j - 1);
      IntendedNext(c, j - 1);
      IntendedInt64(c, j - 1);
    }
  }

  /** The next wait is as intended exactly when doubling this one fits. */
  lemma NextExact(c: RetrySettings, i: nat)
    ensures NextWait(Intended(c, i), WaitCap(c)) == Intended(c, i + 1) <==> 2 * Intended(c, i) < Backoff.TWO63
  {
    WaitsInt64(c);
    IntendedInt64(c, i);
    IntendedInt64(c, i + 1);
    IntendedNext(c, i);
  }

  /** The first n waits are as intended. */
  ghost predicate AsIntended(c: RetrySettings, n: nat) {
    forall i: nat :: i < n ==> WaitAfter(c, i) == Intended(c, i)
  }

  lemma {:induction false} FittingWaits(c: RetrySettings, last: nat, i: nat)
    requires 2 * FirstWait(c) < Backoff.TWO63 && 2 * Intended(c, last) < Backoff.TWO63 && i <= last + 1
    ensures WaitAfter(c, i) == Intended(c, i)
    decreases i
  {
    if i > 0 {
      FittingWaits(c, last, i - 1);
      if i > 1 { IntendedGrows(c, i - 1, last); }
      NextExact(c, i - 1);
    }
  }

  /** The waits of a call that uses all its attempts are the intended ones if and only if it makes at most
      one wait, or doubling the first wait and doubling the last but one both fit in an int64. */
  lemma WaitsExact(c: RetrySettings)
    ensures AsIntended(c, Attempts(c) - 1) <==>
            Attempts(c) <= 2 || (2 * FirstWait(c) < Backoff.TWO63 && 2 * Intended(c, Attempts(c) - 3) < Backoff.TWO63)
  {
    var n := Attempts(c) - 1;
    if n >= 2 {
      if AsIntended(c, n) {
        assert WaitAfter(c, 1) == Intended(c, 1) && WaitAfter(c, n - 1) == Intended(c, n - 1) && WaitAfter(c, n - 2) == Intended(c, n - 2);
        NextExact(c, 0);
        NextExact(c, n - 2);
      }
      if 2 * FirstWait(c) < Backoff.TWO63 && 2 * Intended(c, n - 2) < Backoff.TWO63 {
        forall i: nat | i < n ensures WaitAfter(c, i) == Intended(c, i) { FittingWaits(c, n - 2, i); }
      }
    }
  }

  lemma CappedScales(w: int, cap: int, k: int)
    requires k > 0
    ensures Capped(w * k, cap * k) == Capped(w, cap) * k
  {
  }

  lemma SettingsInMs(c: RetrySettings, first: int, cap: int)
    requires first == (if c.backoffMs <= 0 then 150 else c.backoffMs) && cap == (if c.maxBackoffMs <= 0 then 3000 else c.maxBackoffMs)
    requires -Backoff.TWO63 <= c.backoffMs * Backoff.MS < Backoff.TWO63 && -Backoff.TWO63 <= c.maxBackoffMs * Backoff.MS < Backoff.TWO63
    ensures FirstWait(c) == first * Backoff.MS && WaitCap(c) == cap * Backoff.MS
  {
  }

  lemma IntendedInMs(c: RetrySettings, first: int, cap: int, i: nat)
    requires FirstWait(c) == first * Backoff.MS && WaitCap(c) == cap * Backoff.MS
    ensures Intended(c, i) == (if i == 0 then first else Capped(first * Backoff.Pow2(i), cap)) * Backoff.MS
  {
    if i > 0 {
      assert first * Backoff.MS * Backoff.Pow2(i) == first * Backoff.Pow2(i) * Backoff.MS;
      CappedScales(first * Backoff.Pow2(i), cap, Backoff.MS);
    }
  }

  lemma IntendedBelow(c: RetrySettings, i: nat)
    ensures Intended(c, i) <= FirstWait(c) || Intended(c, i) <= WaitCap(c)
  {
  }

  /** The configured waits in milliseconds, 150 doubling up to 3000 by default, for all settings whose
      doubled first wait and doubled cap fit in an int64. */
  lemma ConfiguredWaits(c: RetrySettings, first: int, cap: int, i: nat)
    requires first == (if c.backoffMs <= 0 then 150 else c.backoffMs) && cap == (if c.maxBackoffMs <= 0 then 3000 else c.maxBackoffMs)
    requires -Backoff.TWO63 <= c.backoffMs * Backoff.MS && -Backoff.TWO63 <= c.maxBackoffMs * Backoff.MS
    requires 2 * (first * Backoff.MS) < Backoff.TWO63 && 2 * (cap * Backoff.MS) < Backoff.TWO63
    ensures WaitAfter(c, i) == (if i == 0 then first else Capped(first * Backoff.Pow2(i), cap)) * Backoff.MS
  {
    SettingsInMs(c, first, cap);
    IntendedInMs(c, first, cap, i);
    if i > 0 {
      IntendedBelow(c, i - 1);
      FittingWaits(c, i - 1, i);
    }
  }

  /** An attempt the bus never acknowledges. */
  const SILENT: Moment := Moment(0, 0, None, false)

  lemma NeverSent(l: B.Limits, before: seq<B.Call>, tries: seq<Try>, ms: nat -> Moment, i: nat)
    requires TriesFit(l, before, tries, ms) && i < |tries| && forall j: nat :: ms(j) == SILENT
    ensures !tries[i].Sent?
    decreases |tries|
  {
    if i < |tries| - 1 { NeverSent(l, before, tries[..|tries| - 1], ms, i); }
  }

  /** A call of three attempts against a silent bus whose second wait is negative. */
  method NegativeWait(b: B.CircuitBreaker) returns (waits: seq<int>)
    requires b.Valid()
    modifies b
    ensures |waits| == 2 && waits[1] < 0
  {
    var c := RetrySettings(3, 4_611_686_018_428, 9_000_000_000_000);
    var id, tries;
    id, tries, waits := PublishWithRetry(b, c, (i: nat) => SILENT);
    assert FirstWait(c) == 4_611_686_018_428_000_000 && WaitCap(c) == 9_000_000_000_000_000_000;
    assert WaitAfter(c, 1) == 2 * FirstWait(c) - Backoff.TWO64;
    forall i | 0 <= i < |tries| ensures !tries[i].Sent? {
      NeverSent(b.limits, old(b.trace), tries, (i: nat) => SILENT, i);
    }
    assert |tries| == 3;
    assert Waits(c, 2) == Waits(c, 1) + [WaitAfter(c, 1)] && |Waits(c, 1)| == 1;
  }
}
