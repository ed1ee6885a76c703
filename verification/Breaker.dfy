/** The circuit breaker, as an object and over call traces. */
module Breaker {
  type Time = int

  datatype State = Closed | Open | HalfOpen

  datatype Limits = Limits(threshold: nat, openFor: int, halfOpen: nat)

  datatype Call = AllowCall(now: Time) | SuccessCall | FailureCall(now: Time)

  datatype Status = Status(state: State, failures: nat, successes: nat, openedAt: Time)

  predicate LimitsOk(l: Limits) {
    l.threshold >= 1 && l.halfOpen >= 1
  }

  predicate Granted(b: Status, l: Limits, now: Time) {
    b.state.Open? ==> now - b.openedAt >= l.openFor
  }

  function Step(b: Status, l: Limits, call: Call): Status {
    match call
    case AllowCall(now) =>
      if b.state.Open? && Granted(b, l, now) then b.(state := HalfOpen, successes := 0) else b
    case SuccessCall =>
      if b.state.HalfOpen? then
        if b.successes + 1 >= l.halfOpen then b.(state := Closed, failures := 0, successes := 0)
        else b.(successes := b.successes + 1)
      else if b.state.Closed? then b.(failures := 0)
      else b
    case FailureCall(now) =>
      if b.failures + 1 >= l.threshold || b.state.HalfOpen?
      then b.(failures := b.failures + 1, successes := 0, state := Open, openedAt := now)
      else b.(failures := b.failures + 1, successes := 0)
  }

  const NEW: Status := Status(Closed, 0, 0, 0)

  /** The breaker after a trace of calls. */
  function Run(l: Limits, calls: seq<Call>): Status {
    if calls == [] then NEW else Step(Run(l, calls[..|calls| - 1]), l, calls[|calls| - 1])
  }

  lemma RunNext(l: Limits, calls: seq<Call>, i: nat)
    requires i < |calls|
    ensures Run(l, calls[..i + 1]) == Step(Run(l, calls[..i]), l, calls[i])
  {
    assert calls[..i + 1][..i] == calls[..i];
  }

  lemma RunThen(l: Limits, calls: seq<Call>, call: Call)
    ensures Run(l, calls + [call]) == Step(Run(l, calls), l, call)
  {
    assert (calls + [call])[..|calls|] == calls;
  }

  class CircuitBreaker {
    const limits: Limits
    var state: State
    var consecutiveFailures: nat
    var consecutiveSuccess: nat
    var openedAt: Time
    ghost var trace: seq<Call>

    ghost function Now(): Status
      reads this
    {
      Status(state, consecutiveFailures, consecutiveSuccess, openedAt)
    }

    /** The fields are what the calls so far make of a new breaker. */
    ghost predicate Valid()
      reads this
    {
      LimitsOk(limits) && Now() == Run(limits, trace)
    }

    constructor (threshold: int, openFor: int, halfOpenSuccesses: int)
      ensures Valid() && trace == []
      ensures limits == Limits(if threshold > 1 then threshold else 1, openFor, if halfOpenSuccesses > 1 then halfOpenSuccesses else 1)
    {
      limits := Limits(if threshold > 1 then threshold else 1, openFor, if halfOpenSuccesses > 1 then halfOpenSuccesses else 1);
      state, consecutiveFailures, consecutiveSuccess, openedAt := Closed, 0, 0, 0;
      trace := [];
    }

    method Allow(now: Time) returns (ok: bool)
      requires Valid()
      modifies this
      ensures Valid() && trace == old(trace) + [AllowCall(now)]
      ensures ok == Granted(Run(limits, old(trace)), limits, now)
      ensures ok <==> old(state) != Open || now - old(openedAt) >= limits.openFor
      ensures old(state) == Open && ok ==> state == HalfOpen && consecutiveSuccess == 0
      ensures !(old(state) == Open && ok) ==> state == old(state) && consecutiveSuccess == old(consecutiveSuccess)
      ensures consecutiveFailures == old(consecutiveFailures) && openedAt == old(openedAt)
    {
      match state {
        case Closed => ok := true;
        case Open =>
          if now - openedAt >= limits.openFor {
            state := HalfOpen;
            consecutiveSuccess := 0;
            ok := true;
          } else {
            ok := false;
          }
        case HalfOpen => ok := true;
      }
      assert Now() == Step(old(Now()), limits, AllowCall(now));
      RunThen(limits, trace, AllowCall(now));
      trace := trace + [AllowCall(now)];
    }

    method Success()
      requires Valid()
      modifies this
      ensures Valid() && trace == old(trace) + [SuccessCall]
      ensures openedAt == old(openedAt)
      ensures old(state) == Closed ==> state == Closed && consecutiveFailures == 0
      ensures old(state) == Open ==> Now() == old(Now())
      ensures old(state) == HalfOpen ==>
                if old(consecutiveSuccess) + 1 >= limits.halfOpen then state == Closed && consecutiveFailures == consecutiveSuccess == 0
                else state == HalfOpen && consecutiveSuccess == old(consecutiveSuccess) + 1
    {
      match state {
        case HalfOpen =>
          consecutiveSuccess := consecutiveSuccess + 1;
          if consecutiveSuccess >= limits.halfOpen {
            state := Closed;
            consecutiveFailures := 0;
            consecutiveSuccess := 0;
          }
        case Closed => consecutiveFailures := 0;
        case Open =>
      }
      assert Now() == Step(old(Now()), limits, SuccessCall);
      RunThen(limits, trace, SuccessCall);
      trace := trace + [SuccessCall];
    }

    method Failure(now: Time)
      requires Valid()
      modifies this
      ensures Valid() && trace == old(trace) + [FailureCall(now)]
      ensures consecutiveFailures == old(consecutiveFailures) + 1 && consecutiveSuccess == 0
      ensures old(state) == HalfOpen || old(consecutiveFailures) + 1 >= limits.threshold ==> state == Open && openedAt == now
      ensures !(old(state) == HalfOpen || old(consecutiveFailures) + 1 >= limits.threshold) ==> state == old(state) && openedAt == old(openedAt)
    {
      consecutiveFailures := consecutiveFailures + 1;
      consecutiveSuccess := 0;
      if consecutiveFailures >= limits.threshold || state == HalfOpen {
        state := Open;
        openedAt := now;
      }
      assert Now() == Step(old(Now()), limits, FailureCall(now));
      RunThen(limits, trace, FailureCall(now));
      trace := trace + [FailureCall(now)];
    }
  }

  // ---------- over any trace ----------

  /** The breaker is closed exactly when fewer failures than the threshold are on record. */
  lemma {:induction false} ClosedExactly(l: Limits, calls: seq<Call>)
    requires LimitsOk(l)
    ensures Run(l, calls).state.Closed? <==> Run(l, calls).failures < l.threshold
  {
    if calls != [] {
      ClosedExactly(l, calls[..|calls| - 1]);
    }
  }

  /** The clock reading of a call, if it has one. */
  predicate NotBefore(call: Call, t: Time) {
    !call.SuccessCall? ==> call.now >= t
  }

  ghost predicate ClockRuns(calls: seq<Call>) {
    forall i, j :: 0 <= i < j < |calls| && !calls[i].SuccessCall? ==> NotBefore(calls[j], calls[i].now)
  }

  /** While open, with every later reading under the limit, the breaker stays open since t or later. */
  lemma {:induction false} StaysOpen(l: Limits, calls: seq<Call>, i: nat, j: nat)
    requires LimitsOk(l) && i < j <= |calls| && ClockRuns(calls)
    requires calls[i].FailureCall? && Run(l, calls[..i + 1]).state.Open?
    requires forall m :: i < m < j && calls[m].AllowCall? ==> calls[m].now - calls[i].now < l.openFor
    ensures Run(l, calls[..j]).state.Open? && calls[i].now <= Run(l, calls[..j]).openedAt
    decreases j
  {
    if j == i + 1 {
      RunNext(l, calls, i);
      ClosedExactly(l, calls[..i]);
      OpenedByFailure(Run(l, calls[..i]), l, calls[i].now);
    } else {
      StaysOpen(l, calls, i, j - 1);
      RunNext(l, calls, j - 1);
    }
  }

  lemma OpenedByFailure(b: Status, l: Limits, now: Time)
    requires Step(b, l, FailureCall(now)).state.Open? && (b.state.Open? ==> b.failures >= l.threshold)
    ensures Step(b, l, FailureCall(now)).openedAt == now
  {
  }

  /** After a failure that leaves the breaker open, no Allow is granted for the open duration,
      whatever else is called in between. The clock must not run backwards. */
  lemma {:induction false} OpenWindow(l: Limits, calls: seq<Call>, i: nat, j: nat)
    requires LimitsOk(l) && i < j < |calls| && ClockRuns(calls)
    requires calls[i].FailureCall? && Run(l, calls[..i + 1]).state.Open?
    requires calls[j].AllowCall? && calls[j].now - calls[i].now < l.openFor
    ensures !Granted(Run(l, calls[..j]), l, calls[j].now)
  {
    forall m | i < m < j && calls[m].AllowCall? ensures calls[m].now - calls[i].now < l.openFor {
      assert NotBefore(calls[j], calls[m].now);
    }
    StaysOpen(l, calls, i, j);
  }

  function Successes(calls: seq<Call>): nat {
    if calls == [] then 0 else Successes(calls[..|calls| - 1]) + if calls[|calls| - 1].SuccessCall? then 1 else 0
  }

  predicate NoFailure(calls: seq<Call>) {
    forall i :: 0 <= i < |calls| ==> !calls[i].FailureCall?
  }

  lemma SuccessesNext(calls: seq<Call>, k: nat, m: nat)
    requires k <= m < |calls|
    ensures Successes(calls[k..m + 1]) == Successes(calls[k..m]) + if calls[m].SuccessCall? then 1 else 0
    ensures NoFailure(calls[k..m + 1]) <==> NoFailure(calls[k..m]) && !calls[m].FailureCall?
  {
    assert calls[k..m + 1][..m - k] == calls[k..m];
    assert calls[k..m + 1] == calls[k..m] + [calls[m]];
  }

  lemma NothingYet(calls: seq<Call>, m: nat)
    requires m <= |calls|
    ensures NoSuccess(calls[m..m]) && Failures(calls[m..m]) == 0 && NoFailure(calls[m..m]) && Successes(calls[m..m]) == 0
  {
  }

  /** A breaker that is half-open after calls[..m], having been open after calls[..i], has counted
      exactly the successes of a stretch without failure. */
  lemma {:induction false} HalfOpenCounts(l: Limits, calls: seq<Call>, i: nat, m: nat) returns (k: nat)
    requires LimitsOk(l) && i <= m <= |calls| && Run(l, calls[..i]).state.Open?
    ensures i <= k <= m
    ensures Run(l, calls[..m]).state.HalfOpen? ==> NoFailure(calls[k..m]) && Successes(calls[k..m]) == Run(l, calls[..m]).successes
    decreases m
  {
    k := m;
    NothingYet(calls, m);
    if m > i && Run(l, calls[..m]).state.HalfOpen? {
      RunNext(l, calls, m - 1);
      if Run(l, calls[..m - 1]).state.HalfOpen? {
        k := HalfOpenCounts(l, calls, i, m - 1);
        SuccessesNext(calls, k, m - 1);
        HalfOpenStep(Run(l, calls[..m - 1]), l, calls[m - 1]);
      }
    }
  }

  lemma HalfOpenStep(b: Status, l: Limits, call: Call)
    requires b.state.HalfOpen? && Step(b, l, call).state.HalfOpen?
    ensures !call.FailureCall? && Step(b, l, call).successes == b.successes + if call.SuccessCall? then 1 else 0
  {
  }

  /** The call that closes a breaker. */
  lemma ClosingCall(b: Status, l: Limits, call: Call)
    requires !b.state.Closed? && Step(b, l, call).state.Closed?
    ensures b.state.HalfOpen? && call.SuccessCall? && b.successes + 1 >= l.halfOpen
  {
  }

  /** A breaker not closed at any moment from calls[..i] to calls[..m], and closed by the next call. */
  lemma ClosedByNext(l: Limits, calls: seq<Call>, i: nat, m: nat) returns (k: nat)
    requires LimitsOk(l) && i <= m < |calls| && Run(l, calls[..i]).state.Open?
    requires forall x :: i <= x <= m ==> !Run(l, calls[..x]).state.Closed?
    requires Run(l, calls[..m + 1]).state.Closed?
    ensures i <= k <= m && NoFailure(calls[k..m + 1]) && Successes(calls[k..m + 1]) >= l.halfOpen && calls[m].SuccessCall?
  {
    RunNext(l, calls, m);
    ClosingCall(Run(l, calls[..m]), l, calls[m]);
    k := HalfOpenCounts(l, calls, i, m);
    SuccessesNext(calls, k, m);
  }

  /** An open breaker closes only at the end of a stretch of calls without failure that holds the
      required number of successes. */
  lemma {:induction false} ClosesOnlyAfterSuccesses(l: Limits, calls: seq<Call>, i: nat, j: nat) returns (k: nat, m: nat)
    requires LimitsOk(l) && i <= j <= |calls| && Run(l, calls[..i]).state.Open? && Run(l, calls[..j]).state.Closed?
    ensures i <= k < m <= j && NoFailure(calls[k..m]) && Successes(calls[k..m]) >= l.halfOpen && calls[m - 1].SuccessCall?
    decreases j
  {
    if x :| i <= x < j && Run(l, calls[..x]).state.Closed? {
      k, m := ClosesOnlyAfterSuccesses(l, calls, i, x);
    } else {
      m := j;
      k := ClosedByNext(l, calls, i, j - 1);
    }
  }

  // ---------- recovery ----------

  /** No Allow among these calls comes when the open duration since t is over. */
  predicate NoLateAllow(l: Limits, calls: seq<Call>, t: Time) {
    forall i :: 0 <= i < |calls| && calls[i].AllowCall? ==> calls[i].now - t < l.openFor
  }

  /** Nothing but a late Allow or a failure moves an open breaker. */
  lemma {:induction false} OpenSince(l: Limits, calls: seq<Call>, i: nat, j: nat)
    requires LimitsOk(l) && i < j <= |calls| && calls[i].FailureCall? && Run(l, calls[..i + 1]).state.Open?
    requires NoFailure(calls[i + 1..j]) && NoLateAllow(l, calls[i + 1..j], calls[i].now)
    ensures Run(l, calls[..j]).state.Open? && Run(l, calls[..j]).openedAt == calls[i].now
    decreases j
  {
    if j == i + 1 {
      RunNext(l, calls, i);
      ClosedExactly(l, calls[..i]);
      OpenedByFailure(Run(l, calls[..i]), l, calls[i].now);
    } else {
      assert calls[i + 1..j][..j - 1 - (i + 1)] == calls[i + 1..j - 1];
      assert calls[i + 1..j][j - 1 - (i + 1)] == calls[j - 1];
      OpenSince(l, calls, i, j - 1);
      RunNext(l, calls, j - 1);
    }
  }

  /** After a failure at t that leaves the breaker open, and without another failure, the first Allow that
      comes at least the open duration after t is granted, and lets the breaker count successes from zero. */
  lemma Recovers(l: Limits, calls: seq<Call>, i: nat, j: nat)
    requires LimitsOk(l) && i < j < |calls| && calls[i].FailureCall? && Run(l, calls[..i + 1]).state.Open?
    requires NoFailure(calls[i + 1..j]) && NoLateAllow(l, calls[i + 1..j], calls[i].now)
    requires calls[j].AllowCall? && calls[j].now - calls[i].now >= l.openFor
    ensures Granted(Run(l, calls[..j]), l, calls[j].now)
    ensures Run(l, calls[..j + 1]).state.HalfOpen? && Run(l, calls[..j + 1]).successes == 0
  {
    OpenSince(l, calls, i, j);
    RunNext(l, calls, j);
  }

  /** A half-open breaker that sees no failure is closed if and only if it has seen the required number of
      successes; until then it counts them. */
  lemma {:induction false} ClosesExactly(l: Limits, calls: seq<Call>, k: nat, m: nat)
    requires LimitsOk(l) && k <= m <= |calls| && Run(l, calls[..k]).state.HalfOpen? && Run(l, calls[..k]).successes == 0
    requires NoFailure(calls[k..m])
    ensures Successes(calls[k..m]) >= l.halfOpen ==> Run(l, calls[..m]).state.Closed? && Run(l, calls[..m]).failures == 0
    ensures Successes(calls[k..m]) < l.halfOpen ==>
              Run(l, calls[..m]).state.HalfOpen? && Run(l, calls[..m]).successes == Successes(calls[k..m])
    decreases m
  {
    if m == k {
      assert calls[k..m] == [];
    } else {
      SuccessesNext(calls, k, m - 1);
      ClosesExactly(l, calls, k, m - 1);
      RunNext(l, calls, m - 1);
    }
  }

  /** A failure of a half-open breaker opens it again. */
  lemma ReopensAtOnce(l: Limits, calls: seq<Call>, k: nat)
    requires k < |calls| && Run(l, calls[..k]).state.HalfOpen? && calls[k].FailureCall?
    ensures Run(l, calls[..k + 1]).state.Open? && Run(l, calls[..k + 1]).openedAt == calls[k].now
  {
    RunNext(l, calls, k);
  }

  function Failures(calls: seq<Call>): nat {
    if calls == [] then 0 else Failures(calls[..|calls| - 1]) + if calls[|calls| - 1].FailureCall? then 1 else 0
  }

  predicate NoSuccess(calls: seq<Call>) {
    forall i :: 0 <= i < |calls| ==> !calls[i].SuccessCall?
  }

  lemma FailuresNext(calls: seq<Call>, k: nat, m: nat)
    requires k <= m < |calls|
    ensures Failures(calls[k..m + 1]) == Failures(calls[k..m]) + if calls[m].FailureCall? then 1 else 0
    ensures NoSuccess(calls[k..m + 1]) <==> NoSuccess(calls[k..m]) && !calls[m].SuccessCall?
  {
    assert calls[k..m + 1][..m - k] == calls[k..m];
    assert calls[k..m + 1] == calls[k..m] + [calls[m]];
  }

  /** A success of a closed breaker, or the success that closes it, starts the count of failures again. */
  lemma SuccessResets(l: Limits, calls: seq<Call>, k: nat)
    requires k < |calls| && calls[k].SuccessCall? && Run(l, calls[..k + 1]).state.Closed?
    ensures Run(l, calls[..k + 1]).failures == 0
  {
    RunNext(l, calls, k);
  }

  /** From then on, without a success in between, the breaker is closed if and only if fewer failures than the
      threshold have come: only consecutive failures open it, and they do. */
  lemma {:induction false} OpensExactly(l: Limits, calls: seq<Call>, k: nat, m: nat)
    requires LimitsOk(l) && k <= m <= |calls| && Run(l, calls[..k]).state.Closed? && Run(l, calls[..k]).failures == 0
    requires NoSuccess(calls[k..m])
    ensures Run(l, calls[..m]).failures == Failures(calls[k..m])
    ensures Run(l, calls[..m]).state.Closed? <==> Failures(calls[k..m]) < l.threshold
    decreases m
  {
    if m == k {
      assert calls[k..m] == [];
    } else {
      FailuresNext(calls, k, m - 1);
      OpensExactly(l, calls, k, m - 1);
      RunNext(l, calls, m - 1);
    }
    ClosedExactly(l, calls[..m]);
  }

  /** What a closed breaker has counted are the failures of a stretch of calls without success. */
  lemma {:induction false} ClosedCounts(l: Limits, calls: seq<Call>, m: nat) returns (k: nat)
    requires LimitsOk(l) && m <= |calls| && Run(l, calls[..m]).state.Closed?
    ensures k <= m && NoSuccess(calls[k..m]) && Failures(calls[k..m]) == Run(l, calls[..m]).failures
    decreases m
  {
    if m > 0 { RunNext(l, calls, m - 1); }
    if m == 0 || calls[m - 1].SuccessCall? {
      k := m;
      NothingYet(calls, m);
    } else {
      k := ClosedCounts(l, calls, m - 1);
      FailuresNext(calls, k, m - 1);
    }
  }

  /** A closed breaker opens only at the end of a stretch of calls without success that holds as many failures
      as the threshold. */
  lemma OpensOnlyAfterFailures(l: Limits, calls: seq<Call>, m: nat) returns (k: nat)
    requires LimitsOk(l) && m < |calls| && Run(l, calls[..m]).state.Closed? && !Run(l, calls[..m + 1]).state.Closed?
    ensures k <= m && NoSuccess(calls[k..m + 1]) && Failures(calls[k..m + 1]) >= l.threshold && calls[m].FailureCall?
  {
    RunNext(l, calls, m);
    k := ClosedCounts(l, calls, m);
    FailuresNext(calls, k, m);
  }
}
