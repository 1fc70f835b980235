/** The retry decorator of src/withRetry.ts, for one call of the decorated operation: a
    state machine that calls the inner operation, asks the policy for a delay after each
    failure and waits on the cancellable delay before the next attempt. */
module Retry {
  import opened Common
  import opened CancelTokens
  import opened Delays

  /** Where the call stands: an inner call is in flight, a retry delay is running, the
      outer promise has settled, or the rejection handler threw before starting a delay, so
      that the outer promise never settles. */
  datatype Phase = Attempting | Delaying | Settled | Stalled

  /** The default `getRetryDelayInMs`: retry once after 1000 ms, then stop. */
  function DefaultRetryDelayInMs<A>(retryCount: nat, err: ErrorValue, args: A): int {
    if retryCount == 0 then 1000 else -1
  }

  /** How many attempts, from counter value `c` on, the policy lets retry before it first
      returns a negative delay, counting at most `fuel` of them. */
  function RetriesBeforeStop<A>(policy: (nat, ErrorValue, A) -> int, err: ErrorValue, args: A, c: nat, fuel: nat): nat
    decreases fuel
  {
    if fuel == 0 || policy(c, err, args) < 0 then 0
    else 1 + RetriesBeforeStop(policy, err, args, c + 1, fuel - 1)
  }

  /** When the policy answers non-negatively for counters c .. k-1 and negatively for k,
      exactly k - c retries happen. */
  lemma {:induction false} RetriesBeforeStopAt<A>(policy: (nat, ErrorValue, A) -> int, err: ErrorValue, args: A,
                                                 c: nat, k: nat, fuel: nat)
    requires c <= k < c + fuel
    requires forall j :: c <= j < k ==> policy(j, err, args) >= 0
    requires policy(k, err, args) < 0
    ensures RetriesBeforeStop(policy, err, args, c, fuel) == k - c
    decreases k - c
  {
    if c < k {
      RetriesBeforeStopAt(policy, err, args, c + 1, k, fuel - 1);
    }
  }

  /** One call of the function `withRetry` returns. */
  class WithRetry<A, R> {
    const args: A
    /** `getCancelToken(args)`, or null when there is no getter or no token. */
    const token: CancelToken?
    const getRetryDelayInMs: (nat, ErrorValue, A) -> int
    var retryCounter: nat
    var phase: Phase
    /** The retry delay currently running, if any. */
    var delay: WaitAsync?<()>
    /** The outer promise: `None` while pending. */
    var result: Option<Settlement<R>>
    /** The arguments of each call of the inner operation, in order. */
    var calls: seq<A>

    ghost predicate Valid()
      reads this, delay
    {
      && (phase == Settled <==> result.Some?)
      && (phase == Delaying ==> delay != null && delay.Valid() && delay.timer == Pending && delay.token == token)
      && (forall i :: 0 <= i < |calls| ==> calls[i] == args)
      && (phase == Attempting ==> |calls| == retryCounter + 1)
      && (phase == Delaying ==> |calls| == retryCounter)
      && (phase == Settled ==> retryCounter <= |calls| <= retryCounter + 1)
      && (phase == Stalled ==> |calls| == retryCounter)
    }

    /** Whether the token has been cancelled. */
    predicate TokenRequested()
      reads this, token
    {
      token != null && token.requested
    }

    /** The call: the counter starts at 0 and the first attempt runs at once, unless the
        token is already cancelled, in which case the call rejects with the token's error
        and the inner operation is never called. */
    constructor (args: A, getRetryDelayInMs: Option<(nat, ErrorValue, A) -> int>, token: CancelToken?)
      ensures Valid()
      ensures this.args == args && this.token == token && retryCounter == 0
      ensures this.getRetryDelayInMs == getRetryDelayInMs.GetOr(DefaultRetryDelayInMs)
      ensures TokenRequested() ==> phase == Settled && result == Some(Rejected(token.error)) && calls == []
      ensures !TokenRequested() ==> phase == Attempting && result == None && calls == [args]
    {
      this.args := args;
      this.token := token;
      this.getRetryDelayInMs := getRetryDelayInMs.GetOr(DefaultRetryDelayInMs);
      retryCounter := 0;
      phase := Attempting;
      delay := null;
      result := None;
      calls := [];
      new;
      ExecAsync();
    }

    /** `rejectOnCancel`: rejects with the error `throwIfRequested` throws, and says
        whether it did. */
    method RejectOnCancel() returns (rejected: bool)
      requires result.None?
      modifies this`result
      ensures rejected <==> TokenRequested()
      ensures result == if rejected then Some(Rejected(token.error)) else None
    {
      rejected := false;
      if token != null {
        var thrown := token.ThrowIfRequested();
        if thrown.Some? {
          result := Some(Rejected(thrown.value));
          rejected := true;
        }
      }
    }

    /** `execAsync`: one attempt, unless the token has been cancelled. Every attempt
        passes the same `args`. */
    method ExecAsync()
      requires result.None?
      modifies this`result, this`phase, this`calls
      ensures TokenRequested() ==> phase == Settled && result == Some(Rejected(token.error)) && calls == old(calls)
      ensures !TokenRequested() ==> phase == Attempting && result == None && calls == old(calls) + [args]
    {
      var rejected := RejectOnCancel();
      if rejected {
        phase := Settled;
        return;
      }
      calls := calls + [args];
      phase := Attempting;
    }

    /** The inner call fulfils: the outer promise resolves with its value and no further
        attempt runs. */
    method InnerResolved(v: R)
      requires Valid() && phase == Attempting
      modifies this
      ensures Valid() && phase == Settled && result == Some(Resolved(v))
      ensures calls == old(calls) && retryCounter == old(retryCounter)
    {
      result := Some(Resolved(v));
      phase := Settled;
    }

    /** The inner call rejects with `err`. A cancelled token wins over the inner error.
        Otherwise the policy is asked with (retryCounter, err, args): a negative answer
        rejects with `err`; any other answer increments the counter by one, logs
        `err.name` and `err.message`, and starts a delay of that many ms on the same token.
        On an `undefined` or `null` error that log line throws, so no delay starts and the
        call stalls. */
    method InnerRejected(err: ErrorValue)
      requires Valid() && phase == Attempting
      requires token != null ==> token.Valid()
      modifies this, token
      ensures Valid() && calls == old(calls)
      ensures token != null ==> token.Valid() && token.requested == old(token.requested) && token.error == old(token.error)
      ensures token != null ==> token.notified == old(token.notified)
      ensures old(TokenRequested()) ==>
        && phase == Settled && result == Some(Rejected(token.error))
        && retryCounter == old(retryCounter) && unchanged(token)
      ensures !old(TokenRequested()) && getRetryDelayInMs(old(retryCounter), err, args) < 0 ==>
        && phase == Settled && result == Some(Rejected(err))
        && retryCounter == old(retryCounter) && (token != null ==> unchanged(token))
      ensures !old(TokenRequested()) && getRetryDelayInMs(old(retryCounter), err, args) >= 0 && err.Nullish() ==>
        && phase == Stalled && result == None && retryCounter == old(retryCounter) + 1
        && (token != null ==> unchanged(token))
      ensures !old(TokenRequested()) && getRetryDelayInMs(old(retryCounter), err, args) >= 0 && !err.Nullish() ==>
        && phase == Delaying && result == None && retryCounter == old(retryCounter) + 1
        && fresh(delay) && delay.delayInMs == getRetryDelayInMs(old(retryCounter), err, args)
        && (token != null ==> token.listeners == Some(old(token.listeners).value + [delay.Callback()]))
        && (token != null ==> !token.HasCalled(delay.Callback()))
    {
      var rejected := RejectOnCancel();
      if rejected {
        phase := Settled;
        return;
      }
      var retryDelayInMs := getRetryDelayInMs(retryCounter, err, args);
      if retryDelayInMs < 0 {
        result := Some(Rejected(err));
        phase := Settled;
        return;
      }
      retryCounter := retryCounter + 1;
      if err.Nullish() {
        // the template string reads `err.name`, which throws inside the rejection handler
        phase := Stalled;
        return;
      }
      delay := new WaitAsync(Some(retryDelayInMs), (), token);
      phase := Delaying;
    }

    /** The retry delay elapses: the next attempt runs, unless the token was cancelled
        without the delay hearing of it. */
    method DelayElapsed()
      requires Valid() && phase == Delaying
      requires token != null ==> token.Valid() && !token.HasCalled(delay.Callback())
      modifies this, token, delay
      ensures Valid() && retryCounter == old(retryCounter)
      ensures old(TokenRequested()) ==> phase == Settled && result == Some(Rejected(token.error)) && calls == old(calls)
      ensures !old(TokenRequested()) ==> phase == Attempting && result == None && calls == old(calls) + [args]
      ensures token != null ==>
        && token.Valid() && token.requested == old(token.requested) && token.error == old(token.error)
        && token.listeners == AfterUnsubscribe(old(token.listeners), old(delay).Callback())
        && token.notified == old(token.notified)
    {
      delay.TimerFires();
      ExecAsync();
    }

    /** The token, cancelled with `e`, has called the retry delay's listener: the delay rejects and the
        outer promise rejects with the delay's reason; no further attempt runs. */
    method DelayCancelled(e: ErrorValue)
      requires Valid() && phase == Delaying
      requires token != null && token.Valid() && token.requested && token.HasCalledWith(delay.Callback(), e)
      modifies this, token, delay
      ensures Valid() && phase == Settled && calls == old(calls) && retryCounter == old(retryCounter)
      ensures result == Some(Rejected(if e.Truthy() then e else CancelError(WaitAsyncCancelled(old(delay.delayInMs)))))
      ensures token.Valid() && token.requested == old(token.requested) && token.error == old(token.error)
      ensures token.listeners == AfterUnsubscribe(old(token.listeners), old(delay).Callback())
      ensures token.notified == old(token.notified)
    {
      delay.Cancelled(e);
      result := Some(Rejected(delay.result.value.reason));
      phase := Settled;
    }
  }

  /** An inner operation that always rejects with `err`, no token, at most `fuel` failures
      handled. With an Error or a falsy primitive the operation runs 1 + (number of
      leading non-negative policy answers) times, and the call rejects with `err` once the
      policy says stop. With `undefined` or `null` it runs once: the call rejects if the
      first answer is negative and otherwise stalls. */
  method RunAlwaysFailing<A>(args: A, policy: (nat, ErrorValue, A) -> int, err: ErrorValue, fuel: nat)
    returns (executions: nat, outcome: Option<Settlement<()>>)
    ensures !err.Nullish() ==> executions == 1 + RetriesBeforeStop(policy, err, args, 0, fuel)
    ensures !err.Nullish() ==>
      outcome == if RetriesBeforeStop(policy, err, args, 0, fuel) < fuel then Some(Rejected(err)) else None
    ensures err.Nullish() ==> executions == 1
    ensures err.Nullish() ==>
      outcome == if 0 < fuel && RetriesBeforeStop(policy, err, args, 0, fuel) == 0 then Some(Rejected(err)) else None
  {
    var r := new WithRetry<A, ()>(args, Some(policy), null);
    var n := 0;
    while n < fuel && r.phase == Attempting
      invariant fresh(r) && r.Valid() && r.token == null && r.args == args && r.getRetryDelayInMs == policy
      invariant 0 <= n <= fuel && |r.calls| == n + 1
      invariant r.retryCounter == if r.phase == Stalled then n + 1 else n
      invariant r.phase != Delaying
      invariant err.Nullish() ==> n == 0
      invariant r.phase == Attempting ==>
        && r.result == None
        && RetriesBeforeStop(policy, err, args, 0, fuel) == n + RetriesBeforeStop(policy, err, args, n, fuel - n)
      invariant r.phase == Settled ==>
        && r.result == Some(Rejected(err))
        && RetriesBeforeStop(policy, err, args, 0, fuel) == n && n < fuel
      invariant r.phase == Stalled ==>
        && err.Nullish() && r.result == None && 0 < fuel
        && RetriesBeforeStop(policy, err, args, 0, fuel) > 0
      decreases fuel - n, if r.phase == Attempting then 1 else 0
    {
      r.InnerRejected(err);
      if r.phase == Delaying {
        r.DelayElapsed();
        n := n + 1;
      }
    }
    executions, outcome := |r.calls|, r.result;
  }

  /** A policy that always answers -1: the operation runs once. */
  method NeverRetry<A>(args: A, err: ErrorValue) returns (executions: nat, outcome: Option<Settlement<()>>)
    ensures executions == 1 && outcome == Some(Rejected(err))
  {
    var policy := (c: nat, e: ErrorValue, a: A) => -1;
    executions, outcome := RunAlwaysFailing(args, policy, err, 10);
    RetriesBeforeStopAt(policy, err, args, 0, 0, 10);
  }

  /** The policy `c < 2 ? 10 : -1`: one call and two retries, then the inner error; an
      `undefined` or `null` error stalls the call after the first run. */
  method RetryTwice<A>(args: A, err: ErrorValue) returns (executions: nat, outcome: Option<Settlement<()>>)
    ensures !err.Nullish() ==> executions == 3 && outcome == Some(Rejected(err))
    ensures err.Nullish() ==> executions == 1 && outcome == None
  {
    var policy := (c: nat, e: ErrorValue, a: A) => if c < 2 then 10 else -1;
    executions, outcome := RunAlwaysFailing(args, policy, err, 10);
    RetriesBeforeStopAt(policy, err, args, 0, 2, 10);
  }

  /** The default policy retries once and then stops; an `undefined` or `null` error
      stalls the call after the first run. */
  method DefaultPolicyRetriesOnce<A>(args: A, err: ErrorValue) returns (executions: nat, outcome: Option<Settlement<()>>)
    ensures !err.Nullish() ==> executions == 2 && outcome == Some(Rejected(err))
    ensures err.Nullish() ==> executions == 1 && outcome == None
  {
    var policy := DefaultRetryDelayInMs;
    executions, outcome := RunAlwaysFailing(args, policy, err, 10);
    RetriesBeforeStopAt(policy, err, args, 0, 1, 10);
  }

  /** The first attempt fulfils: the call resolves with its value after one execution. */
  method FirstAttemptSucceeds<A, R>(args: A, v: R) returns (executions: nat, outcome: Option<Settlement<R>>)
    ensures executions == 1 && outcome == Some(Resolved(v))
  {
    var r := new WithRetry<A, R>(args, None, null);
    r.InnerResolved(v);
    executions, outcome := |r.calls|, r.result;
  }

  /** The token is cancelled before the call: it rejects with the token's error and the
      inner operation never runs. */
  method CancelledBeforeCall<A>(args: A, reason: ErrorValue) returns (executions: nat, outcome: Option<Settlement<()>>)
    ensures executions == 0 && outcome == Some(Rejected(reason))
  {
    var source := new CancelSource();
    var _ := source.Cancel(reason);
    var r := new WithRetry<A, ()>(args, None, source.token);
    executions, outcome := |r.calls|, r.result;
  }

  /** The token is cancelled while the attempt runs and the attempt then fails: the call
      rejects with the cancellation reason, not the inner error. */
  method CancelledDuringAttempt<A>(args: A, reason: ErrorValue, err: ErrorValue)
    returns (executions: nat, outcome: Option<Settlement<()>>)
    ensures executions == 1 && outcome == Some(Rejected(reason))
  {
    var source := new CancelSource();
    var r := new WithRetry<A, ()>(args, None, source.token);
    var _ := source.Cancel(reason);
    r.InnerRejected(err);
    executions, outcome := |r.calls|, r.result;
  }

  /** The token is cancelled during the retry delay: the delay rejects, the call rejects
      with the reason (or, for a falsy reason, the CancelError naming the 10 ms delay),
      and no second attempt runs. After an `undefined` or `null` inner error no delay was
      started, so the cancel calls nobody and the call stays pending. */
  method CancelledDuringDelay<A>(args: A, reason: ErrorValue, err: ErrorValue)
    returns (executions: nat, outcome: Option<Settlement<()>>)
    ensures executions == 1
    ensures outcome ==
      if err.Nullish() then None
      else Some(Rejected(if reason.Truthy() then reason else CancelError(WaitAsyncCancelled(10))))
  {
    var source := new CancelSource();
    var policy := (c: nat, e: ErrorValue, a: A) => if c < 5 then 10 else -1;
    var r := new WithRetry<A, ()>(args, Some(policy), source.token);
    r.InnerRejected(err);
    var called := source.Cancel(reason);
    if !err.Nullish() {
      assert called == [r.delay.Callback()];
      CallsLogged([], called, reason, r.delay.Callback());
      r.DelayCancelled(reason);
    }
    executions, outcome := |r.calls|, r.result;
  }
}
