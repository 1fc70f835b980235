/** The timeout decorator of src/withTimeout.ts, for one call of the decorated operation:
    a three-way race between the inner operation, a deadline delay and upstream
    cancellation, run through two token sources of its own. */
module Timeout {
  import opened Common
  import opened CancelTokens
  import opened Delays

  /** The deadline when `getTimeoutInMs` is not given. */
  const DefaultTimeoutInMs := 1000

  /** The reason the deadline source is cancelled with once the inner operation settles. */
  function SettledReason(): (e: ErrorValue)
    ensures IsCancelError(e) && e.message == Text("Promise settled, cancel Timeout")
  {
    CancelError(Text("Promise settled, cancel Timeout"))
  }

  /** One call of the function `withTimeout` returns. */
  class WithTimeout<A, R> {
    const args: A
    /** `getCancelToken(args)`, or null when there is no getter or no token. */
    const upstream: CancelToken?
    /** `cancelTimeout` and `timeoutCancelToken`. */
    const timeoutSource: CancelSource
    /** `cancelChild` and `childCancelToken`. */
    const childSource: CancelSource
    const timeoutInMs: int
    const getTimeoutError: Option<A -> ErrorValue>
    /** `newArgs`: what the inner operation is called with. */
    const newArgs: A
    /** The deadline `waitAsync` on the deadline token. */
    var deadline: WaitAsync?<()>
    /** The outer promise: `None` while pending. */
    var result: Option<Settlement<R>>
    /** How the inner operation's promise settled, once it has. */
    var innerOutcome: Option<Settlement<R>>
    /** The arguments of each call of the inner operation. */
    var innerCalls: seq<A>
    /** Whether the upstream listener is registered and has not run yet. */
    ghost var listening: bool

    /** The listener subscribed on the upstream token; it never unsubscribes. */
    function Callback(): Listener {
      Listener(this, false)
    }

    /** The error the deadline rejects with: `getTimeoutError(args)`, or a plain Error
        naming the deadline. */
    function TimeoutError(): ErrorValue {
      if getTimeoutError.Some? then getTimeoutError.value(args)
      else Error("Error", TimedOutAfter(timeoutInMs))
    }

    /** The two sources are distinct from each other and from upstream, the deadline
        delay is the only listener of the deadline token while its timer runs, and that
        token has not called it yet. */
    ghost predicate Valid()
      reads this, deadline, timeoutSource.token, childSource.token
    {
      && deadline != null
      && timeoutSource.token != childSource.token
      && upstream != timeoutSource.token && upstream != childSource.token
      && timeoutSource.token.Valid() && childSource.token.Valid()
      && deadline.Valid() && deadline.token == timeoutSource.token && deadline.delayInMs == timeoutInMs
      && (deadline.timer == Pending ==> timeoutSource.token.listeners == Some([deadline.Callback()]))
      && (deadline.timer != Pending && timeoutSource.token.listeners.Some? ==> timeoutSource.token.listeners.value == [])
      && (deadline.timer == Pending ==> !timeoutSource.token.HasCalled(deadline.Callback()))
      && (listening ==> upstream != null)
    }

    /** The call and its promise executor. Upstream cancellation is subscribed first; a
        truthy stored upstream error runs the listener at once, cancelling both sources and
        rejecting. Then the deadline delay starts on the deadline token, and the inner
        operation is called with `newArgs` in every case. */
    constructor (args: A, upstream: CancelToken?, getTimeoutInMs: Option<A -> int>,
                 getTimeoutError: Option<A -> ErrorValue>, setCancelToken: Option<(CancelToken, A) -> A>)
      requires upstream != null ==> upstream.Valid()
      modifies upstream
      ensures Valid()
      ensures fresh(timeoutSource) && fresh(timeoutSource.token) && fresh(childSource) && fresh(childSource.token)
      ensures fresh(deadline)
      ensures this.args == args && this.upstream == upstream && this.getTimeoutError == getTimeoutError
      ensures timeoutInMs == if getTimeoutInMs.Some? then getTimeoutInMs.value(args) else DefaultTimeoutInMs
      ensures newArgs == if setCancelToken.Some? then setCancelToken.value(childSource.token, args) else args
      ensures innerCalls == [newArgs] && innerOutcome == None
      ensures upstream != null ==> upstream.Valid()
      ensures upstream != null && old(upstream.error).Truthy() ==>
        && result == Some(Rejected(old(upstream.error))) && deadline.timer == NotStarted
        && timeoutSource.token.requested && timeoutSource.token.error == old(upstream.error)
        && childSource.token.requested && childSource.token.error == old(upstream.error)
      ensures upstream == null || !old(upstream.error).Truthy() ==>
        && result == None && deadline.timer == Pending
        && !timeoutSource.token.requested && !childSource.token.requested
      ensures upstream != null && !old(upstream.requested) ==>
        upstream.listeners == Some(old(upstream.listeners).value + [Callback()])
      ensures upstream != null ==> upstream.requested == old(upstream.requested) && upstream.error == old(upstream.error)
      ensures upstream != null && old(upstream.requested) ==> upstream.listeners == old(upstream.listeners)
      ensures upstream != null ==>
        upstream.notified == old(upstream.notified) + (if old(upstream.error).Truthy() then [Call(Callback(), old(upstream.error))] else [])
      ensures listening <==> upstream != null && !old(upstream.requested)
      ensures listening ==> !upstream.HasCalled(Callback())
    {
      var ts := new CancelSource();
      var cs := new CancelSource();
      this.args := args;
      this.upstream := upstream;
      timeoutSource := ts;
      childSource := cs;
      timeoutInMs := if getTimeoutInMs.Some? then getTimeoutInMs.value(args) else DefaultTimeoutInMs;
      this.getTimeoutError := getTimeoutError;
      newArgs := if setCancelToken.Some? then setCancelToken.value(cs.token, args) else args;
      deadline := null;
      result := None;
      innerOutcome := None;
      innerCalls := [];
      listening := false;
      new;
      if upstream != null {
        SubscribeUpstream();
      }
      var d := new WaitAsync(Some(timeoutInMs), (), timeoutSource.token);
      assert [] + [d.Callback()] == [d.Callback()];
      deadline := d;
      innerCalls := innerCalls + [newArgs];
    }

    /** The upstream subscription, made while both sources are new: a truthy stored
        upstream reason runs the listener synchronously. */
    method SubscribeUpstream()
      requires upstream != null && upstream.Valid() && result == None
      requires upstream != timeoutSource.token && upstream != childSource.token && timeoutSource.token != childSource.token
      requires timeoutSource.token.Valid() && !timeoutSource.token.requested && timeoutSource.token.listeners == Some([])
      requires childSource.token.Valid() && !childSource.token.requested && !listening
      requires !upstream.HasCalled(Callback())
      modifies upstream`listeners, upstream`notified, this`result, this`listening, timeoutSource.token, childSource.token
      ensures upstream.Valid() && timeoutSource.token.Valid() && childSource.token.Valid()
      ensures old(upstream.error).Truthy() ==>
        && result == Some(Rejected(old(upstream.error)))
        && timeoutSource.token.requested && timeoutSource.token.error == old(upstream.error)
        && childSource.token.requested && childSource.token.error == old(upstream.error)
      ensures !old(upstream.error).Truthy() ==> result == None && unchanged(timeoutSource.token, childSource.token)
      ensures !old(upstream.requested) ==> upstream.listeners == Some(old(upstream.listeners).value + [Callback()])
      ensures old(upstream.requested) ==> upstream.listeners == old(upstream.listeners)
      ensures upstream.notified == old(upstream.notified) + (if old(upstream.error).Truthy() then [Call(Callback(), old(upstream.error))] else [])
      ensures listening <==> !old(upstream.requested)
      ensures listening ==> !upstream.HasCalled(Callback())
    {
      var _, calledNow := upstream.Subscribe(Callback());
      listening := !calledNow && upstream.listeners.Some?;
      if calledNow {
        // the listener body, run synchronously by `subscribe`
        var e := upstream.error;
        var _ := timeoutSource.Cancel(e);
        var _ := childSource.Cancel(e);
        result := Some(Rejected(e));
      }
    }

    /** `reject`/`resolve` of the outer promise: only the first call takes effect. */
    method Settle(s: Settlement<R>)
      modifies this`result
      ensures result == if old(result).None? then Some(s) else old(result)
    {
      if result.None? {
        result := Some(s);
      }
    }

    /** `cancelTimeout(e)`: cancels the deadline token, and runs the deadline delay's
        listener when the token calls it, clearing a pending deadline. */
    method CancelTimeout(e: ErrorValue)
      requires Valid()
      modifies timeoutSource.token, deadline
      ensures Valid()
      ensures timeoutSource.token.requested && timeoutSource.token.error == e
      ensures deadline.timer == if old(deadline.timer) == Pending then Cleared else old(deadline.timer)
    {
      var called := timeoutSource.Cancel(e);
      if deadline.Callback() in called {
        deadline.Cancelled(e);
      }
    }

    /** The upstream listener, run once upstream has called it with `e`; it runs at most
        once, since the token calls it once: both sources are
        cancelled with `e` and the outer promise rejects with it, unless already settled. */
    method UpstreamCancelled(e: ErrorValue)
      requires Valid() && upstream != null && upstream.requested
      requires listening && upstream.HasCalledWith(Callback(), e)
      modifies this`result, this`listening, timeoutSource.token, childSource.token, deadline
      ensures Valid() && !listening
      ensures timeoutSource.token.requested && timeoutSource.token.error == e
      ensures childSource.token.requested && childSource.token.error == e
      ensures result == if old(result).None? then Some(Rejected(e)) else old(result)
      ensures deadline.timer == if old(deadline.timer) == Pending then Cleared else old(deadline.timer)
    {
      listening := false;
      CancelTimeout(e);
      var _ := childSource.Cancel(e);
      Settle(Rejected(e));
    }

    /** The inner promise settles with `outcome`: the `finally` cancels the deadline source
        (never the child) and the outer promise takes the same outcome, unless already
        settled. */
    method InnerSettled(outcome: Settlement<R>)
      requires Valid() && innerOutcome.None?
      requires listening ==> !upstream.HasCalled(Callback())
      modifies this`result, this`innerOutcome, timeoutSource.token, deadline
      ensures Valid() && innerOutcome == Some(outcome)
      ensures timeoutSource.token.requested && timeoutSource.token.error == SettledReason()
      ensures unchanged(childSource.token)
      ensures result == if old(result).None? then Some(outcome) else old(result)
      ensures deadline.timer == if old(deadline.timer) == Pending then Cleared else old(deadline.timer)
    {
      innerOutcome := Some(outcome);
      CancelTimeout(SettledReason());
      Settle(outcome);
    }

    /** The deadline delay resolves: the child source is cancelled with the timeout error
        and the outer promise rejects with that same error, unless already settled. When
        `getTimeoutError` gives `undefined` or `null`, logging `error.message` throws in the
        handler first, so neither happens. */
    method DeadlineElapsed()
      requires Valid() && deadline.timer == Pending
      requires listening ==> !upstream.HasCalled(Callback())
      modifies this`result, timeoutSource.token, childSource.token, deadline
      ensures Valid() && deadline.timer == Fired
      ensures !TimeoutError().Nullish() ==>
        && childSource.token.requested && childSource.token.error == TimeoutError()
        && result == if old(result).None? then Some(Rejected(TimeoutError())) else old(result)
      ensures TimeoutError().Nullish() ==> unchanged(childSource.token) && result == old(result)
      ensures !timeoutSource.token.requested && timeoutSource.token.listeners == Some([])
    {
      deadline.TimerFires();
      var error := TimeoutError();
      if error.Nullish() {
        // the template string reads `error.message`, which throws
        return;
      }
      var _ := childSource.Cancel(error);
      Settle(Rejected(error));
    }
  }

  /** The error the tests configure with `getTimeoutError`. */
  function TestTimeoutError(): ErrorValue {
    Error("Error", Text("TO"))
  }

  /** The inner operation settles before the deadline: the outer promise has its outcome,
      the deadline source is cancelled with the "Promise settled" reason, the deadline is
      cleared and the child source stays live. */
  method SettledBeforeDeadline<A, R>(args: A, v: R)
    returns (outcome: Option<Settlement<R>>, deadlineReason: ErrorValue, childCancelled: bool, deadlineCleared: bool)
    ensures outcome == Some(Resolved(v)) && deadlineReason == SettledReason()
    ensures !childCancelled && deadlineCleared
  {
    var w := new WithTimeout<A, R>(args, null, Some(_ => 15), Some(_ => TestTimeoutError()), None);
    w.InnerSettled(Resolved(v));
    outcome, deadlineReason := w.result, w.timeoutSource.token.error;
    childCancelled, deadlineCleared := w.childSource.token.requested, w.deadline.timer == Cleared;
  }

  /** The deadline passes first: the child source is cancelled with the timeout error, the
      outer promise rejects with it, and the later inner settlement changes nothing. */
  method DeadlineBeforeSettled<A, R>(args: A, v: R)
    returns (outcome: Option<Settlement<R>>, childReason: ErrorValue, childCancelled: bool)
    ensures outcome == Some(Rejected(TestTimeoutError()))
    ensures childCancelled && childReason == TestTimeoutError()
  {
    var w := new WithTimeout<A, R>(args, null, Some(_ => 5), Some(_ => TestTimeoutError()), None);
    w.DeadlineElapsed();
    w.InnerSettled(Resolved(v));
    outcome, childReason, childCancelled := w.result, w.childSource.token.error, w.childSource.token.requested;
  }

  /** Without `getTimeoutError` and `getTimeoutInMs`, the deadline is 1000 ms and the error
      names it. */
  method DefaultDeadline<A, R>(args: A) returns (outcome: Option<Settlement<R>>)
    ensures outcome == Some(Rejected(Error("Error", TimedOutAfter(1000))))
  {
    var w := new WithTimeout<A, R>(args, null, None, None, None);
    w.DeadlineElapsed();
    outcome := w.result;
  }

  /** Deadline, then inner settlement, then an upstream cancel: the upstream listener still
      runs and cancels the child with its reason, but the outer promise keeps the timeout
      error. */
  method TimedOutThenCancelled<A, R>(args: A, v: R, reason: ErrorValue)
    returns (outcome: Option<Settlement<R>>, upstreamHeard: bool, childReason: ErrorValue)
    ensures outcome == Some(Rejected(TestTimeoutError()))
    ensures upstreamHeard && childReason == reason
  {
    var source := new CancelSource();
    var w := new WithTimeout<A, R>(args, source.token, Some(_ => 5), Some(_ => TestTimeoutError()), None);
    w.DeadlineElapsed();
    w.InnerSettled(Resolved(v));
    var called := source.Cancel(reason);
    assert called == [w.Callback()];
    upstreamHeard := w.Callback() in called;
    w.UpstreamCancelled(reason);
    outcome, childReason := w.result, w.childSource.token.error;
  }

  /** Upstream cancels first: both sources carry the upstream reason, the deadline is
      cleared and the outer promise rejects with the reason; the inner settlement that
      follows only overwrites the deadline token's reason. */
  method CancelledFirst<A, R>(args: A, v: Settlement<R>, reason: ErrorValue)
    returns (outcome: Option<Settlement<R>>, childReason: ErrorValue, deadlineCleared: bool, deadlineReason: ErrorValue)
    ensures outcome == Some(Rejected(reason)) && childReason == reason && deadlineCleared
    ensures deadlineReason == SettledReason()
  {
    var source := new CancelSource();
    var w := new WithTimeout<A, R>(args, source.token, Some(_ => 10), Some(_ => TestTimeoutError()), None);
    var called := source.Cancel(reason);
    assert called == [w.Callback()];
    w.UpstreamCancelled(reason);
    w.InnerSettled(v);
    outcome, childReason := w.result, w.childSource.token.error;
    deadlineCleared, deadlineReason := w.deadline.timer == Cleared, w.timeoutSource.token.error;
  }

  /** The inner operation settles and upstream cancels afterwards: the outer promise keeps
      the inner value. */
  method SettledThenCancelled<A, R>(args: A, v: R, reason: ErrorValue)
    returns (outcome: Option<Settlement<R>>)
    ensures outcome == Some(Resolved(v))
  {
    var source := new CancelSource();
    var w := new WithTimeout<A, R>(args, source.token, Some(_ => 15), Some(_ => TestTimeoutError()), None);
    w.InnerSettled(Resolved(v));
    var called := source.Cancel(reason);
    assert called == [w.Callback()];
    w.UpstreamCancelled(reason);
    outcome := w.result;
  }

  /** Upstream already cancelled with a truthy reason: the call rejects at once, yet the
      inner operation is still called, with a child token that is already cancelled. */
  method AlreadyCancelledUpstream<A, R>(args: A, reason: ErrorValue)
    returns (outcome: Option<Settlement<R>>, innerCalls: seq<A>, childCancelled: bool, deadlineStarted: bool)
    requires reason.Truthy()
    ensures outcome == Some(Rejected(reason)) && innerCalls == [args]
    ensures childCancelled && !deadlineStarted
  {
    var source := new CancelSource();
    var _ := source.Cancel(reason);
    var w := new WithTimeout<A, R>(args, source.token, None, None, None);
    outcome, innerCalls := w.result, w.innerCalls;
    childCancelled, deadlineStarted := w.childSource.token.requested, w.deadline.timer != NotStarted;
  }

  /** Upstream already cancelled with a falsy reason: its listener is neither called nor
      registered, so it never runs, the call is not rejected and only the deadline can end
      it. */
  method FalsyCancelledUpstream<A, R>(args: A)
    returns (before: Option<Settlement<R>>, after: Option<Settlement<R>>, ghost listenerCalled: bool, ghost listenerRegistered: bool)
    ensures before == None
    ensures after == Some(Rejected(Error("Error", TimedOutAfter(1000))))
    ensures !listenerCalled && !listenerRegistered
  {
    var source := new CancelSource();
    var _ := source.Cancel(Undefined);
    var w := new WithTimeout<A, R>(args, source.token, None, None, None);
    listenerCalled, listenerRegistered := source.token.HasCalled(w.Callback()), w.listening;
    before := w.result;
    w.DeadlineElapsed();
    after := w.result;
  }

  /** With `setCancelToken`, the inner operation receives the child token. */
  method ChildTokenPassedDown(args: CancelToken?) returns (passed: CancelToken?, child: CancelToken)
    ensures passed == child
  {
    var w := new WithTimeout<CancelToken?, ()>(args, null, None, None, Some((t: CancelToken, a: CancelToken?) => t));
    passed, child := w.innerCalls[0], w.childSource.token;
  }

  /** `getTimeoutError` gives `undefined`: the deadline handler throws before cancelling
      the child or rejecting, so the call stays pending until the inner operation settles. */
  method NullishTimeoutError<A, R>(args: A, v: R)
    returns (afterDeadline: Option<Settlement<R>>, childCancelled: bool, afterSettled: Option<Settlement<R>>)
    ensures afterDeadline == None && !childCancelled
    ensures afterSettled == Some(Resolved(v))
  {
    var w := new WithTimeout<A, R>(args, null, Some(_ => 5), Some(_ => Undefined), None);
    w.DeadlineElapsed();
    afterDeadline, childCancelled := w.result, w.childSource.token.requested;
    w.InnerSettled(Resolved(v));
    afterSettled := w.result;
  }
}
