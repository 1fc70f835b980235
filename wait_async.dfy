/** The cancellable delay of src/waitAsync.ts: a race between a timer and a cancellation
    token, stepped by its two events, the timer firing and the token calling its listener.
    Whichever comes first settles the promise and releases the other side. */
module Delays {
  import opened Common
  import opened CancelTokens

  /** The life of the `setTimeout` handle. */
  datatype Timer = NotStarted | Pending | Fired | Cleared

  /** `delayInMs` when the caller passes none. */
  const DefaultDelayInMs := 1000

  /** One call of `waitAsync`. */
  class WaitAsync<T> {
    const delayInMs: int
    const value: T
    /** `cancelToken`, or null when none is given. */
    const token: CancelToken?
    var timer: Timer
    /** `unsubscribeFromCancelToken`. */
    var handle: Option<Subscription>
    /** The returned promise: `None` while pending. */
    var result: Option<Settlement<T>>

    /** The listener this call subscribes; it unsubscribes itself when it runs. */
    function Callback(): Listener {
      Listener(this, true)
    }

    ghost predicate Valid()
      reads this
    {
      && (result.None? <==> timer == Pending)
      && (handle.Some? ==> token != null && handle.value == Registered(Callback()) && timer == Pending)
      && (timer == Pending && token != null ==> handle.Some?)
      && (timer == NotStarted ==> token != null)
    }

    /** The call and its promise executor: a token that is already cancelled makes
        `throwIfRequested` reject the promise before any timer exists; otherwise the timer
        starts and, with a token, the listener is subscribed. */
    constructor (delayInMs: Option<int>, value: T, token: CancelToken?)
      requires token != null ==> token.Valid()
      modifies token
      ensures Valid()
      ensures this.delayInMs == delayInMs.GetOr(DefaultDelayInMs)
      ensures this.value == value && this.token == token
      ensures token != null ==> token.Valid()
      ensures token != null && old(token.requested) ==>
        && timer == NotStarted && result == Some(Rejected(old(token.error)))
        && unchanged(token)
      ensures token == null || !old(token.requested) ==> timer == Pending && result == None
      ensures token != null && !old(token.requested) ==>
        && token.listeners == Some(old(token.listeners).value + [Callback()])
        && token.requested == old(token.requested) && token.error == old(token.error)
      ensures token != null ==> token.notified == old(token.notified) && !token.HasCalled(Callback())
    {
      this.delayInMs := delayInMs.GetOr(DefaultDelayInMs);
      this.value := value;
      this.token := token;
      timer := NotStarted;
      handle := None;
      result := None;
      new;
      if token != null {
        var thrown := token.ThrowIfRequested();
        if thrown.Some? {
          // a throw inside the promise executor rejects the promise
          result := Some(Rejected(thrown.value));
          return;
        }
      }
      timer := Pending;
      if token != null {
        var sub, calledNow := token.Subscribe(Callback());
        // a token that has not been cancelled holds no error, so nothing ran yet
        assert !calledNow;
        handle := Some(sub);
      }
    }

    /** The `unsubscribe` helper: calls the token's unsubscribe at most once and clears the
        handle, so a second call changes nothing. */
    method ReleaseSubscription()
      requires handle.Some? ==> token != null && handle.value == Registered(Callback())
      modifies this`handle, token
      ensures handle.None?
      ensures token != null ==>
        && token.listeners ==
             (if old(handle).Some? then AfterUnsubscribe(old(token.listeners), Callback())
              else old(token.listeners))
        && token.requested == old(token.requested) && token.error == old(token.error)
        && (old(token.Valid()) ==> token.Valid())
        && token.notified == old(token.notified)
    {
      if handle.Some? {
        token.Release(handle.value);
        handle := None;
      }
    }

    /** The timer callback, which runs only while the token has not called the listener
        (a listener body runs synchronously inside the token's call): the subscription is removed and the promise resolves with
        `value`. */
    method TimerFires()
      requires Valid() && timer == Pending
      requires token != null ==> token.Valid() && !token.HasCalled(Callback())
      modifies this, token
      ensures Valid() && timer == Fired && handle.None?
      ensures result == Some(Resolved(value))
      ensures token != null ==>
        && token.Valid()
        && token.listeners == AfterUnsubscribe(old(token.listeners), Callback())
        && token.requested == old(token.requested) && token.error == old(token.error)
        && token.notified == old(token.notified)
    {
      timer := Fired;
      ReleaseSubscription();
      result := Some(Resolved(value));
    }

    /** The listener body, run when the token has called it with reason `e`: the timer is cleared, the subscription removed, and the promise rejects with `e`, or with a
        CancelError naming the delay when `e` is falsy. */
    method Cancelled(e: ErrorValue)
      requires Valid() && timer == Pending
      requires token != null && token.Valid() && token.requested && token.HasCalledWith(Callback(), e)
      modifies this, token
      ensures Valid() && timer == Cleared && handle.None?
      ensures result == Some(Rejected(if e.Truthy() then e else CancelError(WaitAsyncCancelled(delayInMs))))
      ensures token.Valid()
      ensures token.listeners == AfterUnsubscribe(old(token.listeners), Callback())
      ensures token.requested == old(token.requested) && token.error == old(token.error)
      ensures token.notified == old(token.notified)
    {
      timer := Cleared;
      ReleaseSubscription();
      result := Some(Rejected(if e.Truthy() then e else CancelError(WaitAsyncCancelled(delayInMs))));
    }
  }

  /** Without a token the delay always resolves with its value, after 1000 ms when no
      duration is given. */
  method WaitWithoutToken<T>(delayInMs: Option<int>, value: T) returns (outcome: Settlement<T>, waited: int)
    ensures outcome == Resolved(value)
    ensures waited == if delayInMs.Some? then delayInMs.value else 1000
  {
    var w := new WaitAsync(delayInMs, value, null);
    waited := w.delayInMs;
    w.TimerFires();
    outcome := w.result.value;
  }

  /** On a token that is already cancelled the delay rejects with the stored reason, starts
      no timer and subscribes nothing. */
  method WaitOnCancelledToken<T>(reason: ErrorValue, value: T)
    returns (outcome: Settlement<T>, timerStarted: bool, listeners: Option<seq<Listener>>)
    ensures outcome == Rejected(reason) && !timerStarted && listeners == None
  {
    var source := new CancelSource();
    var _ := source.Cancel(reason);
    var w := new WaitAsync(Some(50), value, source.token);
    outcome, timerStarted, listeners := w.result.value, w.timer != NotStarted, source.token.listeners;
  }

  /** The token cancels before the timer fires: the timer is cleared, the listener list is
      gone and the delay rejects with the reason, or with a CancelError when it is falsy. */
  method CancelBeforeTimer<T>(reason: ErrorValue, value: T)
    returns (outcome: Settlement<T>, timerCleared: bool)
    ensures outcome == Rejected(if reason.Truthy() then reason else CancelError(WaitAsyncCancelled(50)))
    ensures timerCleared
  {
    var source := new CancelSource();
    var w := new WaitAsync(Some(50), value, source.token);
    var called := source.Cancel(reason);
    assert called == [w.Callback()];
    CallsLogged([], called, reason, w.Callback());
    w.Cancelled(reason);
    outcome, timerCleared := w.result.value, w.timer == Cleared;
  }

  /** The timer fires first: the listener is gone, so a later cancel notifies nobody and
      the delay stays resolved. */
  method TimerBeforeCancel<T>(reason: ErrorValue, value: T)
    returns (outcome: Settlement<T>, called: seq<Listener>)
    ensures outcome == Resolved(value) && called == []
  {
    var source := new CancelSource();
    var w := new WaitAsync(Some(50), value, source.token);
    w.TimerFires();
    called := source.Cancel(reason);
    outcome := w.result.value;
  }

  /** Two delays on one token: the first one's listener unsubscribes itself while the
      token notifies, so the second is never told of the cancellation and later resolves
      when its timer fires. */
  method TwoDelaysOneToken(reason: ErrorValue)
    returns (first: Settlement<int>, second: Settlement<int>)
    ensures first.Rejected? && second == Resolved(2)
  {
    var source := new CancelSource();
    var w1 := new WaitAsync(Some(50), 1, source.token);
    var w2 := new WaitAsync(Some(50), 2, source.token);
    var called := source.Cancel(reason);
    NotifiedSkipsNeighbour([], w1.Callback(), w2.Callback(), []);
    assert called == [w1.Callback()];
    CallsLogged([], called, reason, w1.Callback());
    CallsLogged([], called, reason, w2.Callback());
    w1.Cancelled(reason);
    w2.TimerFires();
    first, second := w1.result.value, w2.result.value;
  }
}
