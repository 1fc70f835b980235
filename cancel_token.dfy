/** The cancellation token of src/CancelToken.ts: a flag, a stored reason and a list of
    listeners that the first `cancel` notifies and then discards. */
module CancelTokens {
  import opened Common

  /** A subscribed callback. The source compares callbacks by identity (`indexOf`), so a
      listener is identified by the object whose closure it is; `removesItself` says whether
      the callback calls its own unsubscribe when it runs, as waitAsync's does. */
  datatype Listener = Listener(owner: object, removesItself: bool)

  /** What `subscribe` returns: the no-op `() => undefined`, or the unsubscribe closure
      bound to one listener. */
  datatype Subscription = NoOp | Registered(listener: Listener)

  /** One call a token made: the listener and the reason passed to it. */
  datatype Call = Call(listener: Listener, reason: ErrorValue)

  /** The calls one `forEach` makes: each listener in `ls`, in order, with reason `e`. */
  function Calls(ls: seq<Listener>, e: ErrorValue): (r: seq<Call>)
    ensures |r| == |ls|
    ensures forall i :: 0 <= i < |ls| ==> r[i] == Call(ls[i], e)
  {
    if ls == [] then [] else [Call(ls[0], e)] + Calls(ls[1..], e)
  }

  /** Whether some call in `log` went to `l`, with whatever reason. */
  ghost predicate Mentions(log: seq<Call>, l: Listener) {
    exists i :: 0 <= i < |log| && log[i].listener == l
  }

  /** After a `forEach` that called `ls` with `e`, the log holds a call of `l` with `e`
      exactly when `l` was called, and mentions `l` exactly when it did before or `l` was
      called. */
  lemma CallsLogged(log: seq<Call>, ls: seq<Listener>, e: ErrorValue, l: Listener)
    ensures l in ls ==> Call(l, e) in log + Calls(ls, e)
    ensures Mentions(log + Calls(ls, e), l) <==> Mentions(log, l) || l in ls
  {
    var r := log + Calls(ls, e);
    if l in ls {
      var j :| 0 <= j < |ls| && ls[j] == l;
      assert r[|log| + j] == Call(l, e);
      assert r[|log| + j].listener == l;
    }
    if Mentions(log, l) {
      var i :| 0 <= i < |log| && log[i].listener == l;
      assert r[i] == log[i];
    }
    if Mentions(r, l) {
      var i :| 0 <= i < |r| && r[i].listener == l;
      if i >= |log| {
        assert ls[i - |log|] == l;
      }
    }
  }

  /** `Array.prototype.indexOf`: the first index that holds `x`, or -1. */
  function IndexOf<T(==)>(s: seq<T>, x: T): (i: int)
    ensures -1 <= i < |s|
    ensures 0 <= i ==> s[i] == x
  {
    if |s| == 0 then -1
    else if s[0] == x then 0
    else
      var j := IndexOf(s[1..], x);
      if j < 0 then -1 else j + 1
  }

  /** `indexOf` answers -1 exactly when `x` is absent, and otherwise finds its first
      occurrence. */
  lemma {:induction false} IndexOfFirst<T>(s: seq<T>, x: T)
    ensures IndexOf(s, x) == -1 <==> x !in s
    ensures forall j :: 0 <= j < IndexOf(s, x) ==> s[j] != x
  {
    if |s| > 0 {
      var t := s[1..];
      IndexOfFirst(t, x);
      assert s == [s[0]] + t;
      if s[0] != x {
        forall j | 0 <= j < IndexOf(s, x)
          ensures s[j] != x
        {
          if j > 0 {
            assert s[j] == t[j - 1];
          }
        }
      }
    }
  }

  /** The list with the first occurrence of `x` taken out and every other entry kept in
      order; a list without `x` is left as it is. */
  function Without<T(==)>(s: seq<T>, x: T): (r: seq<T>)
    ensures |s| - 1 <= |r| <= |s|
  {
    if s == [] then []
    else if s[0] == x then s[1..]
    else [s[0]] + Without(s[1..], x)
  }

  /** Removing a listener that is absent changes nothing; removing one that is present
      shortens the list by exactly one. */
  lemma {:induction false} WithoutLength<T>(s: seq<T>, x: T)
    ensures x !in s ==> Without(s, x) == s
    ensures x in s ==> |Without(s, x)| == |s| - 1
  {
    if s != [] {
      var t := s[1..];
      WithoutLength(t, x);
      assert s == [s[0]] + t;
    }
  }

  /** Unsubscribing takes out exactly one copy of the listener and keeps every other one. */
  lemma {:induction false} WithoutRemovesOne<T>(s: seq<T>, x: T)
    ensures multiset(Without(s, x)) == multiset(s) - multiset{x}
  {
    if s != [] {
      assert s == [s[0]] + s[1..];
      WithoutRemovesOne(s[1..], x);
    }
  }

  /** Removing index j + 1 of `s` is keeping `s[0]` and removing index j of the tail. */
  lemma SpliceOfTail<T>(s: seq<T>, j: nat)
    requires j + 1 < |s|
    ensures s[..j + 1] + s[j + 2..] == [s[0]] + (s[1..][..j] + s[1..][j + 1..])
  {
    var t := s[1..];
    assert s[..j + 1] == [s[0]] + t[..j];
    assert s[j + 2..] == t[j + 1..];
  }

  /** `splice(indexOf(x), 1)` computes `Without`. */
  lemma {:induction false} SpliceIsWithout<T>(s: seq<T>, x: T)
    requires IndexOf(s, x) >= 0
    ensures s[..IndexOf(s, x)] + s[IndexOf(s, x) + 1..] == Without(s, x)
  {
    if s[0] == x {
      assert s[..0] + s[1..] == s[1..];
    } else {
      var t := s[1..];
      var j := IndexOf(t, x);
      assert IndexOf(s, x) == j + 1;
      assert Without(s, x) == [s[0]] + Without(t, x);
      SpliceIsWithout(t, x);
      SpliceOfTail(s, j);
    }
  }

  /** The listeners a `forEach` over the live array actually calls when every callback
      runs to completion before the next index is read. A callback that removes itself
      shifts the rest of the array down by one, so the entry right behind it is never
      visited. */
  function Notified(ls: seq<Listener>): (called: seq<Listener>)
    ensures |called| <= |ls|
    decreases |ls|
  {
    if ls == [] then []
    else if ls[0].removesItself then
      [ls[0]] + Notified(if |ls| >= 2 then ls[2..] else [])
    else
      [ls[0]] + Notified(ls[1..])
  }

  /** Only listeners registered at cancel time are called. */
  lemma {:induction false} NotifiedFromList(ls: seq<Listener>)
    ensures forall l :: l in Notified(ls) ==> l in ls
    decreases |ls|
  {
    if ls != [] {
      var rest := if ls[0].removesItself then (if |ls| >= 2 then ls[2..] else []) else ls[1..];
      NotifiedFromList(rest);
      forall l | l in Notified(ls)
        ensures l in ls
      {
        if l != ls[0] {
          assert l in Notified(rest);
          var m :| 0 <= m < |rest| && rest[m] == l;
          assert l == ls[m + |ls| - |rest|];
        }
      }
    }
  }

  /** A listener list after the unsubscribe closure of `l` has run: a live list loses the
      first occurrence of `l`; a discarded list stays discarded. */
  function AfterUnsubscribe(ls: Option<seq<Listener>>, l: Listener): Option<seq<Listener>> {
    if ls.Some? then Some(Without(ls.value, l)) else None
  }

  /** The part of the live array that `forEach` has still to visit at index `k`. */
  function Unvisited(s: seq<Listener>, k: nat): seq<Listener> {
    if k <= |s| then s[k..] else []
  }

  /** The first occurrence of the entry at index `k` is at `k` or before it. */
  lemma {:induction false} IndexOfAtMost<T>(s: seq<T>, k: nat)
    requires k < |s|
    ensures 0 <= IndexOf(s, s[k]) <= k
  {
    if s[0] != s[k] {
      var t := s[1..];
      assert t[k - 1] == s[k];
      IndexOfAtMost(t, k - 1);
    }
  }

  /** After removing index `i`, index k + 1 onwards is what was at k + 2 onwards, for
      any `i` up to `k`. */
  lemma SpliceShiftsTail<T>(s: seq<T>, i: nat, k: nat)
    requires i <= k && k + 2 <= |s|
    ensures (s[..i] + s[i + 1..])[k + 1..] == s[k + 2..]
  {
    var r := s[..i] + s[i + 1..];
    forall m | k + 1 <= m < |r|
      ensures r[m] == s[m + 1]
    {
    }
  }

  /** When the listener at index `k` removes itself, the first index still to be visited
      afterwards, k + 1, holds what used to be at k + 2. */
  lemma RemovalShiftsUnvisited(s: seq<Listener>, k: nat)
    requires k < |s|
    ensures Unvisited(Without(s, s[k]), k + 1) == Unvisited(s, k + 2)
  {
    IndexOfAtMost(s, k);
    SpliceIsWithout(s, s[k]);
    if k + 2 <= |s| {
      SpliceShiftsTail(s, IndexOf(s, s[k]), k);
    }
  }

  /** One step of the notification loop: the entry at index `k` is called, and the rest
      is visited from k + 1 of the array as that call leaves it. */
  lemma NotifiedStep(live: seq<Listener>, k: nat)
    requires k < |live|
    ensures Notified(Unvisited(live, k)) ==
      [live[k]] + Notified(if live[k].removesItself then Unvisited(Without(live, live[k]), k + 1)
                           else Unvisited(live, k + 1))
  {
    var u := live[k..];
    assert u[0] == live[k];
    assert u[1..] == live[k + 1..];
    if k + 2 <= |live| {
      assert u[2..] == live[k + 2..];
    }
    if live[k].removesItself {
      RemovalShiftsUnvisited(live, k);
    }
  }

  /** Listeners that do not unsubscribe themselves are each called once, in order. */
  lemma {:induction false} NotifiedPrefix(pre: seq<Listener>, rest: seq<Listener>)
    requires forall i :: 0 <= i < |pre| ==> !pre[i].removesItself
    ensures Notified(pre + rest) == pre + Notified(rest)
  {
    if pre != [] {
      var whole := pre + rest;
      var tail := pre[1..];
      assert whole[0] == pre[0] && !whole[0].removesItself;
      assert whole[1..] == tail + rest;
      forall i | 0 <= i < |tail|
        ensures !tail[i].removesItself
      {
        assert tail[i] == pre[i + 1];
      }
      NotifiedPrefix(tail, rest);
      assert Notified(whole) == [pre[0]] + Notified(tail + rest);
      assert [pre[0]] + (tail + Notified(rest)) == pre + Notified(rest);
    } else {
      assert pre + rest == rest;
    }
  }

  /** If no listener unsubscribes itself, every listener registered at cancel time is
      called exactly once, in subscription order. */
  lemma {:induction false} NotifiedAll(ls: seq<Listener>)
    requires forall i :: 0 <= i < |ls| ==> !ls[i].removesItself
    ensures Notified(ls) == ls
  {
    NotifiedPrefix(ls, []);
    assert ls + [] == ls;
  }

  /** A listener that unsubscribes itself during notification makes the listener right
      behind it be skipped; notification then carries on with the one after. */
  lemma NotifiedSkipsNeighbour(pre: seq<Listener>, a: Listener, b: Listener, post: seq<Listener>)
    requires forall i :: 0 <= i < |pre| ==> !pre[i].removesItself
    requires a.removesItself
    ensures Notified(pre + [a, b] + post) == pre + [a] + Notified(post)
  {
    assert pre + [a, b] + post == pre + ([a, b] + post);
    NotifiedPrefix(pre, [a, b] + post);
    assert ([a, b] + post)[2..] == post;
  }

  class CancelToken {
    /** `_requested` (read through the `requested` getter). */
    var requested: bool
    /** `_error`: the reason of the latest `cancel`. */
    var error: ErrorValue
    /** `_listeners`; `None` is the `undefined` it becomes once cancelled. */
    var listeners: Option<seq<Listener>>
    /** The calls this token has made, in order: those of the cancel closure's `forEach`
        and those `subscribe` makes at once. A listener body runs only for an entry here. */
    ghost var notified: seq<Call>

    ghost predicate Valid()
      reads this
    {
      && (requested <==> listeners.None?)
      && (!requested ==> error == Undefined)
    }

    /** Whether the token has ever called `l`. */
    ghost predicate HasCalled(l: Listener)
      reads this
    {
      Mentions(notified, l)
    }

    /** Whether the token has called `l` with reason `e`. */
    ghost predicate HasCalledWith(l: Listener, e: ErrorValue)
      reads this
    {
      Call(l, e) in notified
    }

    /** A new token: not requested, no stored error, an empty listener list. */
    constructor ()
      ensures Valid()
      ensures !requested && error == Undefined && listeners == Some([]) && notified == []
    {
      requested := false;
      error := Undefined;
      listeners := Some([]);
      notified := [];
    }

    /** The cancel closure the constructor hands to its executer. It marks the token,
        stores `e` (overwriting an earlier reason), calls the listeners with `forEach`
        over the live array and then discards the list. A second call notifies nobody. */
    method Cancel(e: ErrorValue) returns (called: seq<Listener>)
      requires Valid()
      modifies this
      ensures Valid() && requested && error == e
      ensures called == if old(listeners).Some? then Notified(old(listeners).value) else []
      ensures notified == old(notified) + Calls(called, e)
    {
      requested := true;
      error := e;
      if listeners.Some? {
        called := NotifyListeners();
      } else {
        called := [];
      }
      listeners := None;
      notified := notified + Calls(called, e);
    }

    /** The `forEach` of the cancel closure: visits indices 0 .. length - 1 of the live
        array, the length being read once at the start, as `forEach` does. */
    method NotifyListeners() returns (called: seq<Listener>)
      requires listeners.Some?
      modifies this`listeners
      ensures listeners.Some?
      ensures called == Notified(old(listeners).value)
    {
      ghost var original := listeners.value;
      ghost var rest := original;
      var len := |listeners.value|;
      var k := 0;
      called := [];
      assert Unvisited(original, 0) == original;
      while k < len
        invariant 0 <= k <= len
        invariant listeners.Some? && |listeners.value| <= len
        invariant rest == Unvisited(listeners.value, k)
        invariant Notified(original) == called + Notified(rest)
      {
        var visited;
        visited, rest := VisitListener(k, rest);
        assert called + (visited + Notified(rest)) == (called + visited) + Notified(rest);
        called := called + visited;
        k := k + 1;
      }
      assert rest == [];
      assert called + [] == called;
    }

    /** One index of that `forEach`: if the live array still has an entry at `k`, that
        listener is called, and one that removes itself runs its unsubscribe on the same
        array. `visited` is the call made, if any. */
    method VisitListener(k: nat, ghost rest: seq<Listener>) returns (visited: seq<Listener>, ghost rest': seq<Listener>)
      requires listeners.Some? && rest == Unvisited(listeners.value, k)
      modifies this`listeners
      ensures listeners.Some? && |listeners.value| <= |old(listeners).value|
      ensures rest' == Unvisited(listeners.value, k + 1)
      ensures Notified(rest) == visited + Notified(rest')
      ensures k < |old(listeners).value| ==>
        && visited == [old(listeners).value[k]]
        && listeners == if old(listeners).value[k].removesItself
                        then Some(Without(old(listeners).value, old(listeners).value[k]))
                        else old(listeners)
      ensures k >= |old(listeners).value| ==> visited == [] && listeners == old(listeners)
    {
      var live := listeners.value;
      if k < |live| {
        var l := live[k];
        NotifiedStep(live, k);
        visited := [l];
        if l.removesItself {
          Unsubscribe(l);
        }
      } else {
        visited := [];
      }
      rest' := Unvisited(listeners.value, k + 1);
    }

    /** `subscribe(cb)`. A token holding a truthy error calls `cb` at once and registers
        nothing; a cancelled token whose error is falsy neither calls nor registers; a live
        token appends `cb` and returns its unsubscribe. */
    method Subscribe(l: Listener) returns (sub: Subscription, calledNow: bool)
      requires Valid()
      modifies this`listeners, this`notified
      ensures Valid()
      ensures calledNow <==> old(error).Truthy()
      ensures calledNow ==> sub == NoOp && listeners == old(listeners)
      ensures old(listeners).None? && !calledNow ==> sub == NoOp && listeners == None
      ensures old(listeners).Some? ==> sub == Registered(l) && listeners == Some(old(listeners).value + [l])
      ensures notified == old(notified) + (if calledNow then [Call(l, old(error))] else [])
    {
      if error.Truthy() {
        notified := notified + [Call(l, error)];
        return NoOp, true;
      }
      if listeners.None? {
        return NoOp, false;
      }
      listeners := Some(listeners.value + [l]);
      return Registered(l), false;
    }

    /** The unsubscribe closure returned for `l`: removes the first occurrence of `l` from
        a live list; does nothing once the list has been discarded. */
    method Unsubscribe(l: Listener)
      modifies this`listeners
      ensures listeners == AfterUnsubscribe(old(listeners), l)
      ensures old(Valid()) ==> Valid()
    {
      if listeners.None? {
        return;
      }
      var index := IndexOf(listeners.value, l);
      if index < 0 {
        IndexOfFirst(listeners.value, l);
        WithoutLength(listeners.value, l);
        return;
      }
      SpliceIsWithout(listeners.value, l);
      listeners := Some(listeners.value[..index] + listeners.value[index + 1..]);
    }

    /** Calls a closure `subscribe` returned. */
    method Release(sub: Subscription)
      modifies this`listeners
      ensures listeners == if sub.Registered? then AfterUnsubscribe(old(listeners), sub.listener) else old(listeners)
      ensures old(Valid()) ==> Valid()
    {
      match sub
      case NoOp =>
      case Registered(l) => Unsubscribe(l);
    }

    /** `throwIfRequested`: throws the stored error exactly when cancellation has been
        requested (`thrown` is the value thrown), and changes nothing. */
    method ThrowIfRequested() returns (thrown: Option<ErrorValue>)
      ensures thrown.Some? <==> requested
      ensures thrown.Some? ==> thrown.value == error
    {
      if requested {
        return Some(error);
      }
      return None;
    }
  }

  /** What `CancelToken.source()` returns: a new token and the cancel function that
      controls exactly that token. */
  class CancelSource {
    const token: CancelToken

    /** `CancelToken.source()`. */
    constructor ()
      ensures fresh(token) && token.Valid()
      ensures !token.requested && token.error == Undefined && token.listeners == Some([])
      ensures token.notified == []
    {
      token := new CancelToken();
    }

    /** The `cancel` of the pair: cancels this source's token and nothing else. */
    method Cancel(e: ErrorValue) returns (called: seq<Listener>)
      requires token.Valid()
      modifies token
      ensures token.Valid() && token.requested && token.error == e
      ensures called == if old(token.listeners).Some? then Notified(old(token.listeners).value) else []
      ensures token.notified == old(token.notified) + Calls(called, e)
    {
      called := token.Cancel(e);
    }
  }

  /** Cancelling twice: the second call notifies nobody but its reason replaces the first. */
  method CancelTwice(l: Listener, first: ErrorValue, second: ErrorValue)
    returns (firstCalled: seq<Listener>, secondCalled: seq<Listener>, stored: ErrorValue, requested: bool)
    ensures firstCalled == [l] && secondCalled == []
    ensures stored == second && requested
  {
    var source := new CancelSource();
    var _, _ := source.token.Subscribe(l);
    firstCalled := source.Cancel(first);
    secondCalled := source.Cancel(second);
    stored, requested := source.token.error, source.token.requested;
  }

  /** Subscribing after cancellation: the callback runs at once when the reason is truthy,
      and with a falsy reason it is neither called nor registered. */
  method SubscribeAfterCancel(l: Listener, reason: ErrorValue)
    returns (sub: Subscription, calledNow: bool, remaining: Option<seq<Listener>>)
    ensures sub == NoOp && remaining == None
    ensures calledNow <==> reason.Truthy()
  {
    var source := new CancelSource();
    var _ := source.Cancel(reason);
    sub, calledNow := source.token.Subscribe(l);
    remaining := source.token.listeners;
  }

  /** Two listeners where the first unsubscribes itself when called: the second is skipped. */
  method SelfRemovalSkipsNext(a: object, b: object) returns (called: seq<Listener>)
    ensures called == [Listener(a, true)]
  {
    var source := new CancelSource();
    var _, _ := source.token.Subscribe(Listener(a, true));
    var _, _ := source.token.Subscribe(Listener(b, false));
    called := source.Cancel(Error("Error", Text("C")));
    NotifiedSkipsNeighbour([], Listener(a, true), Listener(b, false), []);
  }
}
