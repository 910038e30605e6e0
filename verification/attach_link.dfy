/**
 `_attachLink` and the `done` callback the `attaching` entry action gives it:
 how the outcome of one `createReceiver` call, raced against connection
 errors, becomes a transition and a callback or an `error` event.
 */
module AttachLink {
  import opened Wrappers
  import opened LinkTypes
  import opened Trace
  import opened SettlementQueue
  import opened LinkMachine

  /**
   The error a creation ends with: the rejection when `createReceiver`
   rejected (`rejection` present), otherwise the connection error seen while
   it was outstanding, if any.
   */
  function AttachError(a: Attempt, rejection: Option<Error>): (e: Option<Error>)
    ensures rejection.Some? ==> e == rejection
    ensures rejection.None? ==> e == a.connectionError
  {
    match rejection
    case Some(_) => rejection
    case None => a.connectionError
  }

  /** `transition(target, err)` for the two targets `done` uses; a no-op when already there. */
  function TransitionTo(m: Machine, target: State, err: Option<Error>): (r: Out)
    requires target == Detached || (target == Attached && m.link.Some?)
    requires Valid(m)
    ensures Keeps(m, r)
    ensures m.state == target ==> r == Out(m, [])
    ensures m.state != target ==> r.machine.state != Detaching
  {
    if m.state == target then Out(m, [])
    else if target == Detached then EnterDetached(m, err)
    else EnterAttached(m)
  }

  /**
   The `done` callback: on success go to `attached`, on failure to `detached`.
   With an attach callback the transition carries no error and the callback
   then receives the outcome; without one the error rides the transition, so
   the drain reports it and emits it.
   */
  function Finish(m: Machine, a: Attempt, err: Option<Error>): (r: Out)
    requires Valid(m) && (err.None? ==> m.link.Some?)
    ensures Keeps(m, r)
    ensures a.callback.Some? ==>
      |r.effects| > 0 && r.effects[|r.effects| - 1] == Callback(a.callback.value, match err case Some(e) => Failed(e) case None => Done)
  {
    var target := if err.Some? then Detached else Attached;
    match a.callback
    case Some(c) =>
      var t := TransitionTo(m, target, None);
      Out(t.machine, t.effects + [Callback(c, match err case Some(e) => Failed(e) case None => Done)])
    case None => TransitionTo(m, target, err)
  }

  /**
   `createReceiver` for `token` settled: resolved (`rejection` absent) or
   rejected. A resolved creation whose attempt saw no connection error stores
   the receiver and listens to it; every other outcome is a failure and the
   receiver is not kept. A token with no outstanding creation changes nothing.
   */
  function ResolveCreation(m: Machine, token: nat, rejection: Option<Error>): (r: Out)
    requires Valid(m)
    ensures Keeps(m, r)
    ensures token !in m.attempts ==> r == Out(m, [])
  {
    if token !in m.attempts then Out(m, [])
    else
      var a := m.attempts[token];
      var rest := m.(attempts := m.attempts - {token});
      var err := AttachError(a, rejection);
      if err.None? then Finish(rest.(link := Some(token), listened := rest.listened + {token}), a, None)
      else Finish(rest, a, err)
  }

  /** The client's `client:errorReceived` seen by every outstanding creation; the last one wins. */
  function ObserveConnectionError(m: Machine, e: Error): (r: Machine)
    ensures r.attempts.Keys == m.attempts.Keys
    ensures forall t | t in r.attempts :: r.attempts[t] == m.attempts[t].(connectionError := Some(e))
    ensures r.(attempts := m.attempts) == m
  {
    m.(attempts := map t | t in m.attempts :: m.attempts[t].(connectionError := Some(e)))
  }
}
