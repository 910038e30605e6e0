/**
 The `_fsm` state table of the receiver link, with the semantics of the
 state-machine library spelled out: `transition` runs the target state's
 entry action at once and is a no-op when the target is the current state,
 an input a state has no handler for is dropped, and inputs handled in
 `detaching` are deferred and replayed, in order, once `detached` is entered.
 */
module LinkMachine {
  import opened Wrappers
  import opened LinkTypes
  import opened Trace
  import opened SettlementQueue

  /**
   Entry action of `attaching`: start one `createReceiver` whose completion
   will resolve `callback`. The new creation has seen no connection error yet,
   creations already outstanding are kept, and nothing else about the link
   changes.
   */
  function EnterAttaching(m: Machine, callback: Option<CallbackId>): (r: Out)
    ensures r.machine.state == Attaching
    ensures r.machine.attempts.Keys == m.attempts.Keys + {m.nextToken}
    ensures r.machine.attempts[m.nextToken] == Attempt(callback, None)
    ensures forall t | t in m.attempts && t != m.nextToken :: r.machine.attempts[t] == m.attempts[t]
    ensures r.machine.nextToken > m.nextToken
    ensures r.machine.(state := m.state, attempts := m.attempts, nextToken := m.nextToken) == m
    ensures r.effects == [CreateReceiver(m.nextToken)]
    ensures Creations(r.effects) == [m.nextToken] && Resolved(r.effects) == [] && Dispatched(r.effects) == []
  {
    var token := m.nextToken;
    Out(m.(state := Attaching,
           attempts := m.attempts[token := Attempt(callback, None)],
           nextToken := token + 1),
        [CreateReceiver(token)])
  }

  /**
   Entry action of `attached`: dispatch the whole queue on the receiver, front
   to back, each request's callback answered with its success right after its
   call, and empty the queue.
   */
  function EnterAttached(m: Machine): (r: Out)
    requires m.link.Some?
    ensures r.machine.state == Attached && r.machine.queue == [] && r.machine.link == m.link
    ensures Settlements(r.effects) == m.queue
    ensures Dispatched(r.effects) == Requests(m.queue) && Resolved(r.effects) == CallbackIds(m.queue)
    ensures OnlySettlementsOn(r.effects, m.link.value) && CallbacksFollowTheirCall(r.effects)
  {
    Out(m.(state := Attached, queue := []), Flush(m.link.value, m.queue))
  }

  /** The postcondition the handlers below share: results stay valid and keep the subscriber count. */
  predicate Keeps(m: Machine, r: Out) {
    Valid(r.machine) && r.machine.listeners == m.listeners
  }

  /**
   Handle one input in the current state (the per-state handlers of the table).
   Outside `detaching` the result is never in `detaching` and never holds more
   deferred inputs than before; in `detaching` the input is only deferred.
   */
  function Handle(m: Machine, i: Input): (r: Out)
    requires Valid(m)
    ensures Keeps(m, r)
    ensures m.state != Detaching ==> r.machine.state != Detaching && |r.machine.deferred| <= |m.deferred|
    ensures m.state == Detaching ==> r == Out(m.(deferred := m.deferred + [i]), [])
    decreases |m.deferred|, 3
  {
    match m.state
    case Detaching => Out(m.(deferred := m.deferred + [i]), [])
    case Detached => (
      match i
      case AttachInput(callback) => EnterAttaching(m, callback)
      case DetachInput => Out(m, [])
      case SettleInput(p) => EnterAttaching(m.(queue := m.queue + [p]), None))
    case Attaching => (
      match i
      case AttachInput(_) => Out(m, [])
      case DetachInput => EnterDetaching(m, None)
      case SettleInput(p) => Out(m.(queue := m.queue + [p]), []))
    case Attached => (
      match i
      case AttachInput(callback) => Out(m, match callback case Some(c) => [Callback(c, Done)] case None => [])
      case DetachInput => EnterDetaching(m, None)
      case SettleInput(p) => Out(m, SettleOn(m.link.value, p)))
  }

  /**
   Entry action of `detaching`: if a receiver is held, drop its listeners,
   force-detach it once and forget it; then move to `detached` carrying `err`.
   */
  function EnterDetaching(m: Machine, err: Option<Error>): (r: Out)
    ensures Keeps(m, r)
    ensures r.machine.state != Detaching && r.machine.deferred == []
    decreases |m.deferred|, 2
  {
    var released := match m.link
      case None => m
      case Some(h) => m.(link := None, listened := m.listened - {h});
    var release := match m.link
      case None => []
      case Some(h) => [ForceDetach(h)];
    var d := EnterDetached(released.(state := Detaching), err);
    Out(d.machine, release + d.effects)
  }

  /**
   Entry action of `detached`: drain the queue with `err` (or the generic
   error), emit `err` if there is one, then replay the deferred inputs.
   */
  function EnterDetached(m: Machine, err: Option<Error>): (r: Out)
    ensures Keeps(m, r)
    ensures r.machine.state != Detaching && r.machine.deferred == []
    decreases |m.deferred|, 1
  {
    var drained := m.(state := Detached, queue := [], deferred := []);
    var replayed := Replay(drained, m.deferred);
    Out(replayed.machine, Drain(m.queue, err) + replayed.effects)
  }

  /** Handle deferred inputs one after the other, each in the state the previous one left. */
  function Replay(m: Machine, inputs: seq<Input>): (r: Out)
    requires Valid(m) && m.state != Detaching
    ensures Keeps(m, r)
    ensures r.machine.state != Detaching && |r.machine.deferred| <= |m.deferred|
    decreases |m.deferred| + |inputs|, 0
  {
    if inputs == [] then Out(m, [])
    else
      var first := Handle(m, inputs[0]);
      var rest := Replay(first.machine, inputs[1..]);
      Out(rest.machine, first.effects + rest.effects)
  }
}
