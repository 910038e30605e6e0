/**
 What the receiver link guarantees, stated over single steps from any state
 the link can reach: ordering of settlements, exactly-once resolution of the
 queued callbacks, routing of attach outcomes, the single-creation rule and
 the release of the receiver on teardown.
 */
module LinkProperties {
  import opened Wrappers
  import opened LinkTypes
  import opened Trace
  import opened SettlementQueue
  import opened LinkMachine
  import opened AttachLink
  import opened ReceiverLink

  /**
   The states a link rests in between events: never `detaching`, nothing
   deferred, a receiver whenever attached, requests queued only while
   attaching, a creation outstanding whenever attaching, listeners on the
   receiver it holds, and fresh tokens for new creations.
   */
  predicate Inv(m: Machine) {
    && m.state != Detaching
    && m.deferred == []
    && (m.state == Attached ==> m.link.Some?)
    && (m.state != Attaching ==> m.queue == [])
    && (m.state == Attaching ==> m.attempts != map[])
    && (m.link.Some? ==> m.link.value in m.listened)
    && (forall t | t in m.attempts :: t < m.nextToken)
  }

  lemma InitialSatisfiesInv()
    ensures Inv(Initial)
  {
  }

  /** The receiver the entry to `detaching` force-detaches, if any. */
  function ReleasedBy(m: Machine): seq<HandleId> {
    match m.link
    case Some(h) => [h]
    case None => []
  }

  /**
   Entering `detaching` with nothing deferred: the held receiver, if any,
   loses the link's listeners and is force-detached exactly once before
   anything else happens, it is forgotten, and the link lands in `detached`
   having drained its queue with the same error.
   */
  lemma EnterDetachingReleasesOnce(m: Machine, err: Option<Error>)
    requires m.deferred == []
    ensures var r := EnterDetaching(m, err);
      && r.machine == m.(state := Detached, queue := [], link := None,
                         listened := if m.link.Some? then m.listened - {m.link.value} else m.listened)
      && r.effects == (if m.link.Some? then [ForceDetach(m.link.value)] else []) + Drain(m.queue, err)
      && Releases(r.effects) == ReleasedBy(m)
  {
    var released := match m.link
      case None => m
      case Some(h) => m.(link := None, listened := m.listened - {h});
    EnterDetachedQuiet(released.(state := Detaching), err);
    var release := if m.link.Some? then [ForceDetach(m.link.value)] else [];
    ProjectionsAppend(release, Drain(m.queue, err));
  }

  lemma EnterDetachedQuiet(m: Machine, err: Option<Error>)
    requires m.deferred == []
    ensures EnterDetached(m, err) == Out(m.(state := Detached, queue := []), Drain(m.queue, err))
  {
    assert Drain(m.queue, err) + [] == Drain(m.queue, err);
  }

  /**
   An input that arrives while detaching is not lost: entering `detached`
   afterwards has the same outcome as entering it first and receiving the
   input right after.
   */
  lemma {:induction false} DeferredInputIsReplayed(m: Machine, i: Input, err: Option<Error>)
    requires m.state == Detaching && m.deferred == []
    ensures var first := EnterDetached(m, err);
      var later := Handle(first.machine, i);
      EnterDetached(Handle(m, i).machine, err) == Out(later.machine, first.effects + later.effects)
  {
    assert Handle(m, i).machine == m.(deferred := [i]);
    DeferredInputsAreReplayed(m, [i], err);
    var first := EnterDetached(m, err);
    var later := Handle(first.machine, i);
    assert Replay(first.machine, [i]) == Out(later.machine, later.effects + []) by {
      assert [i][1..] == [];
    }
    assert later.effects + [] == later.effects;
  }

  /**
   Replay handles its inputs in order: replaying `a` followed by `i` is
   replaying `a`, then handling `i` in whatever state `a` left the link.
   */
  lemma {:induction false} ReplaySnoc(m: Machine, a: seq<Input>, i: Input)
    requires Valid(m) && m.state != Detaching
    ensures var x := Replay(m, a);
      var y := Handle(x.machine, i);
      Replay(m, a + [i]) == Out(y.machine, x.effects + y.effects)
    decreases |a|
  {
    if a == [] {
      assert a + [i] == [i];
      ReplaySingle(m, i);
    } else {
      var h := Handle(m, a[0]);
      ReplaySnoc(h.machine, a[1..], i);
      assert (a + [i])[0] == a[0];
      assert (a + [i])[1..] == a[1..] + [i];
      var x := Replay(h.machine, a[1..]);
      var y := Handle(x.machine, i);
      calc {
        h.effects + (x.effects + y.effects);
        (h.effects + x.effects) + y.effects;
      }
    }
  }

  lemma ReplaySingle(m: Machine, i: Input)
    requires Valid(m) && m.state != Detaching
    ensures var y := Handle(m, i);
      Replay(m, [i]) == Out(y.machine, [] + y.effects)
  {
    var y := Handle(m, i);
    assert [i][1..] == [];
    assert y.effects + [] == [] + y.effects;
  }

  /** Entering `detached` drains the queue, then replays the deferred inputs. */
  lemma DeferredInputsAreReplayed(m: Machine, inputs: seq<Input>, err: Option<Error>)
    requires m.state == Detaching && m.deferred == []
    ensures var first := EnterDetached(m, err);
      var later := Replay(first.machine, inputs);
      EnterDetached(m.(deferred := inputs), err) == Out(later.machine, first.effects + later.effects)
  {
    EnterDetachedQuiet(m, err);
    assert m.(deferred := inputs).(state := Detached, queue := [], deferred := []) == m.(state := Detached, queue := []);
  }

  /** Handling an input from a resting state leads to a resting state. */
  lemma HandlePreservesInv(m: Machine, i: Input)
    requires Inv(m)
    ensures Inv(Handle(m, i).machine)
  {
    match m.state
    case Detached =>
    case Attaching =>
      if i.DetachInput? { EnterDetachingReleasesOnce(m, None); }
    case Attached =>
      if i.DetachInput? { EnterDetachingReleasesOnce(m, None); }
  }

  lemma ResolveCreationPreservesInv(m: Machine, token: nat, rejection: Option<Error>)
    requires Inv(m)
    ensures Inv(ResolveCreation(m, token, rejection).machine)
  {
    if token in m.attempts {
      if AttachError(m.attempts[token], rejection).None? {
        ResolvedCreationPreservesInv(m, token, rejection);
      } else {
        FailedCreationPreservesInv(m, token, rejection);
      }
    }
  }

  lemma ResolvedCreationPreservesInv(m: Machine, token: nat, rejection: Option<Error>)
    requires Inv(m) && token in m.attempts && AttachError(m.attempts[token], rejection).None?
    ensures Inv(ResolveCreation(m, token, rejection).machine)
  {
    var a := m.attempts[token];
    var s := m.(attempts := m.attempts - {token}, link := Some(token), listened := m.listened + {token});
    if s.state != Attached {
      assert TransitionTo(s, Attached, None) == EnterAttached(s);
    }
  }

  lemma FailedCreationPreservesInv(m: Machine, token: nat, rejection: Option<Error>)
    requires Inv(m) && token in m.attempts && AttachError(m.attempts[token], rejection).Some?
    ensures Inv(ResolveCreation(m, token, rejection).machine)
  {
    var a := m.attempts[token];
    var rest := m.(attempts := m.attempts - {token});
    var err := AttachError(a, rejection);
    assert ResolveCreation(m, token, rejection) == Finish(rest, a, err);
    if rest.state != Detached {
      EnterDetachedQuiet(rest, None);
      EnterDetachedQuiet(rest, err);
    }
  }

  /** Every event leaves a resting link in a resting state. */
  lemma StepPreservesInv(m: Machine, ev: Event)
    requires Inv(m)
    ensures Step(m, ev).Success? ==> Inv(Step(m, ev).value.machine)
  {
    match ev
    case Invoke(call) => ApplyPreservesInv(m, call);
    case MessageListenerAdded => HandlePreservesInv(m.(listeners := m.listeners + 1), AttachInput(None));
    case MessageListenerRemoved =>
      if m.listeners == 1 { HandlePreservesInv(m.(listeners := 0), DetachInput); }
    case CreateSucceeded(token) => ResolveCreationPreservesInv(m, token, None);
    case CreateFailed(token, e) => ResolveCreationPreservesInv(m, token, Some(e));
    case ConnectionError(e) =>
    case ReceiverDetached(h, e) =>
      if h in m.listened { EnterDetachingReleasesOnce(m, e); }
    case ReceiverErrorReceived(h, e) =>
      if h in m.listened { EnterDetachingReleasesOnce(m, Some(e)); }
    case ReceiverMessage(h, x) =>
  }

  lemma ApplyPreservesInv(m: Machine, call: Call)
    requires Inv(m)
    ensures Apply(m, call).Success? ==> Inv(Apply(m, call).value.machine)
  {
    match call
    case AttachCall(cb) => HandlePreservesInv(m, AttachInput(cb));
    case DetachCall => HandlePreservesInv(m, DetachInput);
    case AcceptCall(msg, cb) =>
      if msg.Some? { HandlePreservesInv(m, SettleInput(Pending(Accept, msg.value.transportObj, cb))); }
    case CompleteCall(msg, cb) =>
      if msg.Some? { HandlePreservesInv(m, SettleInput(Pending(Accept, msg.value.transportObj, cb))); }
    case RejectCall(msg, cb) =>
      if msg.Some? { HandlePreservesInv(m, SettleInput(Pending(Reject, msg.value.transportObj, cb))); }
    case AbandonCall(msg, cb) =>
      if msg.Some? { HandlePreservesInv(m, SettleInput(Pending(Abandon, msg.value.transportObj, cb))); }
  }

  /**
   `accept`, `complete`, `reject` and `abandon` throw a `ReferenceError` for
   an absent message and leave the link alone; otherwise exactly the
   message's transport object enters the state machine, and `complete`
   behaves as `accept`.
   */
  lemma FacadeSettlement(m: Machine, message: Option<Message>, callback: Option<CallbackId>)
    requires Valid(m)
    ensures Apply(m, CompleteCall(message, callback)) == Apply(m, AcceptCall(message, callback))
    ensures message.None? ==>
      && Apply(m, AcceptCall(message, callback)) == Failure(ReferenceError)
      && Apply(m, RejectCall(message, callback)) == Failure(ReferenceError)
      && Apply(m, AbandonCall(message, callback)) == Failure(ReferenceError)
    ensures message.Some? ==>
      && Apply(m, AcceptCall(message, callback)) == Success(Handle(m, SettleInput(Pending(Accept, message.value.transportObj, callback))))
      && Apply(m, RejectCall(message, callback)) == Success(Handle(m, SettleInput(Pending(Reject, message.value.transportObj, callback))))
      && Apply(m, AbandonCall(message, callback)) == Success(Handle(m, SettleInput(Pending(Abandon, message.value.transportObj, callback))))
  {
    assert Apply(m, AcceptCall(message, callback)) == Settle(m, Accept, message, callback);
    assert Apply(m, CompleteCall(message, callback)) == Settle(m, Accept, message, callback);
    assert Apply(m, RejectCall(message, callback)) == Settle(m, Reject, message, callback);
    assert Apply(m, AbandonCall(message, callback)) == Settle(m, Abandon, message, callback);
  }

  /**
   A settlement requested while not attached is appended to the queue and
   reaches no receiver and no callback. From `attaching` nothing else changes;
   from `detached` it also starts the one creation that moves the link to
   `attaching`, with the frame of `EnterAttaching`.
   */
  lemma SettleWhileNotAttachedIsQueued(m: Machine, p: Pending)
    requires Inv(m) && m.state != Attached
    ensures var r := Handle(m, SettleInput(p));
      && r.machine.state == Attaching
      && r.machine.queue == m.queue + [p]
      && Dispatched(r.effects) == [] && Resolved(r.effects) == [] && Emitted(r.effects) == []
      && Creations(r.effects) == (if m.state == Detached then [m.nextToken] else [])
    ensures m.state == Attaching ==> Handle(m, SettleInput(p)) == Out(m.(queue := m.queue + [p]), [])
    ensures m.state == Detached ==> Handle(m, SettleInput(p)) == EnterAttaching(m.(queue := m.queue + [p]), None)
  {
  }

  /**
   A settlement requested while attached calls the matching receiver method
   once with the transport object on the held receiver, then its callback,
   if any, once with the matching success result; the link is unchanged.
   */
  lemma SettleWhenAttached(m: Machine, p: Pending)
    requires Inv(m) && m.state == Attached
    ensures var r := Handle(m, SettleInput(p));
      && r.machine == m
      && Dispatched(r.effects) == [(p.settle, p.obj)]
      && Resolved(r.effects) == Listed(p.callback)
      && OnlySettlementsOn(r.effects, m.link.value)
      && CallbacksFollowTheirCall(r.effects)
  {
  }

  /**
   The exact outcome of a creation that succeeds with no connection error
   seen, in whatever state the link is by then: the receiver is stored and
   listened to, the link is attached, the queue is flushed on the receiver,
   and the attach callback, if any, is answered with success. After a
   `detach` while attaching this replaces the receiver an attached link held.
   */
  lemma SucceedExact(m: Machine, token: nat)
    requires Inv(m)
    requires token in m.attempts && m.attempts[token].connectionError.None?
    ensures ResolveCreation(m, token, None)
      == Out(m.(attempts := m.attempts - {token}, link := Some(token), listened := m.listened + {token},
                state := Attached, queue := []),
             Flush(token, m.queue) + match m.attempts[token].callback case Some(c) => [Callback(c, Done)] case None => [])
  {
    assert Flush(token, []) == [];
  }

  /**
   A creation that resolves with no connection error seen, while attaching:
   the receiver is kept, every queued request is dispatched on it in queue
   order, each queued callback is resolved once with success, and the
   attach callback, if any, is answered last with no error.
   */
  lemma CreationSuccessFlushesQueue(m: Machine, token: nat)
    requires Inv(m) && m.state == Attaching
    requires token in m.attempts && m.attempts[token].connectionError.None?
    ensures var r := ResolveCreation(m, token, None);
      var callback := m.attempts[token].callback;
      && r.machine.state == Attached && r.machine.link == Some(token) && r.machine.queue == []
      && token !in r.machine.attempts
      && r.effects == Flush(token, m.queue) + (match callback case Some(c) => [Callback(c, Done)] case None => [])
      && Dispatched(r.effects) == Requests(m.queue)
      && Resolved(r.effects) == CallbackIds(m.queue) + Listed(callback)
      && (forall k | 0 <= k < |r.effects| && r.effects[k].LinkSettle? :: r.effects[k].handle == token)
      && (forall k | 0 <= k < |r.effects| && r.effects[k].Callback? ::
            r.effects[k].outcome.Settled? || (callback.Some? && k == |r.effects| - 1))
      && (callback.Some? ==> |r.effects| > 0 && r.effects[|r.effects| - 1] == Callback(callback.value, Done))
      && Emitted(r.effects) == [] && Creations(r.effects) == [] && Releases(r.effects) == []
  {
    var callback := m.attempts[token].callback;
    var tail := match callback case Some(c) => [Callback(c, Done)] case None => [];
    SucceedExact(m, token);
    FlushThenAnswer(token, m.queue, callback);
    FlushThenAnswerShape(token, m.queue, callback);
    var r := ResolveCreation(m, token, None);
    assert r.effects == Flush(token, m.queue) + tail;
  }

  /** The effects of a flush followed by the attach callback's success, read through the projections. */
  lemma FlushThenAnswer(h: HandleId, q: seq<Pending>, callback: Option<CallbackId>)
    ensures var r := Flush(h, q) + (match callback case Some(c) => [Callback(c, Done)] case None => []);
      && Dispatched(r) == Requests(q)
      && Resolved(r) == CallbackIds(q) + Listed(callback)
      && Emitted(r) == [] && Creations(r) == [] && Releases(r) == []
  {
    var flushed := Flush(h, q);
    FlushOnlySettles(flushed, h);
    ProjectionsAppend(flushed, match callback case Some(c) => [Callback(c, Done)] case None => []);
  }

  /**
   The effects of a flush followed by the attach callback's success, position
   by position: every settlement call is on `h`, and every callback reports a
   settlement except the attach callback at the very end.
   */
  lemma FlushThenAnswerShape(h: HandleId, q: seq<Pending>, callback: Option<CallbackId>)
    ensures var r := Flush(h, q) + (match callback case Some(c) => [Callback(c, Done)] case None => []);
      && (forall k | 0 <= k < |r| && r[k].LinkSettle? :: r[k].handle == h)
      && (forall k | 0 <= k < |r| && r[k].Callback? :: r[k].outcome.Settled? || (callback.Some? && k == |r| - 1))
  {
    var flushed := Flush(h, q);
    var tail := match callback case Some(c) => [Callback(c, Done)] case None => [];
    assert forall k | 0 <= k < |flushed| :: (flushed + tail)[k] == flushed[k];
  }

  lemma {:induction false} FlushOnlySettles(r: seq<Effect>, h: HandleId)
    requires OnlySettlementsOn(r, h)
    ensures Emitted(r) == [] && Creations(r) == [] && Releases(r) == []
  {
    if r != [] {
      FlushOnlySettles(r[1..], h);
    }
  }

  /**
   A creation that fails while attaching (rejected, or resolved after a
   connection error) keeps no receiver and returns to `detached`. With an
   attach callback, the queued callbacks get the generic error, no event is
   emitted, and the attach callback gets the real error last. Without one,
   the queued callbacks get the real error and it is emitted as `error`.
   */
  lemma CreationFailureRouting(m: Machine, token: nat, rejection: Option<Error>)
    requires Inv(m) && m.state == Attaching && token in m.attempts
    requires AttachError(m.attempts[token], rejection).Some?
    ensures var r := ResolveCreation(m, token, rejection);
      var e := AttachError(m.attempts[token], rejection).value;
      && r.machine.state == Detached && r.machine.link == m.link && r.machine.queue == []
      && token !in r.machine.attempts
      && Dispatched(r.effects) == []
      && (m.attempts[token].callback.Some? ==>
            && r.effects == Drain(m.queue, None) + [Callback(m.attempts[token].callback.value, Failed(e))]
            && Emitted(r.effects) == [])
      && (m.attempts[token].callback.None? ==>
            && r.effects == Drain(m.queue, Some(e))
            && Emitted(r.effects) == [e])
  {
    FailExact(m, token, rejection);
    var e := AttachError(m.attempts[token], rejection).value;
    if m.attempts[token].callback.Some? {
      var answer := [Callback(m.attempts[token].callback.value, Failed(e))];
      ProjectionsAppend(Drain(m.queue, None), answer);
      assert Emitted(answer) == [] && Dispatched(answer) == [] by {
        assert answer[1..] == [];
      }
    }
  }

  /** The whole machine and trace after a creation fails while attaching. */
  lemma FailExact(m: Machine, token: nat, rejection: Option<Error>)
    requires Inv(m) && m.state == Attaching
    requires token in m.attempts && AttachError(m.attempts[token], rejection).Some?
    ensures var e := AttachError(m.attempts[token], rejection).value;
      ResolveCreation(m, token, rejection)
      == Out(m.(attempts := m.attempts - {token}, state := Detached, queue := []),
             match m.attempts[token].callback
             case Some(c) => Drain(m.queue, None) + [Callback(c, Failed(e))]
             case None => Drain(m.queue, Some(e)))
  {
    var a := m.attempts[token];
    var rest := m.(attempts := m.attempts - {token});
    var e := AttachError(a, rejection).value;
    assert ResolveCreation(m, token, rejection) == Finish(rest, a, Some(e));
    FailedFinish(rest, a, e);
    if a.callback.None? {
      assert Drain(m.queue, Some(e)) + [] == Drain(m.queue, Some(e));
    }
  }

  /**
   A creation still outstanding from before a `detach` while attaching that
   fails after the link has moved on. From `attached` the link drops to
   `detached` but keeps, and still listens to, the receiver it holds; from
   `detached` only the attach callback, if any, hears of it. Without a
   callback the error is emitted when the link was attached and is lost when
   it was already detached.
   */
  lemma LateFailureRouting(m: Machine, token: nat, rejection: Option<Error>)
    requires Inv(m) && m.state != Attaching && token in m.attempts
    requires AttachError(m.attempts[token], rejection).Some?
    ensures var e := AttachError(m.attempts[token], rejection).value;
      ResolveCreation(m, token, rejection)
      == Out(m.(attempts := m.attempts - {token}, state := Detached),
             match m.attempts[token].callback
             case Some(c) => [Callback(c, Failed(e))]
             case None => if m.state == Attached then [EmitError(e)] else [])
  {
    var rest := m.(attempts := m.attempts - {token});
    var err := AttachError(m.attempts[token], rejection);
    if m.state == Attached {
      EnterDetachedQuiet(rest, None);
      EnterDetachedQuiet(rest, err);
      assert Drain([], None) == [];
      assert Drain([], err) == [EmitError(err.value)];
    }
  }

  /**
   The connection-error race: a creation that saw a connection error and
   then succeeds is handled exactly as if it had been rejected with that
   error, whatever else is outstanding: the same effects, and the same link
   apart from the other creations having recorded the error too. The created
   receiver is never kept. With no other creation outstanding the two
   outcomes are identical.
   */
  lemma ConnectionErrorTurnsSuccessIntoFailure(m: Machine, token: nat, e: Error)
    requires Inv(m) && token in m.attempts
    ensures var seen := ResolveCreation(ObserveConnectionError(m, e), token, None);
      var rejected := ResolveCreation(m, token, Some(e));
      && seen.effects == rejected.effects
      && seen.machine.(attempts := rejected.machine.attempts) == rejected.machine
      && seen.machine.attempts.Keys == rejected.machine.attempts.Keys == m.attempts.Keys - {token}
      && seen.machine.link == rejected.machine.link == m.link
    ensures m.attempts.Keys == {token} ==>
      ResolveCreation(ObserveConnectionError(m, e), token, None) == ResolveCreation(m, token, Some(e))
  {
    var seen := ObserveConnectionError(m, e);
    var rest1 := seen.(attempts := seen.attempts - {token});
    var rest2 := m.(attempts := m.attempts - {token});
    assert AttachError(seen.attempts[token], None) == Some(e);
    assert ResolveCreation(seen, token, None) == Finish(rest1, seen.attempts[token], Some(e));
    assert ResolveCreation(m, token, Some(e)) == Finish(rest2, m.attempts[token], Some(e));
    FailedFinish(rest1, seen.attempts[token], e);
    FailedFinish(rest2, m.attempts[token], e);
    if m.attempts.Keys == {token} {
      assert rest1.attempts == rest2.attempts;
    }
  }

  /** `done` with an error, spelled out: the link goes to `detached`, draining its queue if it was not there yet. */
  lemma FailedFinish(s: Machine, a: Attempt, e: Error)
    requires Valid(s) && s.deferred == []
    ensures Finish(s, a, Some(e)).machine == if s.state == Detached then s else s.(state := Detached, queue := [])
    ensures Finish(s, a, Some(e)).effects
      == (if s.state == Detached then [] else Drain(s.queue, if a.callback.Some? then None else Some(e)))
         + match a.callback case Some(c) => [Callback(c, Failed(e))] case None => []
  {
    if s.state != Detached {
      EnterDetachedQuiet(s, None);
      EnterDetachedQuiet(s, Some(e));
    }
  }

  /**
   The single-creation rule: `attach` starts a creation only from
   `detached`; attached it answers its callback at once and changes nothing;
   attaching it is dropped, callback and all.
   */
  lemma AttachCreatesOnlyWhenDetached(m: Machine, callback: Option<CallbackId>)
    requires Inv(m)
    ensures var r := Handle(m, AttachInput(callback));
      && Creations(r.effects) == (if m.state == Detached then [m.nextToken] else [])
      && (m.state == Detached ==> r.machine.state == Attaching && r.machine.attempts[m.nextToken].callback == callback)
      && (m.state == Attached ==> r == Out(m, match callback case Some(c) => [Callback(c, Done)] case None => []))
      && (m.state == Attaching ==> r == Out(m, []))
  {
  }

  /** `detach` on a detached link does nothing at all. */
  lemma DetachWhenDetachedIsNoOp(m: Machine)
    requires Inv(m) && m.state == Detached
    ensures Step(m, Invoke(DetachCall)) == Success(Out(m, []))
  {
  }

  /**
   `detach` from `attaching` or `attached` releases the held receiver once,
   fails every queued callback with the generic error, emits nothing and
   lands in `detached`.
   */
  lemma DetachTearsDown(m: Machine)
    requires Inv(m) && m.state != Detached
    ensures var r := Handle(m, DetachInput);
      && r.machine.state == Detached && r.machine.link.None? && r.machine.queue == []
      && Releases(r.effects) == ReleasedBy(m)
      && Resolved(r.effects) == CallbackIds(m.queue)
      && (forall k | 0 <= k < |r.effects| && r.effects[k].Callback? :: r.effects[k].outcome == Failed(LinkWasDetached))
      && Emitted(r.effects) == [] && Dispatched(r.effects) == []
  {
    EnterDetachingReleasesOnce(m, None);
    ReleaseThenDrain(m, None);
  }

  lemma ReleaseThenDrain(m: Machine, err: Option<Error>)
    ensures var r := (if m.link.Some? then [ForceDetach(m.link.value)] else []) + Drain(m.queue, err);
      && Resolved(r) == CallbackIds(m.queue)
      && (forall k | 0 <= k < |r| && r[k].Callback? :: r[k].outcome == Failed(DrainError(err)))
      && Emitted(r) == (match err case Some(e) => [e] case None => [])
      && Dispatched(r) == []
  {
    var release := if m.link.Some? then [ForceDetach(m.link.value)] else [];
    var drain := Drain(m.queue, err);
    ProjectionsAppend(release, drain);
    if m.link.Some? {
      assert forall k | 1 <= k < |release + drain| :: (release + drain)[k] == drain[k - 1];
    } else {
      assert release + drain == drain;
    }
  }

  /**
   A listened receiver reporting `detached` or `errorReceived` tears the link
   down: the held receiver, which need not be the one reporting, is released
   once and stops being listened to, queued callbacks fail with the reported
   error (or the generic one), and the error, if any, is emitted. Any other
   listened receiver stays listened. Events from a receiver the link no longer
   listens to change nothing.
   */
  lemma ReceiverLossTearsDown(m: Machine, h: HandleId, err: Option<Error>)
    requires Inv(m)
    ensures h !in m.listened ==> ReceiverLost(m, h, err) == Out(m, [])
    ensures h in m.listened ==>
      var r := ReceiverLost(m, h, err);
      && r.machine.state == Detached && r.machine.link.None? && r.machine.queue == []
      && Releases(r.effects) == ReleasedBy(m)
      && Resolved(r.effects) == CallbackIds(m.queue)
      && (forall k | 0 <= k < |r.effects| && r.effects[k].Callback? :: r.effects[k].outcome == Failed(DrainError(err)))
      && Emitted(r.effects) == (match err case Some(e) => [e] case None => [])
      && Dispatched(r.effects) == []
      && r.machine.listened == (if m.link.Some? then m.listened - {m.link.value} else m.listened)
  {
    if h in m.listened {
      EnterDetachingReleasesOnce(m, err);
      ReleaseThenDrain(m, err);
    }
  }

  /**
   A receiver's messages reach the link's subscribers from the moment its
   creation succeeds: the link listens to the new receiver and re-emits its
   messages unchanged.
   */
  lemma MessagesForwardedFromCreatedReceiver(m: Machine, token: nat, x: TransportObj)
    requires Inv(m) && token in m.attempts && m.attempts[token].connectionError.None?
    ensures var r := ResolveCreation(m, token, None).machine;
      Step(r, ReceiverMessage(token, x)) == Success(Out(r, [EmitMessage(x)]))
  {
    SucceedExact(m, token);
  }

  /** After `detach` lets go of the receiver the link holds, messages still arriving from it are dropped. */
  lemma MessagesStopAfterDetach(m: Machine, x: TransportObj)
    requires Inv(m) && m.link.Some? && m.state != Detached
    ensures var r := Handle(m, DetachInput).machine;
      Step(r, ReceiverMessage(m.link.value, x)) == Success(Out(r, []))
  {
    assert Handle(m, DetachInput) == EnterDetaching(m, None);
    EnterDetachingReleasesOnce(m, None);
    MessageFromUnlistened(Handle(m, DetachInput).machine, m.link.value, x);
  }

  /**
   After the held receiver reports `detached` or `errorReceived`, messages
   still arriving from it are dropped.
   */
  lemma MessagesStopAfterReceiverLoss(m: Machine, x: TransportObj, err: Option<Error>)
    requires Inv(m) && m.link.Some?
    ensures var r := ReceiverLost(m, m.link.value, err).machine;
      Step(r, ReceiverMessage(m.link.value, x)) == Success(Out(r, []))
  {
    assert ReceiverLost(m, m.link.value, err) == EnterDetaching(m, err);
    EnterDetachingReleasesOnce(m, err);
    MessageFromUnlistened(ReceiverLost(m, m.link.value, err).machine, m.link.value, x);
  }

  /** After the last `message` subscriber leaves, messages still arriving from the released receiver are dropped. */
  lemma MessagesStopAfterLastUnsubscribe(m: Machine, x: TransportObj)
    requires Inv(m) && m.link.Some? && m.state != Detached && m.listeners == 1
    ensures var r := RemoveMessageListener(m).machine;
      Step(r, ReceiverMessage(m.link.value, x)) == Success(Out(r, []))
  {
    assert RemoveMessageListener(m) == EnterDetaching(m.(listeners := 0), None);
    EnterDetachingReleasesOnce(m.(listeners := 0), None);
    MessageFromUnlistened(RemoveMessageListener(m).machine, m.link.value, x);
  }

  lemma MessageFromUnlistened(m: Machine, h: HandleId, x: TransportObj)
    requires Valid(m) && h !in m.listened
    ensures Step(m, ReceiverMessage(h, x)) == Success(Out(m, []))
  {
  }

  /**
   Subscribing to `message` issues `attach` with no callback: a creation
   starts only from `detached`, no callback is answered, and the count grows.
   */
  lemma SubscribeAttaches(m: Machine)
    requires Inv(m)
    ensures var r := AddMessageListener(m);
      && r.machine.listeners == m.listeners + 1
      && Creations(r.effects) == (if m.state == Detached then [m.nextToken] else [])
      && Resolved(r.effects) == [] && Releases(r.effects) == []
      && r.machine.state == (if m.state == Detached then Attaching else m.state)
  {
  }

  /** Two subscriptions from a detached link cause exactly one creation. */
  lemma TwoSubscriptionsCreateOnce(m: Machine)
    requires Inv(m) && m.state == Detached
    ensures var r1 := AddMessageListener(m);
      var r2 := AddMessageListener(r1.machine);
      && Creations(r1.effects + r2.effects) == [m.nextToken]
      && r2.machine.state == Attaching && r2.machine.listeners == m.listeners + 2
  {
    var r1 := AddMessageListener(m);
    HandlePreservesInv(m.(listeners := m.listeners + 1), AttachInput(None));
    SubscribeAttaches(r1.machine);
    ProjectionsAppend(r1.effects, AddMessageListener(r1.machine).effects);
  }

  /**
   Unsubscribing from `message`: only removing the last subscriber issues
   `detach`, which from `attaching` or `attached` releases the held receiver
   exactly once, and from `detached` does nothing but lower the count, even
   when a receiver is still held; any other removal only lowers the count.
   */
  lemma OnlyLastUnsubscribeDetaches(m: Machine)
    requires Inv(m)
    ensures m.listeners != 1 ==> Releases(RemoveMessageListener(m).effects) == [] && RemoveMessageListener(m).machine.state == m.state
    ensures m.listeners == 1 && m.state != Detached ==>
      var r := RemoveMessageListener(m);
      && r.machine.state == Detached && r.machine.link.None? && r.machine.listeners == 0
      && Releases(r.effects) == ReleasedBy(m)
    ensures m.listeners == 1 && m.state == Detached ==> RemoveMessageListener(m) == Out(m.(listeners := 0), [])
  {
    if m.listeners == 1 && m.state != Detached {
      EnterDetachingReleasesOnce(m.(listeners := 0), None);
    }
  }

  /**
   No settlement reaches a receiver unless the link ends the step attached,
   holding a receiver.
   */
  lemma NoDispatchUnlessAttached(m: Machine, ev: Event)
    requires Inv(m) && Step(m, ev).Success?
    ensures var r := Step(m, ev).value;
      Dispatched(r.effects) != [] ==> r.machine.state == Attached && r.machine.link.Some?
  {
    match ev
    case Invoke(call) => {
      match call
      case AttachCall(cb) =>
      case DetachCall =>
        if m.state != Detached { DetachTearsDown(m); }
      case AcceptCall(msg, cb) =>
      case CompleteCall(msg, cb) =>
      case RejectCall(msg, cb) =>
      case AbandonCall(msg, cb) =>
    }
    case MessageListenerAdded =>
    case MessageListenerRemoved =>
      if m.listeners == 1 && m.state != Detached { DetachTearsDown(m.(listeners := 0)); }
    case CreateSucceeded(token) => DispatchOnlyOnSuccess(m, token, None);
    case CreateFailed(token, e) => DispatchOnlyOnSuccess(m, token, Some(e));
    case ConnectionError(e) =>
    case ReceiverDetached(h, e) => ReceiverLossTearsDown(m, h, e);
    case ReceiverErrorReceived(h, e) => ReceiverLossTearsDown(m, h, Some(e));
    case ReceiverMessage(h, x) =>
      assert [EmitMessage(x)][1..] == [];
      assert Dispatched([EmitMessage(x)]) == [];
      assert Dispatched(Step(m, ev).value.effects) == [];
  }

  lemma DispatchOnlyOnSuccess(m: Machine, token: nat, rejection: Option<Error>)
    requires Inv(m)
    ensures var r := ResolveCreation(m, token, rejection);
      Dispatched(r.effects) != [] ==> r.machine.state == Attached && r.machine.link.Some?
  {
    if token in m.attempts {
      var a := m.attempts[token];
      var rest := m.(attempts := m.attempts - {token});
      var err := AttachError(a, rejection);
      if err.None? {
        var s := rest.(link := Some(token), listened := rest.listened + {token});
        var t := TransitionTo(s, Attached, None);
        if a.callback.Some? {
          ProjectionsAppend(t.effects, [Callback(a.callback.value, Done)]);
        }
      } else {
        var t := TransitionTo(rest, Detached, if a.callback.Some? then None else err);
        if rest.state != Detached {
          EnterDetachedQuiet(rest, if a.callback.Some? then None else err);
        }
        if a.callback.Some? {
          ProjectionsAppend(t.effects, [Callback(a.callback.value, Failed(err.value))]);
        }
      }
    }
  }
}
