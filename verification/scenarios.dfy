/**
 Runs of the receiver link over event sequences, and the traces the link's
 unit tests expect, each stated step by step from a fresh link.
 */
module Scenarios {
  import opened Wrappers
  import opened LinkTypes
  import opened Trace
  import opened SettlementQueue
  import opened LinkMachine
  import opened AttachLink
  import opened ReceiverLink
  import opened LinkProperties

  /** Apply events in order, collecting their effects; a call that throws stops the run. */
  function Run(m: Machine, events: seq<Event>): (r: Result<Out, Thrown>)
    requires Valid(m)
    ensures r.Success? ==> Valid(r.value.machine)
    decreases |events|
  {
    if events == [] then Success(Out(m, []))
    else match Step(m, events[0])
      case Failure(e) => Failure(e)
      case Success(first) => (
        match Run(first.machine, events[1..])
        case Failure(e) => Failure(e)
        case Success(rest) => Success(Out(rest.machine, first.effects + rest.effects)))
  }

  /** Every run from a resting link, whatever its events, ends in a resting link. */
  lemma {:induction false} RunPreservesInv(m: Machine, events: seq<Event>)
    requires Inv(m)
    ensures Run(m, events).Success? ==> Inv(Run(m, events).value.machine)
    decreases |events|
  {
    if events != [] {
      StepPreservesInv(m, events[0]);
      if Step(m, events[0]).Success? {
        RunPreservesInv(Step(m, events[0]).value.machine, events[1..]);
      }
    }
  }

  /**
   The scenarios' closed form of `LinkProperties.ReceiverLossTearsDown` for a
   link with nothing queued.
   */
  lemma LoseExact(m: Machine, h: HandleId, err: Option<Error>)
    requires Inv(m) && m.link == Some(h) && m.queue == []
    ensures ReceiverLost(m, h, err)
      == Out(m.(state := Detached, link := None, listened := m.listened - {h}),
             [ForceDetach(h)] + match err case Some(e) => [EmitError(e)] case None => [])
  {
    ReceiverLossTearsDown(m, h, err);
    EnterDetachingReleasesOnce(m, err);
    assert Drain([], err) == match err case Some(e) => [EmitError(e)] case None => [];
  }

  const E: Error := Raised(1)

  /** Draining one request: its callback, if any, fails, then the error, if any, is emitted. */
  lemma DrainOne(p: Pending, err: Option<Error>)
    ensures Drain([p], err) == (match p.callback case Some(c) => [Callback(c, Failed(DrainError(err)))] case None => [])
      + (match err case Some(e) => [EmitError(e)] case None => [])
  {
    assert [p][1..] == [];
  }

  /** Flushing two requests settles the first, then the second. */
  lemma FlushTwo(h: HandleId, p1: Pending, p2: Pending)
    ensures Flush(h, [p1, p2]) == SettleOn(h, p1) + SettleOn(h, p2)
  {
    assert [p1, p2][1..] == [p2];
    assert [p2][1..] == [];
    assert SettleOn(h, p2) + [] == SettleOn(h, p2);
  }

  /** The requests and machines the scenarios below pass through. */
  const RejectFive: Pending := Pending(Reject, 5, Some(1))
  const AttachingForReject: Machine := Initial.(state := Attaching, queue := [RejectFive], attempts := map[0 := Attempt(None, None)], nextToken := 1)
  const DetachedAfterFirst: Machine := Initial.(nextToken := 1)
  const AbandonFive: Pending := Pending(Abandon, 5, Some(1))
  const AttachingFirst: Machine := Initial.(state := Attaching, attempts := map[0 := Attempt(Some(0), None)], nextToken := 1)
  const AttachingWithAbandon: Machine := AttachingFirst.(queue := [AbandonFive])
  const AttachingForOneSubscriber: Machine := Initial.(state := Attaching, attempts := map[0 := Attempt(None, None)], nextToken := 1, listeners := 1)
  const AttachingForTwoSubscribers: Machine := AttachingForOneSubscriber.(listeners := 2)
  const AttachedForTwoSubscribers: Machine := Initial.(state := Attached, link := Some(0), listened := {0}, nextToken := 1, listeners := 2)
  const AttachedForOneSubscriber: Machine := AttachedForTwoSubscribers.(listeners := 1)
  const AttachedFirst: Machine := Initial.(state := Attached, link := Some(0), listened := {0}, nextToken := 1)
  const AttachingAfterConnectionError: Machine := AttachingFirst.(attempts := map[0 := Attempt(Some(0), Some(E))])
  const AttachingSecond: Machine := Initial.(state := Attaching, attempts := map[1 := Attempt(Some(1), None)], nextToken := 2)
  const Uncalled: Attempt := Attempt(None, None)
  const AttachingUncalled: Machine := Initial.(state := Attaching, attempts := map[0 := Uncalled], nextToken := 1)
  const DetachedWhileCreating: Machine := AttachingUncalled.(state := Detached)
  const AttachingTwice: Machine := Initial.(state := Attaching, attempts := map[0 := Uncalled, 1 := Uncalled], nextToken := 2)
  const AttachedFirstAwaitingSecond: Machine := Initial.(state := Attached, link := Some(0), listened := {0}, attempts := map[1 := Uncalled], nextToken := 2)
  const AttachedSecondListeningToBoth: Machine := Initial.(state := Attached, link := Some(1), listened := {0, 1}, nextToken := 2)
  const AcceptOne: Pending := Pending(Accept, 1, Some(1))
  const AcceptTwo: Pending := Pending(Accept, 2, Some(2))
  const AttachingWithOneAccept: Machine := AttachingFirst.(queue := [AcceptOne])
  const AttachingWithTwoAccepts: Machine := AttachingFirst.(queue := [AcceptOne, AcceptTwo])
  const AcceptFiveUncalled: Pending := Pending(Accept, 5, None)
  const AttachingForUncalledAccept: Machine := AttachingUncalled.(queue := [AcceptFiveUncalled])

  /**
   Two accepts queued behind a slow creation are settled in order once it
   resolves, and only then is the attach callback answered.
   */
  lemma QueuedSettlementsFlushInOrder()
    ensures Step(Initial, Invoke(AttachCall(Some(0)))) == Success(Out(AttachingFirst, [CreateReceiver(0)]))
    ensures Step(AttachingFirst, Invoke(AcceptCall(Some(Message(1)), Some(1)))) == Success(Out(AttachingWithOneAccept, []))
    ensures Step(AttachingWithOneAccept, Invoke(AcceptCall(Some(Message(2)), Some(2)))) == Success(Out(AttachingWithTwoAccepts, []))
    ensures Step(AttachingWithTwoAccepts, CreateSucceeded(0)) == Success(Out(AttachedFirst, [LinkSettle(0, Accept, 1), Callback(1, Settled(MessageCompleted)), LinkSettle(0, Accept, 2), Callback(2, Settled(MessageCompleted)), Callback(0, Done)]))
  {
    AttachFromFresh(); QueuedSettlementsFlushInOrderStep2(); QueuedSettlementsFlushInOrderStep3(); QueuedSettlementsFlushInOrderStep4();
  }

  lemma QueuedSettlementsFlushInOrderStep2()
    ensures Step(AttachingFirst, Invoke(AcceptCall(Some(Message(1)), Some(1)))) == Success(Out(AttachingWithOneAccept, []))
  {
    assert AttachingFirst.queue + [AcceptOne] == [AcceptOne];
  }

  lemma QueuedSettlementsFlushInOrderStep3()
    ensures Step(AttachingWithOneAccept, Invoke(AcceptCall(Some(Message(2)), Some(2)))) == Success(Out(AttachingWithTwoAccepts, []))
  {
    assert AttachingWithOneAccept.queue + [AcceptTwo] == [AcceptOne, AcceptTwo];
  }

  lemma QueuedSettlementsFlushInOrderStep4()
    ensures Step(AttachingWithTwoAccepts, CreateSucceeded(0)) == Success(Out(AttachedFirst, [LinkSettle(0, Accept, 1), Callback(1, Settled(MessageCompleted)), LinkSettle(0, Accept, 2), Callback(2, Settled(MessageCompleted)), Callback(0, Done)]))
  {
    assert 0 in AttachingWithTwoAccepts.attempts;
    SucceedExact(AttachingWithTwoAccepts, 0);
    assert AttachingWithTwoAccepts.attempts - {0} == map[];
    assert AttachingWithTwoAccepts.listened + {0} == {0};
    FlushTwo(0, AcceptOne, AcceptTwo);
    assert SettleOn(0, AcceptOne) == [LinkSettle(0, Accept, 1), Callback(1, Settled(MessageCompleted))];
    assert SettleOn(0, AcceptTwo) == [LinkSettle(0, Accept, 2), Callback(2, Settled(MessageCompleted))];
    assert AttachingWithTwoAccepts.(attempts := map[], link := Some(0), listened := {0}, state := Attached, queue := []) == AttachedFirst;
    assert Flush(0, [AcceptOne, AcceptTwo]) + [Callback(0, Done)] == [LinkSettle(0, Accept, 1), Callback(1, Settled(MessageCompleted)), LinkSettle(0, Accept, 2), Callback(2, Settled(MessageCompleted)), Callback(0, Done)];
    assert Step(AttachingWithTwoAccepts, CreateSucceeded(0)) == Success(ResolveCreation(AttachingWithTwoAccepts, 0, None));
  }

  /**
   A settlement that starts the attach itself gets the creation's error,
   which is also emitted.
   */
  lemma QueuedSettlementGetsAttachError()
    ensures Step(Initial, Invoke(RejectCall(Some(Message(5)), Some(1)))) == Success(Out(AttachingForReject, [CreateReceiver(0)]))
    ensures Step(AttachingForReject, CreateFailed(0, E)) == Success(Out(DetachedAfterFirst, [Callback(1, Failed(E)), EmitError(E)]))
  {
    QueuedSettlementGetsAttachErrorStep1(); QueuedSettlementGetsAttachErrorStep2();
  }

  lemma QueuedSettlementGetsAttachErrorStep1()
    ensures Step(Initial, Invoke(RejectCall(Some(Message(5)), Some(1)))) == Success(Out(AttachingForReject, [CreateReceiver(0)]))
  {
    assert Initial.queue + [RejectFive] == [RejectFive];
    assert Initial.attempts[0 := Attempt(None, None)] == map[0 := Attempt(None, None)];
  }

  lemma QueuedSettlementGetsAttachErrorStep2()
    ensures Step(AttachingForReject, CreateFailed(0, E)) == Success(Out(DetachedAfterFirst, [Callback(1, Failed(E)), EmitError(E)]))
  {
    assert 0 in AttachingForReject.attempts;
    FailExact(AttachingForReject, 0, Some(E));
    assert AttachingForReject.attempts - {0} == map[];
    DrainOne(RejectFive, Some(E));
    assert [Callback(1, Failed(E))] + [EmitError(E)] == [Callback(1, Failed(E)), EmitError(E)];
    assert AttachingForReject.(attempts := map[], state := Detached, queue := []) == DetachedAfterFirst;
  }

  /**
   With an attach callback, the queued settlement gets the generic error, the
   attach callback gets the real one, and nothing is emitted.
   */
  lemma AttachCallbackTakesTheRealError()
    ensures Step(Initial, Invoke(AttachCall(Some(0)))) == Success(Out(AttachingFirst, [CreateReceiver(0)]))
    ensures Step(AttachingFirst, Invoke(AbandonCall(Some(Message(5)), Some(1)))) == Success(Out(AttachingWithAbandon, []))
    ensures Step(AttachingWithAbandon, CreateFailed(0, E)) == Success(Out(DetachedAfterFirst, [Callback(1, Failed(LinkWasDetached)), Callback(0, Failed(E))]))
  {
    AttachFromFresh(); AttachCallbackTakesTheRealErrorStep2(); AttachCallbackTakesTheRealErrorStep3();
  }

  /** Attaching a fresh link asks for receiver 0 and keeps the callback on its creation. */
  lemma AttachFromFresh()
    ensures Step(Initial, Invoke(AttachCall(Some(0)))) == Success(Out(AttachingFirst, [CreateReceiver(0)]))
  {
    assert Initial.attempts[0 := Attempt(Some(0), None)] == map[0 := Attempt(Some(0), None)];
  }

  lemma AttachCallbackTakesTheRealErrorStep2()
    ensures Step(AttachingFirst, Invoke(AbandonCall(Some(Message(5)), Some(1)))) == Success(Out(AttachingWithAbandon, []))
  {
    assert AttachingFirst.queue + [AbandonFive] == [AbandonFive];
  }

  lemma AttachCallbackTakesTheRealErrorStep3()
    ensures Step(AttachingWithAbandon, CreateFailed(0, E)) == Success(Out(DetachedAfterFirst, [Callback(1, Failed(LinkWasDetached)), Callback(0, Failed(E))]))
  {
    assert 0 in AttachingWithAbandon.attempts;
    FailExact(AttachingWithAbandon, 0, Some(E));
    assert AttachingWithAbandon.attempts - {0} == map[];
    DrainOne(AbandonFive, None);
    assert [Callback(1, Failed(LinkWasDetached))] + [Callback(0, Failed(E))] == [Callback(1, Failed(LinkWasDetached)), Callback(0, Failed(E))];
  }

  /**
   Two subscribers cause one creation; the first unsubscribe releases
   nothing, the second force-detaches the receiver once.
   */
  lemma LastUnsubscribeDetaches()
    ensures Step(Initial, MessageListenerAdded) == Success(Out(AttachingForOneSubscriber, [CreateReceiver(0)]))
    ensures Step(AttachingForOneSubscriber, MessageListenerAdded) == Success(Out(AttachingForTwoSubscribers, []))
    ensures Step(AttachingForTwoSubscribers, CreateSucceeded(0)) == Success(Out(AttachedForTwoSubscribers, []))
    ensures Step(AttachedForTwoSubscribers, MessageListenerRemoved) == Success(Out(AttachedForOneSubscriber, []))
    ensures Step(AttachedForOneSubscriber, MessageListenerRemoved) == Success(Out(DetachedAfterFirst, [ForceDetach(0)]))
  {
    LastUnsubscribeDetachesStep1(); LastUnsubscribeDetachesStep2(); LastUnsubscribeDetachesStep3(); LastUnsubscribeDetachesStep4(); LastUnsubscribeDetachesStep5();
  }

  lemma LastUnsubscribeDetachesStep1()
    ensures Step(Initial, MessageListenerAdded) == Success(Out(AttachingForOneSubscriber, [CreateReceiver(0)]))
  {
    assert Initial.attempts[0 := Attempt(None, None)] == map[0 := Attempt(None, None)];
  }

  lemma LastUnsubscribeDetachesStep2()
    ensures Step(AttachingForOneSubscriber, MessageListenerAdded) == Success(Out(AttachingForTwoSubscribers, []))
  {
  }

  lemma LastUnsubscribeDetachesStep3()
    ensures Step(AttachingForTwoSubscribers, CreateSucceeded(0)) == Success(Out(AttachedForTwoSubscribers, []))
  {
    assert 0 in AttachingForTwoSubscribers.attempts;
    SucceedExact(AttachingForTwoSubscribers, 0);
    assert AttachingForTwoSubscribers.attempts - {0} == map[];
    assert AttachingForTwoSubscribers.listened + {0} == {0};
    assert Flush(0, []) + [] == [];
  }

  lemma LastUnsubscribeDetachesStep4()
    ensures Step(AttachedForTwoSubscribers, MessageListenerRemoved) == Success(Out(AttachedForOneSubscriber, []))
  {
  }

  lemma LastUnsubscribeDetachesStep5()
    ensures Step(AttachedForOneSubscriber, MessageListenerRemoved) == Success(Out(DetachedAfterFirst, [ForceDetach(0)]))
  {
    EnterDetachingReleasesOnce(AttachedForOneSubscriber.(listeners := 0), None);
    assert {0} - {0} == {};
    assert Drain([], None) == [];
    assert [ForceDetach(0)] + [] == [ForceDetach(0)];
  }

  /** A second `attach` once attached answers at once and creates nothing. */
  lemma AttachWhenAttachedCreatesNothing()
    ensures Step(Initial, Invoke(AttachCall(Some(0)))) == Success(Out(AttachingFirst, [CreateReceiver(0)]))
    ensures Step(AttachingFirst, CreateSucceeded(0)) == Success(Out(AttachedFirst, [Callback(0, Done)]))
    ensures Step(AttachedFirst, Invoke(AttachCall(Some(1)))) == Success(Out(AttachedFirst, [Callback(1, Done)]))
  {
    AttachFromFresh(); FirstCreationSucceeds(); AttachWhenAttachedCreatesNothingStep3();
  }

  /** Receiver 0 coming up attaches the link and answers the waiting callback. */
  lemma FirstCreationSucceeds()
    ensures Step(AttachingFirst, CreateSucceeded(0)) == Success(Out(AttachedFirst, [Callback(0, Done)]))
  {
    assert 0 in AttachingFirst.attempts;
    SucceedExact(AttachingFirst, 0);
    assert AttachingFirst.attempts - {0} == map[];
    assert AttachingFirst.listened + {0} == {0};
    assert Flush(0, []) + [Callback(0, Done)] == [Callback(0, Done)];
    assert AttachingFirst.(attempts := map[], link := Some(0), listened := {0}, state := Attached, queue := []) == AttachedFirst;
    assert Step(AttachingFirst, CreateSucceeded(0)) == Success(ResolveCreation(AttachingFirst, 0, None));
  }

  lemma AttachWhenAttachedCreatesNothingStep3()
    ensures Step(AttachedFirst, Invoke(AttachCall(Some(1)))) == Success(Out(AttachedFirst, [Callback(1, Done)]))
  {
  }

  /**
   A connection error while the receiver is being created fails the attach,
   and the receiver is not kept.
   */
  lemma ConnectionErrorDuringCreationFailsAttach()
    ensures Step(Initial, Invoke(AttachCall(Some(0)))) == Success(Out(AttachingFirst, [CreateReceiver(0)]))
    ensures Step(AttachingFirst, ConnectionError(E)) == Success(Out(AttachingAfterConnectionError, []))
    ensures Step(AttachingAfterConnectionError, CreateSucceeded(0)) == Success(Out(DetachedAfterFirst, [Callback(0, Failed(E))]))
  {
    AttachFromFresh(); ConnectionErrorDuringCreationFailsAttachStep2(); ConnectionErrorDuringCreationFailsAttachStep3();
  }

  lemma ConnectionErrorDuringCreationFailsAttachStep2()
    ensures Step(AttachingFirst, ConnectionError(E)) == Success(Out(AttachingAfterConnectionError, []))
  {
    assert ObserveConnectionError(AttachingFirst, E).attempts == map[0 := Attempt(Some(0), Some(E))];
  }

  lemma ConnectionErrorDuringCreationFailsAttachStep3()
    ensures Step(AttachingAfterConnectionError, CreateSucceeded(0)) == Success(Out(DetachedAfterFirst, [Callback(0, Failed(E))]))
  {
    assert 0 in AttachingAfterConnectionError.attempts;
    FailExact(AttachingAfterConnectionError, 0, None);
    assert AttachingAfterConnectionError.attempts - {0} == map[];
    assert Drain([], None) == [];
    assert Drain([], None) + [Callback(0, Failed(E))] == [Callback(0, Failed(E))];
  }

  /** After the receiver reports `detached`, a new `attach` creates a new receiver. */
  lemma ReattachAfterReceiverDetached()
    ensures Step(Initial, Invoke(AttachCall(Some(0)))) == Success(Out(AttachingFirst, [CreateReceiver(0)]))
    ensures Step(AttachingFirst, CreateSucceeded(0)) == Success(Out(AttachedFirst, [Callback(0, Done)]))
    ensures Step(AttachedFirst, ReceiverDetached(0, None)) == Success(Out(DetachedAfterFirst, [ForceDetach(0)]))
    ensures Step(DetachedAfterFirst, Invoke(AttachCall(Some(1)))) == Success(Out(AttachingSecond, [CreateReceiver(1)]))
  {
    AttachFromFresh(); FirstCreationSucceeds(); ReattachAfterReceiverDetachedStep3(); ReattachAfterReceiverDetachedStep4();
  }

  lemma ReattachAfterReceiverDetachedStep3()
    ensures Step(AttachedFirst, ReceiverDetached(0, None)) == Success(Out(DetachedAfterFirst, [ForceDetach(0)]))
  {
    LoseExact(AttachedFirst, 0, None);
    assert {0} - {0} == {};
    assert [ForceDetach(0)] + [] == [ForceDetach(0)];
    assert AttachedFirst.(state := Detached, link := None, listened := {}) == DetachedAfterFirst;
  }

  lemma ReattachAfterReceiverDetachedStep4()
    ensures Step(DetachedAfterFirst, Invoke(AttachCall(Some(1)))) == Success(Out(AttachingSecond, [CreateReceiver(1)]))
  {
    assert DetachedAfterFirst.attempts[1 := Attempt(Some(1), None)] == map[1 := Attempt(Some(1), None)];
  }

  /**
   `errorReceived` on the receiver tears the link down and surfaces the error
   as an `error` event.
   */
  lemma ReceiverErrorIsEmitted()
    ensures Step(Initial, Invoke(AttachCall(Some(0)))) == Success(Out(AttachingFirst, [CreateReceiver(0)]))
    ensures Step(AttachingFirst, CreateSucceeded(0)) == Success(Out(AttachedFirst, [Callback(0, Done)]))
    ensures Step(AttachedFirst, ReceiverErrorReceived(0, E)) == Success(Out(DetachedAfterFirst, [ForceDetach(0), EmitError(E)]))
  {
    AttachFromFresh(); FirstCreationSucceeds(); ReceiverErrorIsEmittedStep3();
  }

  lemma ReceiverErrorIsEmittedStep3()
    ensures Step(AttachedFirst, ReceiverErrorReceived(0, E)) == Success(Out(DetachedAfterFirst, [ForceDetach(0), EmitError(E)]))
  {
    LoseExact(AttachedFirst, 0, Some(E));
    assert {0} - {0} == {};
    assert [ForceDetach(0)] + [EmitError(E)] == [ForceDetach(0), EmitError(E)];
    assert AttachedFirst.(state := Detached, link := None, listened := {}) == DetachedAfterFirst;
  }

  /**
   `detach` while attaching does not cancel the creation: a second `attach`
   starts another one, both receivers end up carrying the link's listeners,
   and only the second is held. Nothing ever force-detaches the first.
   */
  lemma DetachWhileAttachingLeavesTwoReceivers()
    ensures Step(Initial, Invoke(AttachCall(None))) == Success(Out(AttachingUncalled, [CreateReceiver(0)]))
    ensures Step(AttachingUncalled, Invoke(DetachCall)) == Success(Out(DetachedWhileCreating, []))
    ensures Step(DetachedWhileCreating, Invoke(AttachCall(None))) == Success(Out(AttachingTwice, [CreateReceiver(1)]))
    ensures Step(AttachingTwice, CreateSucceeded(0)) == Success(Out(AttachedFirstAwaitingSecond, []))
    ensures Step(AttachedFirstAwaitingSecond, CreateSucceeded(1)) == Success(Out(AttachedSecondListeningToBoth, []))
  {
    DetachWhileAttachingLeavesTwoReceiversStep1(); DetachWhileAttachingLeavesTwoReceiversStep2(); DetachWhileAttachingLeavesTwoReceiversStep3(); DetachWhileAttachingLeavesTwoReceiversStep4(); DetachWhileAttachingLeavesTwoReceiversStep5();
  }

  lemma DetachWhileAttachingLeavesTwoReceiversStep1()
    ensures Step(Initial, Invoke(AttachCall(None))) == Success(Out(AttachingUncalled, [CreateReceiver(0)]))
  {
    assert Initial.attempts[0 := Uncalled] == map[0 := Uncalled];
  }

  lemma DetachWhileAttachingLeavesTwoReceiversStep2()
    ensures Step(AttachingUncalled, Invoke(DetachCall)) == Success(Out(DetachedWhileCreating, []))
  {
    EnterDetachingReleasesOnce(AttachingUncalled, None);
    assert Drain([], None) == [];
  }

  lemma DetachWhileAttachingLeavesTwoReceiversStep3()
    ensures Step(DetachedWhileCreating, Invoke(AttachCall(None))) == Success(Out(AttachingTwice, [CreateReceiver(1)]))
  {
    assert DetachedWhileCreating.attempts[1 := Uncalled] == map[0 := Uncalled, 1 := Uncalled];
  }

  lemma DetachWhileAttachingLeavesTwoReceiversStep4()
    ensures Step(AttachingTwice, CreateSucceeded(0)) == Success(Out(AttachedFirstAwaitingSecond, []))
  {
    assert 0 in AttachingTwice.attempts;
    SucceedExact(AttachingTwice, 0);
    assert AttachingTwice.attempts - {0} == map[1 := Uncalled];
    assert AttachingTwice.listened + {0} == {0};
    assert Flush(0, []) + [] == [];
  }

  lemma DetachWhileAttachingLeavesTwoReceiversStep5()
    ensures Step(AttachedFirstAwaitingSecond, CreateSucceeded(1)) == Success(Out(AttachedSecondListeningToBoth, []))
  {
    assert 1 in AttachedFirstAwaitingSecond.attempts;
    SucceedExact(AttachedFirstAwaitingSecond, 1);
    assert AttachedFirstAwaitingSecond.attempts - {1} == map[];
    assert AttachedFirstAwaitingSecond.listened + {1} == {0, 1};
    assert Flush(1, []) + [] == [];
  }

  /**
   The drain crash is reachable from the facade: an `accept` with no callback
   on a detached link queues a request without one and starts a creation; if
   that creation is rejected, the loop as written throws on that request,
   before `error` is emitted, where the corrected drain only emits the error.
   */
  lemma MissingCallbackCrashIsReachable()
    ensures Step(Initial, Invoke(AcceptCall(Some(Message(5)), None)))
      == Success(Out(AttachingForUncalledAccept, [CreateReceiver(0)]))
    ensures ResolveCreation(AttachingForUncalledAccept, 0, Some(E)).effects == [EmitError(E)]
    ensures DrainAsWritten(AttachingForUncalledAccept.queue, Some(E)) == Crashed([])
  {
    var m1 := AttachingForUncalledAccept;
    assert Initial.queue + [AcceptFiveUncalled] == [AcceptFiveUncalled];
    assert Initial.attempts[0 := Uncalled] == map[0 := Uncalled];
    assert 0 in m1.attempts;
    FailExact(m1, 0, Some(E));
    DrainOne(AcceptFiveUncalled, Some(E));
    DrainAsWrittenThrowsOnMissingCallback(5, E);
  }
}
