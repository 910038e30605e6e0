/**
 The public surface of `ReceiverLink`: the facade methods, the `message`
 subscription hooks, the handlers installed on an amqp10 receiver, and one
 `Step` that feeds any of them, or an amqp10 completion, to the link.
 */
module ReceiverLink {
  import opened Wrappers
  import opened LinkTypes
  import opened Trace
  import opened SettlementQueue
  import opened LinkMachine
  import opened AttachLink

  /** A message handed back for settlement; only its transport object reaches the link. */
  datatype Message = Message(transportObj: TransportObj)

  /** A facade call. An absent message is JavaScript's `null` or `undefined`. */
  datatype Call =
    | AttachCall(callback: Option<CallbackId>)
    | DetachCall
    | AcceptCall(message: Option<Message>, callback: Option<CallbackId>)
    | CompleteCall(message: Option<Message>, callback: Option<CallbackId>)
    | RejectCall(message: Option<Message>, callback: Option<CallbackId>)
    | AbandonCall(message: Option<Message>, callback: Option<CallbackId>)

  /** What a facade call throws synchronously. */
  datatype Thrown = ReferenceError

  /** Everything that can happen to a link: a facade call, a subscription change, or an amqp10 event. */
  datatype Event =
    | Invoke(call: Call)
    | MessageListenerAdded
    | MessageListenerRemoved
    | CreateSucceeded(token: nat)
    | CreateFailed(token: nat, error: Error)
    | ConnectionError(error: Error)
    | ReceiverDetached(handle: HandleId, detachError: Option<Error>)
    | ReceiverErrorReceived(handle: HandleId, error: Error)
    | ReceiverMessage(handle: HandleId, message: TransportObj)

  /**
   `accept`, `reject` and `abandon`: an absent message throws and leaves the
   link as it was; otherwise the transport object and callback enter the
   state machine as a request of the given kind.
   */
  function Settle(m: Machine, settle: SettleMethod, message: Option<Message>, callback: Option<CallbackId>): (r: Result<Out, Thrown>)
    requires Valid(m)
    ensures message.None? <==> r == Failure(ReferenceError)
    ensures r.Success? ==> Keeps(m, r.value)
  {
    match message
    case None => Failure(ReferenceError)
    case Some(msg) => Success(Handle(m, SettleInput(Pending(settle, msg.transportObj, callback))))
  }

  /** The facade: `attach`, `detach`, and the settlements, `complete` being `accept`. */
  function Apply(m: Machine, call: Call): (r: Result<Out, Thrown>)
    requires Valid(m)
    ensures r.Failure? ==> r.error == ReferenceError
    ensures r.Success? ==> Keeps(m, r.value)
  {
    match call
    case AttachCall(callback) => Success(Handle(m, AttachInput(callback)))
    case DetachCall => Success(Handle(m, DetachInput))
    case AcceptCall(message, callback) => Settle(m, Accept, message, callback)
    case CompleteCall(message, callback) => Settle(m, Accept, message, callback)
    case RejectCall(message, callback) => Settle(m, Reject, message, callback)
    case AbandonCall(message, callback) => Settle(m, Abandon, message, callback)
  }

  /** The `newListener` hook for `message`: every new subscriber issues `attach` with no callback. */
  function AddMessageListener(m: Machine): (r: Out)
    requires Valid(m)
    ensures Valid(r.machine) && r.machine.listeners == m.listeners + 1
  {
    Handle(m.(listeners := m.listeners + 1), AttachInput(None))
  }

  /**
   The `removeListener` hook for `message`: removing a subscriber that is not
   there does nothing, and removing the last one issues `detach`.
   */
  function RemoveMessageListener(m: Machine): (r: Out)
    requires Valid(m)
    ensures Valid(r.machine)
    ensures r.machine.listeners == if m.listeners == 0 then 0 else m.listeners - 1
    ensures m.listeners != 1 ==> r == Out(m.(listeners := r.machine.listeners), [])
  {
    if m.listeners == 0 then Out(m, [])
    else if m.listeners > 1 then Out(m.(listeners := m.listeners - 1), [])
    else Handle(m.(listeners := 0), DetachInput)
  }

  /**
   `_detachHandler` and `_errorHandler`: a receiver that still carries the
   link's listeners drives a transition to `detaching` with its error.
   */
  function ReceiverLost(m: Machine, h: HandleId, err: Option<Error>): (r: Out)
    requires Valid(m)
    ensures Keeps(m, r)
    ensures h !in m.listened ==> r == Out(m, [])
  {
    if h !in m.listened || m.state == Detaching then Out(m, [])
    else EnterDetaching(m, err)
  }

  /** `_messageHandler`: a message from a listened receiver is re-emitted as the link's `message` event. */
  function ReceiverMessageOut(m: Machine, h: HandleId, message: TransportObj): Out {
    Out(m, if h in m.listened then [EmitMessage(message)] else [])
  }

  /** One event applied to the link. Only a facade call can throw. */
  function Step(m: Machine, ev: Event): (r: Result<Out, Thrown>)
    requires Valid(m)
    ensures r.Failure? ==> ev.Invoke? && r.error == ReferenceError
    ensures r.Success? ==> Valid(r.value.machine)
  {
    match ev
    case Invoke(call) => Apply(m, call)
    case MessageListenerAdded => Success(AddMessageListener(m))
    case MessageListenerRemoved => Success(RemoveMessageListener(m))
    case CreateSucceeded(token) => Success(ResolveCreation(m, token, None))
    case CreateFailed(token, e) => Success(ResolveCreation(m, token, Some(e)))
    case ConnectionError(e) => Success(Out(ObserveConnectionError(m, e), []))
    case ReceiverDetached(h, e) => Success(ReceiverLost(m, h, e))
    case ReceiverErrorReceived(h, e) => Success(ReceiverLost(m, h, Some(e)))
    case ReceiverMessage(h, message) => Success(ReceiverMessageOut(m, h, message))
  }
}
