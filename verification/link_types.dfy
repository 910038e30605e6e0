/**
 The entities of the receiver link: its four lifecycle states, the settlement
 requests it buffers, the link-creation attempts it has outstanding, and the
 observable effects one input produces.
 */
module LinkTypes {
  import opened Wrappers

  /** Identity of a caller-supplied completion callback. */
  type CallbackId = nat
  /** The opaque `transportObj` of a message; it is the only part of a message the link forwards. */
  type TransportObj = nat
  /** Identity of an underlying amqp10 receiver; a receiver is named by the creation token that produced it. */
  type HandleId = nat

  /** `LinkWasDetached` is the generic "Link was detached" error; `Raised` is any error the client or the receiver reports. */
  datatype Error = LinkWasDetached | Raised(code: nat)

  datatype State = Detached | Attaching | Attached | Detaching

  datatype SettleMethod = Accept | Reject | Abandon

  datatype SettleResult = MessageCompleted | MessageRejected | MessageAbandoned

  /** The result object a settlement callback receives on success. */
  function ResultOf(settle: SettleMethod): SettleResult {
    match settle
    case Accept => MessageCompleted
    case Reject => MessageRejected
    case Abandon => MessageAbandoned
  }

  /** One buffered settlement request: the entry `pushToQueue` appends. */
  datatype Pending = Pending(settle: SettleMethod, obj: TransportObj, callback: Option<CallbackId>)

  /** The inputs the state machine handles. */
  datatype Input =
    | AttachInput(callback: Option<CallbackId>)
    | DetachInput
    | SettleInput(request: Pending)

  /**
   An outstanding `createReceiver` call: the `done` callback it will resolve
   (the attach callback its `attaching` entry received) and the last connection
   error the client reported while it was outstanding.
   */
  datatype Attempt = Attempt(callback: Option<CallbackId>, connectionError: Option<Error>)

  /** What a callback is called with: no error, a settlement result, or an error. */
  datatype Outcome = Done | Settled(result: SettleResult) | Failed(error: Error)

  /** The actions the link performs on the outside world. */
  datatype Effect =
    | CreateReceiver(token: nat)
    | LinkSettle(handle: HandleId, settle: SettleMethod, obj: TransportObj)
    | ForceDetach(handle: HandleId)
    | Callback(id: CallbackId, outcome: Outcome)
    | EmitError(error: Error)
    | EmitMessage(message: TransportObj)

  /**
   The receiver link. `link` is `_linkObject`; `listened` holds every receiver
   that still carries the link's `detached`, `errorReceived` and `message`
   listeners; `queue` is `_messageQueue`; `deferred` holds inputs postponed
   while detaching; `attempts` maps creation tokens to outstanding creations;
   `listeners` counts the subscribers of the `message` event.
   */
  datatype Machine = Machine(
    state: State,
    link: Option<HandleId>,
    listened: set<HandleId>,
    queue: seq<Pending>,
    deferred: seq<Input>,
    attempts: map<nat, Attempt>,
    nextToken: nat,
    listeners: nat)

  /** The machine after an input, and the effects the input produced, in order. */
  datatype Out = Out(machine: Machine, effects: seq<Effect>)

  /** A freshly constructed link: detached, nothing queued, no receiver, no subscriber. */
  const Initial: Machine := Machine(Detached, None, {}, [], [], map[], 0, 0)

  /** The one fact the handlers rely on: an attached link has a receiver to settle on. */
  predicate Valid(m: Machine) {
    m.state == Attached ==> m.link.Some?
  }
}
