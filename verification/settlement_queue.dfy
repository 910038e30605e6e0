/**
 The two ways the settlement queue is emptied: flushed onto an attached
 receiver (the `attached` entry action) or drained with an error (the
 `detached` entry action).
 */
module SettlementQueue {
  import opened Wrappers
  import opened LinkTypes
  import opened Trace

  /** The link calls a queue asks for: each request's method and transport object, in queue order. */
  function Requests(q: seq<Pending>): seq<(SettleMethod, TransportObj)> {
    if q == [] then [] else [(q[0].settle, q[0].obj)] + Requests(q[1..])
  }

  /** The callbacks one optional callback contributes to a trace. */
  function Listed(callback: Option<CallbackId>): seq<CallbackId> {
    match callback
    case Some(c) => [c]
    case None => []
  }

  /** The callbacks a queue carries, in queue order (requests made without one are skipped). */
  function CallbackIds(q: seq<Pending>): seq<CallbackId> {
    if q == [] then [] else Listed(q[0].callback) + CallbackIds(q[1..])
  }

  /** Every effect is a settlement call on `h` or a successful settlement callback. */
  predicate OnlySettlementsOn(effects: seq<Effect>, h: HandleId) {
    forall k | 0 <= k < |effects| ::
      (effects[k].LinkSettle? && effects[k].handle == h) || (effects[k].Callback? && effects[k].outcome.Settled?)
  }

  /** The effect at `k`, if a callback, directly follows the link call it reports and reports that call's method. */
  predicate ReportsPreviousCall(effects: seq<Effect>, k: nat)
    requires k < |effects|
  {
    effects[k].Callback? ==>
      0 < k && effects[k - 1].LinkSettle? && effects[k].outcome == Settled(ResultOf(effects[k - 1].settle))
  }

  /** Every callback follows the link call it reports, and reports that call's method. */
  predicate CallbacksFollowTheirCall(effects: seq<Effect>) {
    forall k: nat | k < |effects| :: ReportsPreviousCall(effects, k)
  }

  /**
   The `attached` handler for one request: call the matching receiver method
   with the transport object, then, if a callback was given, call it once with
   no error and the matching result.
   */
  function SettleOn(h: HandleId, p: Pending): (r: seq<Effect>)
    ensures Dispatched(r) == [(p.settle, p.obj)]
    ensures Resolved(r) == Listed(p.callback)
    ensures OnlySettlementsOn(r, h) && CallbacksFollowTheirCall(r)
  {
    var call := [LinkSettle(h, p.settle, p.obj)];
    var report := match p.callback
      case Some(c) => [Callback(c, Settled(ResultOf(p.settle)))]
      case None => [];
    ProjectionsAppend(call, report);
    call + report
  }

  /**
   Reading one settled request back from the front of a trace: its call and
   its callback pair up, as long as what follows does not start with a callback.
   */
  lemma SettlementsOfSettleOn(h: HandleId, p: Pending, rest: seq<Effect>)
    requires rest == [] || !rest[0].Callback?
    ensures Settlements(SettleOn(h, p) + rest) == [p] + Settlements(rest)
  {
    var call := LinkSettle(h, p.settle, p.obj);
    match p.callback
    case Some(c) =>
      var report := Callback(c, Settled(ResultOf(p.settle)));
      var s := [call, report] + rest;
      assert SettleOn(h, p) + rest == s;
      assert s[1..] == [report] + rest;
      assert ([report] + rest)[1..] == rest;
    case None =>
      var s := [call] + rest;
      assert SettleOn(h, p) + rest == s;
      assert s[1..] == rest;
  }

  /** The `attached` entry action: every queued request is settled on `h`, front to back. */
  function Flush(h: HandleId, q: seq<Pending>): (r: seq<Effect>)
    ensures Dispatched(r) == Requests(q)
    ensures Resolved(r) == CallbackIds(q)
    ensures Settlements(r) == q
    ensures OnlySettlementsOn(r, h) && CallbacksFollowTheirCall(r)
  {
    if q == [] then []
    else
      var rest := Flush(h, q[1..]);
      SettleOnThenRest(h, q[0], rest);
      assert q == [q[0]] + q[1..];
      SettleOn(h, q[0]) + rest
  }

  /** One request settled in front of an already valid flush keeps every property of a flush. */
  lemma SettleOnThenRest(h: HandleId, p: Pending, rest: seq<Effect>)
    requires OnlySettlementsOn(rest, h) && CallbacksFollowTheirCall(rest)
    ensures var r := SettleOn(h, p) + rest;
      && Dispatched(r) == [(p.settle, p.obj)] + Dispatched(rest)
      && Resolved(r) == Listed(p.callback) + Resolved(rest)
      && Settlements(r) == [p] + Settlements(rest)
      && OnlySettlementsOn(r, h) && CallbacksFollowTheirCall(r)
  {
    var head := SettleOn(h, p);
    ProjectionsAppend(head, rest);
    FollowConcat(head, rest);
    assert rest == [] || !rest[0].Callback? by {
      if rest != [] {
        assert ReportsPreviousCall(rest, 0);
      }
    }
    SettlementsOfSettleOn(h, p, rest);
    OnlySettlementsConcat(head, rest, h);
  }

  lemma OnlySettlementsConcat(a: seq<Effect>, b: seq<Effect>, h: HandleId)
    requires OnlySettlementsOn(a, h) && OnlySettlementsOn(b, h)
    ensures OnlySettlementsOn(a + b, h)
  {
    assert forall k | 0 <= k < |a + b| :: (a + b)[k] == if k < |a| then a[k] else b[k - |a|];
  }

  lemma FollowConcat(a: seq<Effect>, b: seq<Effect>)
    requires CallbacksFollowTheirCall(a) && CallbacksFollowTheirCall(b)
    ensures CallbacksFollowTheirCall(a + b)
  {
    forall k: nat | k < |a + b|
      ensures ReportsPreviousCall(a + b, k)
    {
      if k < |a| {
        assert ReportsPreviousCall(a, k);
        assert a[k] == (a + b)[k];
        if 0 < k { assert a[k - 1] == (a + b)[k - 1]; }
      } else {
        assert ReportsPreviousCall(b, k - |a|);
        assert b[k - |a|] == (a + b)[k];
        if 0 < k - |a| { assert b[k - |a| - 1] == (a + b)[k - 1]; }
      }
    }
  }

  /** The error a drained request fails with: the error the link detached with, else the generic one. */
  function DrainError(err: Option<Error>): Error {
    err.GetOr(LinkWasDetached)
  }

  /** Fail every request that carries a callback with `e`, front to back. */
  function FailAll(q: seq<Pending>, e: Error): (r: seq<Effect>)
    ensures Resolved(r) == CallbackIds(q)
    ensures forall k | 0 <= k < |r| :: r[k].Callback? && r[k].outcome == Failed(e)
  {
    if q == [] then []
    else
      var head := match q[0].callback
        case Some(c) => [Callback(c, Failed(e))]
        case None => [];
      var rest := FailAll(q[1..], e);
      ProjectionsAppend(head, rest);
      head + rest
  }

  /**
   The `detached` entry action: every queued callback is called once with the
   carried error or the generic one, then `error` is emitted when an error was
   carried. Requests without a callback are skipped (see `DrainAsWritten`).
   */
  function Drain(q: seq<Pending>, err: Option<Error>): (r: seq<Effect>)
    ensures Resolved(r) == CallbackIds(q)
    ensures forall k | 0 <= k < |r| && r[k].Callback? :: r[k].outcome == Failed(DrainError(err))
    ensures Emitted(r) == (match err case Some(e) => [e] case None => [])
    ensures forall k | 0 <= k < |r| && r[k].EmitError? :: k == |r| - 1
    ensures forall k | 0 <= k < |r| :: r[k].Callback? || (r[k].EmitError? && k == |r| - 1)
    ensures Dispatched(r) == [] && Creations(r) == [] && Releases(r) == []
  {
    var fail := FailAll(q, DrainError(err));
    var emit := match err
      case Some(e) => [EmitError(e)]
      case None => [];
    ProjectionsAppend(fail, emit);
    NoOtherProjections(fail);
    assert forall k | 0 <= k < |fail| :: (fail + emit)[k] == fail[k];
    fail + emit
  }

  lemma {:induction false} NoOtherProjections(r: seq<Effect>)
    requires forall k | 0 <= k < |r| :: r[k].Callback?
    ensures Dispatched(r) == [] && Emitted(r) == [] && Creations(r) == [] && Releases(r) == []
  {
    if r != [] {
      NoOtherProjections(r[1..]);
    }
  }

  /** How the drain loop ends as the source writes it: all the way, or by throwing a `TypeError`. */
  datatype DrainRun = Completed(effects: seq<Effect>) | Crashed(effects: seq<Effect>)

  /**
   The drain loop as written: `toSettle.callback(...)` is called without
   checking that a callback was given, so the first request queued without
   one throws, after the callbacks before it ran and before `error` is emitted.
   */
  function DrainAsWritten(q: seq<Pending>, err: Option<Error>): (r: DrainRun)
    ensures r.Completed? <==> forall i | 0 <= i < |q| :: q[i].callback.Some?
    ensures r.Completed? ==> r.effects == Drain(q, err)
    ensures r.Crashed? ==> Emitted(r.effects) == []
  {
    match FailAllAsWritten(q, DrainError(err))
    case Crashed(done) =>
      NoOtherProjections(done);
      Crashed(done)
    case Completed(done) =>
      Completed(done + match err case Some(e) => [EmitError(e)] case None => [])
  }

  function FailAllAsWritten(q: seq<Pending>, e: Error): (r: DrainRun)
    ensures r.Completed? <==> forall i | 0 <= i < |q| :: q[i].callback.Some?
    ensures r.Completed? ==> r.effects == FailAll(q, e)
    ensures forall k | 0 <= k < |r.effects| :: r.effects[k].Callback?
  {
    if q == [] then Completed([])
    else match q[0].callback
      case None => Crashed([])
      case Some(c) =>
        match FailAllAsWritten(q[1..], e)
        case Completed(rest) => Completed([Callback(c, Failed(e))] + rest)
        case Crashed(rest) => Crashed([Callback(c, Failed(e))] + rest)
  }

  /** The counterexample: one `accept` queued without a callback, then the attach fails. */
  lemma DrainAsWrittenThrowsOnMissingCallback(obj: TransportObj, e: Error)
    ensures DrainAsWritten([Pending(Accept, obj, None)], Some(e)) == Crashed([])
    ensures Drain([Pending(Accept, obj, None)], Some(e)) == [EmitError(e)]
  {
  }
}
