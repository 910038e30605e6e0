/** Projections of an effect sequence onto the parts the link's guarantees talk about. */
module Trace {
  import opened Wrappers
  import opened LinkTypes

  /** The settlement calls made on a receiver, in order. */
  function Dispatched(effects: seq<Effect>): seq<(SettleMethod, TransportObj)> {
    if effects == [] then []
    else (if effects[0].LinkSettle? then [(effects[0].settle, effects[0].obj)] else []) + Dispatched(effects[1..])
  }

  /**
   The settlement calls made, in order, each paired with the callback that
   immediately follows it, if any: the request a caller would recover by
   reading the trace.
   */
  function Settlements(effects: seq<Effect>): seq<Pending> {
    if effects == [] then []
    else if effects[0].LinkSettle? then
      var reported := if |effects| > 1 && effects[1].Callback? then Some(effects[1].id) else None;
      [Pending(effects[0].settle, effects[0].obj, reported)] + Settlements(effects[1..])
    else Settlements(effects[1..])
  }

  /** The callbacks invoked, in order. */
  function Resolved(effects: seq<Effect>): seq<CallbackId> {
    if effects == [] then []
    else (if effects[0].Callback? then [effects[0].id] else []) + Resolved(effects[1..])
  }

  /** The link-level `error` events emitted, in order. */
  function Emitted(effects: seq<Effect>): seq<Error> {
    if effects == [] then []
    else (if effects[0].EmitError? then [effects[0].error] else []) + Emitted(effects[1..])
  }

  /** The `createReceiver` calls made, by token. */
  function Creations(effects: seq<Effect>): seq<nat> {
    if effects == [] then []
    else (if effects[0].CreateReceiver? then [effects[0].token] else []) + Creations(effects[1..])
  }

  /** The receivers force-detached, in order. */
  function Releases(effects: seq<Effect>): seq<HandleId> {
    if effects == [] then []
    else (if effects[0].ForceDetach? then [effects[0].handle] else []) + Releases(effects[1..])
  }

  /** Every projection distributes over concatenation. */
  lemma ProjectionsAppend(a: seq<Effect>, b: seq<Effect>)
    ensures Dispatched(a + b) == Dispatched(a) + Dispatched(b)
    ensures Resolved(a + b) == Resolved(a) + Resolved(b)
    ensures Emitted(a + b) == Emitted(a) + Emitted(b)
    ensures Creations(a + b) == Creations(a) + Creations(b)
    ensures Releases(a + b) == Releases(a) + Releases(b)
  {
    DispatchedAppend(a, b);
    ResolvedAppend(a, b);
    EmittedAppend(a, b);
    CreationsAppend(a, b);
    ReleasesAppend(a, b);
  }

  lemma {:induction false} DispatchedAppend(a: seq<Effect>, b: seq<Effect>)
    ensures Dispatched(a + b) == Dispatched(a) + Dispatched(b)
  {
    if a == [] {
      assert a + b == b;
    } else {
      assert (a + b)[0] == a[0];
      assert (a + b)[1..] == a[1..] + b;
      DispatchedAppend(a[1..], b);
    }
  }

  lemma {:induction false} ResolvedAppend(a: seq<Effect>, b: seq<Effect>)
    ensures Resolved(a + b) == Resolved(a) + Resolved(b)
  {
    if a == [] {
      assert a + b == b;
    } else {
      assert (a + b)[0] == a[0];
      assert (a + b)[1..] == a[1..] + b;
      ResolvedAppend(a[1..], b);
    }
  }

  lemma {:induction false} EmittedAppend(a: seq<Effect>, b: seq<Effect>)
    ensures Emitted(a + b) == Emitted(a) + Emitted(b)
  {
    if a == [] {
      assert a + b == b;
    } else {
      assert (a + b)[0] == a[0];
      assert (a + b)[1..] == a[1..] + b;
      EmittedAppend(a[1..], b);
    }
  }

  lemma {:induction false} CreationsAppend(a: seq<Effect>, b: seq<Effect>)
    ensures Creations(a + b) == Creations(a) + Creations(b)
  {
    if a == [] {
      assert a + b == b;
    } else {
      assert (a + b)[0] == a[0];
      assert (a + b)[1..] == a[1..] + b;
      CreationsAppend(a[1..], b);
    }
  }

  lemma {:induction false} ReleasesAppend(a: seq<Effect>, b: seq<Effect>)
    ensures Releases(a + b) == Releases(a) + Releases(b)
  {
    if a == [] {
      assert a + b == b;
    } else {
      assert (a + b)[0] == a[0];
      assert (a + b)[1..] == a[1..] + b;
      ReleasesAppend(a[1..], b);
    }
  }
}
