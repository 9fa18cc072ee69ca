/** The callback registries of the voice front end (`callbacks`) and of the session
    orchestrator (`event_handlers`): a fixed set of event types, each with the list of
    handlers registered for it. Handlers are external code, so a handler is an opaque
    identity and invoking it is recorded as a `Call` carrying the arguments it received. */
module Observers {
  import opened Values

  type HandlerId = nat

  datatype Call = Call(handler: HandlerId, args: seq<Value>)

  type Registry = map<string, seq<HandlerId>>

  /** A registry whose every known event type has no handler yet. */
  function Empty(eventTypes: set<string>): (r: Registry)
    ensures r.Keys == eventTypes
    ensures forall t :: t in r ==> r[t] == []
  {
    map t | t in eventTypes :: []
  }

  /** `if event_type in registry: registry[event_type].append(handler)`. */
  function Register(r: Registry, eventType: string, h: HandlerId): (r': Registry)
    ensures r'.Keys == r.Keys
    ensures forall t :: t in r && t != eventType ==> r'[t] == r[t]
    ensures eventType in r ==> r'[eventType] == r[eventType] + [h]
    ensures eventType !in r ==> r' == r
  {
    if eventType in r then r[eventType := r[eventType] + [h]] else r
  }

  /** The calls that triggering `eventType` makes: every handler registered for it, in
      registration order, each with the same arguments; nothing for an unknown type. */
  function Invocations(r: Registry, eventType: string, args: seq<Value>): seq<Call>
  {
    if eventType in r then seq(|r[eventType]|, i requires 0 <= i < |r[eventType]| => Call(r[eventType][i], args))
    else []
  }

  /** The loop `for handler in handlers: handler(*args)`, one call per handler. */
  method Dispatch(handlers: seq<HandlerId>, args: seq<Value>) returns (calls: seq<Call>)
    ensures |calls| == |handlers|
    ensures forall i :: 0 <= i < |handlers| ==> calls[i] == Call(handlers[i], args)
  {
    calls := [];
    var i := 0;
    while i < |handlers|
      invariant 0 <= i <= |handlers|
      invariant |calls| == i
      invariant forall j :: 0 <= j < i ==> calls[j] == Call(handlers[j], args)
    {
      calls := calls + [Call(handlers[i], args)];
      i := i + 1;
    }
  }

  /** A handler registered for a known type is called last, after the earlier ones, when
      that type is next triggered; registering for an unknown type changes no invocation. */
  lemma RegisterThenInvoke(r: Registry, eventType: string, h: HandlerId, args: seq<Value>)
    ensures eventType in r ==>
      Invocations(Register(r, eventType, h), eventType, args) == Invocations(r, eventType, args) + [Call(h, args)]
    ensures eventType !in r ==>
      Invocations(Register(r, eventType, h), eventType, args) == []
    ensures forall t :: t != eventType ==>
      Invocations(Register(r, eventType, h), t, args) == Invocations(r, t, args)
  {
    if eventType in r {
      var r' := Register(r, eventType, h);
      assert |Invocations(r', eventType, args)| == |Invocations(r, eventType, args)| + 1;
    }
  }
}
