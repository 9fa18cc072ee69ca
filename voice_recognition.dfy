/** The voice front end's state: the listening flag, the wake-word flag, the language, the
    configuration and the callback registry. Callbacks are external, so triggering one is
    recorded in `calls` (see the Observers module). */
module Voice {
  import opened Values
  import opened Observers

  /** The four callback event types. */
  const VoiceEvents: set<string> := {"on_wake_word", "on_speech_recognized", "on_listening_started", "on_listening_stopped"}

  /** The configuration a new instance starts with. */
  function DefaultConfig(): map<string, Value>
  {
    map["wake_word_threshold" := VReal(0.5), "silence_threshold" := VInt(500), "timeout" := VInt(5),
        "energy_threshold" := VInt(300)]
  }

  /** `dict.update`: the given keys take the new values, the other keys keep theirs. */
  lemma ConfigUpdate(config: map<string, Value>, updates: map<string, Value>)
    ensures (config + updates).Keys == config.Keys + updates.Keys
    ensures forall k :: k in updates ==> (config + updates)[k] == updates[k]
    ensures forall k :: k in config && k !in updates ==> (config + updates)[k] == config[k]
  {
  }

  class VoiceRecognition {
    var wakeWord: string
    var language: string
    var isListening: bool
    var wakeWordDetected: bool
    var callbacks: Registry
    var config: map<string, Value>
    /** Every callback invocation so far, in order. */
    var calls: seq<Call>

    ghost predicate Valid()
      reads this
    {
      callbacks.Keys == VoiceEvents
    }

    /** A new instance is not listening, has not heard the wake word, and has an empty
        list for each of the four event types. Python's defaults are "jarvis" and "en-US". */
    constructor (wakeWord: string, language: string)
      ensures Valid()
      ensures this.wakeWord == wakeWord && this.language == language
      ensures !isListening && !wakeWordDetected
      ensures callbacks == Empty(VoiceEvents)
      ensures config == DefaultConfig() && calls == []
    {
      this.wakeWord := wakeWord;
      this.language := language;
      isListening := false;
      wakeWordDetected := false;
      callbacks := Empty(VoiceEvents);
      config := DefaultConfig();
      calls := [];
    }

    /** `_trigger_callbacks`: every callback registered for the type, in registration
        order, with the given arguments; nothing for an unknown type. */
    method TriggerCallbacks(eventType: string, args: seq<Value>)
      modifies this`calls
      ensures calls == old(calls) + Invocations(callbacks, eventType, args)
    {
      if eventType in callbacks {
        var made := Dispatch(callbacks[eventType], args);
        assert made == Invocations(callbacks, eventType, args);
        calls := calls + made;
      }
    }

    /** `start`: from not listening, starts listening and fires `on_listening_started`
        once; while listening, does nothing. */
    method Start()
      modifies this`isListening, this`calls
      ensures isListening
      ensures !old(isListening) ==> calls == old(calls) + Invocations(callbacks, "on_listening_started", [])
      ensures old(isListening) ==> calls == old(calls)
    {
      if !isListening {
        isListening := true;
        TriggerCallbacks("on_listening_started", []);
      }
    }

    /** `stop`: from listening, stops and fires `on_listening_stopped` once; while not
        listening, does nothing. */
    method Stop()
      modifies this`isListening, this`calls
      ensures !isListening
      ensures old(isListening) ==> calls == old(calls) + Invocations(callbacks, "on_listening_stopped", [])
      ensures !old(isListening) ==> calls == old(calls)
    {
      if isListening {
        isListening := false;
        TriggerCallbacks("on_listening_stopped", []);
      }
    }

    /** `add_callback`: appended for one of the four event types, ignored otherwise. */
    method AddCallback(eventType: string, callback: HandlerId)
      requires Valid()
      modifies this`callbacks
      ensures Valid()
      ensures callbacks == Register(old(callbacks), eventType, callback)
    {
      callbacks := Register(callbacks, eventType, callback);
    }

    /** `set_language`: only the language changes. */
    method SetLanguage(language: string)
      modifies this`language
      ensures this.language == language
    {
      this.language := language;
    }

    /** `update_config`: the given keys are overwritten and the others kept. */
    method UpdateConfig(updates: map<string, Value>)
      modifies this`config
      ensures config == old(config) + updates
    {
      config := config + updates;
    }
  }
}
