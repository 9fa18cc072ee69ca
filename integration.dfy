/** The session orchestrator: it owns one instance of each component, wires the voice
    front end's callbacks to itself, turns a recognised utterance into a task launch or an
    information query, identifies visitors, and keeps its own event-handler registry.
    Handlers and callbacks are external, so triggering one is recorded in `calls`; the
    orchestrator's own two voice callbacks are the handler ids `WakeWordCallback` and
    `SpeechCallback`, and the voice recognition loop that would invoke them is not part of
    this model: `OnWakeWord` and `OnSpeechRecognized` are called directly. Python's `str()`
    of a float, list or dictionary is the parameter `render`; `time.time()` is `now`. */
module Integration {
  import opened Values
  import opened Text
  import opened Seqs
  import opened Observers
  import Memory
  import Tasks
  import Retrieval
  import Voice

  /** The orchestrator's own event types. */
  const CoreEvents: set<string> := {"on_command_received", "on_task_completed", "on_visitor_detected", "on_system_status_changed"}

  /** The handler ids standing for the bound methods `_on_wake_word_detected` and
      `_on_speech_recognized`. */
  const WakeWordCallback: HandlerId := 0
  const SpeechCallback: HandlerId := 1

  /** The metadata of the `system_init` event. */
  const InitMetadata: Value :=
    VObj(map["modules" := VList([VStr("voice_recognition"), VStr("task_automation"), VStr("info_retrieval"), VStr("memory_system")])])

  /** The `system_init` event row with the given id and timestamp. */
  function InitEvent(id: int, time: nat): Memory.EventRow
  {
    Memory.EventRow(id, "system_init", time, "Jarvis Core System initialized", Some(InitMetadata))
  }

  // ---------------------------------------------------------------------------------
  // Commands

  /** Phrases that make an utterance a task command, and words that make it a question. */
  const TaskPhrases: seq<string> := ["turn on", "turn off", "set", "play"]
  const QuestionWords: seq<string> := ["what", "who", "when", "where", "how", "why"]

  const NotUnderstood: string := "I'm not sure how to help with that. Could you please rephrase?"
  const UnknownTask: string := "I'm not sure which task you want me to perform."
  const NoAnswerYet: string := "I'm searching for information on that, but I don't have a specific answer yet."

  datatype CommandKind = TaskCommand | InfoQuery | Unrecognised

  /** How `_process_command` routes a lower-cased command: task phrases win over
      question words. */
  function Kind(command: string): (r: CommandKind)
    ensures r == TaskCommand <==> ContainsAny(command, TaskPhrases)
    ensures r == InfoQuery <==> !ContainsAny(command, TaskPhrases) && ContainsAny(command, QuestionWords)
    ensures r == Unrecognised <==> !ContainsAny(command, TaskPhrases) && !ContainsAny(command, QuestionWords)
  {
    if ContainsAny(command, TaskPhrases) then TaskCommand
    else if ContainsAny(command, QuestionWords) then InfoQuery
    else Unrecognised
  }

  /** One line of `_handle_task_command`'s mapping: the phrase looked for, the task
      launched with its fixed parameters, and the fixed reply. */
  datatype TaskAction = TaskAction(phrase: string, task: string, params: map<string, Value>, reply: string)

  const TaskActions: seq<TaskAction> := [
    TaskAction("turn on lights", "turn_on_lights", map["room" := VStr("living room")],
               "I've turned on the lights in the living room."),
    TaskAction("turn off lights", "turn_off_lights", map["room" := VStr("living room")],
               "I've turned off the lights in the living room."),
    TaskAction("set reminder", "set_reminder", map["message" := VStr("User reminder"), "time" := VStr("18:00")],
               "I've set a reminder for 6:00 PM."),
    TaskAction("play music", "play_music", map["genre" := VStr("relaxing"), "source" := VStr("spotify")],
               "Playing some relaxing music from Spotify.")
  ]

  predicate Mentions(command: string, a: TaskAction) { Contains(command, a.phrase) }

  /** The first mapping line whose phrase occurs in the command. */
  function TaskFor(command: string): (r: Option<TaskAction>)
    ensures r.None? <==> forall i :: 0 <= i < |TaskActions| ==> !Mentions(command, TaskActions[i])
    ensures r.Some? ==> exists i :: 0 <= i < |TaskActions| && r.value == TaskActions[i] && Mentions(command, r.value)
  {
    var k := FirstWhere(TaskActions, a => Mentions(command, a));
    if k.Some? then Some(TaskActions[k.value]) else None
  }

  /** The line `TaskFor` picks is the first in the if/elif order: no earlier line's
      phrase occurs in the command. */
  lemma TaskForIsFirst(command: string)
    ensures TaskFor(command).Some? ==>
      exists i :: 0 <= i < |TaskActions| && TaskFor(command).value == TaskActions[i] && Mentions(command, TaskActions[i]) &&
                  forall j :: 0 <= j < i ==> !Mentions(command, TaskActions[j])
  {
    var k := FirstWhere(TaskActions, a => Mentions(command, a));
    if k.Some? {
      assert TaskFor(command).value == TaskActions[k.value];
    }
  }

  /** The reply to a task command; it does not depend on whether the launch succeeded. */
  function TaskReply(command: string): string
  {
    match TaskFor(command)
    case Some(a) => a.reply
    case None => UnknownTask
  }

  /** Every mapped phrase begins with a task phrase. */
  lemma MentionedPhraseIsTaskPhrase(command: string, i: int)
    requires 0 <= i < |TaskActions| && Mentions(command, TaskActions[i])
    ensures ContainsAny(command, TaskPhrases)
  {
    if i == 0 {
      assert TaskActions[0].phrase == TaskPhrases[0] + " lights";
      ContainsPrefix(command, TaskPhrases[0], " lights");
    } else if i == 1 {
      assert TaskActions[1].phrase == TaskPhrases[1] + " lights";
      ContainsPrefix(command, TaskPhrases[1], " lights");
    } else if i == 2 {
      assert TaskActions[2].phrase == TaskPhrases[2] + " reminder";
      ContainsPrefix(command, TaskPhrases[2], " reminder");
    } else {
      assert TaskActions[3].phrase == TaskPhrases[3] + " music";
      ContainsPrefix(command, TaskPhrases[3], " music");
    }
    ContainsAnyIff(command, TaskPhrases);
  }

  /** A command the mapping recognises is always routed as a task command. */
  lemma MappedCommandsAreTaskCommands(command: string)
    requires TaskFor(command).Some?
    ensures Kind(command) == TaskCommand
  {
    var i :| 0 <= i < |TaskActions| && Mentions(command, TaskActions[i]);
    MentionedPhraseIsTaskPhrase(command, i);
  }

  /** On the predefined tasks every mapped launch supplies the required parameters and
      starts. */
  lemma MappedTasksStart(now: int)
    ensures forall i :: 0 <= i < |TaskActions| ==>
      Tasks.Decide(Tasks.DefaultTasks(), TaskActions[i].task, TaskActions[i].params, now)
        == Tasks.Started(Tasks.TaskId(TaskActions[i].task, now))
  {
  }

  // ---------------------------------------------------------------------------------
  // Answers to information queries

  /** Python's `str()` of a value: strings, integers, booleans and None are written out;
      floats, lists and dictionaries go through `render`. */
  function Display(v: Value, render: Value -> string): string
  {
    match v
    case VStr(s) => s
    case VInt(i) => IntToString(i)
    case VBool(b) => if b then "True" else "False"
    case VNull => "None"
    case _ => render(v)
  }

  /** The result slots `_handle_info_query` reads, in the order it tries them. */
  const ReplyOrder: seq<string> := ["weather", "time", "date", "calculator", "web", "knowledge_base"]

  /** Slot `i` of the reply order is present and no earlier one is. */
  predicate FirstPresentAt(results: map<string, Value>, i: int)
  {
    0 <= i < |ReplyOrder| && ReplyOrder[i] in results && forall j :: 0 <= j < i ==> ReplyOrder[j] !in results
  }

  /** The slot the reply is built from. */
  function AnsweringSource(results: map<string, Value>): (r: Option<string>)
    ensures r.None? <==> forall i :: 0 <= i < |ReplyOrder| ==> ReplyOrder[i] !in results
    ensures r.Some? ==> r.value in results && exists i :: FirstPresentAt(results, i) && ReplyOrder[i] == r.value
  {
    if ReplyOrder[0] in results then (assert FirstPresentAt(results, 0); Some(ReplyOrder[0]))
    else if ReplyOrder[1] in results then (assert FirstPresentAt(results, 1); Some(ReplyOrder[1]))
    else if ReplyOrder[2] in results then (assert FirstPresentAt(results, 2); Some(ReplyOrder[2]))
    else if ReplyOrder[3] in results then (assert FirstPresentAt(results, 3); Some(ReplyOrder[3]))
    else if ReplyOrder[4] in results then (assert FirstPresentAt(results, 4); Some(ReplyOrder[4]))
    else if ReplyOrder[5] in results then (assert FirstPresentAt(results, 5); Some(ReplyOrder[5]))
    else None
  }

  function WeatherReply(data: Value, render: Value -> string): Access<string>
  {
    var location :- Get(data, "location", VStr("your location"));
    var current :- Get(data, "current", VObj(map[]));
    var condition :- Get(current, "condition", VStr("unknown"));
    var temperature :- Get(current, "temperature", VStr("unknown"));
    Found("The weather in " + Display(location, render) + " is currently " + Display(condition, render) +
          " with a temperature of " + Display(temperature, render) + ".")
  }

  function TimeReply(data: Value, render: Value -> string): Access<string>
  {
    var time :- Get(data, "current_time_12h", VStr("unknown"));
    Found("The current time is " + Display(time, render) + ".")
  }

  function DateReply(data: Value, render: Value -> string): Access<string>
  {
    var date :- Get(data, "formatted_date", VStr("unknown"));
    var day :- Get(data, "day_of_week", VStr(""));
    Found("Today is " + Display(day, render) + ", " + Display(date, render) + ".")
  }

  function CalculatorReply(data: Value, render: Value -> string): Access<string>
  {
    var success :- Get(data, "success", VBool(false));
    if Truthy(success) then
      var expression :- Get(data, "expression", VStr(""));
      var result :- Get(data, "result", VStr(""));
      Found("The result of " + Display(expression, render) + " is " + Display(result, render) + ".")
    else Found("I couldn't calculate that. Please try again.")
  }

  /** `x[0]` on a truthy value: only a non-empty list yields an element that a later
      `['title']` can succeed on. */
  function FirstItem(v: Value): Access<Value>
  {
    if v.VList? && |v.items| > 0 then Found(v.items[0]) else TypeError
  }

  function WebReply(data: Value, render: Value -> string): Access<string>
  {
    var results :- Get(data, "results", VList([]));
    if Truthy(results) then
      var first :- FirstItem(results);
      var title :- Index(first, "title");
      var snippet :- Index(first, "snippet");
      Found("I found this on the web: " + Display(title, render) + " - " + Display(snippet, render))
    else Found("I couldn't find any information about that on the web.")
  }

  function KnowledgeReply(data: Value, render: Value -> string): Access<string>
  {
    var found :- Get(data, "found", VBool(false));
    if Truthy(found) then
      var content :- Get(data, "content", VStr("No information found."));
      Found(Display(content, render))
    else Found("I don't have that information in my knowledge base.")
  }

  /** The reply built from one slot. Every slot `_handle_info_query` reads is read with
      `.get`, so a slot that is not a dictionary raises. */
  function SourceReply(source: string, data: Value, render: Value -> string): (r: Access<string>)
    requires source in ReplyOrder
    ensures !data.VObj? ==> r == TypeError
  {
    if source == "weather" then WeatherReply(data, render)
    else if source == "time" then TimeReply(data, render)
    else if source == "date" then DateReply(data, render)
    else if source == "calculator" then CalculatorReply(data, render)
    else if source == "web" then WebReply(data, render)
    else KnowledgeReply(data, render)
  }

  /** `_handle_info_query`'s reply: built from the first slot of the reply order that the
      search returned, or the holding answer when there is none. A failed access is an
      exception the caller does not catch. */
  function InfoReply(results: map<string, Value>, render: Value -> string): (r: Access<string>)
    ensures (forall i :: 0 <= i < |ReplyOrder| ==> ReplyOrder[i] !in results) ==> r == Found(NoAnswerYet)
    ensures forall i :: FirstPresentAt(results, i) ==> r == SourceReply(ReplyOrder[i], results[ReplyOrder[i]], render)
  {
    match AnsweringSource(results)
    case None => Found(NoAnswerYet)
    case Some(s) => SourceReply(s, results[s], render)
  }

  /** A source that raised leaves an `{"error": ...}` slot, which every reply reads as
      if it were an empty dictionary, since none of them reads the key `error`: every
      default is used. */
  lemma ErrorSlotReadsAsEmpty(source: string, message: string, render: Value -> string)
    requires source in ReplyOrder
    ensures SourceReply(source, Single("error", VStr(message)), render) == SourceReply(source, VObj(map[]), render)
  {
    var slot := Single("error", VStr(message));
    if source == "weather" {
      assert "location" !in slot.fields && "current" !in slot.fields;
    } else if source == "time" {
      assert "current_time_12h" !in slot.fields;
    } else if source == "date" {
      assert "formatted_date" !in slot.fields && "day_of_week" !in slot.fields;
    } else if source == "calculator" {
      assert "success" !in slot.fields;
    } else if source == "web" {
      assert "results" !in slot.fields;
    } else {
      assert "found" !in slot.fields;
    }
  }

  /** After a source raised, the calculator, web and knowledge-base replies say that
      nothing was found. */
  lemma FailedSourceReply(source: string, message: string, render: Value -> string)
    requires source in ReplyOrder
    ensures source == "calculator" ==>
      SourceReply(source, Single("error", VStr(message)), render) == Found("I couldn't calculate that. Please try again.")
    ensures source == "web" ==>
      SourceReply(source, Single("error", VStr(message)), render) == Found("I couldn't find any information about that on the web.")
    ensures source == "knowledge_base" ==>
      SourceReply(source, Single("error", VStr(message)), render) == Found("I don't have that information in my knowledge base.")
  {
    ErrorSlotReadsAsEmpty(source, message, render);
  }

  /** One slot per requested source, filled by `slot`. */
  function Slots(sources: seq<string>, slot: string -> Value): map<string, Value>
  {
    map s | s in sources :: slot(s)
  }

  /** The result slots of `search(query)` with no source list. */
  function Results(providers: Retrieval.Providers, query: string): map<string, Value>
  {
    Slots(Retrieval.DetermineSources(query), s => Retrieval.Slot(providers, s, query))
  }

  /** The reply to the slots one route fills: the route's first source answers, except
      on the news route, whose slot no reply reads; on the default route the web slot is
      read before the knowledge-base slot. */
  lemma RouteReply(route: Retrieval.Route, slot: string -> Value, render: Value -> string)
    ensures var source := Retrieval.RouteSources(route)[0];
      var r := InfoReply(Slots(Retrieval.RouteSources(route), slot), render);
      && (route != Retrieval.NewsRoute ==> r == SourceReply(source, slot(source), render))
      && (route == Retrieval.NewsRoute ==> r == Found(NoAnswerYet))
    ensures AnsweringSource(Slots(Retrieval.RouteSources(route), slot)) != Some("knowledge_base")
  {
    var results := Slots(Retrieval.RouteSources(route), slot);
    match route
    case DefaultRoute =>
      assert "weather" !in results && "time" !in results && "date" !in results && "calculator" !in results;
      assert FirstPresentAt(results, 4);
    case NewsRoute =>
      assert results.Keys == {"news"};
    case TimeRoute =>
      assert "weather" !in results;
      assert FirstPresentAt(results, 1);
    case WeatherRoute =>
      assert FirstPresentAt(results, 0);
    case DateRoute =>
      assert "weather" !in results && "time" !in results;
      assert FirstPresentAt(results, 2);
    case CalculatorRoute =>
      assert "weather" !in results && "time" !in results && "date" !in results;
      assert FirstPresentAt(results, 3);
  }

  /** A search with no source list is answered from the routed source, a news query
      always gets the holding answer, and the knowledge base never answers. */
  lemma RoutedReply(providers: Retrieval.Providers, query: string, render: Value -> string)
    ensures var route := Retrieval.Classify(query);
      var source := Retrieval.RouteSources(route)[0];
      var r := InfoReply(Results(providers, query), render);
      && (route != Retrieval.NewsRoute ==> r == SourceReply(source, Retrieval.Slot(providers, source, query), render))
      && (route == Retrieval.NewsRoute ==> r == Found(NoAnswerYet))
    ensures AnsweringSource(Results(providers, query)) != Some("knowledge_base")
  {
    RouteReply(Retrieval.Classify(query), s => Retrieval.Slot(providers, s, query), render);
  }

  /** `_process_command`'s reply to an utterance. */
  function Answer(providers: Retrieval.Providers, render: Value -> string, command: string): (r: Access<string>)
    ensures Kind(Lower(command)) == TaskCommand ==> r.Found?
    ensures Kind(Lower(command)) == Unrecognised ==> r == Found(NotUnderstood)
    ensures Kind(Lower(command)) == InfoQuery ==> r == InfoReply(Results(providers, Lower(command)), render)
  {
    var c := Lower(command);
    match Kind(c)
    case TaskCommand => Found(TaskReply(c))
    case InfoQuery => InfoReply(Results(providers, c), render)
    case Unrecognised => Found(NotUnderstood)
  }

  /** The running-task table after a lower-cased command is processed. */
  function TasksAfter(running: map<string, Tasks.TaskRecord>, defs: map<string, Tasks.TaskDef>, command: string, now: int)
    : map<string, Tasks.TaskRecord>
  {
    if Kind(command) == TaskCommand && TaskFor(command).Some? then
      var a := TaskFor(command).value;
      Tasks.Launched(running, a.task, a.params, Tasks.Decide(defs, a.task, a.params, now))
    else running
  }

  /** The search history after a lower-cased command is processed. */
  function HistoryAfter(history: seq<Retrieval.SearchEntry>, command: string, now: int): seq<Retrieval.SearchEntry>
  {
    if Kind(command) == InfoQuery then
      Trimmed(history + [Retrieval.SearchEntry(command, Retrieval.DetermineSources(command), now)], Retrieval.MaxHistory)
    else history
  }

  /** The conversation table after one more utterance, stored at `time` with no sentiment. */
  function Said(conversations: seq<Memory.ConversationRow>, time: nat, speaker: string, message: string,
                visitor: Option<int>): seq<Memory.ConversationRow>
  {
    conversations + [Memory.ConversationRow(|conversations| + 1, time, speaker, message, visitor, None)]
  }

  /** The recent-conversations cache after one more utterance: the new entry in front,
      with the visitor's cached name, and at most the capacity kept. */
  function Spoken(recent: seq<Memory.RecentEntry>, id: int, time: nat, speaker: string, message: string,
                  known: map<int, Memory.KnownVisitor>, visitor: Option<int>): seq<Memory.RecentEntry>
  {
    TakeLimit([Memory.RecentEntry(id, time, speaker, message, Memory.CachedName(known, visitor))] + recent,
              Memory.RecentCapacity)
  }

  // ---------------------------------------------------------------------------------
  // Visitors

  /** Python's truthiness of the optional `name` argument. */
  predicate NameGiven(name: Option<string>) { name.Some? && name.value != "" }

  /** Which branch `detect_visitor` takes on the visitor table as it stands. */
  datatype Sighting = Returning(visitor: Memory.VisitorRow) | Newcomer(name: string, known: bool) | Nobody

  /** A truthy encoding is looked up (and falls back to enrolling the visitor under the
      given name, known, or as an unknown visitor); a name alone enrols a known visitor;
      with neither, nobody is detected. */
  function Sight(visitors: seq<Memory.VisitorRow>, faceEncoding: Value, name: Option<string>): (r: Sighting)
    ensures r.Returning? <==> Truthy(faceEncoding) && Memory.FirstEncoded(visitors).Some?
    ensures r.Returning? ==> r.visitor in visitors && Memory.HasTruthyEncoding(r.visitor)
    ensures r.Returning? ==> Memory.FirstEncoded(visitors) == Some(r.visitor)
    ensures r.Newcomer? ==> (r.known <==> NameGiven(name)) && (r.known ==> r.name == name.value)
    ensures r.Newcomer? && !r.known ==> r.name == "Unknown Visitor"
    ensures r.Nobody? <==> !Truthy(faceEncoding) && !NameGiven(name)
  {
    if Truthy(faceEncoding) then
      match Memory.FirstEncoded(visitors)
      case Some(v) => Returning(v)
      case None => if NameGiven(name) then Newcomer(name.value, true) else Newcomer("Unknown Visitor", false)
    else if NameGiven(name) then Newcomer(name.value, true)
    else Nobody
  }

  /** The visitor dictionary handed to `on_visitor_detected` handlers: every column, with
      the stored encoding decoded and `known` as SQLite's 0 or 1. */
  function VisitorValue(v: Memory.VisitorRow): Value
  {
    VObj(map["visitor_id" := VInt(v.id), "name" := VStr(v.name), "face_encoding" := v.faceEncoding.GetOr(VNull),
             "first_visit" := VInt(v.firstVisit), "last_visit" := VInt(v.lastVisit), "visit_count" := VInt(v.visitCount),
             "known" := VInt(if v.known then 1 else 0),
             "notes" := if v.notes.Some? then VStr(v.notes.value) else VNull])
  }

  /** The metadata of the `visitor_detected` event; it is never empty, so it is always stored. */
  function DetectionMetadata(v: Memory.VisitorRow): (m: Value)
    ensures Truthy(m)
  {
    assert "visitor_id" in map["visitor_id" := VInt(v.id), "known" := VInt(if v.known then 1 else 0)];
    VObj(map["visitor_id" := VInt(v.id), "known" := VInt(if v.known then 1 else 0)])
  }

  /** The event table after a `visitor_detected` event for `v` was logged at `time`. */
  function Detected(events: seq<Memory.EventRow>, time: nat, v: Memory.VisitorRow): seq<Memory.EventRow>
  {
    events + [Memory.EventRow(|events| + 1, "visitor_detected", time, "Visitor detected: " + v.name,
                              Some(DetectionMetadata(v)))]
  }

  class JarvisCore {
    const memory: Memory.MemorySystem
    const tasks: Tasks.TaskAutomation
    const info: Retrieval.InformationRetrieval
    const voice: Voice.VoiceRecognition
    const render: Value -> string
    var isRunning: bool
    var currentVisitor: Option<int>
    var eventHandlers: Registry
    /** Every handler invocation so far, in order. */
    var calls: seq<Call>

    /** The memory, task and retrieval components are consistent, the running flag agrees
        with the voice front end's listening flag, and the current visitor, if any, is in
        the visitor table. */
    ghost predicate Valid()
      reads this, memory, tasks, info, voice
    {
      && memory.Valid() && tasks.Valid() && info.Valid()
      && isRunning == voice.isListening
      && (currentVisitor.Some? ==> 1 <= currentVisitor.value <= |memory.visitors|)
    }

    /** Both registries have exactly their fixed event types. Only registering a handler
        changes a registry, and it never adds a type. */
    ghost predicate Registered()
      reads this, voice
    {
      eventHandlers.Keys == CoreEvents && voice.Valid()
    }

    /** The state `__init__` leaves: not running, no current visitor, the four event types
        with no handlers, the wake word and language set, the two voice callbacks
        registered, one `system_init` event in an otherwise empty database at time 1, the
        default tasks with none running, and an empty search history. */
    ghost predicate InitialState(providers: Retrieval.Providers, render: Value -> string)
      reads this, memory, tasks, info, voice
    {
      && this.render == render && info.providers == providers
      && !isRunning && currentVisitor == None && eventHandlers == Empty(CoreEvents) && calls == []
      && voice.wakeWord == "jarvis" && voice.language == "en-US" && voice.calls == []
      && voice.callbacks ==
           Register(Register(Empty(Voice.VoiceEvents), "on_wake_word", WakeWordCallback), "on_speech_recognized", SpeechCallback)
      && memory.events == [InitEvent(1, 1)]
      && memory.visitors == [] && memory.conversations == [] && memory.knownVisitors == map[] && memory.clock == 1
      && tasks.runningTasks == map[] && tasks.tasks == Tasks.DefaultTasks() && info.searchHistory == []
    }

    /** `__init__` and `_setup_callbacks`: fresh components over a new database, the two
        voice callbacks registered, and one `system_init` event logged. */
    constructor (providers: Retrieval.Providers, render: Value -> string)
      ensures Valid() && Registered()
      ensures fresh(memory) && fresh(tasks) && fresh(info) && fresh(voice)
      ensures InitialState(providers, render)
    {
      var m, t, i, v := NewComponents(providers);
      memory, tasks, info, voice := m, t, i, v;
      this.render := render;
      isRunning := false;
      currentVisitor := None;
      eventHandlers := Empty(CoreEvents);
      calls := [];
    }

    /** `_setup_callbacks`: registers the two voice callbacks and logs `system_init`. */
    static method SetupCallbacks(voice: Voice.VoiceRecognition, memory: Memory.MemorySystem)
      requires voice.Valid() && memory.Valid()
      modifies voice`callbacks, memory`events, memory`clock
      ensures voice.Valid() && memory.Valid()
      ensures voice.callbacks ==
        Register(Register(old(voice.callbacks), "on_wake_word", WakeWordCallback), "on_speech_recognized", SpeechCallback)
      ensures memory.clock == old(memory.clock) + 1
      ensures memory.events == old(memory.events) + [InitEvent(|old(memory.events)| + 1, memory.clock)]
    {
      voice.AddCallback("on_wake_word", WakeWordCallback);
      voice.AddCallback("on_speech_recognized", SpeechCallback);
      var id := memory.LogEvent("system_init", "Jarvis Core System initialized", InitMetadata);
      assert memory.events[|memory.events| - 1] == InitEvent(|old(memory.events)| + 1, memory.clock);
    }

    /** `_trigger_event`: every handler registered for the type, in order; nothing for an
        unknown type. */
    method TriggerEvent(eventType: string, args: seq<Value>)
      modifies this`calls
      ensures calls == old(calls) + Invocations(eventHandlers, eventType, args)
    {
      if eventType in eventHandlers {
        var made := Dispatch(eventHandlers[eventType], args);
        assert made == Invocations(eventHandlers, eventType, args);
        calls := calls + made;
      }
    }

    /** `add_event_handler`: appended for one of the four event types, ignored otherwise. */
    method AddEventHandler(eventType: string, handler: HandlerId)
      requires Valid()
      modifies this`eventHandlers
      ensures Valid()
      ensures old(Registered()) ==> Registered()
      ensures eventHandlers == Register(old(eventHandlers), eventType, handler)
    {
      eventHandlers := Register(eventHandlers, eventType, handler);
    }

    /** `start`: from stopped, starts listening, logs `system_start` and reports
        "running" to the status handlers; while running, does nothing. */
    method Start()
      requires Valid()
      modifies this`isRunning, this`calls, voice`isListening, voice`calls, memory`events, memory`clock
      ensures Valid()
      ensures isRunning
      ensures old(isRunning) ==>
        calls == old(calls) && voice.calls == old(voice.calls) && memory.events == old(memory.events) &&
        memory.clock == old(memory.clock)
      ensures !old(isRunning) ==>
        && voice.calls == old(voice.calls) + Invocations(voice.callbacks, "on_listening_started", [])
        && memory.clock == old(memory.clock) + 1
        && memory.events == old(memory.events) +
             [Memory.EventRow(|old(memory.events)| + 1, "system_start", memory.clock, "Jarvis system started", None)]
        && calls == old(calls) + Invocations(eventHandlers, "on_system_status_changed", [VStr("running")])
    {
      if isRunning {
        return;
      }
      isRunning := true;
      voice.Start();
      var id := memory.LogEvent("system_start", "Jarvis system started", VNull);
      TriggerEvent("on_system_status_changed", [VStr("running")]);
    }

    /** `stop`: from running, stops listening, logs `system_stop` and reports "stopped"
        to the status handlers; while stopped, does nothing. */
    method Stop()
      requires Valid()
      modifies this`isRunning, this`calls, voice`isListening, voice`calls, memory`events, memory`clock
      ensures Valid()
      ensures !isRunning
      ensures !old(isRunning) ==>
        calls == old(calls) && voice.calls == old(voice.calls) && memory.events == old(memory.events) &&
        memory.clock == old(memory.clock)
      ensures old(isRunning) ==>
        && voice.calls == old(voice.calls) + Invocations(voice.callbacks, "on_listening_stopped", [])
        && memory.clock == old(memory.clock) + 1
        && memory.events == old(memory.events) +
             [Memory.EventRow(|old(memory.events)| + 1, "system_stop", memory.clock, "Jarvis system stopped", None)]
        && calls == old(calls) + Invocations(eventHandlers, "on_system_status_changed", [VStr("stopped")])
    {
      if !isRunning {
        return;
      }
      isRunning := false;
      voice.Stop();
      var id := memory.LogEvent("system_stop", "Jarvis system stopped", VNull);
      TriggerEvent("on_system_status_changed", [VStr("stopped")]);
    }

    /** `_on_wake_word_detected`: logs one `wake_word_detected` event. */
    method OnWakeWord()
      requires Valid()
      modifies memory`events, memory`clock
      ensures Valid()
      ensures memory.clock == old(memory.clock) + 1
      ensures memory.events == old(memory.events) +
        [Memory.EventRow(|old(memory.events)| + 1, "wake_word_detected", memory.clock, "Wake word detected", None)]
    {
      var id := memory.LogEvent("wake_word_detected", "Wake word detected", VNull);
    }

    /** `_handle_task_command`: launches the first mapped task, if any, and replies with
        its fixed sentence whatever the launch reported. */
    method HandleTaskCommand(command: string, now: int) returns (r: string)
      modifies tasks`runningTasks
      ensures r == TaskReply(command)
      ensures tasks.runningTasks ==
        if TaskFor(command).Some? then
          Tasks.Launched(old(tasks.runningTasks), TaskFor(command).value.task, TaskFor(command).value.params,
                         Tasks.Decide(tasks.tasks, TaskFor(command).value.task, TaskFor(command).value.params, now))
        else old(tasks.runningTasks)
    {
      var action := TaskFor(command);
      if action.Some? {
        var launched := tasks.ExecuteTask(action.value.task, action.value.params, now);
        return action.value.reply;
      }
      return UnknownTask;
    }

    /** `_handle_info_query`: one routed search, and the reply built from its results. */
    method HandleInfoQuery(query: string, now: int) returns (r: Access<string>)
      requires info.Valid()
      modifies info`searchHistory
      ensures info.Valid()
      ensures r == InfoReply(Results(info.providers, query), render)
      ensures info.searchHistory ==
        Trimmed(old(info.searchHistory) + [Retrieval.SearchEntry(query, Retrieval.DetermineSources(query), now)],
                Retrieval.MaxHistory)
    {
      var found := info.Search(query, None, now);
      assert found.results == Results(info.providers, query);
      r := InfoReply(found.results, render);
    }

    /** `_process_command`: lower-cases the command, then runs it as a task command, an
        information query, or neither. */
    method ProcessCommand(command: string, now: int) returns (r: Access<string>)
      requires info.Valid()
      modifies tasks`runningTasks, info`searchHistory
      ensures info.Valid()
      ensures r == Answer(info.providers, render, command)
      ensures tasks.runningTasks == TasksAfter(old(tasks.runningTasks), tasks.tasks, Lower(command), now)
      ensures info.searchHistory == HistoryAfter(old(info.searchHistory), Lower(command), now)
    {
      var c := Lower(command);
      if Kind(c) == TaskCommand {
        var reply := HandleTaskCommand(c, now);
        r := Found(reply);
      } else if Kind(c) == InfoQuery {
        r := HandleInfoQuery(c, now);
      } else {
        r := Found(NotUnderstood);
      }
    }

    /** `_on_speech_recognized`: the utterance is stored and announced to the
        command handlers, then answered; the answer is stored too unless building it
        raised. Both entries carry the current visitor. */
    method OnSpeechRecognized(text: string, now: int) returns (r: Access<string>)
      requires Valid()
      modifies memory`conversations, memory`recentConversations, memory`clock, this`calls,
               tasks`runningTasks, info`searchHistory
      ensures Valid()
      ensures r == Answer(info.providers, render, text)
      ensures calls == old(calls) + Invocations(eventHandlers, "on_command_received", [VStr(text)])
      ensures r.Found? ==>
        && memory.clock == old(memory.clock) + 2
        && memory.conversations ==
             Said(Said(old(memory.conversations), old(memory.clock) + 1, "user", text, currentVisitor),
                  memory.clock, "jarvis", r.value, currentVisitor)
      ensures r.TypeError? ==>
        && memory.clock == old(memory.clock) + 1
        && memory.conversations == Said(old(memory.conversations), memory.clock, "user", text, currentVisitor)
      ensures tasks.runningTasks == TasksAfter(old(tasks.runningTasks), tasks.tasks, Lower(text), now)
      ensures info.searchHistory == HistoryAfter(old(info.searchHistory), Lower(text), now)
    {
      Remember("user", text);
      TriggerEvent("on_command_received", [VStr(text)]);
      r := Respond(text, now);
    }

    /** The second half of `_on_speech_recognized`: the command is processed and the
        answer, unless building it raised, is stored. */
    method Respond(text: string, now: int) returns (r: Access<string>)
      requires Valid()
      modifies memory`conversations, memory`recentConversations, memory`clock, tasks`runningTasks, info`searchHistory
      ensures Valid()
      ensures r == Answer(info.providers, render, text)
      ensures r.Found? ==>
        && memory.clock == old(memory.clock) + 1
        && memory.conversations == Said(old(memory.conversations), memory.clock, "jarvis", r.value, currentVisitor)
        && memory.recentConversations == Spoken(old(memory.recentConversations), |memory.conversations|, memory.clock,
                                                "jarvis", r.value, memory.knownVisitors, currentVisitor)
      ensures r.TypeError? ==>
        && memory.clock == old(memory.clock) && memory.conversations == old(memory.conversations)
        && memory.recentConversations == old(memory.recentConversations)
      ensures tasks.runningTasks == TasksAfter(old(tasks.runningTasks), tasks.tasks, Lower(text), now)
      ensures info.searchHistory == HistoryAfter(old(info.searchHistory), Lower(text), now)
    {
      r := ProcessCommand(text, now);
      if r.Found? {
        Remember("jarvis", r.value);
      }
    }

    /** `add_conversation_entry` for the current visitor, without a sentiment. */
    method Remember(speaker: string, message: string)
      requires Valid()
      modifies memory`conversations, memory`recentConversations, memory`clock
      ensures Valid()
      ensures memory.clock == old(memory.clock) + 1
      ensures memory.conversations == Said(old(memory.conversations), memory.clock, speaker, message, currentVisitor)
      ensures memory.recentConversations == Spoken(old(memory.recentConversations), |memory.conversations|, memory.clock,
                                                   speaker, message, memory.knownVisitors, currentVisitor)
    {
      var id := memory.AddConversationEntry(speaker, message, currentVisitor, None);
    }

    /** `add_visitor` followed by `get_visitor` on the new id: the new row. */
    method Enrol(name: string, faceEncoding: Value, known: bool) returns (v: Memory.VisitorRow)
      requires Valid()
      modifies memory`visitors, memory`knownVisitors, memory`clock
      ensures Valid()
      ensures memory.clock == old(memory.clock) + 1
      ensures v == Memory.VisitorRow(|old(memory.visitors)| + 1, name, if Truthy(faceEncoding) then Some(faceEncoding) else None,
                                     memory.clock, memory.clock, 1, known, None)
      ensures memory.visitors == old(memory.visitors) + [v]
      ensures memory.knownVisitors ==
        if known then old(memory.knownVisitors)[v.id := Memory.KnownVisitor(Some(name), memory.clock, 1)]
        else old(memory.knownVisitors)
    {
      var id := memory.AddVisitor(name, faceEncoding, known, None);
      var stored := memory.GetVisitor(id);
      v := stored.value;
    }

    /** The end of `detect_visitor` for a detected visitor: it becomes the current
        visitor, is announced to the visitor handlers, and `visitor_detected` is logged
        with its id and known flag. */
    method Announce(v: Memory.VisitorRow)
      requires Valid() && 1 <= v.id <= |memory.visitors|
      modifies this`currentVisitor, this`calls, memory`events, memory`clock
      ensures Valid()
      ensures currentVisitor == Some(v.id)
      ensures calls == old(calls) + Invocations(eventHandlers, "on_visitor_detected", [VisitorValue(v)])
      ensures memory.clock == old(memory.clock) + 1
      ensures memory.events == Detected(old(memory.events), memory.clock, v)
    {
      currentVisitor := Some(v.id);
      TriggerEvent("on_visitor_detected", [VisitorValue(v)]);
      var id := memory.LogEvent("visitor_detected", "Visitor detected: " + v.name, DetectionMetadata(v));
    }

    /** The state after a returning visitor `v` was detected, given the state before: its
        visit was recorded in the table and the cache, a `visitor_visit` and a
        `visitor_detected` event were logged, it is the current visitor and the visitor
        handlers were told. */
    ghost predicate Revisited(v: Memory.VisitorRow, visitors0: seq<Memory.VisitorRow>,
                              known0: map<int, Memory.KnownVisitor>, events0: seq<Memory.EventRow>, clock0: nat,
                              calls0: seq<Call>)
      reads this, memory
    {
      && 1 <= v.id <= |visitors0|
      && memory.clock == clock0 + 2
      && memory.visitors == Memory.AfterVisit(visitors0, v.id, clock0 + 1)
      && memory.knownVisitors == Memory.CacheAfterVisit(known0, v.id, clock0 + 1, visitors0[v.id - 1].visitCount + 1)
      && memory.events == Detected(Memory.VisitLogged(events0, visitors0, v.id, clock0 + 1), clock0 + 2, v)
      && currentVisitor == Some(v.id)
      && calls == calls0 + Invocations(eventHandlers, "on_visitor_detected", [VisitorValue(v)])
    }

    /** The state after newcomer `v` was detected, given the state before: it is a new row,
        seen once, with the given name, the encoding when it is truthy, and the known flag;
        it was added to the table (and to the cache when known), a `visitor_detected` event
        was logged, it is the current visitor and the visitor handlers were told. */
    ghost predicate Welcomed(v: Memory.VisitorRow, name: string, faceEncoding: Value, known: bool,
                             visitors0: seq<Memory.VisitorRow>, known0: map<int, Memory.KnownVisitor>,
                             events0: seq<Memory.EventRow>, clock0: nat, calls0: seq<Call>)
      reads this, memory
    {
      && v == Memory.VisitorRow(|visitors0| + 1, name, if Truthy(faceEncoding) then Some(faceEncoding) else None,
                                clock0 + 1, clock0 + 1, 1, known, None)
      && memory.clock == clock0 + 2
      && memory.visitors == visitors0 + [v]
      && memory.knownVisitors == (if v.known then known0[v.id := Memory.KnownVisitor(Some(v.name), clock0 + 1, 1)] else known0)
      && memory.events == Detected(events0, clock0 + 2, v)
      && currentVisitor == Some(v.id)
      && calls == calls0 + Invocations(eventHandlers, "on_visitor_detected", [VisitorValue(v)])
    }

    /** `detect_visitor` for a returning visitor: the visit is recorded with its
        `visitor_visit` event, then the visitor is announced. It calls the corrected
        `RecordVisitorVisit`; `RecordVisitorVisitAsWritten` would leave out the event. */
    method Revisit(v: Memory.VisitorRow)
      requires Valid() && 1 <= v.id <= |memory.visitors| && memory.visitors[v.id - 1] == v
      modifies memory`visitors, memory`knownVisitors, memory`clock, memory`events, this`currentVisitor, this`calls
      ensures Valid()
      ensures Revisited(v, old(memory.visitors), old(memory.knownVisitors), old(memory.events), old(memory.clock), old(calls))
    {
      var ok := memory.RecordVisitorVisit(v.id);
      assert memory.knownVisitors ==
        Memory.CacheAfterVisit(old(memory.knownVisitors), v.id, old(memory.clock) + 1, old(memory.visitors)[v.id - 1].visitCount + 1);
      Announce(v);
    }

    /** `detect_visitor` for a newcomer: the new visitor is enrolled, then announced. */
    method Welcome(name: string, faceEncoding: Value, known: bool) returns (v: Memory.VisitorRow)
      requires Valid()
      modifies memory`visitors, memory`knownVisitors, memory`clock, memory`events, this`currentVisitor, this`calls
      ensures Valid()
      ensures Welcomed(v, name, faceEncoding, known, old(memory.visitors), old(memory.knownVisitors), old(memory.events),
                       old(memory.clock), old(calls))
    {
      v := Enrol(name, faceEncoding, known);
      Announce(v);
    }

    /** The state after a sighting was handled, given the state before: a returning
        visitor is revisited and its row as it was returned, a newcomer is welcomed and its
        new row returned, and for nobody nothing changes and nothing is returned. */
    ghost predicate Handled(s: Sighting, r: Option<Memory.VisitorRow>, faceEncoding: Value,
                            visitors0: seq<Memory.VisitorRow>, known0: map<int, Memory.KnownVisitor>,
                            events0: seq<Memory.EventRow>, clock0: nat, calls0: seq<Call>, current0: Option<int>)
      reads this, memory
    {
      match s
      case Returning(v) => r == Some(v) && Revisited(v, visitors0, known0, events0, clock0, calls0)
      case Newcomer(name, known) =>
        r.Some? && Welcomed(r.value, name, faceEncoding, known, visitors0, known0, events0, clock0, calls0)
      case Nobody =>
        && r == None && memory.visitors == visitors0 && memory.knownVisitors == known0 && memory.events == events0
        && memory.clock == clock0 && calls == calls0 && currentVisitor == current0
    }

    /** `detect_visitor`: a returning visitor's visit is recorded (with its
        `visitor_visit` event) and the row as it was before the visit is returned; a
        newcomer is enrolled and its new row returned; either is then announced. With
        neither an encoding nor a name nothing happens. */
    method DetectVisitor(faceEncoding: Value, name: Option<string>) returns (r: Option<Memory.VisitorRow>)
      requires Valid()
      modifies memory`visitors, memory`knownVisitors, memory`clock, memory`events, this`currentVisitor, this`calls
      ensures Valid()
      ensures Handled(Sight(old(memory.visitors), faceEncoding, name), r, faceEncoding, old(memory.visitors),
                      old(memory.knownVisitors), old(memory.events), old(memory.clock), old(calls),
                      old(currentVisitor))
    {
      if Truthy(faceEncoding) {
        r := DetectFace(faceEncoding, name);
      } else if NameGiven(name) {
        var v := Welcome(name.value, VNull, true);
        r := Some(v);
      } else {
        r := None;
      }
    }

    /** `detect_visitor` given a truthy encoding: a visitor whose row has an encoding is
        revisited, otherwise the visitor is enrolled under the given name, or as an
        unknown visitor when no name is given. */
    method DetectFace(faceEncoding: Value, name: Option<string>) returns (r: Option<Memory.VisitorRow>)
      requires Valid() && Truthy(faceEncoding)
      modifies memory`visitors, memory`knownVisitors, memory`clock, memory`events, this`currentVisitor, this`calls
      ensures Valid()
      ensures Handled(Sight(old(memory.visitors), faceEncoding, name), r, faceEncoding, old(memory.visitors),
                      old(memory.knownVisitors), old(memory.events), old(memory.clock), old(calls),
                      old(currentVisitor))
    {
      ghost var sighting := Sight(memory.visitors, faceEncoding, name);
      var found := memory.FindVisitorByFace(faceEncoding);
      if found.Some? {
        assert sighting == Returning(found.value);
        Revisit(found.value);
        r := found;
      } else if NameGiven(name) {
        assert sighting == Newcomer(name.value, true);
        var v := Welcome(name.value, faceEncoding, true);
        r := Some(v);
      } else {
        assert sighting == Newcomer("Unknown Visitor", false);
        var v := Welcome("Unknown Visitor", faceEncoding, false);
        r := Some(v);
      }
    }
  }

  /** The voice front end and the memory as `__init__` leaves them: the two voice
      callbacks registered and `system_init` logged in a new database. */
  method SetUpFrontEnd() returns (voice: Voice.VoiceRecognition, memory: Memory.MemorySystem)
    ensures fresh(voice) && fresh(memory)
    ensures voice.Valid() && memory.Valid()
    ensures voice.wakeWord == "jarvis" && voice.language == "en-US" && voice.calls == [] && !voice.isListening
    ensures voice.callbacks ==
      Register(Register(Empty(Voice.VoiceEvents), "on_wake_word", WakeWordCallback), "on_speech_recognized", SpeechCallback)
    ensures memory.visitors == [] && memory.conversations == [] && memory.knownVisitors == map[] && memory.clock == 1
    ensures memory.events == [InitEvent(1, 1)]
  {
    voice := new Voice.VoiceRecognition("jarvis", "en-US");
    memory := new Memory.MemorySystem();
    JarvisCore.SetupCallbacks(voice, memory);
  }

  /** The four components `__init__` creates, each in its initial state, after
      `_setup_callbacks` has run. The task and retrieval components are independent of
      the other two, so creating them last changes nothing. */
  method NewComponents(providers: Retrieval.Providers)
    returns (memory: Memory.MemorySystem, tasks: Tasks.TaskAutomation, info: Retrieval.InformationRetrieval,
             voice: Voice.VoiceRecognition)
    ensures fresh(memory) && fresh(tasks) && fresh(info) && fresh(voice)
    ensures memory.Valid() && tasks.Valid() && info.Valid() && voice.Valid()
    ensures memory.visitors == [] && memory.conversations == [] && memory.knownVisitors == map[] && memory.clock == 1
    ensures memory.events == [InitEvent(1, 1)]
    ensures tasks.runningTasks == map[] && tasks.tasks == Tasks.DefaultTasks()
    ensures info.providers == providers && info.searchHistory == []
    ensures voice.wakeWord == "jarvis" && voice.language == "en-US" && voice.calls == [] && !voice.isListening
    ensures voice.callbacks ==
      Register(Register(Empty(Voice.VoiceEvents), "on_wake_word", WakeWordCallback), "on_speech_recognized", SpeechCallback)
  {
    voice, memory := SetUpFrontEnd();
    tasks := new Tasks.TaskAutomation();
    info := new Retrieval.InformationRetrieval(providers);
  }

  /** The placeholder face matcher at the orchestrator's level: once a visitor with a
      face is added to a table in which no row has one, every later face, whoever it
      belongs to and whatever name comes with it, is taken for that visitor. */
  lemma {:induction false} AnyFaceIsTheEnrolledVisitor(visitors: seq<Memory.VisitorRow>, v: Memory.VisitorRow,
                                                        faceEncoding: Value, name: Option<string>)
    requires forall i :: 0 <= i < |visitors| ==> !Memory.HasTruthyEncoding(visitors[i])
    requires Memory.HasTruthyEncoding(v)
    requires Truthy(faceEncoding)
    ensures Sight(visitors + [v], faceEncoding, name) == Returning(v)
  {
    var vs := visitors + [v];
    assert vs[|visitors|] == v;
    assert forall i :: 0 <= i < |visitors| ==> vs[i] == visitors[i];
  }
}
