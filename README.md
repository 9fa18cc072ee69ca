# Jarvis assistant core, modelled in Dafny

Jarvis is a home-assistant program with five core components:

- the **memory system**, a write-through cache over four SQLite tables: user preferences, visitors, conversations and events;
- the **task automation** executor, a registry of tasks and routines that launches tasks on worker threads and keeps a bounded history;
- the **information retrieval** dispatcher, which routes a query to its sources by keywords, runs them and keeps a bounded search history; its local knowledge base and the calculator's expression extraction are part of it;
- the **voice recognition** front end's state: the listening flag, the callback registry, the language and the configuration;
- the **Jarvis core**, the session orchestrator. It wires the components together, answers utterances by launching a task or querying for information, identifies visitors, and keeps its own event-handler registry.

The project models each component in the form the program has.

- Objects that update their fields in place become Dafny classes: `Memory.MemorySystem`, `Tasks.TaskAutomation`, `Retrieval.InformationRetrieval`, `Voice.VoiceRecognition` and `Integration.JarvisCore`. Their methods carry `modifies` clauses and state their whole new state.
- Loops in the source become `while` loops with invariants:
  - the cache load;
  - the `SET`-clause builder;
  - the face matcher;
  - the parameter check;
  - the routine runner;
  - the search fan-out;
  - the location scan;
  - the callback dispatch.
- Keyword chains, first-match lookups and reply formatting become functions. Lemmas relate those functions to independent statements of what they mean.

The model makes these substitutions for effects it cannot run:

- The SQLite tables are in-memory sequences and maps. The row at index `i` has the auto-incremented id `i + 1`.
- JSON encoding is the identity.
- `datetime.now()` is the memory system's clock field, which ticks once per timestamp handed out. Timestamps therefore increase with insertion, and `ORDER BY timestamp DESC` means newest first.
- `time.time()` is an integer parameter rather than a float. It is `now` for one call, and `times`, one entry per step, for a routine, since each step's `execute_task` reads the clock again. `search` reads the clock twice, once for the history and once for the result, and one `now` stands for both.
- Worker threads run in sequence. A task's completion is the separate step `Complete`.
- Callbacks and handlers are opaque ids. Invoking one is recorded as a `Call` in a `calls` log.

## Model

| member | source | states |
|---|---|---|
| Values.Get | core/integration.py:206-209 | `d.get(key, default)` succeeds exactly on dictionaries, returning the stored value or the default |
| Values.Index | core/integration.py:239-240 | `d[key]` succeeds exactly on a dictionary holding the key, returning its value |
| Text.Lower | core/information_retrieval.py:109 | `lower()` keeps the length and lower-cases each character |
| Text.LowerWithoutUpper | core/information_retrieval.py:438 | lower-casing a string without upper-case letters changes nothing |
| Text.ContainsAnyIff | core/information_retrieval.py:112 | `any(w in s for w in words)` holds exactly when some word occurs in `s` |
| Text.ContainsPrefix | core/integration.py:150 | a string containing `p + q` contains `p` |
| Text.WordEndIsFirstSpace | core/information_retrieval.py:331 | the first word of a string ends at the first whitespace character |
| Text.SplitWordsAreWords | core/information_retrieval.py:331 | every word `split()` yields is non-empty and has no whitespace |
| Text.SplitWordsOfWord | core/information_retrieval.py:331 | a non-empty string without whitespace splits into exactly itself |
| Text.SplitBeforeSpace | core/information_retrieval.py:331 | the words of `a + x`, where `x` starts with whitespace, are the words of `a` followed by those of `x` |
| Text.SplitAtSpace | core/information_retrieval.py:331 | splitting at a whitespace character gives the words of the left side followed by the words of the right side, so that with `SplitWordsOfWord` the words and their order are fixed |
| Text.WordEndAppend | core/information_retrieval.py:331 | the first word of `a + x` is the first word of `a`, unless `a` has no whitespace and the word runs on into `x` |
| Text.ContainsAt | core/information_retrieval.py:112 | `part in s` holds when `part` occurs at some position of `s` |
| Text.AbsentChar | core/information_retrieval.py:112 | `part in s` fails when `part` holds a character that `s` lacks |
| Text.ReplaceAbsent | core/information_retrieval.py:439-443 | `replace` of a pattern whose first character is absent leaves the string unchanged |
| Seqs.PyTailOfNegated | core/task_automation.py:222 | `s[-n:]` is the last `n` elements for positive `n`, everything for 0, and all but the first `-n` for negative `n` |
| Seqs.Trimmed | core/task_automation.py:161-162 | the history trim keeps the newest `min(len, max)` entries in order |
| Seqs.AppendTrimmed | core/information_retrieval.py:76-83 | appending and trimming keeps the history bounded, puts the new entry last, and drops at most the oldest one |
| Seqs.NewestFirst | core/memory_system.py:132 | `ORDER BY timestamp DESC LIMIT n` over rows in insertion order returns the last `min(n, len)` rows, newest first, and a negative limit returns all of them |
| Seqs.FirstWhere | core/information_retrieval.py:215-222 | the first index satisfying the predicate, with None exactly when no element does |
| Seqs.Select | core/memory_system.py:626-629 | a `WHERE` filter keeps only rows that satisfy it and never grows the table |
| Seqs.SelectAll | core/information_retrieval.py:451-454 | a filter every row passes keeps the whole table |
| Seqs.SelectAppend | core/information_retrieval.py:451-454 | filtering `a + b` gives the rows kept from `a` followed by those kept from `b` |
| Seqs.SelectSingle | core/information_retrieval.py:451-454 | a one-row table keeps its row exactly when the row satisfies the filter |
| Seqs.SelectComplete | core/memory_system.py:550-557 | a row that satisfies the filter is never lost |
| Seqs.SelectIncreasing | core/memory_system.py:550-557 | filtering keeps the timestamp order |
| Seqs.NewestFirstOrder | core/memory_system.py:626-635 | the query result is in strictly decreasing timestamp order; every row left out is older than every row returned; a short result leaves nothing out |
| Seqs.QueryProperties | core/memory_system.py:550-575 | a filtered newest-first query returns at most `limit` matching rows, newest first, every matching row left out older than every row returned, and none left out when fewer than `limit` come back |
| Observers.Empty | core/voice_recognition.py:30-35 | a new registry has exactly the fixed event types, each with no handler |
| Observers.Register | core/voice_recognition.py:122-123 | registering appends the handler for a known type and changes nothing for an unknown type |
| Observers.Dispatch | core/voice_recognition.py:133-135 | the dispatch loop calls every handler once, in order, with the same arguments |
| Observers.RegisterThenInvoke | core/integration.py:314-327 | a handler registered for a known type is invoked last when that type is next triggered; an unknown type's handlers are never invoked; other types are unaffected |
| Memory.CachePut | core/memory_system.py:215-218 | after `setdefault(category, {})[key] = value` the pair reads back as `value`, and every other pair is unchanged |
| Memory.Reloaded | core/memory_system.py:111-117 | the cache rebuilt from the table finds exactly what the table holds |
| Memory.SetThenGet | core/memory_system.py:182-220 | `get_preference` after `set_preference(k, v, c)` returns `v` |
| Memory.MissReturnsDefault | core/memory_system.py:159-180 | a pair in neither the cache nor the table reads as the default; a read leaves the cache unchanged unless the value came from the table |
| Memory.ReadIsIdempotent | core/memory_system.py:159-180 | a second read returns the same value and no longer changes the cache |
| Memory.OneRowPerKey | core/memory_system.py:200-218 | setting a key under a second category replaces the row; the cache keeps both categories; a rebuilt cache loses the first |
| Memory.ApplyFields | core/memory_system.py:348-349 | an update never changes the id, the visit count or the visit times |
| Memory.RecognizedClausesSuffice | core/memory_system.py:332-349 | applying only the recognised clauses gives the same row as applying every argument |
| Memory.KnownAfterUpdate | core/memory_system.py:332-335 | after an update the visitor is known exactly when `known` was passed as true, or was not passed and the visitor was known before |
| Memory.RecentFromTable | core/memory_system.py:128-134 | the loaded recent-conversations cache holds at most 50 entries |
| Memory.MemorySystem.constructor | core/memory_system.py:14-40 | a new database: empty tables, empty cache, clock at 0 |
| Memory.MemorySystem.Open | core/memory_system.py:100-140 | over existing tables the cache finds exactly the table's preferences, caches exactly the visitors marked known, and holds the 50 newest conversations |
| Memory.MemorySystem.LoadCache | core/memory_system.py:100-140 | `_load_cache` merges the table's preferences and known visitors into the cache and replaces the recent conversations |
| Memory.MemorySystem.LoadPreferences | core/memory_system.py:112-117 | every stored preference is cached under its category, and other cached pairs are kept |
| Memory.MemorySystem.LoadKnownVisitors | core/memory_system.py:120-126 | every visitor marked known is cached from its row, and other cached visitors are kept |
| Memory.MemorySystem.GetPreference | core/memory_system.py:144-180 | the cached value, else the table's value (which is then cached), else the default |
| Memory.MemorySystem.SetPreference | core/memory_system.py:182-220 | always True; the row keyed on the key alone is upserted, and the value is cached under the category |
| Memory.MemorySystem.GetAllPreferences | core/memory_system.py:222-266 | with a category, exactly that category's rows by key; otherwise every row grouped by category, with no empty group |
| Memory.MemorySystem.AddVisitor | core/memory_system.py:268-309 | a fresh id; one visit; first visit equal to last visit; a falsy encoding stored as NULL; cached exactly when known |
| Memory.MemorySystem.GetVisitor | core/memory_system.py:367-396 | the row with the given id, present exactly when such a row exists |
| Memory.MemorySystem.IsKnownVisitor | core/memory_system.py:457-482 | true exactly when the visitor is in the known-visitor cache |
| Memory.MemorySystem.FindVisitorByFace | core/memory_system.py:419-432 | the first visitor in table order whose stored encoding is truthy, and None exactly when there is none |
| Memory.MemorySystem.RecognizedClauses | core/memory_system.py:332-338 | the clause loop keeps exactly the recognised keywords, in order |
| Memory.MemorySystem.UpdateVisitor | core/memory_system.py:311-365 | False when no keyword is given or none is recognised, or when the row is missing; otherwise the row is updated; the cache refresh follows `(success and known) or is_known_visitor(id)` |
| Memory.MemorySystem.StoreVisitor | core/memory_system.py:348-363 | the `UPDATE` of one row and the cache refresh that follows it |
| Memory.MemorySystem.RecordVisitorVisitAsWritten | core/memory_system.py:650-711 | as written: the visit count goes up by one and the last visit moves, but the event table is unchanged |
| Memory.MemorySystem.RecordVisitorVisit | core/memory_system.py:650-711 | on an existing id: the count goes up by exactly one and one `visitor_visit` event is logged with the new count; on a missing id: False and no change |
| Memory.MemorySystem.VisitCommitted | core/memory_system.py:663-707 | the committed update, and a cache refresh of an existing entry only |
| Memory.MemorySystem.AddConversationEntry | core/memory_system.py:486-533 | the table grows by one row; the new entry goes to the front of the recent cache, which stays at most 50 entries |
| Memory.MemorySystem.GetConversationHistory | core/memory_system.py:535-577 | at most `limit` entries, newest first, only the given visitor's; every entry left out is older than every entry returned; each entry carries its visitor's name |
| Memory.MemorySystem.LogEvent | core/memory_system.py:579-609 | one new row with the next id; falsy metadata is stored as NULL |
| Memory.MemorySystem.GetEvents | core/memory_system.py:611-648 | at most `limit` events, newest first, only the given type; every event left out is older than every event returned |
| Memory.LostVisitEvent | core/memory_system.py:677-709 | as written, a recorded visit is counted, but no `visitor_visit` event can be read back |
| Memory.RecordedVisitEvents | core/memory_system.py:680-697 | corrected, two visits read back newest first with visit counts 3 and 2 |
| Memory.VisitedTwice | core/memory_system.py:650-711 | two recorded visits give count 3 and two `visitor_visit` events in timestamp order |
| Tasks.FirstMissing | core/task_automation.py:123-125 | the first required parameter, in declared order, that is missing, and None exactly when all are present |
| Tasks.Decide | core/task_automation.py:114-140 | not found exactly for an unknown task; missing-parameter exactly when a required parameter is absent; started, with id `name_now`, exactly when all are present |
| Tasks.StartedIdsSound | core/task_automation.py:184-189 | every id a routine starts is started by one of its steps, each step at its own time |
| Tasks.StartedIdsComplete | core/task_automation.py:184-189 | every id a step starts is among the routine's ids |
| Tasks.StartedIdsIff | core/task_automation.py:184-189 | an id is started by a routine exactly when one of its steps starts it |
| Tasks.LaunchAllRecords | core/task_automation.py:184-189 | a routine adds a running record for exactly the ids its steps start and changes no other record |
| Tasks.DefaultRoutinesStart | core/task_automation.py:67-101 | every step of every predefined routine starts on the predefined tasks |
| Tasks.TaskAutomation.constructor | core/task_automation.py:12-24 | the five predefined tasks, the three routines, nothing running, empty history |
| Tasks.TaskAutomation.ExecuteTask | core/task_automation.py:103-142 | the launch result is `Decide`'s; only a started task is recorded as running under its id |
| Tasks.TaskAutomation.Complete | core/task_automation.py:144-166 | a returned value completes the record and appends exactly one entry to the bounded history; an exception fails the record and adds no entry |
| Tasks.TaskAutomation.ExecuteRoutine | core/task_automation.py:168-195 | an unknown routine launches nothing; otherwise there is one result per step, in declared order, step `i` decided at its own clock reading `times[i]`, and the running tasks are those `LaunchAll` gives |
| Tasks.TaskAutomation.GetTaskStatus | core/task_automation.py:197-210 | the stored record for a known id, and the not-found message otherwise |
| Tasks.TaskAutomation.GetTaskHistory | core/task_automation.py:212-222 | `task_history[-limit:]` for every integer limit |
| Tasks.TaskAutomation.AddTask | core/task_automation.py:224-247 | False with no change for an existing name; otherwise the task is inserted |
| Tasks.TaskAutomation.AddRoutine | core/task_automation.py:249-271 | False with no change for an existing name; otherwise the routine is inserted |
| Tasks.MorningRoutine | core/task_automation.py:168-195 | the morning routine on a new executor starts its three tasks, in order, each with the id of its own clock reading |
| Retrieval.Classify | core/information_retrieval.py:109-131 | time, weather, date, calculator (keywords or symbols) and news, checked in that order on the lower-cased query; the first to match wins |
| Retrieval.DetermineSources | core/information_retrieval.py:99-133 | a non-empty list of known source names, and `["web", "knowledge_base"]` exactly when nothing matched |
| Retrieval.TimeRouted | core/information_retrieval.py:112-113 | a lower-case query holding "time" goes to the time source alone |
| Retrieval.WeatherRouted | core/information_retrieval.py:112-117 | a lower-case query holding "weather" and no time word goes to the weather source alone |
| Retrieval.NoTimeWords | core/information_retrieval.py:112 | a query without the letters m, u and c holds none of the time words |
| Retrieval.TimeQueryRoute | tests/test_jarvis.py:151-152 | "what time is it" is routed to `["time"]` |
| Retrieval.WeatherQueryRoute | tests/test_jarvis.py:147-148 | "what's the weather like today" is routed to `["weather"]` |
| Retrieval.FirstMatch | core/information_retrieval.py:215-216 | the first entry, in dictionary order, whose key contains the query or is contained in it |
| Retrieval.LookUpFindsFirstMatch | core/information_retrieval.py:215-227 | the knowledge-base loop returns the first matching entry's title and content, and the not-found reply exactly when no entry matches |
| Retrieval.EmptyQueryFindsFirstEntry | core/information_retrieval.py:216 | the empty query matches the first entry |
| Retrieval.ExtractMathExpression | core/information_retrieval.py:426-456 | None exactly when the pattern finds nothing; otherwise the expression is the rewritten query's digits and operator characters, each kept once and in order (the `Select` filter, whose meaning `SelectAppend` and `SelectSingle` fix), so it holds no other character and loses none of these |
| Retrieval.NoLetters | core/information_retrieval.py:447-453 | an extracted expression has no letters |
| Retrieval.ExpressionUnchanged | core/information_retrieval.py:438-443 | lower-casing and replacing the word operators leave an extracted expression unchanged |
| Retrieval.ExtractionIdempotent | core/information_retrieval.py:426-456 | a non-empty extracted expression extracts to itself |
| Retrieval.Calculate | core/information_retrieval.py:388-424 | a missing or empty expression is refused before evaluation; otherwise the reply carries the expression and reports whether evaluation succeeded |
| Retrieval.Slot | core/information_retrieval.py:91-97 | a source's result, or `{"error": message}` when it raises |
| Retrieval.ExtractLocation | core/information_retrieval.py:317-338 | the capitalised word after the first indicator that is not the last word, and None exactly when there is none |
| Retrieval.InformationRetrieval.constructor | core/information_retrieval.py:14-35 | the given providers and an empty history |
| Retrieval.InformationRetrieval.Search | core/information_retrieval.py:37-89 | result keys are exactly the requested names that are known sources, each slot filled by its own source; the query comes back unchanged; one entry is appended to the bounded history |
| Retrieval.InformationRetrieval.GetSearchHistory | core/information_retrieval.py:135-146 | `search_history[-limit:]` for every integer limit |
| Voice.ConfigUpdate | core/voice_recognition.py:154 | `dict.update` overwrites the given keys and keeps the others |
| Voice.VoiceRecognition.constructor | core/voice_recognition.py:16-45 | a new instance is not listening, has not heard the wake word, and has four empty callback lists and the default configuration |
| Voice.VoiceRecognition.TriggerCallbacks | core/voice_recognition.py:125-135 | every callback for the type, in registration order, with the given arguments, and nothing for an unknown type |
| Voice.VoiceRecognition.Start | core/voice_recognition.py:47-55 | from not listening: listening, and `on_listening_started` fired once; while listening: no change |
| Voice.VoiceRecognition.Stop | core/voice_recognition.py:57-64 | from listening: stopped, and `on_listening_stopped` fired once; while not listening: no change |
| Voice.VoiceRecognition.AddCallback | core/voice_recognition.py:114-123 | appended for the four event types and ignored otherwise |
| Voice.VoiceRecognition.SetLanguage | core/voice_recognition.py:137-145 | only the language changes |
| Voice.VoiceRecognition.UpdateConfig | core/voice_recognition.py:147-155 | the given keys are overwritten and the others kept |
| Integration.Kind | core/integration.py:147-158 | task phrases win over question words, and anything else is unrecognised |
| Integration.TaskFor | core/integration.py:171-185 | a mapping line whose phrase occurs in the command, and None exactly when no line's phrase does |
| Integration.TaskForIsFirst | core/integration.py:171-185 | the line picked is the first in if/elif order: no earlier line's phrase occurs in the command |
| Integration.MentionedPhraseIsTaskPhrase | core/integration.py:150-185 | every mapped phrase contains a task phrase |
| Integration.MappedCommandsAreTaskCommands | core/integration.py:150-185 | a command the mapping recognises is always routed as a task command |
| Integration.MappedTasksStart | core/integration.py:171-185 | every mapped launch starts on the predefined tasks |
| Integration.AnsweringSource | core/integration.py:204-249 | the first slot of weather, time, date, calculator, web, knowledge_base present in the results |
| Integration.SourceReply | core/integration.py:204-249 | a slot that is not a dictionary makes the reply raise |
| Integration.InfoReply | core/integration.py:204-252 | the reply is built from the first present slot in the fixed order, and is the holding answer when there is none |
| Integration.ErrorSlotReadsAsEmpty | core/information_retrieval.py:97 | an `{"error": ...}` slot reads like an empty dictionary in every reply |
| Integration.FailedSourceReply | core/integration.py:226-249 | after a source raised, the calculator, web and knowledge-base replies give their fixed "nothing found" sentences |
| Integration.RouteReply | core/integration.py:204-252 | each route's first source answers; the news route gets the holding answer; the knowledge base never answers |
| Integration.RoutedReply | core/integration.py:190-252 | an unlisted search is answered from its routed source; a news query gets the holding answer; the knowledge base never answers |
| Integration.Answer | core/integration.py:137-158 | a task command always gets a reply; an unrecognised command gets the fallback; a question gets the search reply |
| Integration.Sight | core/integration.py:268-288 | returning exactly when an encoding is given and a stored face exists, and then the first visitor with a stored face; a newcomer without a name is "Unknown Visitor"; a newcomer is known exactly when a name is given; nobody exactly when neither input is given |
| Integration.DetectionMetadata | core/integration.py:296-300 | the `visitor_detected` metadata is never empty, so it is always stored |
| Integration.JarvisCore.constructor | core/integration.py:16-42 | fresh components; not running; no current visitor; four empty handler lists; the two voice callbacks registered; one `system_init` event |
| Integration.JarvisCore.SetupCallbacks | core/integration.py:44-55 | registers the two voice callbacks and logs exactly one `system_init` event |
| Integration.JarvisCore.TriggerEvent | core/integration.py:317-327 | every handler for the type, in registration order, with the given arguments, and nothing for an unknown type |
| Integration.JarvisCore.AddEventHandler | core/integration.py:306-315 | appended for the four event types and ignored otherwise |
| Integration.JarvisCore.Start | core/integration.py:57-75 | from stopped: running, recognition started once, `system_start` logged, "running" reported; while running: no change |
| Integration.JarvisCore.Stop | core/integration.py:77-95 | from running: stopped, recognition stopped once, `system_stop` logged, "stopped" reported; while stopped: no change |
| Integration.JarvisCore.OnWakeWord | core/integration.py:97-102 | only one `wake_word_detected` event is logged |
| Integration.JarvisCore.HandleTaskCommand | core/integration.py:160-188 | at most one launch, with the mapping's fixed parameters, and its fixed reply; no launch and the "not sure which task" reply when nothing matches |
| Integration.JarvisCore.HandleInfoQuery | core/integration.py:190-252 | one routed search, and the reply from its results |
| Integration.JarvisCore.ProcessCommand | core/integration.py:137-158 | the reply is `Answer`'s; tasks are launched and searches recorded only for the matching kind of command |
| Integration.JarvisCore.OnSpeechRecognized | core/integration.py:106-133 | a "user" entry, the command handlers told, then a "jarvis" entry with the reply, both tagged with the current visitor |
| Integration.JarvisCore.Respond | core/integration.py:126-133 | the command is processed and its reply stored in the table and at the front of the recent-conversations cache, unless building the reply raised, in which case neither changes |
| Integration.JarvisCore.Remember | core/integration.py:116-120 | one conversation entry for the current visitor, also put at the front of the recent-conversations cache, which keeps at most 50 |
| Integration.JarvisCore.Enrol | core/integration.py:277-278 | a new visitor row, returned as stored |
| Integration.JarvisCore.Announce | core/integration.py:291-302 | the visitor becomes the current visitor, the handlers are told, and `visitor_detected` is logged |
| Integration.JarvisCore.Revisit | core/integration.py:272-274 | the visit is recorded through the corrected `record_visitor_visit`, so with its `visitor_visit` event (see Findings), then the visitor is announced |
| Integration.JarvisCore.Welcome | core/integration.py:276-282 | the newcomer is enrolled, then announced |
| Integration.JarvisCore.DetectVisitor | core/integration.py:254-304 | a face match is revisited through the corrected `record_visitor_visit`; no match adds a known visitor with a name or "Unknown Visitor" without one; a name alone adds a known visitor; with neither nothing changes, the current visitor included, and None is returned |
| Integration.JarvisCore.DetectFace | core/integration.py:268-282 | the branch taken when an encoding is given, with a face match recorded through the corrected `record_visitor_visit` |
| Integration.SetUpFrontEnd | core/integration.py:21-27 | the voice front end with the two callbacks registered, and a new database holding only `system_init` |
| Integration.NewComponents | core/integration.py:21-27 | the four components in their initial states after `_setup_callbacks` |
| Integration.AnyFaceIsTheEnrolledVisitor | core/memory_system.py:419-432 | once one visitor has a face, every later face is taken for that visitor, whatever name comes with it |

## Left out

- Threads run in sequence in the model: the search fan-out with its 10-second joins, the daemon task threads, and the recognition loop. Timeouts and interleavings are not modelled.
- The simulated providers (web, news, weather, time, date) and the simulated task handlers are external functions. They appear as the `Providers` parameter and as the `Outcome` given to `Complete`. A `Providers` value is one fixed function, so within one instance a query always gets the same result from a source, although the simulated weather and time sources use `random` and the clock.
- The calculator's `eval` and its `f"{result:,}"` formatting are the external `eval` parameter.
- Retrieval.Calculate: states the refusal case in full, but on the evaluated path it states only the `success` and `expression` fields. The body gives the rest: `result` and `formatted_result` on success, `error` on failure.
- Python's `str()` of a float, a list or a dictionary is the `render` parameter.
- SQLite, the SQL text and JSON are replaced by in-memory tables and identity serialisation.
- `_init_database` only creates the schema, so it is not modelled.
- The memory system's default constructor models a new database. Reopening the file-backed default database is the `Open` constructor: the tables are given, and the cache is rebuilt.
- Timestamps are the integer clock, not ISO strings. Two timestamps never tie, so `ORDER BY timestamp DESC` has no tie-break to model.
- Case mapping covers ASCII letters only. `\d` is ASCII digits only, not every Unicode digit.
- `get_known_visitors` is not modelled. It is a read-only query.
- `search_conversations` is not modelled: the tests call it, but the memory system does not define it.
- `get_system_status` is not modelled. It only aggregates counts from the other components.
- `current_user` is not modelled: it is set and never read.
- The `print` calls and the `__main__` demo blocks are not modelled.
- The recognition loop, `_detect_wake_word` and `_recognize_speech` are not modelled: they depend on timing and randomness. `OnWakeWord` and `OnSpeechRecognized` are called directly.
- `execute_task`'s `params=None` default is the empty map.
- The `except` branch of `execute_task` is not modelled. It catches failures of thread creation, which cannot happen here.
- A routine step that lacks the `task` or `params` key would raise `KeyError` in `execute_routine`. Steps are well-formed records in the model.
- `search`'s `max_results` argument is not modelled: the source ignores it.
- Integration.JarvisCore.OnSpeechRecognized: does not state the `recent_conversations` cache, which is only required to stay within 50 entries.
- Integration.JarvisCore.Revisit, DetectFace, DetectVisitor: use the corrected `record_visitor_visit` of the Findings table, so a face match stores a `visitor_visit` event before `visitor_detected`. The source as written stores only `visitor_detected`, because the visit event is rolled back.
- Tasks.TaskAutomation.ExecuteRoutine: the clock readings `times` are given, one per step, and nothing relates them. `int(time.time())` never decreases and usually repeats within one routine, which the model neither requires nor rules out.
- Integration.NewComponents: creates the voice front end and the memory first, and the task and retrieval components after `_setup_callbacks`. Those two are independent of the first two, so the initial state is the same.
- The GUI (`gui/*.js`) and the Electron plumbing (`utils/*.js`) are not modelled.

## Findings

| source | as written | input that shows it | evidently intended | confidence | as-written member | corrected member |
|---|---|---|---|---|---|---|
| core/memory_system.py:677-709 | `record_visitor_visit` commits the visit update, then inserts the `visitor_visit` event and closes the connection without another commit. Python's `sqlite3` rolls the uncommitted insert back, so the event is never stored. | a new database, `add_visitor("Ada", known=True)`, then `record_visitor_visit(1)`: `get_events("visitor_visit")` is empty | the visit and its event are both stored, with the event's `visit_count` equal to the new count | not executed | Memory.MemorySystem.RecordVisitorVisitAsWritten (scenario Memory.LostVisitEvent) | Memory.MemorySystem.RecordVisitorVisit (scenario Memory.RecordedVisitEvents) |
