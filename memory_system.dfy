/** The assistant's memory: a write-through cache over four durable tables (preferences,
    visitors, conversations and events). The tables are in-memory values with SQLite's
    auto-incrementing ids (the row at index i has id i + 1). `datetime.now()` is the
    injected clock `clock`, which every operation that reads the time advances by one, so
    timestamps increase strictly with insertion and `ORDER BY timestamp DESC` is
    newest-insertion-first. */
module Memory {
  import opened Values
  import opened Text
  import opened Seqs

  /** How many conversation entries `recent_conversations` keeps. */
  const RecentCapacity: nat := 50

  /** A row of `user_preferences`; the table's primary key is the preference key alone. */
  datatype PrefRow = PrefRow(value: Value, category: string, lastUpdated: nat)

  /** A row of `visitors`; `faceEncoding` is None for SQL NULL. */
  datatype VisitorRow = VisitorRow(
    id: int, name: string, faceEncoding: Option<Value>, firstVisit: nat, lastVisit: nat,
    visitCount: int, known: bool, notes: Option<string>)

  /** A row of `conversations`. */
  datatype ConversationRow = ConversationRow(
    id: int, timestamp: nat, speaker: string, message: string,
    visitorId: Option<int>, sentiment: Option<string>)

  /** A row of `events`. */
  datatype EventRow = EventRow(
    id: int, eventType: string, timestamp: nat, description: string, metadata: Option<Value>)

  /** An entry of the `known_visitors` cache. `record_visitor_visit` can create an entry
      without a name, so the name is optional. */
  datatype KnownVisitor = KnownVisitor(name: Option<string>, lastVisit: nat, visitCount: int)

  /** An entry of the `recent_conversations` cache. */
  datatype RecentEntry = RecentEntry(
    conversationId: int, timestamp: nat, speaker: string, message: string, visitorName: Option<string>)

  /** A row of `get_conversation_history`: the entry joined with its visitor's name. */
  datatype ConversationView = ConversationView(entry: ConversationRow, visitorName: Option<string>)

  /** One preference as `get_all_preferences` reports it. */
  datatype PrefEntry = PrefEntry(value: Value, lastUpdated: nat)

  /** `get_all_preferences` returns key -> entry for one category, or category -> key -> entry. */
  datatype AllPreferences =
    | OneCategory(entries: map<string, PrefEntry>)
    | ByCategory(groups: map<string, map<string, PrefEntry>>)

  /** One keyword argument of `update_visitor`. `OtherField` stands for any key other than
      `name`, `known`, `notes` and `face_encoding`, which the update ignores. */
  datatype VisitorField =
    | SetName(name: string)
    | SetKnown(known: bool)
    | SetNotes(notes: Option<string>)
    | SetFaceEncoding(encoding: Value)
    | OtherField(key: string, value: Value)

  /** The preference cache: category, then key, then value. */
  type PreferenceCache = map<string, map<string, Value>>

  // ---------------------------------------------------------------------------------
  // Preferences, as values

  function CacheLookup(cache: PreferenceCache, category: string, key: string): Option<Value>
  {
    if category in cache && key in cache[category] then Some(cache[category][key]) else None
  }

  /** `cache.setdefault(category, {})[key] = value`. */
  function CachePut(cache: PreferenceCache, category: string, key: string, value: Value): (r: PreferenceCache)
    ensures r.Keys == cache.Keys + {category}
    ensures CacheLookup(r, category, key) == Some(value)
    ensures forall c, k :: (c != category || k != key) ==> CacheLookup(r, c, k) == CacheLookup(cache, c, k)
  {
    cache[category := (if category in cache then cache[category] else map[])[key := value]]
  }

  /** `SELECT value FROM user_preferences WHERE key = ? AND category = ?`. */
  function TableLookup(table: map<string, PrefRow>, category: string, key: string): Option<Value>
  {
    if key in table && table[key].category == category then Some(table[key].value) else None
  }

  /** What `get_preference` finds: the cache first, then the table. */
  function PreferenceRead(cache: PreferenceCache, table: map<string, PrefRow>, category: string, key: string): Option<Value>
  {
    if CacheLookup(cache, category, key).Some? then CacheLookup(cache, category, key)
    else TableLookup(table, category, key)
  }

  /** The cache after `get_preference`: a value found only in the table is copied into it. */
  function CacheAfterRead(cache: PreferenceCache, table: map<string, PrefRow>, category: string, key: string): PreferenceCache
  {
    if CacheLookup(cache, category, key).None? && TableLookup(table, category, key).Some? then
      CachePut(cache, category, key, TableLookup(table, category, key).value)
    else cache
  }

  /** The preference cache `_load_cache` builds from the table into an empty cache. */
  function Reloaded(table: map<string, PrefRow>): (r: PreferenceCache)
    ensures forall c, k :: CacheLookup(r, c, k) == TableLookup(table, c, k)
  {
    var categories := set k | k in table :: table[k].category;
    map c | c in categories :: map k | k in table && table[k].category == c :: table[k].value
  }

  /** `set_preference(k, v, c)` followed by `get_preference(k, c, d)` returns `v`. */
  lemma SetThenGet(cache: PreferenceCache, table: map<string, PrefRow>, key: string, value: Value,
                   category: string, now: nat, default: Value)
    ensures PreferenceRead(CachePut(cache, category, key, value), table[key := PrefRow(value, category, now)],
                           category, key).GetOr(default) == value
  {
  }

  /** A pair in neither the cache nor the table reads as the default; reading it, or a pair
      served from the cache, leaves the cache as it was. */
  lemma MissReturnsDefault(cache: PreferenceCache, table: map<string, PrefRow>, category: string, key: string, default: Value)
    ensures PreferenceRead(cache, table, category, key).None? <==>
      CacheLookup(cache, category, key).None? && TableLookup(table, category, key).None?
    ensures PreferenceRead(cache, table, category, key).None? ==>
      PreferenceRead(cache, table, category, key).GetOr(default) == default
    ensures TableLookup(table, category, key).None? || CacheLookup(cache, category, key).Some? ==>
      CacheAfterRead(cache, table, category, key) == cache
  {
  }

  /** Reading twice without an intervening write returns the same value both times, and the
      second read no longer changes the cache. */
  lemma ReadIsIdempotent(cache: PreferenceCache, table: map<string, PrefRow>, category: string, key: string)
    ensures var cache' := CacheAfterRead(cache, table, category, key);
      && PreferenceRead(cache', table, category, key) == PreferenceRead(cache, table, category, key)
      && CacheAfterRead(cache', table, category, key) == cache'
  {
  }

  /** The durable table holds one row per key: setting a key under a second category
      replaces the row's value and category, while the cache keeps both category entries.
      A cache rebuilt from the table then no longer finds the first category's value. */
  lemma OneRowPerKey(cache: PreferenceCache, table: map<string, PrefRow>, key: string,
                     v1: Value, c1: string, t1: nat, v2: Value, c2: string, t2: nat)
    requires c1 != c2
    ensures var table' := table[key := PrefRow(v1, c1, t1)][key := PrefRow(v2, c2, t2)];
      var cache' := CachePut(CachePut(cache, c1, key, v1), c2, key, v2);
      && table' == table[key := PrefRow(v2, c2, t2)]
      && PreferenceRead(cache', table', c1, key) == Some(v1)
      && PreferenceRead(cache', table', c2, key) == Some(v2)
      && PreferenceRead(Reloaded(table'), table', c1, key) == None
      && PreferenceRead(Reloaded(table'), table', c2, key) == Some(v2)
  {
  }

  // ---------------------------------------------------------------------------------
  // Visitors and update_visitor's keyword arguments, as values

  /** `update_visitor` acts on the four recognised keys and ignores every other one. */
  predicate IsRecognized(f: VisitorField) { !f.OtherField? }

  /** One `SET column = ?` clause. A face encoding is stored serialised even when it is
      falsy, unlike in `add_visitor`. */
  function ApplyField(row: VisitorRow, f: VisitorField): VisitorRow
  {
    match f
    case SetName(n) => row.(name := n)
    case SetKnown(k) => row.(known := k)
    case SetNotes(n) => row.(notes := n)
    case SetFaceEncoding(e) => row.(faceEncoding := Some(e))
    case OtherField(_, _) => row
  }

  /** The `UPDATE visitors SET ...` statement for a list of clauses. An update never touches
      the id, the visit count or the visit times. */
  function ApplyFields(row: VisitorRow, fs: seq<VisitorField>): (r: VisitorRow)
    ensures r.id == row.id && r.visitCount == row.visitCount
    ensures r.firstVisit == row.firstVisit && r.lastVisit == row.lastVisit
    decreases |fs|
  {
    if fs == [] then row else ApplyField(ApplyFields(row, fs[..|fs| - 1]), fs[|fs| - 1])
  }

  /** The value of `kwargs['known']`, if the key is present. */
  function KnownArgument(fs: seq<VisitorField>): Option<bool>
    decreases |fs|
  {
    if fs == [] then None
    else if fs[|fs| - 1].SetKnown? then Some(fs[|fs| - 1].known)
    else KnownArgument(fs[..|fs| - 1])
  }

  /** Building the clause list from the recognised keys only loses nothing: the update
      equals one that applied every argument. */
  lemma {:induction false} RecognizedClausesSuffice(row: VisitorRow, fs: seq<VisitorField>)
    ensures ApplyFields(row, Select(fs, IsRecognized)) == ApplyFields(row, fs)
    decreases |fs|
  {
    if fs != [] {
      var prefix := fs[..|fs| - 1];
      var last := fs[|fs| - 1];
      RecognizedClausesSuffice(row, prefix);
      var init := Select(prefix, IsRecognized);
      assert ApplyFields(row, init) == ApplyFields(row, prefix);
      assert ApplyFields(row, fs) == ApplyField(ApplyFields(row, prefix), last);
      if IsRecognized(last) {
        var sel := Select(fs, IsRecognized);
        assert sel == init + [last];
        assert sel[..|sel| - 1] == init;
        assert ApplyFields(row, sel) == ApplyField(ApplyFields(row, init), last);
      } else {
        assert Select(fs, IsRecognized) == init;
      }
    }
  }

  /** After an update the visitor is known exactly when `known` was passed as true, or when
      it was not passed and the visitor was known before. */
  lemma {:induction false} KnownAfterUpdate(row: VisitorRow, fs: seq<VisitorField>)
    ensures ApplyFields(row, fs).known == KnownArgument(fs).GetOr(row.known)
    decreases |fs|
  {
    if fs != [] {
      KnownAfterUpdate(row, fs[..|fs| - 1]);
    }
  }

  /** The visitor table after row `id` was visited at `time`: the last visit moves and the
      count goes up by one. */
  function AfterVisit(vs: seq<VisitorRow>, id: int, time: nat): seq<VisitorRow>
    requires 1 <= id <= |vs|
  {
    vs[id - 1 := vs[id - 1].(lastVisit := time, visitCount := vs[id - 1].visitCount + 1)]
  }

  /** The cache after that visit: an entry for the visitor, if there is one, takes the new
      time and count; no entry is created. */
  function CacheAfterVisit(known: map<int, KnownVisitor>, id: int, time: nat, count: int): map<int, KnownVisitor>
  {
    if id in known then known[id := known[id].(lastVisit := time, visitCount := count)] else known
  }

  /** The `visitor_visit` event logged after `events` for the re-read row `v`. */
  function VisitEvent(events: seq<EventRow>, id: int, time: nat, v: VisitorRow): EventRow
  {
    EventRow(|events| + 1, "visitor_visit", time, "Visitor " + IntToString(id) + " visited",
             Some(VisitMetadata(id, v.visitCount, v.name)))
  }

  /** The event log after visitor `id`'s visit at `time` was logged, for the table as it
      was before the visit. */
  function VisitLogged(events: seq<EventRow>, vs: seq<VisitorRow>, id: int, time: nat): seq<EventRow>
    requires 1 <= id <= |vs|
  {
    events + [VisitEvent(events, id, time, AfterVisit(vs, id, time)[id - 1])]
  }

  /** The cache entry for a visitor row. */
  function Cached(v: VisitorRow): KnownVisitor
  {
    KnownVisitor(Some(v.name), v.lastVisit, v.visitCount)
  }

  /** `visitor_id` as a truthy Python value: given and non-zero. */
  predicate IdGiven(visitorId: Option<int>)
  {
    visitorId.Some? && visitorId.value != 0
  }

  /** `LEFT JOIN visitors v ON c.visitor_id = v.visitor_id`: the visitor's current name. */
  function JoinedName(vs: seq<VisitorRow>, visitorId: Option<int>): Option<string>
  {
    if visitorId.Some? && 1 <= visitorId.value <= |vs| then Some(vs[visitorId.value - 1].name) else None
  }

  /** The name `add_conversation_entry` caches: from `known_visitors` only. */
  function CachedName(known: map<int, KnownVisitor>, visitorId: Option<int>): Option<string>
  {
    if IdGiven(visitorId) && visitorId.value in known then known[visitorId.value].name else None
  }

  /** The face-encoding column, loaded from JSON, is truthy. */
  predicate HasTruthyEncoding(v: VisitorRow)
  {
    v.faceEncoding.Some? && Truthy(v.faceEncoding.value)
  }

  /** The row the placeholder face matcher settles on: the first, in table order, whose
      stored encoding is truthy. */
  function FirstEncoded(vs: seq<VisitorRow>): Option<VisitorRow>
  {
    var k := FirstWhere(vs, HasTruthyEncoding);
    if k.Some? then Some(vs[k.value]) else None
  }

  /** `WHERE c.visitor_id = ?`, applied only when a truthy id is given. */
  predicate ConversationMatches(visitorId: Option<int>, c: ConversationRow)
  {
    IdGiven(visitorId) ==> c.visitorId == visitorId
  }

  /** `WHERE event_type = ?`, applied only when a non-empty type is given. */
  predicate EventMatches(eventType: Option<string>, e: EventRow)
  {
    eventType.Some? && eventType.value != "" ==> e.eventType == eventType.value
  }

  function ConversationTime(c: ConversationRow): int { c.timestamp }

  function EventTime(e: EventRow): int { e.timestamp }

  function ConversationEntryFor(c: ConversationRow, vs: seq<VisitorRow>): RecentEntry
  {
    RecentEntry(c.id, c.timestamp, c.speaker, c.message, JoinedName(vs, c.visitorId))
  }

  /** The conversation rows of a history, without the joined names. */
  function Entries(r: seq<ConversationView>): (es: seq<ConversationRow>)
    ensures |es| == |r|
    ensures forall i :: 0 <= i < |r| ==> es[i] == r[i].entry
  {
    seq(|r|, i requires 0 <= i < |r| => r[i].entry)
  }

  /** The recent-conversation cache `_load_cache` reads: the newest `RecentCapacity` entries. */
  function RecentFromTable(cs: seq<ConversationRow>, vs: seq<VisitorRow>): (r: seq<RecentEntry>)
    ensures |r| <= RecentCapacity
  {
    var newest := NewestFirst(cs, RecentCapacity);
    seq(|newest|, i requires 0 <= i < |newest| => ConversationEntryFor(newest[i], vs))
  }

  /** The metadata of a `visitor_visit` event. */
  function VisitMetadata(visitorId: int, visitCount: int, name: string): Value
  {
    VObj(map["visitor_id" := VInt(visitorId), "visit_count" := VInt(visitCount), "visitor_name" := VStr(name)])
  }

  /** The durable tables are well formed: ids auto-increment from 1, every visitor has been
      seen at least once, and timestamps increase with insertion and never pass the clock. */
  ghost predicate TablesWellFormed(vs: seq<VisitorRow>, cs: seq<ConversationRow>, es: seq<EventRow>, clock: nat)
  {
    && (forall i :: 0 <= i < |vs| ==>
          vs[i].id == i + 1 && vs[i].visitCount >= 1 && vs[i].firstVisit <= vs[i].lastVisit <= clock)
    && (forall i :: 0 <= i < |cs| ==> cs[i].id == i + 1 && cs[i].timestamp <= clock)
    && (forall i :: 0 <= i < |es| ==> es[i].id == i + 1 && es[i].timestamp <= clock)
    && StrictlyIncreasing(cs, ConversationTime)
    && StrictlyIncreasing(es, EventTime)
  }

  class MemorySystem {
    // Durable tables.
    var preferences: map<string, PrefRow>
    var visitors: seq<VisitorRow>
    var conversations: seq<ConversationRow>
    var events: seq<EventRow>
    // The cache.
    var userPreferences: PreferenceCache
    var knownVisitors: map<int, KnownVisitor>
    var recentConversations: seq<RecentEntry>
    // The injected clock; the last timestamp handed out.
    var clock: nat

    ghost predicate TablesOk()
      reads this
    {
      TablesWellFormed(visitors, conversations, events, clock)
    }

    /** Every cached visitor exists and has a name, and the recent cache is bounded. */
    ghost predicate CacheOk()
      reads this
    {
      && (forall id :: id in knownVisitors ==> 1 <= id <= |visitors| && knownVisitors[id].name.Some?)
      && |recentConversations| <= RecentCapacity
    }

    ghost predicate Valid()
      reads this
    {
      && TablesOk()
      && CacheOk()
      // A visitor marked known in the table is in the cache (the converse fails: a visitor
      // demoted by update_visitor stays cached).
      && (forall i :: 0 <= i < |visitors| && visitors[i].known ==> i + 1 in knownVisitors)
    }

    /** A memory system over a new, empty database. */
    constructor ()
      ensures Valid()
      ensures preferences == map[] && visitors == [] && conversations == [] && events == []
      ensures userPreferences == map[] && knownVisitors == map[] && recentConversations == []
      ensures clock == 0
    {
      preferences, visitors, conversations, events := map[], [], [], [];
      userPreferences, knownVisitors, recentConversations := map[], map[], [];
      clock := 0;
    }

    /** A memory system over an existing database: the cache is rebuilt from the tables. */
    constructor Open(prefs: map<string, PrefRow>, vs: seq<VisitorRow>, cs: seq<ConversationRow>,
                     es: seq<EventRow>, now: nat)
      requires TablesWellFormed(vs, cs, es, now)
      ensures Valid()
      ensures preferences == prefs && visitors == vs && conversations == cs && events == es && clock == now
      ensures forall c, k :: CacheLookup(userPreferences, c, k) == TableLookup(prefs, c, k)
      ensures forall id :: id in knownVisitors <==> 1 <= id <= |vs| && vs[id - 1].known
      ensures forall id :: id in knownVisitors ==> knownVisitors[id] == Cached(vs[id - 1])
      ensures recentConversations == RecentFromTable(cs, vs)
    {
      preferences, visitors, conversations, events := prefs, vs, cs, es;
      userPreferences, knownVisitors, recentConversations := map[], map[], [];
      clock := now;
      new;
      LoadCache();
    }

    /** The preference cache after loading the preference table over `before`: every
        stored preference is cached under its category, and every other entry is kept. */
    ghost predicate PreferencesLoaded(before: PreferenceCache)
      reads this
    {
      && userPreferences.Keys == before.Keys + (set k | k in preferences :: preferences[k].category)
      && forall c, k ::
           CacheLookup(userPreferences, c, k) ==
           (if TableLookup(preferences, c, k).Some? then TableLookup(preferences, c, k) else CacheLookup(before, c, k))
    }

    /** The visitor cache after loading the known visitors over `before`: every visitor
        marked known is cached from its row, and every other entry is kept. */
    ghost predicate VisitorsLoaded(before: map<int, KnownVisitor>)
      reads this
    {
      && (forall id :: id in knownVisitors <==> id in before || (1 <= id <= |visitors| && visitors[id - 1].known))
      && forall id :: id in knownVisitors ==>
           knownVisitors[id] == if 1 <= id <= |visitors| && visitors[id - 1].known then Cached(visitors[id - 1]) else before[id]
    }

    /** `_load_cache`: merges the table's preferences and known visitors into the cache and
        replaces the recent conversations with the newest `RecentCapacity` entries. */
    method LoadCache()
      requires TablesOk() && CacheOk()
      modifies this`userPreferences, this`knownVisitors, this`recentConversations
      ensures Valid()
      ensures PreferencesLoaded(old(userPreferences))
      ensures VisitorsLoaded(old(knownVisitors))
      ensures recentConversations == RecentFromTable(conversations, visitors)
    {
      LoadPreferences();
      LoadKnownVisitors();
      recentConversations := RecentFromTable(conversations, visitors);
    }

    /** The preference part of `_load_cache`: every row is put into the cache under its
        category; cached pairs the table does not hold are kept. */
    method LoadPreferences()
      modifies this`userPreferences
      ensures PreferencesLoaded(old(userPreferences))
    {
      var pending := preferences.Keys;
      while pending != {}
        invariant pending <= preferences.Keys
        invariant userPreferences.Keys ==
          old(userPreferences).Keys + (set k | k in preferences && k !in pending :: preferences[k].category)
        invariant forall c, k ::
          CacheLookup(userPreferences, c, k) ==
          (if k !in pending && TableLookup(preferences, c, k).Some? then TableLookup(preferences, c, k)
           else CacheLookup(old(userPreferences), c, k))
        decreases pending
      {
        var k :| k in pending;
        var row := preferences[k];
        userPreferences := CachePut(userPreferences, row.category, k, row.value);
        pending := pending - {k};
      }
    }

    /** The visitor part of `_load_cache`: every visitor marked known is cached from its row;
        other cached visitors are kept. */
    method LoadKnownVisitors()
      requires TablesOk() && CacheOk()
      modifies this`knownVisitors
      ensures Valid()
      ensures VisitorsLoaded(old(knownVisitors))
    {
      var i := 0;
      while i < |visitors|
        invariant 0 <= i <= |visitors|
        invariant forall id :: id in knownVisitors <==> id in old(knownVisitors) || (1 <= id <= i && visitors[id - 1].known)
        invariant forall id :: id in knownVisitors ==>
          knownVisitors[id] == if 1 <= id <= i && visitors[id - 1].known then Cached(visitors[id - 1]) else old(knownVisitors)[id]
      {
        if visitors[i].known {
          knownVisitors := knownVisitors[visitors[i].id := Cached(visitors[i])];
        }
        i := i + 1;
      }
    }

    // -------------------------------------------------------------------------------
    // Preferences

    /** `get_preference`: the cached value, else the table's (which is then cached), else
        `default`. */
    method GetPreference(key: string, category: string, default: Value) returns (r: Value)
      modifies this`userPreferences
      ensures r == PreferenceRead(old(userPreferences), preferences, category, key).GetOr(default)
      ensures userPreferences == CacheAfterRead(old(userPreferences), preferences, category, key)
    {
      var cached := CacheLookup(userPreferences, category, key);
      if cached.Some? {
        return cached.value;
      }
      var stored := TableLookup(preferences, category, key);
      if stored.Some? {
        userPreferences := CachePut(userPreferences, category, key, stored.value);
        return stored.value;
      }
      return default;
    }

    /** `set_preference`: upserts the row keyed on `key` alone (`ON CONFLICT(key)`), then
        caches the value under `category`. Always succeeds. */
    method SetPreference(key: string, value: Value, category: string) returns (ok: bool)
      modifies this`preferences, this`userPreferences, this`clock
      ensures ok
      ensures clock == old(clock) + 1
      ensures preferences == old(preferences)[key := PrefRow(value, category, clock)]
      ensures userPreferences == CachePut(old(userPreferences), category, key, value)
    {
      clock := clock + 1;
      preferences := preferences[key := PrefRow(value, category, clock)];
      userPreferences := CachePut(userPreferences, category, key, value);
      ok := true;
    }

    /** `get_all_preferences`: with a (truthy) category, the table's rows of that category
        by key; otherwise every row grouped by category. Reads the table, not the cache. */
    method GetAllPreferences(category: Option<string>) returns (r: AllPreferences)
      ensures category.Some? && category.value != "" ==>
        && r.OneCategory?
        && (forall k :: k in r.entries <==> k in preferences && preferences[k].category == category.value)
        && (forall k :: k in r.entries ==> r.entries[k] == PrefEntry(preferences[k].value, preferences[k].lastUpdated))
      ensures category.None? || category.value == "" ==>
        && r.ByCategory?
        && (forall c :: c in r.groups ==> r.groups[c] != map[])
        && (forall c, k :: c in r.groups && k in r.groups[c] <==> k in preferences && preferences[k].category == c)
        && (forall c, k :: c in r.groups && k in r.groups[c] ==>
              r.groups[c][k] == PrefEntry(preferences[k].value, preferences[k].lastUpdated))
    {
      var pending := preferences.Keys;
      if category.Some? && category.value != "" {
        var c := category.value;
        var entries: map<string, PrefEntry> := map[];
        while pending != {}
          invariant pending <= preferences.Keys
          invariant forall k :: k in entries <==> k in preferences && k !in pending && preferences[k].category == c
          invariant forall k :: k in entries ==> entries[k] == PrefEntry(preferences[k].value, preferences[k].lastUpdated)
          decreases pending
        {
          var k :| k in pending;
          if preferences[k].category == c {
            entries := entries[k := PrefEntry(preferences[k].value, preferences[k].lastUpdated)];
          }
          pending := pending - {k};
        }
        r := OneCategory(entries);
      } else {
        var groups: map<string, map<string, PrefEntry>> := map[];
        while pending != {}
          invariant pending <= preferences.Keys
          invariant forall c :: c in groups ==> groups[c] != map[]
          invariant forall c, k :: c in groups && k in groups[c] <==>
            k in preferences && k !in pending && preferences[k].category == c
          invariant forall c, k :: c in groups && k in groups[c] ==>
            groups[c][k] == PrefEntry(preferences[k].value, preferences[k].lastUpdated)
          decreases pending
        {
          var k :| k in pending;
          var row := preferences[k];
          var group := if row.category in groups then groups[row.category] else map[];
          var group' := group[k := PrefEntry(row.value, row.lastUpdated)];
          assert k in group';
          groups := groups[row.category := group'];
          pending := pending - {k};
        }
        r := ByCategory(groups);
      }
    }

    // -------------------------------------------------------------------------------
    // Visitors

    /** `add_visitor`: a new row with the next id, one visit, and first visit equal to last
        visit; a falsy face encoding is stored as NULL. A known visitor is also cached. */
    method AddVisitor(name: string, faceEncoding: Value, known: bool, notes: Option<string>) returns (id: int)
      requires Valid()
      modifies this`visitors, this`knownVisitors, this`clock
      ensures Valid()
      ensures clock == old(clock) + 1
      ensures id == |old(visitors)| + 1
      ensures visitors == old(visitors) + [VisitorRow(id, name, if Truthy(faceEncoding) then Some(faceEncoding) else None,
                                                      clock, clock, 1, known, notes)]
      ensures knownVisitors == if known then old(knownVisitors)[id := KnownVisitor(Some(name), clock, 1)] else old(knownVisitors)
    {
      clock := clock + 1;
      id := |visitors| + 1;
      var encoding := if Truthy(faceEncoding) then Some(faceEncoding) else None;
      visitors := visitors + [VisitorRow(id, name, encoding, clock, clock, 1, known, notes)];
      if known {
        knownVisitors := knownVisitors[id := KnownVisitor(Some(name), clock, 1)];
      }
    }

    /** `get_visitor`: the row with this id, if any. */
    function GetVisitor(visitorId: int): (r: Option<VisitorRow>)
      reads this
      requires Valid()
      ensures r.Some? <==> exists v :: v in visitors && v.id == visitorId
      ensures r.Some? ==> r.value in visitors && r.value.id == visitorId
    {
      if 1 <= visitorId <= |visitors| then Some(visitors[visitorId - 1]) else None
    }

    /** `is_known_visitor`: cached as known, or marked known in the table. */
    function IsKnownVisitor(visitorId: int): (r: bool)
      reads this
      requires Valid()
      ensures r <==> visitorId in knownVisitors
    {
      visitorId in knownVisitors || (1 <= visitorId <= |visitors| && visitors[visitorId - 1].known)
    }

    /** `find_visitor_by_face`: the placeholder matcher ignores the encoding it is given and
        returns the first visitor, in table order, whose stored encoding is truthy. */
    method FindVisitorByFace(faceEncoding: Value) returns (r: Option<VisitorRow>)
      requires Valid()
      ensures r.Some? ==> exists i ::
        && 0 <= i < |visitors| && visitors[i] == r.value && HasTruthyEncoding(visitors[i])
        && forall j :: 0 <= j < i ==> !HasTruthyEncoding(visitors[j])
      ensures r.None? <==> forall j :: 0 <= j < |visitors| ==> !HasTruthyEncoding(visitors[j])
      ensures r == FirstEncoded(visitors)
    {
      var i := 0;
      while i < |visitors|
        invariant 0 <= i <= |visitors|
        invariant forall j :: 0 <= j < i ==> !HasTruthyEncoding(visitors[j])
      {
        if HasTruthyEncoding(visitors[i]) {
          return Some(visitors[i]);
        }
        i := i + 1;
      }
      return None;
    }

    /** The loop of `update_visitor` that builds the `SET` clauses: the recognised
        keywords, in order. */
    static method RecognizedClauses(fields: seq<VisitorField>) returns (clauses: seq<VisitorField>)
      ensures clauses == Select(fields, IsRecognized)
    {
      clauses := [];
      var i := 0;
      while i < |fields|
        invariant 0 <= i <= |fields|
        invariant clauses == Select(fields[..i], IsRecognized)
      {
        assert fields[..i + 1][..i] == fields[..i];
        if IsRecognized(fields[i]) {
          clauses := clauses + [fields[i]];
        }
        i := i + 1;
      }
      assert fields[..i] == fields;
    }

    /** `update_visitor`: nothing happens and False is returned when no keyword is given or
        none is recognised; otherwise the recognised clauses update the row if it exists.
        Afterwards the cache entry is refreshed from the table when
        `(success and kwargs.get('known')) or is_known_visitor(visitor_id)`, which is how
        the source's condition parses. */
    method UpdateVisitor(visitorId: int, fields: seq<VisitorField>) returns (ok: bool)
      requires Valid()
      modifies this`visitors, this`knownVisitors
      ensures Valid()
      ensures ok <==> Select(fields, IsRecognized) != [] && 1 <= visitorId <= |old(visitors)|
      ensures visitors == if ok then old(visitors)[visitorId - 1 := ApplyFields(old(visitors)[visitorId - 1], fields)]
                          else old(visitors)
      ensures knownVisitors ==
        if Select(fields, IsRecognized) != [] && 1 <= visitorId <= |visitors| &&
           ((ok && KnownArgument(fields) == Some(true)) || visitorId in old(knownVisitors) || visitors[visitorId - 1].known)
        then old(knownVisitors)[visitorId := Cached(visitors[visitorId - 1])]
        else old(knownVisitors)
    {
      if fields == [] {
        return false;
      }
      var clauses := RecognizedClauses(fields);
      if clauses == [] {
        return false;
      }
      ok := 1 <= visitorId <= |visitors|;
      if ok {
        RecognizedClausesSuffice(visitors[visitorId - 1], fields);
        KnownAfterUpdate(visitors[visitorId - 1], fields);
        StoreVisitor(visitorId, ApplyFields(visitors[visitorId - 1], clauses), KnownArgument(fields) == Some(true));
      }
    }

    /** The `UPDATE` of one row followed by the cache refresh of `update_visitor`: the
        entry is refreshed from the new row when `known` was passed as true, or when the
        visitor is known afterwards (cached, or marked known in the table). */
    method StoreVisitor(visitorId: int, row: VisitorRow, knownPassed: bool)
      requires Valid() && 1 <= visitorId <= |visitors|
      requires row.id == visitors[visitorId - 1].id && row.visitCount == visitors[visitorId - 1].visitCount
      requires row.firstVisit == visitors[visitorId - 1].firstVisit && row.lastVisit == visitors[visitorId - 1].lastVisit
      requires row.known ==> knownPassed || visitors[visitorId - 1].known
      modifies this`visitors, this`knownVisitors
      ensures Valid()
      ensures visitors == old(visitors)[visitorId - 1 := row]
      ensures knownVisitors ==
        if knownPassed || visitorId in old(knownVisitors) || row.known
        then old(knownVisitors)[visitorId := Cached(row)]
        else old(knownVisitors)
    {
      visitors := visitors[visitorId - 1 := row];
      if knownPassed || IsKnownVisitor(visitorId) {
        knownVisitors := knownVisitors[visitorId := Cached(visitors[visitorId - 1])];
      }
    }

    /** `record_visitor_visit` as written: the visit is committed, but the `visitor_visit`
        event is inserted after the only `commit()` and the connection is closed without
        another, so SQLite rolls the insert back and the event table does not change. */
    method RecordVisitorVisitAsWritten(visitorId: int) returns (ok: bool)
      requires Valid()
      modifies this`visitors, this`knownVisitors, this`clock
      ensures Valid()
      ensures clock == old(clock) + 1
      ensures ok <==> 1 <= visitorId <= |old(visitors)|
      ensures ok ==> visitors == AfterVisit(old(visitors), visitorId, clock)
      ensures !ok ==> visitors == old(visitors) && knownVisitors == old(knownVisitors)
      ensures ok ==> knownVisitors == CacheAfterVisit(old(knownVisitors), visitorId, clock, old(visitors)[visitorId - 1].visitCount + 1)
      ensures events == old(events)
    {
      var visitor;
      ok, visitor := VisitCommitted(visitorId);
    }

    /** `record_visitor_visit` as evidently intended: the visit and its `visitor_visit`
        event, whose metadata carries the new visit count, are both recorded; a missing
        visitor changes nothing and logs no event. */
    method RecordVisitorVisit(visitorId: int) returns (ok: bool)
      requires Valid()
      modifies this`visitors, this`knownVisitors, this`clock, this`events
      ensures Valid()
      ensures clock == old(clock) + 1
      ensures ok <==> 1 <= visitorId <= |old(visitors)|
      ensures ok ==> visitors == AfterVisit(old(visitors), visitorId, clock)
      ensures !ok ==> visitors == old(visitors) && knownVisitors == old(knownVisitors) && events == old(events)
      ensures ok ==> knownVisitors == CacheAfterVisit(old(knownVisitors), visitorId, clock, old(visitors)[visitorId - 1].visitCount + 1)
      ensures ok ==> events == VisitLogged(old(events), old(visitors), visitorId, clock)
    {
      var visitor: Option<VisitorRow>;
      ok, visitor := VisitCommitted(visitorId);
      if ok {
        var metadata := VisitMetadata(visitorId, visitor.value.visitCount, visitor.value.name);
        events := events + [EventRow(|events| + 1, "visitor_visit", clock,
                                     "Visitor " + IntToString(visitorId) + " visited", Some(metadata))];
        assert events[|events| - 1] == VisitEvent(old(events), visitorId, clock, visitors[visitorId - 1]);
        assert visitors[visitorId - 1] == AfterVisit(old(visitors), visitorId, clock)[visitorId - 1];
      }
    }

    /** The committed part of `record_visitor_visit`: the `UPDATE` and the cache refresh.
        Returns the re-read row. */
    method VisitCommitted(visitorId: int) returns (ok: bool, visitor: Option<VisitorRow>)
      requires Valid()
      modifies this`visitors, this`knownVisitors, this`clock
      ensures Valid()
      ensures clock == old(clock) + 1
      ensures ok <==> 1 <= visitorId <= |old(visitors)|
      ensures ok ==> visitors == AfterVisit(old(visitors), visitorId, clock)
      ensures ok ==> visitor == Some(visitors[visitorId - 1])
      ensures !ok ==> visitors == old(visitors) && knownVisitors == old(knownVisitors)
      ensures ok ==> knownVisitors == CacheAfterVisit(old(knownVisitors), visitorId, clock, old(visitors)[visitorId - 1].visitCount + 1)
    {
      clock := clock + 1;
      ok := 1 <= visitorId <= |visitors|;
      visitor := None;
      if ok {
        visitors := AfterVisit(visitors, visitorId, clock);
        visitor := GetVisitor(visitorId);
        var visitCount := visitor.value.visitCount;
        if IsKnownVisitor(visitorId) {
          var name := if visitorId in knownVisitors then knownVisitors[visitorId].name else None;
          knownVisitors := knownVisitors[visitorId := KnownVisitor(name, clock, visitCount)];
        }
      }
    }

    // -------------------------------------------------------------------------------
    // Conversations

    /** `add_conversation_entry`: one new row with the next id, and the matching entry at the
        front of the recent cache, which keeps at most `RecentCapacity` entries. */
    method AddConversationEntry(speaker: string, message: string, visitorId: Option<int>, sentiment: Option<string>)
      returns (id: int)
      requires Valid()
      modifies this`conversations, this`recentConversations, this`clock
      ensures Valid()
      ensures clock == old(clock) + 1
      ensures id == |old(conversations)| + 1
      ensures conversations == old(conversations) + [ConversationRow(id, clock, speaker, message, visitorId, sentiment)]
      ensures recentConversations ==
        TakeLimit([RecentEntry(id, clock, speaker, message, CachedName(knownVisitors, visitorId))] + old(recentConversations),
                  RecentCapacity)
    {
      clock := clock + 1;
      id := |conversations| + 1;
      conversations := conversations + [ConversationRow(id, clock, speaker, message, visitorId, sentiment)];
      var visitorName: Option<string> := None;
      if IdGiven(visitorId) && visitorId.value in knownVisitors {
        visitorName := knownVisitors[visitorId.value].name;
      }
      recentConversations := [RecentEntry(id, clock, speaker, message, visitorName)] + recentConversations;
      if |recentConversations| > RecentCapacity {
        recentConversations := recentConversations[..RecentCapacity];
      }
    }

    /** `get_conversation_history`: at most `limit` entries (a negative limit is no limit),
        newest first, only the given visitor's when a (truthy) id is given; every entry left
        out is older than every entry returned. */
    function GetConversationHistory(limit: int, visitorId: Option<int>): (r: seq<ConversationView>)
      reads this
      requires Valid()
      ensures limit >= 0 ==> |r| <= limit
      ensures forall i :: 0 <= i < |r| ==> r[i].visitorName == JoinedName(visitors, r[i].entry.visitorId)
      ensures forall c :: c in Entries(r) ==> c in conversations && ConversationMatches(visitorId, c)
      ensures forall i, j :: 0 <= i < j < |r| ==> r[i].entry.timestamp > r[j].entry.timestamp
      ensures forall c :: c in conversations && ConversationMatches(visitorId, c) && c !in Entries(r) ==>
        forall i :: 0 <= i < |r| ==> c.timestamp < r[i].entry.timestamp
      ensures limit < 0 || |r| < limit ==>
        forall c :: c in conversations && ConversationMatches(visitorId, c) ==> c in Entries(r)
    {
      var keep := (c: ConversationRow) => ConversationMatches(visitorId, c);
      QueryProperties(conversations, keep, ConversationTime, limit);
      var newest := Query(conversations, keep, limit);
      var vs := visitors;
      var r := seq(|newest|, i requires 0 <= i < |newest| => ConversationView(newest[i], JoinedName(vs, newest[i].visitorId)));
      assert Entries(r) == newest;
      r
    }

    // -------------------------------------------------------------------------------
    // Events

    /** `log_event`: one new row with the next id; falsy metadata is stored as NULL. */
    method LogEvent(eventType: string, description: string, metadata: Value) returns (id: int)
      requires Valid()
      modifies this`events, this`clock
      ensures Valid()
      ensures clock == old(clock) + 1
      ensures id == |old(events)| + 1
      ensures events == old(events) + [EventRow(id, eventType, clock, description,
                                                if Truthy(metadata) then Some(metadata) else None)]
    {
      clock := clock + 1;
      id := |events| + 1;
      events := events + [EventRow(id, eventType, clock, description, if Truthy(metadata) then Some(metadata) else None)];
    }

    /** `get_events`: at most `limit` events (a negative limit is no limit), newest first,
        only those of the given (truthy) type; every event left out is older than every
        event returned. */
    function GetEvents(eventType: Option<string>, limit: int): (r: seq<EventRow>)
      reads this
      requires Valid()
      ensures |r| <= |events| && (limit >= 0 ==> |r| <= limit)
      ensures forall e :: e in r ==> e in events && EventMatches(eventType, e)
      ensures forall i, j :: 0 <= i < j < |r| ==> r[i].timestamp > r[j].timestamp
      ensures forall e :: e in events && EventMatches(eventType, e) && e !in r ==>
        forall i :: 0 <= i < |r| ==> e.timestamp < r[i].timestamp
      ensures limit < 0 || |r| < limit ==>
        forall e :: e in events && EventMatches(eventType, e) ==> e in r
    {
      var keep := (e: EventRow) => EventMatches(eventType, e);
      QueryProperties(events, keep, EventTime, limit);
      Query(events, keep, limit)
    }
  }

  /** `record_visitor_visit` as written, on a new database: the visit is counted but no
      `visitor_visit` event can be read back. */
  method LostVisitEvent() returns (visitCount: int, logged: seq<EventRow>)
    ensures visitCount == 2
    ensures logged == []
  {
    var m := new MemorySystem();
    var id := m.AddVisitor("Ada", VNull, true, None);
    var ok := m.RecordVisitorVisitAsWritten(id);
    visitCount := m.GetVisitor(id).value.visitCount;
    logged := m.GetEvents(Some("visitor_visit"), 50);
  }

  /** The corrected `record_visitor_visit`, on a new database: two visits after the first
      are counted, and their events read back newest first with the counts 3 and 2. */
  method RecordedVisitEvents() returns (visitCount: int, logged: seq<EventRow>)
    ensures visitCount == 3
    ensures |logged| == 2
    ensures logged[0].metadata == Some(VisitMetadata(1, 3, "Ada"))
    ensures logged[1].metadata == Some(VisitMetadata(1, 2, "Ada"))
  {
    var m := VisitedTwice();
    visitCount := m.GetVisitor(1).value.visitCount;
    logged := m.GetEvents(Some("visitor_visit"), 50);
    var first, second := m.events[0], m.events[1];
    assert first in logged && second in logged;
    assert |logged| == 2;
    assert logged[0] == second && logged[1] == first;
  }

  /** A new database with one visitor, "Ada", whose visit was recorded twice. */
  method VisitedTwice() returns (m: MemorySystem)
    ensures m.Valid()
    ensures |m.visitors| == 1 && m.visitors[0].visitCount == 3
    ensures |m.events| == 2
    ensures m.events[0].eventType == "visitor_visit" && m.events[0].metadata == Some(VisitMetadata(1, 2, "Ada"))
    ensures m.events[1].eventType == "visitor_visit" && m.events[1].metadata == Some(VisitMetadata(1, 3, "Ada"))
    ensures m.events[0].timestamp < m.events[1].timestamp
  {
    m := new MemorySystem();
    var id := m.AddVisitor("Ada", VNull, true, None);
    var ok1 := m.RecordVisitorVisit(id);
    var ok2 := m.RecordVisitorVisit(id);
  }
}
