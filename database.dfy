/** The wellbeing store (database.py): four append-only tables with
    AUTOINCREMENT ids, a settings table with one row per key and
    INSERT OR REPLACE semantics, and the read queries behind the dashboard.
    The clock is the integer parameter `now` (seconds). */
module Database {
  import opened Json
  import opened Ordering
  import opened Tables

  const SecondsPerDay: int := 86400
  /** Window of get_mood_statistics' group-by count, in days. */
  const StatisticsDays: int := 30

  datatype MoodRecord = MoodRecord(moodType: string, moodEmoji: string, intensity: int, notes: string)
  datatype JournalRecord = JournalRecord(title: string, content: string, moodAtTime: string, tags: string)
  datatype ChatRecord = ChatRecord(userMessage: string, aiResponse: string, conversationId: string)
  datatype BreathingRecord = BreathingRecord(sessionDuration: int, cyclesCompleted: int, sessionType: string)
  datatype Setting = Setting(value: string, updatedAt: int)

  /** One entry of `mood_counts`: {"mood": ..., "count": ...}. */
  datatype MoodCount = MoodCount(mood: string, count: int)
  datatype MoodStatistics = MoodStatistics(moodCounts: seq<MoodCount>, totalEntries: nat, totalBreathingSessions: nat)

  /** datetime('now', '-<days> days') in seconds, without SQLite's date range
      (a cutoff before Julian day 0 is NULL there). */
  function Cutoff(days: int, now: int): int {
    now - days * SecondsPerDay
  }

  // ---------------------------------------------------------------- chat ids

  /** The conversation id log_chat_conversation stores: the given one when
      it is truthy, otherwise "conv_" followed by the formatted clock. */
  function StoredConversationId(given: Option<string>, clockText: string): (r: string)
    ensures r != ""
    ensures given.Some? && given.value != "" ==> r == given.value
    ensures given.None? || given.value == "" ==> |r| == 5 + |clockText| && r[..5] == "conv_" && r[5..] == clockText
  {
    if given.Some? && given.value != "" then given.value else "conv_" + clockText
  }

  // ------------------------------------------------------------- statistics

  /** Rows of `rows` whose mood_type is `mood`. */
  function Occurrences(rows: seq<Row<MoodRecord>>, mood: string): nat {
    if rows == [] then 0
    else (if rows[0].data.moodType == mood then 1 else 0) + Occurrences(rows[1..], mood)
  }

  function CountOf(e: MoodCount): int {
    e.count
  }

  function HasMood(mood: string): MoodCount -> int {
    (e: MoodCount) => if e.mood == mood then 1 else 0
  }

  /** How many entries of `g` are about `mood`. */
  function KeyCount(g: seq<MoodCount>, mood: string): int {
    SumOf(g, HasMood(mood))
  }

  /** The sum of all counts in `g`. */
  function Total(g: seq<MoodCount>): int {
    SumOf(g, CountOf)
  }

  /** Adds one to the count of every entry about `mood`. */
  function Increment(g: seq<MoodCount>, mood: string): (r: seq<MoodCount>)
    ensures |r| == |g|
    ensures forall i :: 0 <= i < |g| ==> r[i] == if g[i].mood == mood then MoodCount(mood, g[i].count + 1) else g[i]
  {
    if g == [] then []
    else [if g[0].mood == mood then MoodCount(mood, g[0].count + 1) else g[0]] + Increment(g[1..], mood)
  }

  /** GROUP BY mood_type, one row at a time: count the row under its mood,
      opening a new group the first time a mood is seen. */
  function Bump(g: seq<MoodCount>, mood: string): seq<MoodCount> {
    if KeyCount(g, mood) == 0 then g + [MoodCount(mood, 1)] else Increment(g, mood)
  }

  function Tally(rows: seq<Row<MoodRecord>>): seq<MoodCount> {
    if rows == [] then [] else Bump(Tally(rows[1..]), rows[0].data.moodType)
  }

  /** `SELECT mood_type, COUNT(*) ... GROUP BY mood_type ORDER BY count DESC`
      over the given rows. */
  function MoodCounts(window: seq<Row<MoodRecord>>): (r: seq<MoodCount>)
    ensures NonIncreasing(r, CountOf)
    ensures multiset(r) == multiset(Tally(window))
  {
    SortDesc(Tally(window), CountOf)
  }

  lemma {:induction false} IncrementSums(g: seq<MoodCount>, mood: string)
    ensures forall u :: KeyCount(Increment(g, mood), u) == KeyCount(g, u)
    ensures Total(Increment(g, mood)) == Total(g) + KeyCount(g, mood)
  {
    if g != [] {
      var r := Increment(g, mood);
      IncrementSums(g[1..], mood);
      assert r[1..] == Increment(g[1..], mood);
      forall u ensures KeyCount(r, u) == KeyCount(g, u) {
        assert KeyCount(r, u) == HasMood(u)(r[0]) + KeyCount(r[1..], u);
        assert KeyCount(g, u) == HasMood(u)(g[0]) + KeyCount(g[1..], u);
      }
    }
  }

  lemma {:induction false} KeyCountOfMember(g: seq<MoodCount>, i: int)
    requires 0 <= i < |g|
    ensures KeyCount(g, g[i].mood) >= 1
  {
    KeyCountNonNegative(g[1..], g[i].mood);
    if i > 0 {
      KeyCountOfMember(g[1..], i - 1);
    }
  }

  lemma {:induction false} KeyCountNonNegative(g: seq<MoodCount>, mood: string)
    ensures KeyCount(g, mood) >= 0
  {
    if g != [] {
      KeyCountNonNegative(g[1..], mood);
    }
  }

  /** Tally builds exactly one group per mood present, each holding that
      mood's number of rows, and the groups account for every row. */
  lemma {:induction false} TallyCorrect(rows: seq<Row<MoodRecord>>)
    ensures forall u :: KeyCount(Tally(rows), u) == if Occurrences(rows, u) > 0 then 1 else 0
    ensures forall i :: 0 <= i < |Tally(rows)| ==>
      0 < Tally(rows)[i].count == Occurrences(rows, Tally(rows)[i].mood)
    ensures Total(Tally(rows)) == |rows|
  {
    if rows != [] {
      var rest := rows[1..];
      var t := rows[0].data.moodType;
      var g := Tally(rest);
      TallyCorrect(rest);
      assert forall u :: Occurrences(rows, u) == (if u == t then 1 else 0) + Occurrences(rest, u);
      if KeyCount(g, t) == 0 {
        forall u ensures KeyCount(g + [MoodCount(t, 1)], u) == KeyCount(g, u) + (if u == t then 1 else 0) {
          SumOfAppend(g, [MoodCount(t, 1)], HasMood(u));
        }
        SumOfAppend(g, [MoodCount(t, 1)], CountOf);
        forall i | 0 <= i < |g| ensures g[i].mood != t {
          KeyCountOfMember(g, i);
        }
      } else {
        IncrementSums(g, t);
      }
    }
  }

  /** The dashboard's mood_counts: every mood of the window listed exactly
      once with its number of rows, counts positive and non-increasing, and
      the counts adding up to the number of rows in the window. */
  lemma MoodCountsCorrect(window: seq<Row<MoodRecord>>)
    ensures NonIncreasing(MoodCounts(window), CountOf)
    ensures forall u :: KeyCount(MoodCounts(window), u) == if Occurrences(window, u) > 0 then 1 else 0
    ensures forall i :: 0 <= i < |MoodCounts(window)| ==>
      0 < MoodCounts(window)[i].count == Occurrences(window, MoodCounts(window)[i].mood)
    ensures Total(MoodCounts(window)) == |window|
  {
    var g := Tally(window);
    var r := MoodCounts(window);
    TallyCorrect(window);
    forall u ensures KeyCount(r, u) == KeyCount(g, u) {
      SortDescSum(g, CountOf, HasMood(u));
    }
    SortDescSum(g, CountOf, CountOf);
    forall i | 0 <= i < |r| ensures 0 < r[i].count == Occurrences(window, r[i].mood) {
      assert r[i] in multiset(g);
    }
  }

  // --------------------------------------------------------------- settings

  /** get_user_setting on the settings table. */
  function Lookup(settings: map<string, Setting>, key: string, default: string): (r: string)
    ensures key in settings ==> r == settings[key].value
    ensures r != default ==> key in settings
  {
    if key in settings then settings[key].value else default
  }

  /** INSERT OR REPLACE keyed by the UNIQUE setting_key: the new row replaces
      any row with that key, so a key has at most one row (a map). */
  function Upsert(settings: map<string, Setting>, key: string, value: string, now: int): (m: map<string, Setting>)
    ensures m.Keys == settings.Keys + {key}
    ensures m[key] == Setting(value, now)
    ensures forall k :: k in settings && k != key ==> m[k] == settings[k]
  {
    settings[key := Setting(value, now)]
  }

  /** The get/set laws of the settings table. */
  lemma UpsertLaws(settings: map<string, Setting>, key: string, value: string, now: int, other: string, default: string)
    ensures Lookup(Upsert(settings, key, value, now), key, default) == value
    ensures other != key ==> Lookup(Upsert(settings, key, value, now), other, default) == Lookup(settings, other, default)
  {
  }

  /** A later update of the same key overwrites the earlier one entirely. */
  lemma UpsertOverwrites(settings: map<string, Setting>, key: string, v1: string, t1: int, v2: string, t2: int)
    ensures Upsert(Upsert(settings, key, v1, t1), key, v2, t2) == Upsert(settings, key, v2, t2)
  {
  }

  // ------------------------------------------------------------------ store

  class Store {
    /** Whether init_database has created the tables. */
    var created: bool
    var moods: Table<MoodRecord>
    var journal: Table<JournalRecord>
    var chats: Table<ChatRecord>
    var breathing: Table<BreathingRecord>
    var settings: map<string, Setting>

    ghost predicate Valid()
      reads this
    {
      && moods.Valid() && journal.Valid() && chats.Valid() && breathing.Valid()
      && (!created ==> moods.rows == [] && journal.rows == [] && chats.rows == []
                       && breathing.rows == [] && settings == map[])
    }

    /** A database file in which no table exists yet. */
    constructor ()
      ensures Valid() && !created
      ensures moods.rows == [] && journal.rows == [] && chats.rows == [] && breathing.rows == []
      ensures settings == map[]
    {
      created := false;
      moods := EmptyTable();
      journal := EmptyTable();
      chats := EmptyTable();
      breathing := EmptyTable();
      settings := map[];
    }

    /** init_database: CREATE TABLE IF NOT EXISTS for every table. It never
        drops or rewrites a row, so calling it again changes nothing. */
    method InitDatabase()
      requires Valid()
      modifies this
      ensures Valid() && created
      ensures moods == old(moods) && journal == old(journal) && chats == old(chats)
      ensures breathing == old(breathing) && settings == old(settings)
      ensures old(created) ==> unchanged(this)
    {
      created := true;
    }

    method LogMood(moodType: string, moodEmoji: string, intensity: int, notes: string, now: int) returns (id: int)
      requires Valid() && created
      modifies this
      ensures Valid() && created
      ensures id == moods.lastId > old(moods.lastId)
      ensures forall i :: 0 <= i < |old(moods.rows)| ==> old(moods.rows)[i].id < id
      ensures moods.rows == old(moods.rows) + [Row(id, now, MoodRecord(moodType, moodEmoji, intensity, notes))]
      ensures journal == old(journal) && chats == old(chats) && breathing == old(breathing)
      ensures settings == old(settings)
    {
      moods := moods.Insert(MoodRecord(moodType, moodEmoji, intensity, notes), now);
      id := moods.lastId;
    }

    method SaveJournalEntry(content: string, title: string, moodAtTime: string, tags: string, now: int) returns (id: int)
      requires Valid() && created
      modifies this
      ensures Valid() && created
      ensures id == journal.lastId > old(journal.lastId)
      ensures forall i :: 0 <= i < |old(journal.rows)| ==> old(journal.rows)[i].id < id
      ensures journal.rows == old(journal.rows) + [Row(id, now, JournalRecord(title, content, moodAtTime, tags))]
      ensures moods == old(moods) && chats == old(chats) && breathing == old(breathing)
      ensures settings == old(settings)
    {
      journal := journal.Insert(JournalRecord(title, content, moodAtTime, tags), now);
      id := journal.lastId;
    }

    /** log_chat_conversation; `clockText` is datetime.now() formatted as
        %Y%m%d_%H%M%S, used only when no conversation id is given. */
    method LogChatConversation(userMessage: string, aiResponse: string, conversationId: Option<string>,
                               now: int, clockText: string) returns (id: int)
      requires Valid() && created
      modifies this
      ensures Valid() && created
      ensures id == chats.lastId > old(chats.lastId)
      ensures forall i :: 0 <= i < |old(chats.rows)| ==> old(chats.rows)[i].id < id
      ensures chats.rows == old(chats.rows) +
        [Row(id, now, ChatRecord(userMessage, aiResponse, StoredConversationId(conversationId, clockText)))]
      ensures moods == old(moods) && journal == old(journal) && breathing == old(breathing)
      ensures settings == old(settings)
    {
      var stored := StoredConversationId(conversationId, clockText);
      chats := chats.Insert(ChatRecord(userMessage, aiResponse, stored), now);
      id := chats.lastId;
    }

    method LogBreathingSession(duration: int, cyclesCompleted: int, sessionType: string, now: int) returns (id: int)
      requires Valid() && created
      modifies this
      ensures Valid() && created
      ensures id == breathing.lastId > old(breathing.lastId)
      ensures forall i :: 0 <= i < |old(breathing.rows)| ==> old(breathing.rows)[i].id < id
      ensures breathing.rows == old(breathing.rows) + [Row(id, now, BreathingRecord(duration, cyclesCompleted, sessionType))]
      ensures moods == old(moods) && journal == old(journal) && chats == old(chats)
      ensures settings == old(settings)
    {
      breathing := breathing.Insert(BreathingRecord(duration, cyclesCompleted, sessionType), now);
      id := breathing.lastId;
    }

    method UpdateUserSetting(key: string, value: string, now: int)
      requires Valid() && created
      modifies this
      ensures Valid() && created
      ensures settings == Upsert(old(settings), key, value, now)
      ensures moods == old(moods) && journal == old(journal) && chats == old(chats)
      ensures breathing == old(breathing)
    {
      settings := Upsert(settings, key, value, now);
    }

    function GetUserSetting(key: string, default: string): (r: string)
      reads this
      ensures key in settings ==> r == settings[key].value
      ensures key !in settings ==> r == default
    {
      Lookup(settings, key, default)
    }

    /** get_mood_history: exactly the mood rows stamped at or after
        now - days, each as often as it is stored, newest first. A negative
        `days` makes the modifier "--N days", which SQLite rejects: the
        cutoff is NULL, the comparison is never true and no row is listed. */
    function GetMoodHistory(days: int, now: int): (r: seq<Row<MoodRecord>>)
      reads this
      ensures NonIncreasing(r, Stamp)
      ensures forall x ::
                multiset(r)[x] == if days >= 0 && x.stamp >= Cutoff(days, now) then multiset(moods.rows)[x] else 0
      ensures forall i :: 0 <= i < |r| ==> r[i] in moods.rows && r[i].stamp >= Cutoff(days, now)
      ensures days >= 0 ==>
        forall i :: 0 <= i < |moods.rows| && moods.rows[i].stamp >= Cutoff(days, now) ==> moods.rows[i] in r
      ensures days < 0 ==> r == []
    {
      if days < 0 then []
      else
        var window := Since(moods.rows, Cutoff(days, now));
        var r := SortDesc(window, Stamp);
        PermutationMembers(r, window);
        r
    }

    /** get_journal_entries: the `limit` newest journal rows, newest first
        (every row when limit is negative, as SQLite's LIMIT -1). */
    function GetJournalEntries(limit: int): (r: seq<Row<JournalRecord>>)
      reads this
      ensures |r| == if 0 <= limit < |journal.rows| then limit else |journal.rows|
      ensures NonIncreasing(r, Stamp)
      ensures multiset(r) <= multiset(journal.rows)
      ensures forall x, y :: x in multiset(journal.rows) - multiset(r) && y in r ==> x.stamp <= y.stamp
    {
      var sorted := SortDesc(journal.rows, Stamp);
      var k := if 0 <= limit < |sorted| then limit else |sorted|;
      NewestPrefix(sorted, k);
      sorted[..k]
    }

    /** The rows in the 30-day window that mood_counts is computed over. */
    function StatisticsWindow(now: int): seq<Row<MoodRecord>>
      reads this
    {
      Since(moods.rows, Cutoff(StatisticsDays, now))
    }

    /** get_mood_statistics without avg_intensity. */
    function GetMoodStatistics(now: int): (r: MoodStatistics)
      reads this
      ensures NonIncreasing(r.moodCounts, CountOf)
      ensures forall u :: KeyCount(r.moodCounts, u) == if Occurrences(StatisticsWindow(now), u) > 0 then 1 else 0
      ensures forall i :: 0 <= i < |r.moodCounts| ==>
        0 < r.moodCounts[i].count == Occurrences(StatisticsWindow(now), r.moodCounts[i].mood)
      ensures Total(r.moodCounts) == |StatisticsWindow(now)|
      ensures r.totalEntries == |journal.rows| && r.totalBreathingSessions == |breathing.rows|
    {
      MoodCountsCorrect(StatisticsWindow(now));
      MoodStatistics(MoodCounts(StatisticsWindow(now)), |journal.rows|, |breathing.rows|)
    }
  }

  /** Two sequences with the same multiset have the same members. */
  lemma PermutationMembers<T>(a: seq<T>, b: seq<T>)
    requires multiset(a) == multiset(b)
    ensures forall i :: 0 <= i < |a| ==> a[i] in b
    ensures forall i :: 0 <= i < |b| ==> b[i] in a
  {
    forall i | 0 <= i < |a| ensures a[i] in b {
      assert a[i] in multiset(b);
    }
    forall i | 0 <= i < |b| ensures b[i] in a {
      assert b[i] in multiset(a);
    }
  }

  /** In a newest-first list, the first k rows are at least as new as every
      row left out. */
  lemma NewestPrefix(s: seq<Row<JournalRecord>>, k: nat)
    requires NonIncreasing(s, Stamp) && k <= |s|
    ensures NonIncreasing(s[..k], Stamp)
    ensures multiset(s[..k]) <= multiset(s)
    ensures forall x, y :: x in multiset(s) - multiset(s[..k]) && y in s[..k] ==> x.stamp <= y.stamp
  {
    assert s == s[..k] + s[k..];
    assert multiset(s) == multiset(s[..k]) + multiset(s[k..]);
    forall x, y | x in multiset(s) - multiset(s[..k]) && y in s[..k] ensures x.stamp <= y.stamp {
      assert x in s[k..];
      var j :| k <= j < |s| && s[j] == x;
      var i :| 0 <= i < k && s[i] == y;
      assert Stamp(s[i]) >= Stamp(s[j]);
    }
  }
}
