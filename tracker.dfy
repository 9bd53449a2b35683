/** The stand-alone mood tracker (nothing4.py): a keyword chat bot whose
    turns are logged, a mood log, and the mood listing, newest first. */
module MoodTracker {
  import opened Strings
  import opened Json
  import opened Ordering
  import opened Tables

  /** The replies of ai_chat, in the order the dictionary is scanned. The
      last key is "default" itself, so a message containing that word gets
      the default text by the scan rather than by the fall-through. */
  const Replies: seq<(string, string)> := [
    ("hello", "Hello! How are you feeling today?"),
    ("how are you", "I'm doing well! How can I help you track your mood?"),
    ("sad", "I'm sorry to hear you're feeling sad. Would you like to talk about it?"),
    ("happy", "That's wonderful to hear! What's making you happy today?"),
    ("angry", "I understand you're feeling angry. Take a deep breath. What's bothering you?"),
    ("default", "I'm here to listen and help you track your mood. How are you feeling?")
  ]

  const DefaultReply: string := Replies[5].1

  /** ai_chat: the reply of the first key occurring in the lowercased
      message, else the default reply. Always one of the six canned texts. */
  function AiChat(message: string): (r: string)
    ensures r != ""
    ensures exists i :: 0 <= i < |Replies| && r == Replies[i].1
  {
    var i := FirstHit(Replies, Lower(message));
    if i < |Replies| then Replies[i].1 else DefaultReply
  }

  /** The earliest key present decides the reply. */
  lemma AiChatFirstMatch(message: string, i: nat)
    requires i < |Replies| && Contains(Lower(message), Replies[i].0)
    requires forall j :: 0 <= j < i ==> !Contains(Lower(message), Replies[j].0)
    ensures AiChat(message) == Replies[i].1
  {
    FirstHitIsFirst(Replies, Lower(message), i);
  }

  /** With no key present the default reply is given. */
  lemma AiChatDefault(message: string)
    requires forall j :: 0 <= j < |Replies| ==> !Contains(Lower(message), Replies[j].0)
    ensures AiChat(message) == DefaultReply
  {
    FirstHitIsFirst(Replies, Lower(message), |Replies|);
  }

  /** A greeting outranks every mood word: "hello" is scanned first. */
  lemma GreetingWins(message: string)
    requires Contains(Lower(message), "hello")
    ensures AiChat(message) == "Hello! How are you feeling today?"
  {
    AiChatFirstMatch(message, 0);
  }

  /** A row of chat_logs. */
  datatype ChatLog = ChatLog(userMessage: string, aiResponse: string)

  /** The answer of POST /chat: a 400 with its error, or the reply. */
  datatype ChatResponse = ChatRejected(error: string) | Replied(reply: string)

  /** The answer of POST /log_mood: a 400 with its error, or the message. */
  datatype MoodResponse = MoodRejected(error: string) | MoodLogged(message: string)

  /** A listed mood: the mood text and its timestamp. */
  datatype MoodEntry = MoodEntry(mood: string, timestamp: int)

  /** The database mood_tracker.db with its two tables. */
  class Tracker {
    var moods: Table<string>
    var chatLogs: Table<ChatLog>

    ghost predicate Valid()
      reads this
    {
      moods.Valid() && chatLogs.Valid()
    }

    /** init_db on a fresh database: both tables exist and are empty. */
    constructor ()
      ensures Valid() && moods.rows == [] && chatLogs.rows == []
    {
      moods := EmptyTable();
      chatLogs := EmptyTable();
    }

    /** POST /chat: the message is required but neither stripped nor checked
        for emptiness; the turn is logged before the reply is returned. */
    method Chat(message: Option<string>, now: int) returns (resp: ChatResponse)
      requires Valid()
      modifies this
      ensures Valid()
      ensures resp.ChatRejected? <==> message.None?
      ensures message.None? ==> resp.error == "Missing 'message' in request" && unchanged(this)
      ensures message.Some? ==>
        && resp == Replied(AiChat(message.value))
        && chatLogs.lastId > old(chatLogs.lastId)
        && chatLogs.rows == old(chatLogs.rows) + [Row(chatLogs.lastId, now, ChatLog(message.value, resp.reply))]
      ensures moods == old(moods)
    {
      if message.None? {
        return ChatRejected("Missing 'message' in request");
      }
      var reply := AiChat(message.value);
      chatLogs := chatLogs.Insert(ChatLog(message.value, reply), now);
      resp := Replied(reply);
    }

    /** POST /log_mood: the mood is required and stored as given. */
    method LogMood(mood: Option<string>, now: int) returns (resp: MoodResponse)
      requires Valid()
      modifies this
      ensures Valid()
      ensures resp.MoodRejected? <==> mood.None?
      ensures mood.None? ==> resp.error == "Missing 'mood' in request" && unchanged(this)
      ensures mood.Some? ==>
        && resp == MoodLogged("Mood '" + mood.value + "' logged successfully")
        && moods.lastId > old(moods.lastId)
        && moods.rows == old(moods.rows) + [Row(moods.lastId, now, mood.value)]
      ensures chatLogs == old(chatLogs)
    {
      if mood.None? {
        return MoodRejected("Missing 'mood' in request");
      }
      moods := moods.Insert(mood.value, now);
      resp := MoodLogged("Mood '" + mood.value + "' logged successfully");
    }

    /** GET /moods: every logged mood, newest first. */
    function Moods(): (r: seq<MoodEntry>)
      reads this
      ensures |r| == |moods.rows|
      ensures forall i, j :: 0 <= i < j < |r| ==> r[i].timestamp >= r[j].timestamp
      ensures multiset(r) == multiset(Entries(moods.rows))
    {
      SortDesc(Entries(moods.rows), (e: MoodEntry) => e.timestamp)
    }
  }

  /** The (mood, timestamp) pairs of the rows, in table order. */
  function Entries(rows: seq<Row<string>>): (r: seq<MoodEntry>)
    ensures |r| == |rows|
    ensures forall i :: 0 <= i < |rows| ==> r[i] == MoodEntry(rows[i].data, rows[i].stamp)
  {
    seq(|rows|, i requires 0 <= i < |rows| => MoodEntry(rows[i].data, rows[i].stamp))
  }

  /** A logged mood shows up in the listing, with the time it was logged. */
  lemma LoggedMoodIsListed(t: Tracker, i: int)
    requires 0 <= i < |t.moods.rows|
    ensures MoodEntry(t.moods.rows[i].data, t.moods.rows[i].stamp) in t.Moods()
  {
    var e := MoodEntry(t.moods.rows[i].data, t.moods.rows[i].stamp);
    var entries := Entries(t.moods.rows);
    assert entries[i] == e;
    assert e in multiset(entries);
    assert e in multiset(t.Moods());
  }
}
