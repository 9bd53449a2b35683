/** The request handlers of the wellbeing service (app.py): the chat turn
    with its crisis shortcut, remote reply and keyword fallback, and the
    validation and defaulting of the mood, journal, breathing and settings
    writes. The remote text-completion call is the parameter `remote`. */
module App {
  import opened Strings
  import opened Json
  import opened Tables
  import opened Database

  // ------------------------------------------------------------ crisis path

  /** The phrases whose presence routes a message to the crisis reply. */
  const CrisisKeywords: seq<string> :=
    ["suicide", "kill myself", "end it all", "hurt myself", "self-harm", "crisis"]

  const CrisisTextLine: string := "Text HOME to 741741"
  const SuicideLifeline: string := "988"
  const EmergencyNumber: string := "911"

  const CrisisOpening: string :=
    "I'm really concerned about you and want you to know that you're not alone. Please reach out for immediate help:\n\n"
    + "\U{1F198} **Emergency Resources:**\n- **Crisis Text Line**: "
  const CrisisLifelineLabel: string := "\n- **National Suicide Prevention Lifeline**: Call or text "
  const CrisisEmergencyLabel: string := "\n- **Emergency**: Call "
  const CrisisClosing: string :=
    "\n\nYou matter, and there are people who want to help you through this difficult time. "
    + "Would you like to talk about what's making you feel this way?"

  /** The fixed reply of the crisis path, naming the three contacts. */
  const CrisisReply: string :=
    CrisisOpening + CrisisTextLine + CrisisLifelineLabel + SuicideLifeline
    + CrisisEmergencyLabel + EmergencyNumber + CrisisClosing

  /** is_crisis: some crisis phrase occurs in the lowercased message. */
  function IsCrisis(message: string): (b: bool)
    ensures b <==> exists k :: 0 <= k < |CrisisKeywords| && Contains(Lower(message), CrisisKeywords[k])
  {
    AnyOccurs(CrisisKeywords, Lower(message))
  }

  /** The crisis test is blind to letter case. */
  lemma IsCrisisCaseBlind(message: string)
    ensures IsCrisis(Lower(message)) == IsCrisis(message)
  {
    LowerIdempotent(message);
  }

  /** The crisis reply carries the text line, the lifeline and 911 verbatim. */
  lemma CrisisReplyNamesContacts()
    ensures Contains(CrisisReply, CrisisTextLine)
    ensures Contains(CrisisReply, SuicideLifeline)
    ensures Contains(CrisisReply, EmergencyNumber)
  {
    var a := CrisisOpening + CrisisTextLine;
    var b := a + CrisisLifelineLabel + SuicideLifeline;
    var c := b + CrisisEmergencyLabel + EmergencyNumber;
    ContainsInfix(CrisisOpening, CrisisTextLine, "");
    assert a + "" == a;
    ContainsExtend(a, CrisisLifelineLabel, CrisisTextLine);
    ContainsExtend(a + CrisisLifelineLabel, SuicideLifeline, CrisisTextLine);
    ContainsInfix(a + CrisisLifelineLabel, SuicideLifeline, "");
    assert b + "" == b;
    ContainsExtend(b, CrisisEmergencyLabel, CrisisTextLine);
    ContainsExtend(b, CrisisEmergencyLabel, SuicideLifeline);
    ContainsExtend(b + CrisisEmergencyLabel, EmergencyNumber, CrisisTextLine);
    ContainsExtend(b + CrisisEmergencyLabel, EmergencyNumber, SuicideLifeline);
    ContainsInfix(b + CrisisEmergencyLabel, EmergencyNumber, "");
    assert c + "" == c;
    ContainsExtend(c, CrisisClosing, CrisisTextLine);
    ContainsExtend(c, CrisisClosing, SuicideLifeline);
    ContainsExtend(c, CrisisClosing, EmergencyNumber);
  }

  // ---------------------------------------------------------- fallback path

  /** The canned replies used when the remote call fails, scanned in this
      order; the first keyword that occurs wins. */
  const FallbackTable: seq<(string, string)> := [
    ("stressed", "I understand you're feeling stressed. Try taking three deep breaths with me: inhale for 4 counts, hold for 7, exhale for 8. Stress is temporary, and you have the strength to work through this. What's one small thing you could do right now to feel a bit better?"),
    ("anxious", "Anxiety can feel overwhelming, but you're not alone in this. Ground yourself by naming 5 things you can see, 4 you can touch, 3 you can hear, 2 you can smell, and 1 you can taste. Would you like to try some breathing exercises or talk about what's making you anxious?"),
    ("sad", "I'm sorry you're feeling sad. It's okay to feel this way - your emotions are valid. Sometimes sadness helps us process important experiences. Would journaling help? Writing down your thoughts can sometimes bring clarity and relief."),
    ("happy", "I'm so glad to hear you're feeling good! It's wonderful when we can appreciate positive moments. What's bringing you joy today? Celebrating these feelings can help us remember them during tougher times."),
    ("tired", "Being tired can affect everything - your mood, thoughts, and energy. Are you getting enough sleep? Sometimes tiredness is our body's way of asking for rest or self-care. What would help you feel more energized?")
  ]

  const GenericReply: string :=
    "Thank you for sharing with me. I'm here to listen and support you. Sometimes it helps to talk through what we're experiencing. Would you like to tell me more about how you're feeling today?"

  /** The reply when the remote call answers with nothing. */
  const EmptyRemoteReply: string := "I'm here to listen. Please tell me more."

  /** The fallback reply: the canned text of the first keyword occurring in
      the lowercased message, or the generic reply. Never empty. */
  function Fallback(message: string): (r: string)
    ensures r != ""
    ensures r == GenericReply || exists i :: 0 <= i < |FallbackTable| && r == FallbackTable[i].1
  {
    var i := FirstHit(FallbackTable, Lower(message));
    if i < |FallbackTable| then FallbackTable[i].1 else GenericReply
  }

  /** First match wins: the reply belongs to the earliest keyword present. */
  lemma FallbackFirstMatch(message: string, i: nat)
    requires i < |FallbackTable| && Contains(Lower(message), FallbackTable[i].0)
    requires forall j :: 0 <= j < i ==> !Contains(Lower(message), FallbackTable[j].0)
    ensures Fallback(message) == FallbackTable[i].1
  {
    FirstHitIsFirst(FallbackTable, Lower(message), i);
  }

  /** With no keyword present the generic reply is chosen. */
  lemma FallbackDefault(message: string)
    requires forall j :: 0 <= j < |FallbackTable| ==> !Contains(Lower(message), FallbackTable[j].0)
    ensures Fallback(message) == GenericReply
  {
    FirstHitIsFirst(FallbackTable, Lower(message), |FallbackTable|);
  }

  /** "stressed" is scanned first, so "stressed ... sad" gets the stressed text. */
  lemma StressedComesFirst(message: string)
    requires Contains(Lower(message), "stressed")
    ensures Fallback(message) == FallbackTable[0].1
  {
    FallbackFirstMatch(message, 0);
  }

  // -------------------------------------------------------------- chat turn

  /** What the single remote completion attempt produced: an exception, or a
      message whose content is None or a string. */
  datatype RemoteOutcome = Failed | Returned(content: Option<string>)

  /** The reply of a chat turn for an accepted (stripped, non-empty) message:
      the crisis reply whenever a crisis phrase occurs, and otherwise one of
      the canned texts or the stripped text the remote service returned. */
  function TurnReply(message: string, remote: RemoteOutcome): (r: string)
    ensures IsCrisis(message) ==> r == CrisisReply
    ensures !IsCrisis(message) && remote.Failed? ==> r == Fallback(message)
    ensures !IsCrisis(message) && remote.Returned? && remote.content.Some? && remote.content.value != "" ==>
              r == Strip(remote.content.value)
    ensures !IsCrisis(message) && remote.Returned? && (remote.content.None? || remote.content.value == "") ==>
              r == EmptyRemoteReply
    ensures || r == CrisisReply || r == EmptyRemoteReply || r == GenericReply
            || (exists i :: 0 <= i < |FallbackTable| && r == FallbackTable[i].1)
            || (remote.Returned? && remote.content.Some? && r == Strip(remote.content.value))
  {
    if IsCrisis(message) then CrisisReply
    else match remote
      case Failed => Fallback(message)
      case Returned(content) =>
        if content.Some? && content.value != "" then Strip(content.value) else EmptyRemoteReply
  }

  /** On the crisis path the remote outcome is never consulted. */
  lemma CrisisIgnoresRemote(message: string, r1: RemoteOutcome, r2: RemoteOutcome)
    requires IsCrisis(message)
    ensures TurnReply(message, r1) == TurnReply(message, r2) == CrisisReply
  {
  }

  /** A turn's reply is empty exactly when the message is not a crisis and the
      remote call returned non-empty text made only of whitespace. */
  lemma TurnReplyEmptyIff(message: string, remote: RemoteOutcome)
    ensures TurnReply(message, remote) == "" <==>
      && !IsCrisis(message)
      && remote.Returned? && remote.content.Some? && remote.content.value != ""
      && forall i :: 0 <= i < |remote.content.value| ==> IsSpace(remote.content.value[i])
  {
    if remote.Returned? && remote.content.Some? {
      StripEmptyIffBlank(remote.content.value);
    }
    assert CrisisReply != "";
  }

  /** The JSON body of POST /api/chat: `message`, and `conversation_id`
      whose value may be JSON null. */
  datatype ChatBody = ChatBody(message: Option<string>, conversationId: Option<Option<string>>)

  /** A 400 with its error text, or the JSON reply; `isCrisis` tells whether
      the reply carries "is_crisis": true (only the crisis path does). */
  datatype ChatResponse =
    | ChatRejected(error: string)
    | ChatAnswer(reply: string, conversationId: Option<string>, isCrisis: bool)

  /** chat_with_ai. `freshId` stands for str(uuid.uuid4()); `clockText` is the
      formatted clock log_chat_conversation falls back on. */
  method ChatWithAi(store: Store, body: ChatBody, remote: RemoteOutcome, freshId: string,
                    now: int, clockText: string) returns (resp: ChatResponse)
    requires store.Valid() && store.created
    modifies store
    ensures store.Valid() && store.created
    ensures body.message.None? ==> resp == ChatRejected("Missing 'message' in request")
    ensures body.message.Some? && Strip(body.message.value) == "" ==> resp == ChatRejected("Message cannot be empty")
    ensures resp.ChatRejected? ==> unchanged(store)
    ensures body.message.Some? && Strip(body.message.value) != "" ==>
      var message := Strip(body.message.value);
      var conversationId := body.conversationId.GetOr(Some(freshId));
      && resp == ChatAnswer(TurnReply(message, remote), conversationId, IsCrisis(message))
      && store.chats.lastId > old(store.chats.lastId)
      && store.chats.rows == old(store.chats.rows) +
           [Row(store.chats.lastId, now, ChatRecord(message, resp.reply, StoredConversationId(conversationId, clockText)))]
    ensures store.moods == old(store.moods) && store.journal == old(store.journal)
    ensures store.breathing == old(store.breathing) && store.settings == old(store.settings)
  {
    if body.message.None? {
      return ChatRejected("Missing 'message' in request");
    }
    var message := Strip(body.message.value);
    if message == "" {
      return ChatRejected("Message cannot be empty");
    }
    var conversationId := body.conversationId.GetOr(Some(freshId));
    var reply := TurnReply(message, remote);
    var chatId := store.LogChatConversation(message, reply, conversationId, now, clockText);
    resp := ChatAnswer(reply, conversationId, IsCrisis(message));
  }

  /** The id a turn returns is the id its row is logged under whenever it is
      a non-empty string; a null or empty supplied id is logged as "conv_...". */
  lemma ReturnedIdIsLogged(body: ChatBody, freshId: string, clockText: string)
    requires freshId != ""
    requires body.conversationId.None? || (body.conversationId.value.Some? && body.conversationId.value.value != "")
    ensures var cid := body.conversationId.GetOr(Some(freshId));
      cid.Some? && StoredConversationId(cid, clockText) == cid.value
  {
  }

  // ------------------------------------------------------------ other writes

  /** A 400 with its error text, or the success message and the new row id. */
  datatype WriteResponse = Rejected(error: string) | Saved(message: string, id: int)

  datatype MoodBody = MoodBody(moodType: Option<string>, moodEmoji: Option<string>,
                               intensity: Option<int>, notes: Option<string>)

  /** log_user_mood: both names are required; intensity defaults to 5 and is
      not range-checked, notes default to "". */
  method LogUserMood(store: Store, body: MoodBody, now: int) returns (resp: WriteResponse)
    requires store.Valid() && store.created
    modifies store
    ensures store.Valid() && store.created
    ensures resp.Rejected? <==> body.moodType.None? || body.moodEmoji.None?
    ensures resp.Rejected? ==> resp.error == "Missing mood_type or mood_emoji" && unchanged(store)
    ensures resp.Saved? ==>
      && resp.message == "Mood '" + body.moodType.value + "' logged successfully"
      && resp.id > old(store.moods.lastId)
      && store.moods.rows == old(store.moods.rows) +
           [Row(resp.id, now, MoodRecord(body.moodType.value, body.moodEmoji.value, body.intensity.GetOr(5), body.notes.GetOr("")))]
    ensures store.journal == old(store.journal) && store.chats == old(store.chats)
    ensures store.breathing == old(store.breathing) && store.settings == old(store.settings)
  {
    if body.moodType.None? || body.moodEmoji.None? {
      return Rejected("Missing mood_type or mood_emoji");
    }
    var moodType := body.moodType.value;
    var id := store.LogMood(moodType, body.moodEmoji.value, body.intensity.GetOr(5), body.notes.GetOr(""), now);
    resp := Saved("Mood '" + moodType + "' logged successfully", id);
  }

  datatype JournalBody = JournalBody(content: Option<string>, title: Option<string>,
                                     moodAtTime: Option<string>, tags: Option<string>)

  /** save_user_journal: content is required and must not strip to nothing;
      content and title are stored stripped. */
  method SaveUserJournal(store: Store, body: JournalBody, now: int) returns (resp: WriteResponse)
    requires store.Valid() && store.created
    modifies store
    ensures store.Valid() && store.created
    ensures body.content.None? ==> resp == Rejected("Missing journal content")
    ensures body.content.Some? && Strip(body.content.value) == "" ==> resp == Rejected("Journal content cannot be empty")
    ensures resp.Rejected? ==> unchanged(store)
    ensures body.content.Some? && Strip(body.content.value) != "" ==>
      && resp.Saved? && resp.message == "Journal entry saved successfully"
      && resp.id > old(store.journal.lastId)
      && store.journal.rows == old(store.journal.rows) +
           [Row(resp.id, now, JournalRecord(Strip(body.title.GetOr("")), Strip(body.content.value),
                                            body.moodAtTime.GetOr(""), body.tags.GetOr("")))]
    ensures store.moods == old(store.moods) && store.chats == old(store.chats)
    ensures store.breathing == old(store.breathing) && store.settings == old(store.settings)
  {
    if body.content.None? {
      return Rejected("Missing journal content");
    }
    var content := Strip(body.content.value);
    if content == "" {
      return Rejected("Journal content cannot be empty");
    }
    var title := Strip(body.title.GetOr(""));
    var id := store.SaveJournalEntry(content, title, body.moodAtTime.GetOr(""), body.tags.GetOr(""), now);
    resp := Saved("Journal entry saved successfully", id);
  }

  datatype BreathingBody = BreathingBody(duration: Option<int>, cyclesCompleted: Option<int>, sessionType: Option<string>)

  /** log_breathing_session: duration and cycles are required; the session
      type defaults to "4-7-8". */
  method LogUserBreathing(store: Store, body: BreathingBody, now: int) returns (resp: WriteResponse)
    requires store.Valid() && store.created
    modifies store
    ensures store.Valid() && store.created
    ensures resp.Rejected? <==> body.duration.None? || body.cyclesCompleted.None?
    ensures resp.Rejected? ==> resp.error == "Missing duration or cycles_completed" && unchanged(store)
    ensures resp.Saved? ==>
      && resp.message == "Breathing session logged: " + IntToString(body.cyclesCompleted.value)
                         + " cycles in " + IntToString(body.duration.value) + " seconds"
      && resp.id > old(store.breathing.lastId)
      && store.breathing.rows == old(store.breathing.rows) +
           [Row(resp.id, now, BreathingRecord(body.duration.value, body.cyclesCompleted.value, body.sessionType.GetOr("4-7-8")))]
    ensures store.moods == old(store.moods) && store.journal == old(store.journal)
    ensures store.chats == old(store.chats) && store.settings == old(store.settings)
  {
    if body.duration.None? || body.cyclesCompleted.None? {
      return Rejected("Missing duration or cycles_completed");
    }
    var duration, cycles := body.duration.value, body.cyclesCompleted.value;
    var id := store.LogBreathingSession(duration, cycles, body.sessionType.GetOr("4-7-8"), now);
    resp := Saved("Breathing session logged: " + IntToString(cycles) + " cycles in " + IntToString(duration) + " seconds", id);
  }

  // --------------------------------------------------------------- settings

  /** The settings table after update_user_setting(key, str(value)) for each
      item of the body, in order. */
  function ApplySettings(settings: map<string, Setting>, items: seq<(string, Value)>, now: int): (m: map<string, Setting>)
    ensures settings.Keys <= m.Keys
  {
    if items == [] then settings
    else
      var last := items[|items| - 1];
      Upsert(ApplySettings(settings, items[..|items| - 1], now), last.0, PyStr(last.1), now)
  }

  /** One more item of the body is one more upsert. */
  lemma ApplySettingsStep(settings: map<string, Setting>, items: seq<(string, Value)>, i: nat, now: int)
    requires i < |items|
    ensures ApplySettings(settings, items[..i + 1], now)
         == Upsert(ApplySettings(settings, items[..i], now), items[i].0, PyStr(items[i].1), now)
  {
    assert items[..i + 1][..i] == items[..i];
  }

  /** `key` is one of the keys of the posted object. */
  ghost predicate Posted(items: seq<(string, Value)>, key: string) {
    exists i :: 0 <= i < |items| && items[i].0 == key
  }

  /** A key is posted by a non-empty object exactly when it is posted by all
      but the last item or is the last item's key. */
  lemma PostedSplit(items: seq<(string, Value)>, key: string)
    requires items != []
    ensures Posted(items, key) <==> Posted(items[..|items| - 1], key) || items[|items| - 1].0 == key
  {
    var n := |items| - 1;
    if Posted(items[..n], key) {
      var i :| 0 <= i < n && items[..n][i].0 == key;
      assert items[i].0 == key;
    }
    if Posted(items, key) {
      var i :| 0 <= i < |items| && items[i].0 == key;
      if i < n {
        assert items[..n][i].0 == key;
      }
    }
  }

  /** A settings POST adds exactly the posted keys to the table. */
  lemma {:induction false} ApplySettingsKeys(settings: map<string, Setting>, items: seq<(string, Value)>,
                                             now: int, key: string)
    ensures key in ApplySettings(settings, items, now) <==> key in settings || Posted(items, key)
  {
    if items != [] {
      var n := |items| - 1;
      ApplySettingsKeys(settings, items[..n], now, key);
      PostedSplit(items, key);
    }
  }

  /** The keys of a decoded JSON object are pairwise distinct. */
  ghost predicate DistinctKeys(items: seq<(string, Value)>) {
    forall i, j :: 0 <= i < j < |items| ==> items[i].0 != items[j].0
  }

  lemma DistinctKeysPrefix(items: seq<(string, Value)>, n: nat)
    requires DistinctKeys(items) && n <= |items|
    ensures DistinctKeys(items[..n])
  {
    forall a, b | 0 <= a < b < n ensures items[..n][a].0 != items[..n][b].0 {
      assert items[..n][a] == items[a] && items[..n][b] == items[b];
    }
  }

  /** After a settings POST, a posted key reads back as str() of its value. */
  lemma {:induction false} SettingsPostThenGet(settings: map<string, Setting>, items: seq<(string, Value)>,
                                               now: int, i: int, default: string)
    requires DistinctKeys(items) && 0 <= i < |items|
    ensures Lookup(ApplySettings(settings, items, now), items[i].0, default) == PyStr(items[i].1)
  {
    var n := |items| - 1;
    var init := items[..n];
    var before := ApplySettings(settings, init, now);
    assert ApplySettings(settings, items, now) == Upsert(before, items[n].0, PyStr(items[n].1), now);
    if i == n {
      UpsertLaws(before, items[n].0, PyStr(items[n].1), now, items[n].0, default);
    } else {
      DistinctKeysPrefix(items, n);
      assert init[i] == items[i];
      SettingsPostThenGet(settings, init, now, i, default);
      assert items[i].0 != items[n].0;
      UpsertLaws(before, items[n].0, PyStr(items[n].1), now, items[i].0, default);
    }
  }

  /** After a settings POST, a key that was not posted reads back as before. */
  lemma {:induction false} SettingsPostKeepsOthers(settings: map<string, Setting>, items: seq<(string, Value)>,
                                                   now: int, key: string, default: string)
    requires forall i :: 0 <= i < |items| ==> items[i].0 != key
    ensures Lookup(ApplySettings(settings, items, now), key, default) == Lookup(settings, key, default)
  {
    if items != [] {
      var n := |items| - 1;
      var init := items[..n];
      assert forall i :: 0 <= i < |init| ==> init[i] == items[i];
      SettingsPostKeepsOthers(settings, init, now, key, default);
      UpsertLaws(ApplySettings(settings, init, now), items[n].0, PyStr(items[n].1), now, key, default);
    }
  }

  datatype SettingsResponse = SettingsRejected(error: string) | SettingsUpdated(message: string)

  /** POST /api/settings: a missing or empty object is rejected; otherwise
      every key is written with str() of its value. */
  method UpdateSettings(store: Store, body: Option<seq<(string, Value)>>, now: int) returns (resp: SettingsResponse)
    requires store.Valid() && store.created
    modifies store
    ensures store.Valid() && store.created
    ensures resp.SettingsRejected? <==> body.None? || body.value == []
    ensures resp.SettingsRejected? ==> resp.error == "No settings data provided" && unchanged(store)
    ensures resp.SettingsUpdated? ==>
      && resp.message == "Settings updated successfully"
      && store.settings == ApplySettings(old(store.settings), body.value, now)
    ensures store.moods == old(store.moods) && store.journal == old(store.journal)
    ensures store.chats == old(store.chats) && store.breathing == old(store.breathing)
  {
    if body.None? || body.value == [] {
      return SettingsRejected("No settings data provided");
    }
    var items := body.value;
    var i := 0;
    while i < |items|
      invariant 0 <= i <= |items|
      invariant store.Valid() && store.created
      invariant store.settings == ApplySettings(old(store.settings), items[..i], now)
      invariant store.moods == old(store.moods) && store.journal == old(store.journal)
      invariant store.chats == old(store.chats) && store.breathing == old(store.breathing)
    {
      ApplySettingsStep(old(store.settings), items, i, now);
      store.UpdateUserSetting(items[i].0, PyStr(items[i].1), now);
      i := i + 1;
    }
    assert items[..|items|] == items;
    resp := SettingsUpdated("Settings updated successfully");
  }

  /** The GET /api/settings object. */
  datatype SettingsPage = SettingsPage(notifications: string, theme: string, reminderFrequency: string, name: string)

  /** GET /api/settings: the four known keys, each from the table or else
      its default "true", "light", "daily", "Friend". */
  function GetSettings(store: Store): (page: SettingsPage)
    reads store
    ensures page.notifications == if "notifications" in store.settings then store.settings["notifications"].value else "true"
    ensures page.theme == if "theme" in store.settings then store.settings["theme"].value else "light"
    ensures page.reminderFrequency == if "reminder_frequency" in store.settings then store.settings["reminder_frequency"].value else "daily"
    ensures page.name == if "name" in store.settings then store.settings["name"].value else "Friend"
  {
    SettingsPage(store.GetUserSetting("notifications", "true"), store.GetUserSetting("theme", "light"),
                 store.GetUserSetting("reminder_frequency", "daily"), store.GetUserSetting("name", "Friend"))
  }
}
