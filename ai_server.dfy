/** The chat server of AI/app.js: user accounts with a daily token quota,
    conversations stored under the key `${user}_${chatId}`, the
    `send_message` handler that checks the quota, builds the system prompt,
    relays the model's stream and commits the turns on `done`, and the chat
    and admin handlers around it. The JSON files are the maps `users` and
    `chats`; the model server, uuid, bcrypt and the clock are parameters. */
module ChatServer {
  import opened Common
  import opened Strings
  import opened ChatStream

  /** A record of users.json. A field the record may lack is an `Option`,
      `None` when it is absent. */
  datatype Account = Account(
    passwordHash: string,
    maxTokens: int,
    tokensUsedToday: Option<int>,
    personalPrompt: Option<string>,
    createdAt: Option<string>)

  /** The body sent to `/api/generate`. */
  datatype GenerateRequest = GenerateRequest(model: string, prompt: string, system: string, stream: bool)

  /** What the model server does with a request: the POST is refused, or it
      answers with a stream of chunks that may end with a stream error. */
  datatype Backend = Unreachable(error: string) | Stream(chunks: seq<string>, failure: Option<string>)

  /** The answer of an admin request. */
  datatype AdminResult = Success | Failure(status: nat, error: string)

  /** The answer of `/api/userinfo`; `ServerError` is the 500 that the
      handler produces when the session names a user that no longer exists. */
  datatype UserInfoResult =
    | Unauthorized
    | ServerError
    | Info(username: string, tokensRemaining: int, maxTokens: int, personalPrompt: string)

  // ---------------------------------------------------------------------
  // Quota

  /** `tokens_used_today || 0`. */
  function TokensUsed(a: Account): (r: int)
    ensures a.tokensUsedToday.None? ==> r == 0
    ensures a.tokensUsedToday.Some? ==> r == a.tokensUsedToday.value
  {
    a.tokensUsedToday.GetOr(0)
  }

  /** The refusal test of `send_message`. */
  predicate QuotaExceeded(a: Account) {
    TokensUsed(a) >= a.maxTokens
  }

  /** `tokens_remaining`: used and remaining tokens always add up to the
      limit, and nothing remains exactly when a message would be refused. */
  function TokensRemaining(a: Account): (r: int)
    ensures r + TokensUsed(a) == a.maxTokens
    ensures r <= 0 <==> QuotaExceeded(a)
  {
    a.maxTokens - TokensUsed(a)
  }

  /** The account after a `done` line: the usage read before the request
      plus the reply's token count, every other field as it was. */
  function Charged(a: Account, tokens: nat): (r: Account)
    ensures TokensUsed(r) == TokensUsed(a) + tokens
    ensures r.tokensUsedToday.Some?
    ensures r.(tokensUsedToday := a.tokensUsedToday) == a
    ensures TokensRemaining(r) == TokensRemaining(a) - tokens
  {
    a.(tokensUsedToday := Some(TokensUsed(a) + tokens))
  }

  // ---------------------------------------------------------------------
  // System prompt

  const PersonalHeader := "\n\nPersonal Context:\n"

  /** `config.system_prompt || ''`, followed by the personal context only
      when the user has a non-empty personal prompt. */
  function SystemPrompt(config: Option<string>, personal: Option<string>): (r: string)
    ensures StartsWith(r, OrElse(config, ""))
    ensures |r| > |OrElse(config, "")| <==> Truthy(personal)
    ensures Truthy(personal) ==> r[|OrElse(config, "")|..] == PersonalHeader + personal.value
  {
    var base := OrElse(config, "");
    if Truthy(personal) then base + PersonalHeader + personal.value else base
  }

  // ---------------------------------------------------------------------
  // Chat records

  /** `${userId}_${chatId}`. */
  function ChatKey(userId: string, chatId: string): (k: string)
    ensures StartsWith(k, userId + "_")
    ensures k[|userId| + 1..] == chatId
  {
    userId + "_" + chatId
  }

  /** `{ messages: [] }`, the record of a chat that has not been stored. */
  const EmptyChat := ChatRecord([], None, None, None)

  /** `chats[key] || { messages: [] }`. */
  function StoredOrEmpty(chats: map<string, ChatRecord>, key: string): (r: ChatRecord)
    ensures key in chats ==> r == chats[key]
    ensures key !in chats ==> r.messages == [] && r.name.None? && r.updatedAt.None?
  {
    if key in chats then chats[key] else EmptyChat
  }

  /** The assistant turn pushed for one `message_completed`. */
  function AssistantTurn(reply: Reply): Message {
    Message(AssistantRole, reply.content, Some(reply.stats))
  }

  /** The record saved after the completions `cs` of one request: the old
      messages, the user turn, then one assistant turn per completion; name
      and timestamps are not touched. */
  function Committed(base: ChatRecord, message: string, cs: seq<Reply>): (r: ChatRecord)
    ensures |r.messages| == |base.messages| + 1 + |cs|
    ensures r.messages[..|base.messages|] == base.messages
    ensures r.messages[|base.messages|] == Message(UserRole, message, None)
    ensures forall k :: 0 <= k < |cs| ==> r.messages[|base.messages| + 1 + k] == AssistantTurn(cs[k])
    ensures r.(messages := base.messages) == base
  {
    base.(messages := base.messages + [Message(UserRole, message, None)] + Map(cs, AssistantTurn))
  }

  /** With a single `done`, as the model server sends it, on the last line of
      the stream, one request adds exactly the user turn and one assistant
      turn holding the whole text and one token per fragment. */
  lemma SingleDoneCommit(base: ChatRecord, message: string, lines: seq<Line>, responseId: string, duration: int)
    requires DoneCount(lines) == 1 && lines[|lines| - 1].Obj? && lines[|lines| - 1].done
    ensures
      var cs := Completions(Run(lines, responseId, duration).events);
      |cs| == 1 &&
      Committed(base, message, cs).messages ==
        base.messages + [Message(UserRole, message, None),
                         Message(AssistantRole, Concat(Fragments(lines)),
                                 Some(Stats(|Fragments(lines)|, duration)))]
  {
    CompletionsPerDone(lines, responseId, duration);
    var cs := Completions(Run(lines, responseId, duration).events);
    var r := Committed(base, message, cs);
    var want := base.messages + [Message(UserRole, message, None),
                                 Message(AssistantRole, Concat(Fragments(lines)),
                                         Some(Stats(|Fragments(lines)|, duration)))];
    assert |r.messages| == |want|;
    forall k | 0 <= k < |want| ensures r.messages[k] == want[k] {
      if k < |base.messages| {
        assert r.messages[..|base.messages|][k] == r.messages[k];
      }
    }
  }

  /** The summary of a chat in the side-bar list. */
  function SummaryOf(id: string, chat: ChatRecord, now: string): (r: ChatSummary)
    ensures r.id == id
    ensures Truthy(chat.name) ==> r.name == chat.name.value
    ensures !Truthy(chat.name) ==> r.name == "Chat " + id
    ensures Truthy(chat.updatedAt) ==> r.updatedAt == chat.updatedAt.value
    ensures !Truthy(chat.updatedAt) ==> r.updatedAt == now
  {
    ChatSummary(id, OrElse(chat.name, "Chat " + id), OrElse(chat.updatedAt, now))
  }

  // ---------------------------------------------------------------------
  // The chat list, as written and as intended

  /** `key.split('_')[1]`: the second `_`-separated piece of a key. */
  function ListedIdAsWritten(key: string): (r: string)
    requires '_' in key
    ensures '_' !in r
  {
    OccurrencesPositive(key, '_');
    Split(key, '_')[1]
  }

  /** The list as written: every key starting with `${userId}_`, its id the
      second piece of the key. */
  function ChatListAsWritten(chats: map<string, ChatRecord>, userId: string, now: string): (r: map<string, ChatSummary>)
    ensures forall k :: k in r <==> k in chats && StartsWith(k, userId + "_")
  {
    map k | k in chats && StartsWith(k, userId + "_") :: SummaryOf(LeadingIdAsWritten(k, userId), chats[k], now)
  }

  /** `ListedIdAsWritten` on a key that passed the prefix filter. */
  function LeadingIdAsWritten(key: string, userId: string): string
    requires StartsWith(key, userId + "_")
  {
    assert key[|userId|] == '_';
    ListedIdAsWritten(key)
  }

  /** The second piece is the chat id whenever neither the user name nor the
      chat id contains `_`. */
  lemma ListedIdWithoutUnderscores(userId: string, chatId: string)
    requires '_' !in userId && '_' !in chatId
    ensures '_' in ChatKey(userId, chatId)
    ensures ListedIdAsWritten(ChatKey(userId, chatId)) == chatId
  {
    var key := ChatKey(userId, chatId);
    assert key[|userId|] == '_';
    assert key == userId + ['_'] + chatId;
    SplitAppend(userId, '_', chatId);
    SplitNoSeparator(userId, '_');
    SplitNoSeparator(chatId, '_');
  }

  /** The second piece of `a_b_c` is `b` when neither `a` nor `b` holds
      `_`, whatever `c` is. */
  lemma ListedIdOfThree(a: string, b: string, c: string)
    requires '_' !in a && '_' !in b
    ensures '_' in a + "_" + b + "_" + c
    ensures ListedIdAsWritten(a + "_" + b + "_" + c) == b
  {
    var key := a + "_" + b + "_" + c;
    assert key[|a|] == '_';
    assert key == a + ['_'] + (b + ['_'] + c);
    SplitAppend(a, '_', b + ['_'] + c);
    SplitAppend(b, '_', c);
    SplitNoSeparator(a, '_');
    SplitNoSeparator(b, '_');
  }

  /** A user name with `_` breaks the id: the chat `ab12cd34` of the user
      `max_m` is listed with the id `m`. */
  lemma ListedIdMisparsed()
    ensures ChatKey("max_m", "ab12cd34") == "max" + "_" + "m" + "_" + "ab12cd34"
    ensures ListedIdAsWritten(ChatKey("max_m", "ab12cd34")) == "m"
  {
    ListedIdOfThree("max", "m", "ab12cd34");
  }

  /** The prefix filter lets `max` see the chats of `max_m`. */
  lemma ListLeaksOtherUser(rec: ChatRecord, now: string)
    ensures
      var chats := map[ChatKey("max_m", "ab12cd34") := rec];
      ChatKey("max_m", "ab12cd34") in ChatListAsWritten(chats, "max", now)
  {
    var key := ChatKey("max_m", "ab12cd34");
    assert key[..4] == "max_";
  }

  /** A key belongs to `userId` when it is `${userId}_${chatId}` for a chat
      id without `_`, as every id made by `create_chat` is. */
  predicate OwnsKey(userId: string, key: string) {
    StartsWith(key, userId + "_") && '_' !in key[|userId| + 1..]
  }

  /** The side-bar list of `userId`, keyed by chat key. */
  function ChatList(chats: map<string, ChatRecord>, userId: string, now: string): (r: map<string, ChatSummary>)
    ensures forall k :: k in r <==> k in chats && OwnsKey(userId, k)
    ensures forall k :: k in r ==> OwnsKey(userId, k) && r[k] == SummaryOf(k[|userId| + 1..], chats[k], now)
  {
    map k | k in chats && OwnsKey(userId, k) :: SummaryOf(k[|userId| + 1..], chats[k], now)
  }

  /** The list holds exactly the stored chats of `userId`, each under its
      own id. */
  lemma ChatListExact(chats: map<string, ChatRecord>, userId: string, chatId: string, now: string)
    requires '_' !in chatId
    ensures ChatKey(userId, chatId) in ChatList(chats, userId, now) <==> ChatKey(userId, chatId) in chats
    ensures ChatKey(userId, chatId) in chats ==>
      ChatList(chats, userId, now)[ChatKey(userId, chatId)].id == chatId
  {
  }

  /** No key is listed for two different users. */
  lemma OwnsKeyUnique(u1: string, u2: string, key: string)
    requires OwnsKey(u1, key) && OwnsKey(u2, key)
    ensures u1 == u2
  {
    OwnsKeyShape(u1, key);
    OwnsKeyShape(u2, key);
  }

  /** An owned key is the user name, `_`, and no further `_`. */
  lemma OwnsKeyShape(u: string, key: string)
    requires OwnsKey(u, key)
    ensures key[..|u|] == u && key[|u|] == '_'
    ensures forall j :: |u| < j < |key| ==> key[j] != '_'
  {
    assert key[..|u| + 1][..|u|] == key[..|u|];
    forall j | |u| < j < |key| ensures key[j] != '_' {
      assert key[|u| + 1..][j - |u| - 1] == key[j];
    }
  }

  /** The corrected list never shows `max` the chat of `max_m`. */
  lemma ListKeepsOtherUserOut(rec: ChatRecord, now: string)
    ensures
      var chats := map[ChatKey("max_m", "ab12cd34") := rec];
      ChatKey("max_m", "ab12cd34") !in ChatList(chats, "max", now)
  {
    var key := ChatKey("max_m", "ab12cd34");
    assert key[4..][1] == '_';
  }

  /** When neither the user name nor any of the user's chat ids holds `_`,
      the list as written and the corrected list are the same. */
  lemma ChatListsAgree(chats: map<string, ChatRecord>, userId: string, now: string)
    requires '_' !in userId
    requires forall k :: k in chats && StartsWith(k, userId + "_") ==> '_' !in k[|userId| + 1..]
    ensures ChatListAsWritten(chats, userId, now) == ChatList(chats, userId, now)
  {
    forall k | k in chats && StartsWith(k, userId + "_")
      ensures LeadingIdAsWritten(k, userId) == k[|userId| + 1..]
    {
      var c := k[|userId| + 1..];
      assert k == ChatKey(userId, c);
      ListedIdWithoutUnderscores(userId, c);
    }
  }

  lemma {:induction false} OccurrencesPositive(s: string, c: char)
    requires c in s
    ensures Occurrences(s, c) >= 1
  {
    if s[0] != c {
      assert c in s[1..];
      OccurrencesPositive(s[1..], c);
    }
  }

  // ---------------------------------------------------------------------
  // The daily reset

  /** Every account with `tokens_used_today = 0` and nothing else changed. */
  function ResetAll(users: map<string, Account>): (r: map<string, Account>)
    ensures r.Keys == users.Keys
    ensures forall u :: u in r ==> r[u] == users[u].(tokensUsedToday := Some(0))
  {
    map u | u in users :: users[u].(tokensUsedToday := Some(0))
  }

  /** Resetting twice is resetting once. */
  lemma ResetIdempotent(users: map<string, Account>)
    ensures ResetAll(ResetAll(users)) == ResetAll(users)
  {
  }

  /** After the reset a user is refused only when the limit itself is not
      positive. */
  lemma ResetLiftsQuota(users: map<string, Account>, u: string)
    requires u in users
    ensures QuotaExceeded(ResetAll(users)[u]) <==> users[u].maxTokens <= 0
  {
  }

  // ---------------------------------------------------------------------
  // The server state and its handlers

  class Server {
    var users: map<string, Account>
    var chats: map<string, ChatRecord>
    /** `config.system_prompt`. */
    const systemPrompt: Option<string>

    constructor(users0: map<string, Account>, chats0: map<string, ChatRecord>, systemPrompt0: Option<string>)
      ensures users == users0 && chats == chats0 && systemPrompt == systemPrompt0
    {
      users, chats, systemPrompt := users0, chats0, systemPrompt0;
    }

    /** The `send_message` handler for the socket whose authenticated user
        is `userId`. The model server is `backend`, line decoding is
        `parse`; `responseId` stands for `uuidv4()` and `duration` for the
        rounded elapsed time. `request` is the body sent to the model
        server, if any. A missing or empty user name fails `!socket.userId`
        and is refused, here and in the chat handlers below. */
    method SendMessage(userId: Option<string>, message: string, model: string, chatId: string,
                       backend: GenerateRequest -> Backend, parse: string -> Line,
                       responseId: string, duration: int)
      returns (request: Option<GenerateRequest>, events: seq<Event>)
      modifies this
      ensures !Truthy(userId) ==>
        request.None? && events == [ErrorEvent("Nicht authentifiziert")] && unchanged(this)
      ensures Truthy(userId) && userId.value !in old(users) ==>
        request.None? && events == [ErrorEvent("Benutzer nicht gefunden")] && unchanged(this)
      ensures Truthy(userId) && userId.value in old(users) && QuotaExceeded(old(users)[userId.value]) ==>
        request.None? && events == [TokenLimitExceeded] && unchanged(this)
      ensures request.Some? <==>
        Truthy(userId) && userId.value in old(users) && !QuotaExceeded(old(users)[userId.value])
      ensures request.Some? ==>
        request.value == GenerateRequest(model, message, SystemPrompt(systemPrompt, old(users)[userId.value].personalPrompt), true)
      ensures request.Some? && backend(request.value).Unreachable? ==>
        events == [ErrorEvent("Fehler bei der Verbindung zur KI: " + backend(request.value).error)] && unchanged(this)
      ensures request.Some? && backend(request.value).Stream? ==>
        var b := backend(request.value);
        var relayed := Run(Decode(b.chunks, parse), responseId, duration).events;
        var cs := Completions(relayed);
        var key := ChatKey(userId.value, chatId);
        && events == relayed + (if b.failure.Some? then [ErrorEvent("Fehler bei der KI-Antwort: " + b.failure.value)] else [])
        && (cs == [] ==> unchanged(this))
        && (cs != [] ==>
              && chats == old(chats)[key := Committed(StoredOrEmpty(old(chats), key), message, cs)]
              && users == old(users)[userId.value := Charged(old(users)[userId.value], cs[|cs| - 1].stats.tokens)])
    {
      if !Truthy(userId) {
        return None, [ErrorEvent("Nicht authentifiziert")];
      }
      var u := userId.value;
      if u !in users {
        return None, [ErrorEvent("Benutzer nicht gefunden")];
      }
      var user := users[u];
      if QuotaExceeded(user) {
        return None, [TokenLimitExceeded];
      }
      var system := SystemPrompt(systemPrompt, user.personalPrompt);
      var key := ChatKey(u, chatId);
      var base := StoredOrEmpty(chats, key);
      var req := GenerateRequest(model, message, system, true);
      request := Some(req);
      var answer := backend(req);
      if answer.Unreachable? {
        events := [ErrorEvent("Fehler bei der Verbindung zur KI: " + answer.error)];
        return;
      }
      events := RelayAndCommit(u, user, key, base, message, answer, parse, responseId, duration);
    }

    /** The stream callbacks of `send_message`: relay every line, and on
        each `done` store the history under `key` and charge `user`. Every
        `done` saves again, so after the stream the store holds the last of
        these saves. */
    method RelayAndCommit(u: string, user: Account, key: string, base: ChatRecord, message: string,
                          answer: Backend, parse: string -> Line, responseId: string, duration: int)
      returns (events: seq<Event>)
      requires answer.Stream?
      modifies this
      ensures
        var relayed := Run(Decode(answer.chunks, parse), responseId, duration).events;
        var cs := Completions(relayed);
        && events == relayed + (if answer.failure.Some? then [ErrorEvent("Fehler bei der KI-Antwort: " + answer.failure.value)] else [])
        && (cs == [] ==> unchanged(this))
        && (cs != [] ==>
              && chats == old(chats)[key := Committed(base, message, cs)]
              && users == old(users)[u := Charged(user, cs[|cs| - 1].stats.tokens)])
    {
      var text, tokens;
      text, tokens, events := RelayStream(answer.chunks, parse, responseId, duration);
      var cs := Completions(events);
      if cs != [] {
        chats := chats[key := Committed(base, message, cs)];
        users := users[u := Charged(user, cs[|cs| - 1].stats.tokens)];
      }
      if answer.failure.Some? {
        events := events + [ErrorEvent("Fehler bei der KI-Antwort: " + answer.failure.value)];
      }
    }

    /** The `load_chat` handler: the stored record, or an empty one, and the
        caller's chat list. */
    method LoadChat(userId: Option<string>, chatId: string, now: string) returns (events: seq<Event>)
      ensures !Truthy(userId) ==> events == []
      ensures Truthy(userId) ==>
        events == [ChatLoaded(chatId, StoredOrEmpty(chats, ChatKey(userId.value, chatId)), ChatList(chats, userId.value, now))]
    {
      if !Truthy(userId) {
        return [];
      }
      var key := ChatKey(userId.value, chatId);
      events := [ChatLoaded(chatId, StoredOrEmpty(chats, key), ChatList(chats, userId.value, now))];
    }

    /** The `create_chat` handler: the id is the first 8 characters of
        `uuid`, the record is empty and named "Neuer Chat". */
    method CreateChat(userId: Option<string>, uuid: string, now: string) returns (events: seq<Event>)
      modifies this
      ensures !Truthy(userId) ==> events == [] && unchanged(this)
      ensures Truthy(userId) ==>
        var id := uuid[..if |uuid| < 8 then |uuid| else 8];
        && events == [ChatCreated(id)]
        && chats == old(chats)[ChatKey(userId.value, id) := ChatRecord([], Some("Neuer Chat"), Some(now), Some(now))]
        && users == old(users)
    {
      if !Truthy(userId) {
        return [];
      }
      var id := uuid[..if |uuid| < 8 then |uuid| else 8];
      chats := chats[ChatKey(userId.value, id) := ChatRecord([], Some("Neuer Chat"), Some(now), Some(now))];
      events := [ChatCreated(id)];
    }

    /** The `delete_chat` handler: only a stored chat is deleted, and only
        then is `chat_deleted` emitted. */
    method DeleteChat(userId: Option<string>, chatId: string) returns (events: seq<Event>)
      modifies this
      ensures !Truthy(userId) || ChatKey(userId.value, chatId) !in old(chats) ==> events == [] && unchanged(this)
      ensures Truthy(userId) && ChatKey(userId.value, chatId) in old(chats) ==>
        && events == [ChatDeleted(chatId)]
        && chats == old(chats) - {ChatKey(userId.value, chatId)}
        && users == old(users)
    {
      if !Truthy(userId) {
        return [];
      }
      var key := ChatKey(userId.value, chatId);
      if key in chats {
        chats := chats - {key};
        events := [ChatDeleted(chatId)];
      } else {
        events := [];
      }
    }

    /** The `reset_chat` handler: a stored chat keeps its key and name with
        no messages; `chat_reset` is emitted either way. */
    method ResetChat(userId: Option<string>, chatId: string, now: string) returns (events: seq<Event>)
      modifies this
      ensures !Truthy(userId) ==> events == [] && unchanged(this)
      ensures Truthy(userId) ==> events == [ChatReset] && users == old(users)
      ensures Truthy(userId) && ChatKey(userId.value, chatId) !in old(chats) ==> chats == old(chats)
      ensures Truthy(userId) && ChatKey(userId.value, chatId) in old(chats) ==>
        var key := ChatKey(userId.value, chatId);
        chats == old(chats)[key := old(chats)[key].(messages := [], updatedAt := Some(now))]
    {
      if !Truthy(userId) {
        return [];
      }
      var key := ChatKey(userId.value, chatId);
      if key in chats {
        chats := chats[key := chats[key].(messages := [], updatedAt := Some(now))];
      }
      events := [ChatReset];
    }

    /** The body of the scheduled daily reset. */
    method ResetDailyTokens()
      modifies this
      ensures users == ResetAll(old(users))
      ensures chats == old(chats)
    {
      var pending := users.Keys;
      var acc := users;
      while pending != {}
        invariant pending <= users.Keys
        invariant acc.Keys == users.Keys
        invariant forall u :: u in acc ==>
          acc[u] == if u in pending then users[u] else users[u].(tokensUsedToday := Some(0))
        decreases pending
      {
        var u :| u in pending;
        acc := acc[u := acc[u].(tokensUsedToday := Some(0))];
        pending := pending - {u};
      }
      users := acc;
    }

    /** `/admin/create-user`: an existing name is refused with 400; a new
        account starts with no tokens used and an empty personal prompt. */
    method CreateUser(username: string, password: string, maxTokens: int,
                      hash: string -> string, now: string) returns (result: AdminResult)
      modifies this
      ensures username in old(users) ==>
        result == Failure(400, "Benutzer existiert bereits") && unchanged(this)
      ensures username !in old(users) ==>
        && result == Success
        && users == old(users)[username := Account(hash(password), maxTokens, Some(0), Some(""), Some(now))]
        && chats == old(chats)
    {
      if username in users {
        return Failure(400, "Benutzer existiert bereits");
      }
      users := users[username := Account(hash(password), maxTokens, Some(0), Some(""), Some(now))];
      result := Success;
    }

    /** `/admin/delete-user/:username`: an unknown name is refused with 404.
        The user's chats stay stored. */
    method DeleteUser(username: string) returns (result: AdminResult)
      modifies this
      ensures username !in old(users) ==>
        result == Failure(404, "Benutzer nicht gefunden") && unchanged(this)
      ensures username in old(users) ==>
        result == Success && users == old(users) - {username} && chats == old(chats)
    {
      if username !in users {
        return Failure(404, "Benutzer nicht gefunden");
      }
      users := users - {username};
      result := Success;
    }

    /** `/api/userinfo`. */
    function UserInfo(userId: Option<string>): (r: UserInfoResult)
      reads this
      ensures userId.None? <==> r.Unauthorized?
      ensures r.ServerError? <==> userId.Some? && userId.value !in users
      ensures r.Info? ==>
        var a := users[userId.value];
        && r.username == userId.value
        && r.tokensRemaining + TokensUsed(a) == r.maxTokens == a.maxTokens
        && (r.tokensRemaining <= 0 <==> QuotaExceeded(a))
        && r.personalPrompt == OrElse(a.personalPrompt, "")
    {
      if userId.None? then Unauthorized
      else if userId.value !in users then ServerError
      else
        var a := users[userId.value];
        Info(userId.value, TokensRemaining(a), a.maxTokens, OrElse(a.personalPrompt, ""))
    }
  }

  // ---------------------------------------------------------------------
  // Sequences of handlers

  /** After `reset_chat`, loading the chat gives a record with no turns
      (for a user name that `load_chat` answers). */
  method ResetThenLoad(s: Server, userId: string, chatId: string, now: string) returns (loaded: ChatRecord)
    requires userId != ""
    modifies s
    ensures loaded.messages == []
    ensures ChatKey(userId, chatId) in old(s.chats) ==>
      loaded.name == old(s.chats)[ChatKey(userId, chatId)].name
  {
    var _ := s.ResetChat(Some(userId), chatId, now);
    var events := s.LoadChat(Some(userId), chatId, now);
    loaded := events[0].chatData;
  }

  /** After `delete_chat`, loading the chat gives the empty record and the
      chat is gone from the list (for a user name that `load_chat`
      answers). */
  method DeleteThenLoad(s: Server, userId: string, chatId: string, now: string) returns (loaded: ChatRecord, list: map<string, ChatSummary>)
    requires userId != ""
    modifies s
    ensures loaded == EmptyChat
    ensures ChatKey(userId, chatId) !in list
  {
    var _ := s.DeleteChat(Some(userId), chatId);
    var events := s.LoadChat(Some(userId), chatId, now);
    loaded, list := events[0].chatData, events[0].chatList;
  }
}
