/**
 * The Telegram bot server: the per-message router that registers or renames
 * users, answers bot commands and relays chat to the AI, and the polling
 * loop with its `offset` bookkeeping and on/off flag.
 *
 * Each step is specified by a function from a `Snapshot` of the store and the
 * outbox to the snapshot after it; the class methods are proved to perform
 * exactly those steps. The router is given twice: as written, where
 * `/setname` re-enters the router until the interpreter's recursion limit
 * (`depth` calls) is hit, and corrected, where `/setname` is routed to the
 * name registration. The polling loop and the webhook use the router as
 * written, as the program does.
 */
module TelegramServer {
  import opened Wrappers
  import opened PyText
  import opened HistoryFormat
  import opened MessagingStore
  import opened TelegramService
  import opened NameCommand

  const Platform := "telegram"
  /** The number of exchanges of history handed to the AI. */
  const HistoryLimit := 5

  /** The texts the bot sends; the formatting helpers of the service are left symbolic. */
  datatype Reply =
    | Welcome(greeted: Option<string>)
    | NameRegistered(name: string)
    | NameUpdated(name: string)
    | HistoryCleared
    | HelpText
    | ErrorText
    | InvalidName
    | UnknownCommand
    | AiText(text: string)

  datatype Outgoing = Outgoing(chatId: string, reply: Reply)

  /** The shared store and everything sent so far. */
  datatype Snapshot = Snapshot(users: seq<User>, conversations: seq<Row>, nextId: nat, outbox: seq<Outgoing>)

  /** The state a step leaves and whether it ended by raising an exception. */
  datatype Outcome = Outcome(state: Snapshot, raised: bool)

  /** The branches of `handle_command`. */
  datatype Route = Start | Help | Clear | SetName | Unknown

  /** `get_llm_response(user_message, conversation_history)`; None when the LLM server fails. */
  type Ai = (string, seq<Exchange>) -> Option<string>

  // ------------------------------------------------------------ single steps

  function Sent(s: Snapshot, chatId: string, r: Reply): Snapshot {
    s.(outbox := s.outbox + [Outgoing(chatId, r)])
  }

  /** `add_conversation_message(chat_id, 'telegram', role, text)` */
  function Stored(s: Snapshot, chatId: string, role: string, text: string, now: string): Snapshot {
    s.(conversations := s.conversations + [Row(s.nextId, chatId, Platform, role, text, now)], nextId := s.nextId + 1)
  }

  /** `get_user(chat_id, 'telegram')` */
  function TelegramUser(s: Snapshot, chatId: string): Option<User> {
    FindUser(s.users, chatId, Some(Platform))
  }

  /** A successful `create_user(chat_id, 'telegram', name, username)`. */
  function Created(s: Snapshot, chatId: string, name: string, username: Option<string>, now: string): Snapshot {
    s.(users := s.users + [User(chatId, Platform, Some(name), username, DefaultAiBackend, now, now)])
  }

  /** The rows of one Telegram chat, oldest first. */
  function ChatRows(s: Snapshot, chatId: string): seq<Row> {
    Filter(s.conversations, Selected(chatId, Some(Platform)))
  }

  /** The context handed to the AI: at most five exchanges of the stored history. */
  function Context(s: Snapshot, chatId: string): seq<Exchange> {
    Pairs(Recent(s.conversations, chatId, Some(Platform), HistoryLimit), None)
  }

  /**
   * The name branch once a name is known: rename an existing Telegram user,
   * or create one; the insert fails when the chat id is already stored under
   * another platform.
   */
  function Register(s: Snapshot, chatId: string, name: string, username: Option<string>, now: string): Outcome {
    if TelegramUser(s, chatId).Some? then
      Outcome(Sent(s.(users := Renamed(s.users, chatId, name, Some(Platform), now)), chatId, NameUpdated(name)), false)
    else if HasUserId(s.users, chatId) then
      Outcome(s, true)
    else
      Outcome(Sent(Created(s, chatId, name, username, now), chatId, NameRegistered(name)), false)
  }

  /**
   * The AI step: read the history, store the user message, ask the AI, and
   * store and send its answer when it has one, or send the error text.
   */
  function AiReply(s: Snapshot, chatId: string, text: string, ai: Ai, now: string): Snapshot {
    var context := Context(s, chatId);
    var s1 := Stored(s, chatId, "user", text, now);
    var answer := ai(text, context);
    if Truthy(answer) then Sent(Stored(s1, chatId, "assistant", answer.value, now), chatId, AiText(answer.value))
    else Sent(s1, chatId, ErrorText)
  }

  /**
   * A regular message: a user with a name goes straight to the AI; anyone
   * else is registered under the Telegram name when there is one (and then
   * goes on to the AI) or gets the welcome text.
   */
  function Chat(s: Snapshot, chatId: string, text: string, username: Option<string>, fullName: Option<string>,
                ai: Ai, now: string): Outcome
  {
    var user := TelegramUser(s, chatId);
    if user.Some? && Truthy(user.value.name) then
      Outcome(AiReply(s, chatId, text, ai, now), false)
    else if !Truthy(fullName) then
      Outcome(Sent(s, chatId, Welcome(None)), false)
    else if HasUserId(s.users, chatId) then
      Outcome(s, true)
    else
      var s1 := Sent(Created(s, chatId, fullName.value, username, now), chatId, NameRegistered(fullName.value));
      Outcome(AiReply(s1, chatId, text, ai, now), false)
  }

  /**
   * A message that does not start with `/`. `is_name_command` holds exactly
   * when the parse gives a name, so the "valid name" reply of this branch is
   * never sent.
   */
  function NonCommand(s: Snapshot, chatId: string, text: string, username: Option<string>, fullName: Option<string>,
                      ai: Ai, now: string): Outcome
  {
    match ParseNameCommand(text)
    case Some(name) => Register(s, chatId, name, username, now)
    case None => Chat(s, chatId, text, username, fullName, ai, now)
  }

  /** The branch `handle_command` takes on `command.lower().strip()`. */
  function CommandRoute(command: string): Route {
    var c := Strip(Lower(command));
    if c == "/start" then Start
    else if c == "/help" then Help
    else if c == "/clear" then Clear
    else if StartsWith(c, "/setname") then SetName
    else Unknown
  }

  /** `/start`: greet a named user by name, else register the Telegram name, else greet anonymously. */
  function StartCommand(s: Snapshot, chatId: string, username: Option<string>, fullName: Option<string>, now: string): Outcome {
    var user := TelegramUser(s, chatId);
    if user.Some? && Truthy(user.value.name) then
      Outcome(Sent(s, chatId, Welcome(user.value.name)), false)
    else if Truthy(fullName) then
      if HasUserId(s.users, chatId) then Outcome(s, true)
      else Outcome(Sent(Created(s, chatId, fullName.value, username, now), chatId, NameRegistered(fullName.value)), false)
    else
      Outcome(Sent(s, chatId, Welcome(None)), false)
  }

  /** Every command except `/setname`. */
  function OtherCommand(s: Snapshot, chatId: string, route: Route, username: Option<string>, fullName: Option<string>,
                        now: string): Outcome
    requires route != SetName
  {
    match route
    case Start => StartCommand(s, chatId, username, fullName, now)
    case Help => Outcome(Sent(s, chatId, HelpText), false)
    case Clear =>
      Outcome(Sent(s.(conversations := Filter(s.conversations, Kept(chatId, Some(Platform)))), chatId, HistoryCleared), false)
    case Unknown => Outcome(Sent(s, chatId, UnknownCommand), false)
  }

  /** The `except` of `process_telegram_message`: an exception is answered with the error text. */
  function Caught(o: Outcome, chatId: string): Snapshot {
    if o.raised then Sent(o.state, chatId, ErrorText) else o.state
  }

  // ------------------------------------------------------ router as written

  /**
   * `process_telegram_message` as written, with `depth` further calls left
   * before the interpreter's recursion limit. Nothing happens while the
   * Telegram service is not initialised (`ready` false).
   */
  function ProcessAsWritten(s: Snapshot, ready: bool, chatId: string, text: string, username: Option<string>,
                            fullName: Option<string>, ai: Ai, now: string, depth: nat): Snapshot
    decreases depth, 1
  {
    if !ready then s
    else if SlashFirst(text) then Caught(HandleAsWritten(s, ready, chatId, text, username, fullName, ai, now, depth), chatId)
    else Caught(NonCommand(s, chatId, text, username, fullName, ai, now), chatId)
  }

  /**
   * `handle_command` as written: `/setname` hands the same text back to
   * `process_telegram_message`; with no calls left that raises `RecursionError`.
   */
  function HandleAsWritten(s: Snapshot, ready: bool, chatId: string, command: string, username: Option<string>,
                           fullName: Option<string>, ai: Ai, now: string, depth: nat): Outcome
    decreases depth, 0
  {
    var route := CommandRoute(command);
    if route != SetName then OtherCommand(s, chatId, route, username, fullName, now)
    else if depth == 0 then Outcome(s, true)
    else Outcome(ProcessAsWritten(s, ready, chatId, command, username, fullName, ai, now, depth - 1), false)
  }

  // -------------------------------------------------------- router corrected

  /** `handle_command` with `/setname` routed to the name registration. */
  function HandleCommandFixed(s: Snapshot, chatId: string, command: string, username: Option<string>,
                              fullName: Option<string>, now: string): Outcome
  {
    var route := CommandRoute(command);
    if route != SetName then OtherCommand(s, chatId, route, username, fullName, now)
    else match ParseNameCommand(command)
      case Some(name) => Register(s, chatId, name, username, now)
      case None => Outcome(Sent(s, chatId, InvalidName), false)
  }

  /** `process_telegram_message` over the corrected command handler. */
  function Process(s: Snapshot, ready: bool, chatId: string, text: string, username: Option<string>,
                   fullName: Option<string>, ai: Ai, now: string): Snapshot
  {
    if !ready then s
    else if SlashFirst(text) then Caught(HandleCommandFixed(s, chatId, text, username, fullName, now), chatId)
    else Caught(NonCommand(s, chatId, text, username, fullName, ai, now), chatId)
  }

  // ----------------------------------------------------------------- polling

  /** `if update_id:` — a missing id and the id 0 are both falsy. */
  predicate TruthyId(u: TgUpdate) {
    u.updateId.Some? && u.updateId.value != 0
  }

  /** The last truthy `update_id` of a batch, as a reference for the offset the loop computes. */
  function LastTruthyId(us: seq<TgUpdate>): Option<int>
    decreases |us|
  {
    if us == [] then None
    else if TruthyId(us[|us| - 1]) then us[|us| - 1].updateId
    else LastTruthyId(us[..|us| - 1])
  }

  /** The reference names the id of the last update with a truthy id, and is None when there is none. */
  lemma {:induction false} LastTruthyIdIsLast(us: seq<TgUpdate>)
    ensures LastTruthyId(us).None? <==> forall i :: 0 <= i < |us| ==> !TruthyId(us[i])
    ensures LastTruthyId(us).Some? ==>
      exists i :: 0 <= i < |us| && TruthyId(us[i]) && us[i].updateId == LastTruthyId(us)
               && forall j :: i < j < |us| ==> !TruthyId(us[j])
    decreases |us|
  {
    if us != [] && !TruthyId(us[|us| - 1]) {
      var init := us[..|us| - 1];
      LastTruthyIdIsLast(init);
      assert forall i :: 0 <= i < |init| ==> init[i] == us[i];
      if LastTruthyId(init).Some? {
        var i :| 0 <= i < |init| && TruthyId(init[i]) && init[i].updateId == LastTruthyId(init)
                 && forall j :: i < j < |init| ==> !TruthyId(init[j]);
        assert TruthyId(us[i]) && us[i].updateId == LastTruthyId(us);
      }
    }
  }

  /** The `offset` after a batch: one past its last truthy id, or the old offset when it has none. */
  function OffsetAfter(us: seq<TgUpdate>, offset: Option<int>): Option<int> {
    match LastTruthyId(us)
    case Some(id) => Some(id + 1)
    case None => offset
  }

  /**
   * One update: a message with text goes to `process_telegram_message` as
   * written, with `depth` calls left before the recursion limit.
   */
  function Deliver(s: Snapshot, ready: bool, u: TgUpdate, ai: Ai, now: string, depth: nat): Snapshot {
    match ExtractMessageData(u)
    case Some(d) =>
      if d.text != [] then ProcessAsWritten(s, ready, d.chatId, d.text, d.username, d.fullName, ai, now, depth) else s
    case None => s
  }

  /** The updates of a batch, delivered in order. */
  function Delivered(s: Snapshot, ready: bool, us: seq<TgUpdate>, ai: Ai, now: string, depth: nat): Snapshot
    decreases |us|
  {
    if us == [] then s
    else Deliver(Delivered(s, ready, us[..|us| - 1], ai, now, depth), ready, us[|us| - 1], ai, now, depth)
  }

  /** What the polling thread sees: a stop request, or a batch from `get_updates` and the time it arrived. */
  datatype PollEvent = StopRequest | Updates(batch: seq<TgUpdate>, now: string)

  /** The index of the first stop request, or the number of events when there is none. */
  function StopIndex(events: seq<PollEvent>): (n: nat)
    ensures n <= |events|
    ensures forall i :: 0 <= i < n ==> events[i].Updates?
    ensures n < |events| ==> events[n] == StopRequest
  {
    if events == [] then 0
    else if events[0] == StopRequest then 0
    else 1 + StopIndex(events[1..])
  }

  /** Every update of a run of batches, in order. */
  function AllUpdates(events: seq<PollEvent>): seq<TgUpdate>
    decreases |events|
  {
    if events == [] then []
    else
      var last := events[|events| - 1];
      AllUpdates(events[..|events| - 1]) + (if last.Updates? then last.batch else [])
  }

  /** The state after the first `i` events of a run. */
  function Polled(s: Snapshot, ready: bool, events: seq<PollEvent>, i: nat, ai: Ai, depth: nat): Snapshot
    requires i <= |events|
    decreases i
  {
    if i == 0 then s
    else
      var before := Polled(s, ready, events, i - 1, ai, depth);
      match events[i - 1]
      case Updates(batch, now) => Delivered(before, ready, batch, ai, now, depth)
      case StopRequest => before
  }

  /** The offset passed to `get_updates` on turn `i` of a run: it carries over from batch to batch. */
  function OffsetBefore(events: seq<PollEvent>, i: nat): Option<int>
    requires i <= |events|
    decreases i
  {
    if i == 0 then None
    else
      match events[i - 1]
      case Updates(batch, _) => OffsetAfter(batch, OffsetBefore(events, i - 1))
      case StopRequest => OffsetBefore(events, i - 1)
  }

  /** The replies of the polling endpoints. */
  datatype PollReply = Status(status: string) | HttpError(code: nat, detail: string)

  // ------------------------------------------------------------------ lemmas

  /** The outbox only grows, and never by the "valid name" reply. */
  predicate NoInvalidName(before: seq<Outgoing>, after: seq<Outgoing>) {
    |before| <= |after| && after[..|before|] == before
    && forall k :: |before| <= k < |after| ==> after[k].reply != InvalidName
  }

  lemma NoInvalidNameStep(a: seq<Outgoing>, b: seq<Outgoing>, o: Outgoing)
    requires NoInvalidName(a, b) && o.reply != InvalidName
    ensures NoInvalidName(a, b + [o])
  {
    assert (b + [o])[..|a|] == b[..|a|];
  }

  /**
   * The name branch renames or creates, never both: a rename keeps the number
   * of user rows, a creation adds one, the insert fails only when the id is
   * stored under another platform, and afterwards the Telegram lookup finds
   * the name. No conversation row is touched.
   */
  lemma RegisterTakesEffect(s: Snapshot, chatId: string, name: string, username: Option<string>, now: string)
    ensures var o := Register(s, chatId, name, username, now);
      && (o.raised <==> TelegramUser(s, chatId).None? && HasUserId(s.users, chatId))
      && (o.raised ==> o.state == s)
      && (!o.raised ==> TelegramUser(o.state, chatId).Some? && TelegramUser(o.state, chatId).value.name == Some(name))
      && (TelegramUser(s, chatId).Some? ==>
            |o.state.users| == |s.users| && o.state.outbox == s.outbox + [Outgoing(chatId, NameUpdated(name))])
      && (TelegramUser(s, chatId).None? && !o.raised ==>
            |o.state.users| == |s.users| + 1 && o.state.outbox == s.outbox + [Outgoing(chatId, NameRegistered(name))])
      && o.state.conversations == s.conversations
  {
    var tg := Some(Platform);
    FindRenamed(s.users, chatId, name, tg, now);
    if TelegramUser(s, chatId).None? && !HasUserId(s.users, chatId) {
      FindAppended(s.users, User(chatId, Platform, Some(name), username, DefaultAiBackend, now, now), chatId, tg);
    }
  }

  /** The AI step adds the user message and, only when the AI answered, the answer to the chat's rows. */
  lemma AiReplyStores(s: Snapshot, chatId: string, text: string, ai: Ai, now: string)
    ensures var r := AiReply(s, chatId, text, ai, now);
      var answer := ai(text, Context(s, chatId));
      && Messages(ChatRows(r, chatId)) == Messages(ChatRows(s, chatId)) + [Message("user", text)]
           + (if Truthy(answer) then [Message("assistant", answer.value)] else [])
      && r.outbox == s.outbox + [Outgoing(chatId, if Truthy(answer) then AiText(answer.value) else ErrorText)]
      && r.users == s.users
      && |Context(s, chatId)| <= HistoryLimit
  {
    StoredRow(s, chatId, "user", text, now);
    var answer := ai(text, Context(s, chatId));
    if Truthy(answer) {
      StoredRow(Stored(s, chatId, "user", text, now), chatId, "assistant", answer.value, now);
    }
    PairsBound(Recent(s.conversations, chatId, Some(Platform), HistoryLimit), None);
  }

  /** Storing a message of the chat adds exactly that message to the chat's rows. */
  lemma StoredRow(s: Snapshot, chatId: string, role: string, text: string, now: string)
    ensures Messages(ChatRows(Stored(s, chatId, role, text, now), chatId)) == Messages(ChatRows(s, chatId)) + [Message(role, text)]
  {
    var p := Selected(chatId, Some(Platform));
    var row := Row(s.nextId, chatId, Platform, role, text, now);
    FilterAppend(s.conversations, [row], p);
    assert p(row);
    assert Filter([row], p) == [row] by { FilterAll([row], p); }
    MessagesAppend(ChatRows(s, chatId), [row]);
  }

  lemma {:induction false} MessagesAppend(a: seq<Row>, b: seq<Row>)
    ensures Messages(a + b) == Messages(a) + Messages(b)
  {
    var l, r := Messages(a + b), Messages(a) + Messages(b);
    assert |l| == |r|;
    forall i | 0 <= i < |l| ensures l[i] == r[i] {
      if i < |a| { assert (a + b)[i] == a[i]; } else { assert (a + b)[i] == b[i - |a|]; }
    }
  }

  /**
   * A regular message from a user without a stored name and without a
   * Telegram name gets the welcome text and writes nothing.
   */
  lemma AnonymousGetsWelcome(s: Snapshot, chatId: string, text: string, username: Option<string>,
                             fullName: Option<string>, ai: Ai, now: string, depth: nat)
    requires !SlashFirst(text) && ParseNameCommand(text).None?
    requires TelegramUser(s, chatId).None? || !Truthy(TelegramUser(s, chatId).value.name)
    requires !Truthy(fullName)
    ensures ProcessAsWritten(s, true, chatId, text, username, fullName, ai, now, depth) == Sent(s, chatId, Welcome(None))
    ensures Process(s, true, chatId, text, username, fullName, ai, now) == Sent(s, chatId, Welcome(None))
  {
  }

  /**
   * A regular message from a user without a stored name but with a Telegram
   * name registers that name and is then answered like any chat message.
   */
  lemma TelegramNameFallsThrough(s: Snapshot, chatId: string, text: string, username: Option<string>,
                                 name: string, ai: Ai, now: string)
    requires !SlashFirst(text) && ParseNameCommand(text).None?
    requires !HasUserId(s.users, chatId) && name != ""
    ensures TelegramUser(Process(s, true, chatId, text, username, Some(name), ai, now), chatId)
         == Some(User(chatId, Platform, Some(name), username, DefaultAiBackend, now, now))
    ensures var r := Process(s, true, chatId, text, username, Some(name), ai, now);
      var answer := ai(text, Context(s, chatId));
      Messages(ChatRows(r, chatId)) == Messages(ChatRows(s, chatId)) + [Message("user", text)]
           + (if Truthy(answer) then [Message("assistant", answer.value)] else [])
    ensures var r := Process(s, true, chatId, text, username, Some(name), ai, now);
      var answer := ai(text, Context(s, chatId));
      r.outbox == s.outbox + [Outgoing(chatId, NameRegistered(name))]
                  + [Outgoing(chatId, if Truthy(answer) then AiText(answer.value) else ErrorText)]
  {
    ProcessChat(s, chatId, text, username, Some(name), ai, now);
    ChatWithTelegramName(s, chatId, text, username, name, ai, now);
  }

  /** A regular message that is not a name message is handled by the chat branch. */
  lemma ProcessChat(s: Snapshot, chatId: string, text: string, username: Option<string>,
                    fullName: Option<string>, ai: Ai, now: string)
    requires !SlashFirst(text) && ParseNameCommand(text).None?
    ensures Process(s, true, chatId, text, username, fullName, ai, now)
         == Caught(Chat(s, chatId, text, username, fullName, ai, now), chatId)
  {
  }

  lemma ChatWithTelegramName(s: Snapshot, chatId: string, text: string, username: Option<string>,
                             name: string, ai: Ai, now: string)
    requires !HasUserId(s.users, chatId) && name != ""
    ensures var o := Chat(s, chatId, text, username, Some(name), ai, now);
      var answer := ai(text, Context(s, chatId));
      && !o.raised
      && TelegramUser(o.state, chatId) == Some(User(chatId, Platform, Some(name), username, DefaultAiBackend, now, now))
      && Messages(ChatRows(o.state, chatId)) == Messages(ChatRows(s, chatId)) + [Message("user", text)]
           + (if Truthy(answer) then [Message("assistant", answer.value)] else [])
      && o.state.outbox == s.outbox + [Outgoing(chatId, NameRegistered(name))]
                  + [Outgoing(chatId, if Truthy(answer) then AiText(answer.value) else ErrorText)]
  {
    var u := User(chatId, Platform, Some(name), username, DefaultAiBackend, now, now);
    var s1 := Sent(Created(s, chatId, name, username, now), chatId, NameRegistered(name));
    var r := AiReply(s1, chatId, text, ai, now);
    var answer := ai(text, Context(s, chatId));
    assert Chat(s, chatId, text, username, Some(name), ai, now) == Outcome(r, false) by {
      NoIdNoUser(s.users, chatId, Some(Platform));
    }
    assert TelegramUser(r, chatId) == Some(u) by {
      AiReplyStores(s1, chatId, text, ai, now);
      FindAppended(s.users, u, chatId, Some(Platform));
    }
    assert Messages(ChatRows(r, chatId)) == Messages(ChatRows(s, chatId)) + [Message("user", text)]
           + (if Truthy(answer) then [Message("assistant", answer.value)] else [])
        && r.outbox == s1.outbox + [Outgoing(chatId, if Truthy(answer) then AiText(answer.value) else ErrorText)] by {
      assert s1.conversations == s.conversations;
      assert Context(s1, chatId) == Context(s, chatId) && ChatRows(s1, chatId) == ChatRows(s, chatId);
      AiReplyStores(s1, chatId, text, ai, now);
    }
  }

  /**
   * A regular message from a named user: the AI sees at most five exchanges
   * of the history as it was before this message, the message is stored, and
   * the answer is stored and sent only when there is one.
   */
  lemma NamedUserChats(s: Snapshot, chatId: string, text: string, username: Option<string>,
                       fullName: Option<string>, ai: Ai, now: string)
    requires !SlashFirst(text) && ParseNameCommand(text).None?
    requires TelegramUser(s, chatId).Some? && Truthy(TelegramUser(s, chatId).value.name)
    ensures var r := Process(s, true, chatId, text, username, fullName, ai, now);
      var answer := ai(text, Context(s, chatId));
      && r.users == s.users
      && Messages(ChatRows(r, chatId)) == Messages(ChatRows(s, chatId)) + [Message("user", text)]
           + (if Truthy(answer) then [Message("assistant", answer.value)] else [])
      && r.outbox == s.outbox + [Outgoing(chatId, if Truthy(answer) then AiText(answer.value) else ErrorText)]
  {
    AiReplyStores(s, chatId, text, ai, now);
  }

  /** `/start` greets a named user by that name, registers the Telegram name, or greets anonymously. */
  lemma StartGreets(s: Snapshot, chatId: string, command: string, username: Option<string>,
                    fullName: Option<string>, ai: Ai, now: string, depth: nat)
    requires SlashFirst(command) && CommandRoute(command) == Start
    ensures var r := ProcessAsWritten(s, true, chatId, command, username, fullName, ai, now, depth);
      var user := TelegramUser(s, chatId);
      && r.conversations == s.conversations
      && (user.Some? && Truthy(user.value.name) ==> r == Sent(s, chatId, Welcome(user.value.name)))
      && (!(user.Some? && Truthy(user.value.name)) && !Truthy(fullName) ==> r == Sent(s, chatId, Welcome(None)))
      && (!(user.Some? && Truthy(user.value.name)) && Truthy(fullName) && !HasUserId(s.users, chatId) ==>
            TelegramUser(r, chatId).Some? && TelegramUser(r, chatId).value.name == fullName
            && r.outbox == s.outbox + [Outgoing(chatId, NameRegistered(fullName.value))])
  {
    var user := TelegramUser(s, chatId);
    if !(user.Some? && Truthy(user.value.name)) && Truthy(fullName) && !HasUserId(s.users, chatId) {
      FindAppended(s.users, User(chatId, Platform, fullName, username, DefaultAiBackend, now, now), chatId, Some(Platform));
    }
  }

  /** A name message registers its name, except when the chat id belongs to another platform. */
  lemma NameMessageRegisters(s: Snapshot, chatId: string, text: string, name: string, username: Option<string>,
                             fullName: Option<string>, ai: Ai, now: string, depth: nat)
    requires !SlashFirst(text) && ParseNameCommand(text) == Some(name)
    ensures var r := ProcessAsWritten(s, true, chatId, text, username, fullName, ai, now, depth);
      && r.conversations == s.conversations
      && (TelegramUser(s, chatId).None? && HasUserId(s.users, chatId) ==> r == Sent(s, chatId, ErrorText))
      && (TelegramUser(s, chatId).Some? || !HasUserId(s.users, chatId) ==>
            TelegramUser(r, chatId).Some? && TelegramUser(r, chatId).value.name == Some(name))
  {
    RegisterTakesEffect(s, chatId, name, username, now);
  }

  /**
   * As written, `/setname` never registers: however deep the interpreter
   * lets the two functions recurse, the store is left as it was and the
   * only reply is the error text sent once the recursion limit is hit.
   */
  lemma {:induction false} SetNameNeverRegisters(s: Snapshot, chatId: string, text: string, username: Option<string>,
                                                 fullName: Option<string>, ai: Ai, now: string, depth: nat)
    requires SlashFirst(text) && CommandRoute(text) == SetName
    ensures ProcessAsWritten(s, true, chatId, text, username, fullName, ai, now, depth) == Sent(s, chatId, ErrorText)
    decreases depth
  {
    var o := HandleAsWritten(s, true, chatId, text, username, fullName, ai, now, depth);
    if depth == 0 {
      assert o == Outcome(s, true);
    } else {
      assert o == Outcome(Sent(s, chatId, ErrorText), false) by {
        SetNameNeverRegisters(s, chatId, text, username, fullName, ai, now, depth - 1);
      }
    }
  }

  /**
   * The two routers differ only on `/setname`: every other message, command
   * or not, is handled alike by the router as written (at any depth) and
   * the corrected one, so the lemmas about chat and name messages hold for
   * the program's own router too.
   */
  lemma AsWrittenAgreesOffSetName(s: Snapshot, ready: bool, chatId: string, text: string, username: Option<string>,
                                  fullName: Option<string>, ai: Ai, now: string, depth: nat)
    requires !(SlashFirst(text) && CommandRoute(text) == SetName)
    ensures ProcessAsWritten(s, ready, chatId, text, username, fullName, ai, now, depth)
         == Process(s, ready, chatId, text, username, fullName, ai, now)
  {
  }

  /** As written, the "valid name" reply is never sent, whatever the message. */
  lemma {:induction false} NeverInvalidName(s: Snapshot, chatId: string, text: string, username: Option<string>,
                                            fullName: Option<string>, ai: Ai, now: string, depth: nat)
    ensures NoInvalidName(s.outbox, ProcessAsWritten(s, true, chatId, text, username, fullName, ai, now, depth).outbox)
    decreases depth
  {
    var o := if SlashFirst(text) then HandleAsWritten(s, true, chatId, text, username, fullName, ai, now, depth)
             else NonCommand(s, chatId, text, username, fullName, ai, now);
    if SlashFirst(text) && CommandRoute(text) == SetName {
      SetNameNeverRegisters(s, chatId, text, username, fullName, ai, now, depth);
    } else {
      OutcomeSendsNoInvalidName(s, chatId, text, username, fullName, ai, now, depth);
    }
  }

  lemma OutcomeSendsNoInvalidName(s: Snapshot, chatId: string, text: string, username: Option<string>,
                                  fullName: Option<string>, ai: Ai, now: string, depth: nat)
    requires !(SlashFirst(text) && CommandRoute(text) == SetName)
    ensures NoInvalidName(s.outbox, ProcessAsWritten(s, true, chatId, text, username, fullName, ai, now, depth).outbox)
  {
    var o := if SlashFirst(text) then HandleAsWritten(s, true, chatId, text, username, fullName, ai, now, depth)
             else NonCommand(s, chatId, text, username, fullName, ai, now);
    NoInvalidNameInOutcome(s, chatId, text, username, fullName, ai, now, depth, o);
    if o.raised {
      NoInvalidNameStep(s.outbox, o.state.outbox, Outgoing(chatId, ErrorText));
    }
  }

  lemma NoInvalidNameInOutcome(s: Snapshot, chatId: string, text: string, username: Option<string>,
                               fullName: Option<string>, ai: Ai, now: string, depth: nat, o: Outcome)
    requires !(SlashFirst(text) && CommandRoute(text) == SetName)
    requires o == if SlashFirst(text) then HandleAsWritten(s, true, chatId, text, username, fullName, ai, now, depth)
                  else NonCommand(s, chatId, text, username, fullName, ai, now)
    ensures NoInvalidName(s.outbox, o.state.outbox)
  {
    if SlashFirst(text) {
      OtherCommandNoInvalidName(s, chatId, CommandRoute(text), username, fullName, now);
    } else {
      match ParseNameCommand(text)
      case Some(name) => RegisterNoInvalidName(s, chatId, name, username, now);
      case None => ChatNoInvalidName(s, chatId, text, username, fullName, ai, now);
    }
  }

  lemma OtherCommandNoInvalidName(s: Snapshot, chatId: string, route: Route, username: Option<string>,
                                  fullName: Option<string>, now: string)
    requires route != SetName
    ensures NoInvalidName(s.outbox, OtherCommand(s, chatId, route, username, fullName, now).state.outbox)
  {
    assert s.outbox + [] == s.outbox;
  }

  lemma RegisterNoInvalidName(s: Snapshot, chatId: string, name: string, username: Option<string>, now: string)
    ensures NoInvalidName(s.outbox, Register(s, chatId, name, username, now).state.outbox)
  {
    assert s.outbox + [] == s.outbox;
  }

  lemma ChatNoInvalidName(s: Snapshot, chatId: string, text: string, username: Option<string>,
                          fullName: Option<string>, ai: Ai, now: string)
    ensures NoInvalidName(s.outbox, Chat(s, chatId, text, username, fullName, ai, now).state.outbox)
  {
    assert s.outbox + [] == s.outbox;
    var user := TelegramUser(s, chatId);
    if user.Some? && Truthy(user.value.name) {
      AiReplyOutbox(s, chatId, text, ai, now);
    } else if Truthy(fullName) && !HasUserId(s.users, chatId) {
      var s1 := Sent(Created(s, chatId, fullName.value, username, now), chatId, NameRegistered(fullName.value));
      AiReplyOutbox(s1, chatId, text, ai, now);
      NoInvalidNameStep(s.outbox, s.outbox, Outgoing(chatId, NameRegistered(fullName.value)));
      NoInvalidNameStep(s.outbox, s1.outbox, AiReply(s1, chatId, text, ai, now).outbox[|s1.outbox|]);
    }
  }

  lemma AiReplyOutbox(s: Snapshot, chatId: string, text: string, ai: Ai, now: string)
    ensures var r := AiReply(s, chatId, text, ai, now);
      |r.outbox| == |s.outbox| + 1 && r.outbox == s.outbox + [r.outbox[|s.outbox|]]
      && r.outbox[|s.outbox|].reply != InvalidName
  {
  }

  /** The text `/setname <n>` takes the `/setname` route. */
  lemma SetNameRoute(m: string, n: string)
    requires PlainName(n) && m == "/setname " + n
    ensures SlashFirst(m) && CommandRoute(m) == SetName
  {
    assert m[..8] == "/setname" && m[|m| - 1] == n[|n| - 1];
    LowerWord(m, "/setname");
    LowerCharSpace(m[|m| - 1]);
    SetNameWordRoute(m, Lower(m));
  }

  /** A command whose lower-cased form starts with `/setname` and ends in a non-space takes that route. */
  lemma SetNameWordRoute(m: string, c: string)
    requires c == Lower(m) && |c| > 8 && c[..8] == "/setname" && !IsSpace(c[|c| - 1])
    ensures CommandRoute(m) == SetName
  {
    assert c[0] == '/';
    StripNoop(c, None);
    SetNameWordOnly(c);
  }

  lemma SetNameWordOnly(c: string)
    requires |c| > 8 && c[..8] == "/setname"
    ensures StartsWith(c, "/setname") && c != "/start" && c != "/help" && c != "/clear"
  {
  }

  /** Lower-casing keeps a prefix that is already lower case. */
  lemma LowerWord(m: string, w: string)
    requires |w| <= |m| && m[..|w|] == w && Lower(w) == w
    ensures Lower(m)[..|w|] == w
  {
    assert forall i :: 0 <= i < |w| ==> Lower(m)[i] == LowerChar(w[i]) == Lower(w)[i];
  }

  /** Lower-casing neither makes nor unmakes whitespace. */
  lemma LowerCharSpace(x: char)
    ensures IsSpace(LowerChar(x)) == IsSpace(x)
  {
  }

  /**
   * Corrected, `/setname <n>` with a plain name registers `n`: the Telegram
   * lookup finds the user under `n` afterwards, unless the chat id is stored
   * under another platform, in which case only the error text is sent.
   */
  lemma SetNameRegisters(s: Snapshot, chatId: string, m: string, n: string, username: Option<string>,
                         fullName: Option<string>, ai: Ai, now: string)
    requires PlainName(n) && m == "/setname " + n
    ensures var r := Process(s, true, chatId, m, username, fullName, ai, now);
      && r.conversations == s.conversations
      && (TelegramUser(s, chatId).None? && HasUserId(s.users, chatId) ==> r == Sent(s, chatId, ErrorText))
      && (TelegramUser(s, chatId).Some? || !HasUserId(s.users, chatId) ==>
            TelegramUser(r, chatId).Some? && TelegramUser(r, chatId).value.name == Some(n))
  {
    SetNameRoute(m, n);
    ParseSetNamePlain(m, n);
    RegisterTakesEffect(s, chatId, n, username, now);
  }

  /** The offset after two batches is the offset after the second, starting from the offset after the first. */
  lemma {:induction false} OffsetAfterAppend(a: seq<TgUpdate>, b: seq<TgUpdate>, offset: Option<int>)
    ensures OffsetAfter(a + b, offset) == OffsetAfter(b, OffsetAfter(a, offset))
    decreases |b|
  {
    if b == [] {
      assert a + b == a;
    } else {
      var b' := b[..|b| - 1];
      assert (a + b)[..|a + b| - 1] == a + b';
      assert (a + b)[|a + b| - 1] == b[|b| - 1];
      OffsetAfterAppend(a, b', offset);
    }
  }

  /** The offset after one more update of the batch. */
  lemma OffsetStep(us: seq<TgUpdate>, i: nat, offset: Option<int>)
    requires i < |us|
    ensures OffsetAfter(us[..i + 1], offset) == if TruthyId(us[i]) then Some(us[i].updateId.value + 1) else OffsetAfter(us[..i], offset)
  {
    assert us[..i + 1][..i] == us[..i];
  }

  /** The state after one more update of the batch. */
  lemma DeliveredStep(s: Snapshot, ready: bool, us: seq<TgUpdate>, i: nat, ai: Ai, now: string, depth: nat)
    requires i < |us|
    ensures Delivered(s, ready, us[..i + 1], ai, now, depth)
         == Deliver(Delivered(s, ready, us[..i], ai, now, depth), ready, us[i], ai, now, depth)
  {
    assert us[..i + 1][..i] == us[..i];
  }

  /** The offset on turn `i` is one past the last truthy id of every update received before it. */
  lemma {:induction false} OffsetBeforeIsLast(events: seq<PollEvent>, i: nat)
    requires i <= |events|
    ensures OffsetBefore(events, i) == OffsetAfter(AllUpdates(events[..i]), None)
    decreases i
  {
    if i > 0 {
      OffsetBeforeIsLast(events, i - 1);
      assert events[..i][..i - 1] == events[..i - 1];
      var seen := AllUpdates(events[..i - 1]);
      match events[i - 1]
      case Updates(batch, _) => OffsetAfterAppend(seen, batch, None);
      case StopRequest => assert seen + [] == seen;
    }
  }

  /** Delivering two batches is delivering their concatenation. */
  lemma {:induction false} DeliveredAppend(s: Snapshot, ready: bool, a: seq<TgUpdate>, b: seq<TgUpdate>, ai: Ai, now: string,
                                           depth: nat)
    ensures Delivered(s, ready, a + b, ai, now, depth) == Delivered(Delivered(s, ready, a, ai, now, depth), ready, b, ai, now, depth)
    decreases |b|
  {
    if b == [] {
      assert a + b == a;
    } else {
      var b' := b[..|b| - 1];
      assert (a + b)[..|a + b| - 1] == a + b';
      assert (a + b)[|a + b| - 1] == b[|b| - 1];
      DeliveredAppend(s, ready, a, b', ai, now, depth);
    }
  }

  // ------------------------------------------------------------------ server

  class TelegramBot {
    /** `db = MessagingDatabase()`, shared with the other chat services. */
    const db: MessagingDatabase
    /** Whether `telegram_service` was initialised at startup. */
    const serviceReady: bool
    var outbox: seq<Outgoing>
    var pollingActive: bool
    /** The number of polling threads started so far. */
    var pollingThreads: nat

    function State(): Snapshot
      reads this, db
    {
      Snapshot(db.users, db.conversations, db.nextId, outbox)
    }

    predicate Valid()
      reads this, db
    {
      db.Valid()
    }

    constructor (serviceReady: bool)
      ensures Valid() && fresh(db)
      ensures State() == Snapshot([], [], 1, [])
      ensures this.serviceReady == serviceReady && !pollingActive && pollingThreads == 0
    {
      db := new MessagingDatabase();
      this.serviceReady := serviceReady;
      outbox := [];
      pollingActive := false;
      pollingThreads := 0;
    }

    /** `telegram_service.send_message(chat_id, ...)` */
    method Send(chatId: string, r: Reply)
      requires Valid()
      modifies this
      ensures Valid() && db.users == old(db.users) && db.conversations == old(db.conversations) && db.nextId == old(db.nextId)
      ensures outbox == old(outbox) + [Outgoing(chatId, r)]
      ensures pollingActive == old(pollingActive) && pollingThreads == old(pollingThreads)
    {
      outbox := outbox + [Outgoing(chatId, r)];
    }

    /** The name branch of `process_telegram_message` once the name is known. */
    method RegisterName(chatId: string, name: string, username: Option<string>, now: string) returns (raised: bool)
      requires Valid()
      modifies this, db
      ensures Valid()
      ensures Outcome(State(), raised) == Register(old(State()), chatId, name, username, now)
      ensures pollingActive == old(pollingActive) && pollingThreads == old(pollingThreads)
    {
      var user := db.GetUser(chatId, Some(Platform));
      if user.Some? {
        var updated := db.UpdateUserName(chatId, name, Some(Platform), now);
        Send(chatId, NameUpdated(name));
        raised := false;
      } else {
        var r := db.CreateUser(chatId, Platform, Some(name), username, DefaultAiBackend, now);
        if r.Err? {
          raised := true;
        } else {
          Send(chatId, NameRegistered(name));
          raised := false;
        }
      }
    }

    /** The AI step of `process_telegram_message`. */
    method AnswerWithAi(chatId: string, text: string, ai: Ai, now: string)
      requires Valid()
      modifies this, db
      ensures Valid()
      ensures State() == AiReply(old(State()), chatId, text, ai, now)
      ensures pollingActive == old(pollingActive) && pollingThreads == old(pollingThreads)
    {
      ghost var s0 := State();
      var history := db.GetConversationHistoryFormatted(chatId, Some(Platform), HistoryLimit);
      assert history == Context(s0, chatId);
      var userRow := db.AddConversationMessage(chatId, Platform, "user", text, now);
      assert State() == Stored(s0, chatId, "user", text, now);
      var answer := ai(text, history);
      SendAnswer(chatId, answer, now);
    }

    /** Store and send the AI's answer when it has one, or send the error text. */
    method SendAnswer(chatId: string, answer: Option<string>, now: string)
      requires Valid()
      modifies this, db
      ensures Valid()
      ensures State() == if Truthy(answer) then Sent(Stored(old(State()), chatId, "assistant", answer.value, now), chatId, AiText(answer.value))
                         else Sent(old(State()), chatId, ErrorText)
      ensures pollingActive == old(pollingActive) && pollingThreads == old(pollingThreads)
    {
      if Truthy(answer) {
        var assistantRow := db.AddConversationMessage(chatId, Platform, "assistant", answer.value, now);
        Send(chatId, AiText(answer.value));
      } else {
        Send(chatId, ErrorText);
      }
    }

    /** A regular (non-command, non-name) message. */
    method ChatMessage(chatId: string, text: string, username: Option<string>, fullName: Option<string>,
                       ai: Ai, now: string) returns (raised: bool)
      requires Valid()
      modifies this, db
      ensures Valid()
      ensures Outcome(State(), raised) == Chat(old(State()), chatId, text, username, fullName, ai, now)
      ensures pollingActive == old(pollingActive) && pollingThreads == old(pollingThreads)
    {
      raised := false;
      var user := db.GetUser(chatId, Some(Platform));
      if user.None? || !Truthy(user.value.name) {
        if Truthy(fullName) {
          var r := db.CreateUser(chatId, Platform, fullName, username, DefaultAiBackend, now);
          if r.Err? {
            raised := true;
            return;
          }
          Send(chatId, NameRegistered(fullName.value));
        } else {
          Send(chatId, Welcome(None));
          return;
        }
      }
      AnswerWithAi(chatId, text, ai, now);
    }

    /** A message that does not start with `/`: a name command or a regular message. */
    method NonCommandMessage(chatId: string, text: string, username: Option<string>, fullName: Option<string>,
                             ai: Ai, now: string) returns (raised: bool)
      requires Valid()
      modifies this, db
      ensures Valid()
      ensures Outcome(State(), raised) == NonCommand(old(State()), chatId, text, username, fullName, ai, now)
      ensures pollingActive == old(pollingActive) && pollingThreads == old(pollingThreads)
    {
      var name := ParseNameCommand(text);
      if name.Some? {
        raised := RegisterName(chatId, name.value, username, now);
      } else {
        raised := ChatMessage(chatId, text, username, fullName, ai, now);
      }
    }

    /** `/start`, `/help`, `/clear` and unknown commands. */
    method RunCommand(chatId: string, route: Route, username: Option<string>, fullName: Option<string>, now: string)
      returns (raised: bool)
      requires Valid() && route != SetName
      modifies this, db
      ensures Valid()
      ensures Outcome(State(), raised) == OtherCommand(old(State()), chatId, route, username, fullName, now)
      ensures pollingActive == old(pollingActive) && pollingThreads == old(pollingThreads)
    {
      raised := false;
      match route {
        case Start =>
          var user := db.GetUser(chatId, Some(Platform));
          if user.Some? && Truthy(user.value.name) {
            Send(chatId, Welcome(user.value.name));
          } else if Truthy(fullName) {
            var r := db.CreateUser(chatId, Platform, fullName, username, DefaultAiBackend, now);
            if r.Err? {
              raised := true;
            } else {
              Send(chatId, NameRegistered(fullName.value));
            }
          } else {
            Send(chatId, Welcome(None));
          }
        case Help =>
          Send(chatId, HelpText);
        case Clear =>
          var count := db.ClearConversationHistory(chatId, Some(Platform));
          Send(chatId, HistoryCleared);
        case Unknown =>
          Send(chatId, UnknownCommand);
      }
    }

    /** `process_telegram_message` as written; `depth` calls are left before the recursion limit. */
    method ProcessTelegramMessage(chatId: string, text: string, username: Option<string>, fullName: Option<string>,
                                  ai: Ai, now: string, depth: nat)
      requires Valid()
      modifies this, db
      ensures Valid()
      ensures State() == ProcessAsWritten(old(State()), serviceReady, chatId, text, username, fullName, ai, now, depth)
      ensures pollingActive == old(pollingActive) && pollingThreads == old(pollingThreads)
      decreases depth, 2
    {
      if !serviceReady {
        return;
      }
      var raised;
      if SlashFirst(text) {
        raised := HandleCommand(chatId, text, username, fullName, ai, now, depth);
      } else {
        raised := NonCommandMessage(chatId, text, username, fullName, ai, now);
      }
      if raised {
        Send(chatId, ErrorText);
      }
    }

    /** `handle_command` as written. */
    method HandleCommand(chatId: string, command: string, username: Option<string>, fullName: Option<string>,
                         ai: Ai, now: string, depth: nat) returns (raised: bool)
      requires Valid() && serviceReady
      modifies this, db
      ensures Valid()
      ensures Outcome(State(), raised) == HandleAsWritten(old(State()), serviceReady, chatId, command, username, fullName, ai, now, depth)
      ensures pollingActive == old(pollingActive) && pollingThreads == old(pollingThreads)
      decreases depth, 1
    {
      var route := CommandRoute(command);
      if route != SetName {
        raised := RunCommand(chatId, route, username, fullName, now);
      } else {
        raised := SetNameAsWritten(chatId, command, username, fullName, ai, now, depth);
      }
    }

    /**
     * The `/setname` branch of `handle_command` as written: the text goes back
     * to `process_telegram_message`, which raises `RecursionError` once no
     * calls are left.
     */
    method SetNameAsWritten(chatId: string, command: string, username: Option<string>, fullName: Option<string>,
                            ai: Ai, now: string, depth: nat) returns (raised: bool)
      requires Valid() && serviceReady && CommandRoute(command) == SetName
      modifies this, db
      ensures Valid()
      ensures Outcome(State(), raised) == HandleAsWritten(old(State()), serviceReady, chatId, command, username, fullName, ai, now, depth)
      ensures pollingActive == old(pollingActive) && pollingThreads == old(pollingThreads)
      decreases depth, 0
    {
      if depth == 0 {
        raised := true;
      } else {
        ProcessTelegramMessage(chatId, command, username, fullName, ai, now, depth - 1);
        raised := false;
      }
    }

    /** `handle_command` with `/setname` routed to the name registration. */
    method HandleCommandCorrected(chatId: string, command: string, username: Option<string>, fullName: Option<string>,
                                  now: string) returns (raised: bool)
      requires Valid()
      modifies this, db
      ensures Valid()
      ensures Outcome(State(), raised) == HandleCommandFixed(old(State()), chatId, command, username, fullName, now)
      ensures pollingActive == old(pollingActive) && pollingThreads == old(pollingThreads)
    {
      var route := CommandRoute(command);
      if route != SetName {
        raised := RunCommand(chatId, route, username, fullName, now);
      } else {
        var name := ParseNameCommand(command);
        if name.Some? {
          raised := RegisterName(chatId, name.value, username, now);
        } else {
          Send(chatId, InvalidName);
          raised := false;
        }
      }
    }

    /** `process_telegram_message` over the corrected command handler. */
    method ProcessMessage(chatId: string, text: string, username: Option<string>, fullName: Option<string>,
                          ai: Ai, now: string)
      requires Valid()
      modifies this, db
      ensures Valid()
      ensures State() == Process(old(State()), serviceReady, chatId, text, username, fullName, ai, now)
      ensures pollingActive == old(pollingActive) && pollingThreads == old(pollingThreads)
    {
      if !serviceReady {
        return;
      }
      var raised;
      if SlashFirst(text) {
        raised := HandleCommandCorrected(chatId, text, username, fullName, now);
      } else {
        raised := NonCommandMessage(chatId, text, username, fullName, ai, now);
      }
      if raised {
        Send(chatId, ErrorText);
      }
    }

    /**
     * `telegram_webhook`: a text message of the posted update goes to
     * `process_telegram_message` (on a thread of its own in the program, run
     * here to completion); the answer to Telegram is always `{"ok": true}`.
     */
    method TelegramWebhook(update: TgUpdate, ai: Ai, now: string, depth: nat) returns (ok: bool)
      requires Valid()
      modifies this, db
      ensures Valid()
      ensures ok
      ensures State() == Deliver(old(State()), serviceReady, update, ai, now, depth)
      ensures pollingActive == old(pollingActive) && pollingThreads == old(pollingThreads)
    {
      ok := true;
      if !serviceReady {
        return;
      }
      var data := ExtractMessageData(update);
      if data.Some? && data.value.text != [] {
        ProcessTelegramMessage(data.value.chatId, data.value.text, data.value.username, data.value.fullName, ai, now, depth);
      }
    }

    /** One update of `polling_loop`: advance the offset past a truthy id and route a text message. */
    method PollUpdate(update: TgUpdate, offset: Option<int>, ai: Ai, now: string, depth: nat) returns (next: Option<int>)
      requires Valid()
      modifies this, db
      ensures Valid()
      ensures next == if TruthyId(update) then Some(update.updateId.value + 1) else offset
      ensures State() == Deliver(old(State()), serviceReady, update, ai, now, depth)
      ensures pollingActive == old(pollingActive) && pollingThreads == old(pollingThreads)
    {
      next := offset;
      if TruthyId(update) {
        next := Some(update.updateId.value + 1);
      }
      var data := ExtractMessageData(update);
      if data.Some? && data.value.text != [] {
        ProcessTelegramMessage(data.value.chatId, data.value.text, data.value.username, data.value.fullName, ai, now, depth);
      }
    }

    /** One batch of `polling_loop`. */
    method PollBatch(updates: seq<TgUpdate>, offset: Option<int>, ai: Ai, now: string, depth: nat) returns (next: Option<int>)
      requires Valid()
      modifies this, db
      ensures Valid()
      ensures next == OffsetAfter(updates, offset)
      ensures State() == Delivered(old(State()), serviceReady, updates, ai, now, depth)
      ensures pollingActive == old(pollingActive) && pollingThreads == old(pollingThreads)
    {
      next := offset;
      var i := 0;
      while i < |updates|
        invariant 0 <= i <= |updates| && Valid()
        invariant next == OffsetAfter(updates[..i], offset)
        invariant State() == Delivered(old(State()), serviceReady, updates[..i], ai, now, depth)
        invariant pollingActive == old(pollingActive) && pollingThreads == old(pollingThreads)
      {
        OffsetStep(updates, i, offset);
        DeliveredStep(old(State()), serviceReady, updates, i, ai, now, depth);
        next := PollUpdate(updates[i], next, ai, now, depth);
        i := i + 1;
      }
      assert updates[..i] == updates;
    }

    /**
     * `polling_loop`, started with the flag up: each `get_updates` call
     * passes one past the last truthy id of every batch before it; a stop
     * request (`stop_polling` from another thread) ends the loop.
     */
    method PollingLoop(events: seq<PollEvent>, ai: Ai, depth: nat) returns (requested: seq<Option<int>>)
      requires Valid() && pollingActive
      modifies this, db
      ensures Valid()
      ensures var n := StopIndex(events);
        && |requested| == n
        && (forall k :: 0 <= k < n ==> requested[k] == OffsetBefore(events, k))
        && State() == Polled(old(State()), serviceReady, events, n, ai, depth)
        && (pollingActive <==> n == |events|)
      ensures pollingThreads == old(pollingThreads)
    {
      requested := [];
      var offset: Option<int> := None;
      var i := 0;
      ghost var s0 := State();
      ghost var n := StopIndex(events);
      while pollingActive && i < |events|
        invariant 0 <= i <= |events| && Valid()
        invariant pollingActive ==> i <= n && |requested| == i
        invariant !pollingActive ==> n < |events| && i == n + 1 && |requested| == n
        invariant offset == OffsetBefore(events, i)
        invariant forall k :: 0 <= k < |requested| ==> requested[k] == OffsetBefore(events, k)
        invariant State() == Polled(s0, serviceReady, events, i, ai, depth)
        invariant pollingThreads == old(pollingThreads)
        decreases |events| - i
      {
        if events[i].Updates? {
          requested := requested + [offset];
        }
        offset := HandleEvent(events[i], offset, ai, depth);
        i := i + 1;
      }
    }

    /** One turn of `polling_loop`: a stop request lowers the flag, a batch is handled. */
    method HandleEvent(e: PollEvent, offset: Option<int>, ai: Ai, depth: nat) returns (next: Option<int>)
      requires Valid() && pollingActive
      modifies this, db
      ensures Valid()
      ensures e.StopRequest? ==> !pollingActive && next == offset && State() == old(State())
      ensures e.Updates? ==> pollingActive && next == OffsetAfter(e.batch, offset)
                             && State() == Delivered(old(State()), serviceReady, e.batch, ai, e.now, depth)
      ensures pollingThreads == old(pollingThreads)
    {
      if e.StopRequest? {
        var status := StopPolling();
        next := offset;
      } else {
        next := PollBatch(e.batch, offset, ai, e.now, depth);
      }
    }

    /** `start_polling` */
    method StartPolling() returns (r: PollReply)
      modifies this
      ensures old(pollingActive) ==> r == Status("already_running") && pollingThreads == old(pollingThreads)
      ensures !old(pollingActive) && !serviceReady ==>
        r == HttpError(503, "Telegram service not initialized") && pollingThreads == old(pollingThreads)
      ensures !old(pollingActive) && serviceReady ==> r == Status("started") && pollingThreads == old(pollingThreads) + 1
      ensures pollingActive <==> old(pollingActive) || serviceReady
      ensures outbox == old(outbox)
    {
      if pollingActive {
        return Status("already_running");
      }
      if !serviceReady {
        return HttpError(503, "Telegram service not initialized");
      }
      pollingActive := true;
      pollingThreads := pollingThreads + 1;
      r := Status("started");
    }

    /** `stop_polling` */
    method StopPolling() returns (r: PollReply)
      modifies this
      ensures r == if old(pollingActive) then Status("stopped") else Status("not_running")
      ensures !pollingActive
      ensures outbox == old(outbox) && pollingThreads == old(pollingThreads)
    {
      if !pollingActive {
        return Status("not_running");
      }
      pollingActive := false;
      r := Status("stopped");
    }
  }
}
