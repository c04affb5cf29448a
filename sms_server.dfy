/**
 * The SMS server: the Twilio webhook that normalises the sender's number,
 * registers or renames users with `name=`, greets unknown numbers and relays
 * everything else to the AI, and the endpoint that clears one number's history.
 *
 * Each webhook call is specified by a function from a `Snapshot` of the store
 * and the outbox to the snapshot after it; the class methods are proved to
 * perform exactly that step.
 */
module SmsServer {
  import opened Wrappers
  import opened PyText
  import opened HistoryFormat
  import opened SmsStore
  import opened SmsService

  /** The number of exchanges of history handed to the AI. */
  const HistoryLimit := 5

  /** The body of every webhook answer: an empty TwiML document. */
  const EmptyTwiml := "<?xml version=\"1.0\" encoding=\"UTF-8\"?><Response></Response>"

  /** The texts the server sends; the formatting helpers of the service are left symbolic. */
  datatype SmsReply =
    | Welcome
    | NameRegistered(name: string)
    | NameUpdated(name: string)
    | InvalidName
    | ErrorText
    | AiText(body: string)

  datatype SmsOut = SmsOut(to: string, reply: SmsReply)

  /** The store and everything sent so far. */
  datatype Snapshot = Snapshot(
    users: map<string, SmsUser>,
    created: seq<string>,
    conversations: seq<SmsRow>,
    nextId: nat,
    outbox: seq<SmsOut>)

  /** `get_llm_response(message, conversation_history)`; None when the LLM server fails. */
  type Ai = (string, seq<Exchange>) -> Option<string>

  // ------------------------------------------------------------ single steps

  function Sent(s: Snapshot, to: string, r: SmsReply): Snapshot {
    s.(outbox := s.outbox + [SmsOut(to, r)])
  }

  /** `add_conversation_message(phone, role, text)` */
  function Stored(s: Snapshot, phone: string, role: string, text: string, now: string): Snapshot {
    s.(conversations := s.conversations + [SmsRow(s.nextId, phone, role, text, now)], nextId := s.nextId + 1)
  }

  /** The rows of one number, oldest first. */
  function RowsOf(s: Snapshot, phone: string): seq<SmsRow> {
    Filter(s.conversations, OfPhone(phone))
  }

  /** The context handed to the AI: at most five exchanges of the stored history. */
  function Context(s: Snapshot, phone: string): seq<Exchange> {
    Pairs(Recent(s.conversations, phone, HistoryLimit), None)
  }

  /** The name branch: rename a registered number, or register it. */
  function Register(s: Snapshot, phone: string, name: string, now: string): Snapshot {
    if phone in s.users then
      Sent(s.(users := s.users[phone := s.users[phone].(name := Some(name), updatedAt := now)]), phone, NameUpdated(name))
    else
      Sent(s.(users := s.users[phone := SmsUser(phone, Some(name), now, now)], created := s.created + [phone]),
           phone, NameRegistered(name))
  }

  /**
   * The AI step: read the history, store the user message, ask the AI, and
   * store and send its answer when it has one (cut to the SMS length), or
   * send the error text.
   */
  function AiReply(s: Snapshot, phone: string, message: string, ai: Ai, now: string): Snapshot {
    Answered(Stored(s, phone, "user", message, now), phone, ai(message, Context(s, phone)), now)
  }

  /** The end of the AI step, once the answer is known. */
  function Answered(s: Snapshot, phone: string, answer: Option<string>, now: string): Snapshot {
    if Truthy(answer) then Sent(Stored(s, phone, "assistant", answer.value, now), phone, AiText(TruncateSms(answer.value)))
    else Sent(s, phone, ErrorText)
  }

  /** A message that is not a name command: the AI for a named user, the welcome text for anyone else. */
  function Chat(s: Snapshot, phone: string, message: string, ai: Ai, now: string): Snapshot {
    if phone !in s.users || !Truthy(s.users[phone].name) then Sent(s, phone, Welcome)
    else AiReply(s, phone, message, ai, now)
  }

  /** The name branch once the name is parsed: the "valid name" reply for an empty one, the registration otherwise. */
  function NameBranch(s: Snapshot, phone: string, name: Option<string>, now: string): Snapshot {
    if !Truthy(name) then Sent(s, phone, InvalidName) else Register(s, phone, name.value, now)
  }

  /** The branches of `sms_webhook` on the normalised number and the stripped message. */
  function Route(s: Snapshot, phone: string, message: string, ai: Ai, now: string): Snapshot {
    if IsNameCommand(message) then NameBranch(s, phone, ParseNameCommand(message), now) else Chat(s, phone, message, ai, now)
  }

  /** `sms_webhook(From, Body)`; nothing happens while the SMS service is not initialised. */
  function Webhook(s: Snapshot, ready: bool, from: string, body: string, ai: Ai, now: string): Snapshot {
    if !ready then s else Route(s, NormalizePhoneNumber(from), Strip(body), ai, now)
  }

  // ------------------------------------------------------------------ lemmas

  lemma {:induction false} MessagesAppend(a: seq<SmsRow>, b: seq<SmsRow>)
    ensures Messages(a + b) == Messages(a) + Messages(b)
  {
    var l, r := Messages(a + b), Messages(a) + Messages(b);
    assert |l| == |r|;
    forall i | 0 <= i < |l| ensures l[i] == r[i] {
      if i < |a| { assert (a + b)[i] == a[i]; } else { assert (a + b)[i] == b[i - |a|]; }
    }
  }

  /** Storing a message of a number adds exactly that message to the number's rows, and no other number's. */
  lemma StoredRow(s: Snapshot, phone: string, role: string, text: string, now: string, other: string)
    ensures Messages(RowsOf(Stored(s, phone, role, text, now), phone)) == Messages(RowsOf(s, phone)) + [Message(role, text)]
    ensures other != phone ==> RowsOf(Stored(s, phone, role, text, now), other) == RowsOf(s, other)
  {
    var row := SmsRow(s.nextId, phone, role, text, now);
    FilterAppend(s.conversations, [row], OfPhone(phone));
    assert Filter([row], OfPhone(phone)) == [row] by { FilterAll([row], OfPhone(phone)); }
    MessagesAppend(RowsOf(s, phone), [row]);
    FilterAppend(s.conversations, [row], OfPhone(other));
    if other != phone {
      assert Filter([row], OfPhone(other)) == [] by { NoneSelected([row], OfPhone(other)); }
      assert RowsOf(s, other) + [] == RowsOf(s, other);
    }
  }

  /**
   * The AI step adds the user message and, only when the AI answered, the
   * answer to the number's rows; it leaves the users and every other
   * number's rows alone, and sends exactly one reply.
   */
  lemma AiReplyStores(s: Snapshot, phone: string, message: string, ai: Ai, now: string, other: string)
    ensures var r := AiReply(s, phone, message, ai, now);
      var answer := ai(message, Context(s, phone));
      && Messages(RowsOf(r, phone)) == Messages(RowsOf(s, phone)) + [Message("user", message)]
           + (if Truthy(answer) then [Message("assistant", answer.value)] else [])
      && (other != phone ==> RowsOf(r, other) == RowsOf(s, other))
      && r.outbox == s.outbox + [SmsOut(phone, if Truthy(answer) then AiText(TruncateSms(answer.value)) else ErrorText)]
      && r.users == s.users && r.created == s.created
      && |Context(s, phone)| <= HistoryLimit
  {
    var s1 := Stored(s, phone, "user", message, now);
    StoredRow(s, phone, "user", message, now, other);
    var answer := ai(message, Context(s, phone));
    if Truthy(answer) {
      StoredRow(s1, phone, "assistant", answer.value, now, other);
    }
    PairsBound(Recent(s.conversations, phone, HistoryLimit), None);
  }

  /** While the SMS service is not initialised the webhook changes nothing. */
  lemma UninitialisedIgnores(s: Snapshot, from: string, body: string, ai: Ai, now: string)
    ensures Webhook(s, false, from, body, ai, now) == s
  {
  }

  /** `after` extends `before` by replies to `phone` only. */
  predicate SentOnlyTo(before: seq<SmsOut>, after: seq<SmsOut>, phone: string) {
    |before| <= |after| && after[..|before|] == before
    && forall k :: |before| <= k < |after| ==> after[k].to == phone
  }

  /** `r` differs from `s` at most in what belongs to `phone`. */
  predicate OnlyFor(s: Snapshot, r: Snapshot, phone: string, other: string) {
    && SentOnlyTo(s.outbox, r.outbox, phone)
    && RowsOf(r, other) == RowsOf(s, other)
    && (other in s.users <==> other in r.users)
    && (other in s.users ==> r.users[other] == s.users[other])
  }

  lemma NameBranchOnlyFor(s: Snapshot, phone: string, name: Option<string>, now: string, other: string)
    requires other != phone
    ensures OnlyFor(s, NameBranch(s, phone, name, now), phone, other)
  {
    assert s.outbox + [] == s.outbox;
  }

  lemma ChatOnlyFor(s: Snapshot, phone: string, message: string, ai: Ai, now: string, other: string)
    requires other != phone
    ensures OnlyFor(s, Chat(s, phone, message, ai, now), phone, other)
  {
    assert s.outbox + [] == s.outbox;
    if phone in s.users && Truthy(s.users[phone].name) {
      AiReplyStores(s, phone, message, ai, now, other);
    }
  }

  /**
   * Everything the webhook writes or sends is under the normalised sender
   * number: the replies go to it, no other number's rows change, and no
   * other number's user row changes.
   */
  lemma OnlyTheSenderChanges(s: Snapshot, from: string, body: string, ai: Ai, now: string, other: string)
    requires other != NormalizePhoneNumber(from)
    ensures OnlyFor(s, Webhook(s, true, from, body, ai, now), NormalizePhoneNumber(from), other)
  {
    var phone, message := NormalizePhoneNumber(from), Strip(body);
    if IsNameCommand(message) {
      NameBranchOnlyFor(s, phone, ParseNameCommand(message), now, other);
    } else {
      ChatOnlyFor(s, phone, message, ai, now, other);
    }
  }

  /**
   * A `name=` message registers its name under the normalised number: the
   * lookup then holds that name, a known number is renamed (its creation time
   * kept) and an unknown one registered; no conversation row is written and
   * the "valid name" reply is never sent.
   */
  lemma NameMessageRegisters(s: Snapshot, from: string, body: string, ai: Ai, now: string)
    requires IsNameCommand(Strip(body))
    ensures var r := Webhook(s, true, from, body, ai, now);
      var phone := NormalizePhoneNumber(from);
      var name := ParseNameCommand(Strip(body));
      && r.conversations == s.conversations
      && phone in r.users && r.users[phone].name == name
      && (phone in s.users ==>
            r.users[phone].createdAt == s.users[phone].createdAt && r.created == s.created
            && r.outbox == s.outbox + [SmsOut(phone, NameUpdated(name.value))])
      && (phone !in s.users ==>
            r.users[phone].createdAt == r.users[phone].updatedAt == now && r.created == s.created + [phone]
            && r.outbox == s.outbox + [SmsOut(phone, NameRegistered(name.value))])
  {
  }

  /** A regular message from an unknown or nameless number gets the welcome text and writes nothing. */
  lemma UnknownGetsWelcome(s: Snapshot, from: string, body: string, ai: Ai, now: string)
    requires !IsNameCommand(Strip(body))
    requires var phone := NormalizePhoneNumber(from); phone !in s.users || !Truthy(s.users[phone].name)
    ensures Webhook(s, true, from, body, ai, now) == Sent(s, NormalizePhoneNumber(from), Welcome)
  {
  }

  /**
   * A regular message from a named number: the AI sees at most five
   * exchanges of the history as it was before this message, the message is
   * stored, and the answer is stored and sent only when there is one.
   */
  lemma NamedNumberChats(s: Snapshot, from: string, body: string, ai: Ai, now: string)
    requires !IsNameCommand(Strip(body))
    requires var phone := NormalizePhoneNumber(from); phone in s.users && Truthy(s.users[phone].name)
    ensures var r := Webhook(s, true, from, body, ai, now);
      var phone, message := NormalizePhoneNumber(from), Strip(body);
      var answer := ai(message, Context(s, phone));
      && r.users == s.users
      && Messages(RowsOf(r, phone)) == Messages(RowsOf(s, phone)) + [Message("user", message)]
           + (if Truthy(answer) then [Message("assistant", answer.value)] else [])
      && r.outbox == s.outbox + [SmsOut(phone, if Truthy(answer) then AiText(TruncateSms(answer.value)) else ErrorText)]
  {
    var phone, message := NormalizePhoneNumber(from), Strip(body);
    AiReplyStores(s, phone, message, ai, now, phone);
  }

  /** The "valid name" reply of the name branch is never sent: a name command always carries a name. */
  lemma NeverInvalidName(s: Snapshot, from: string, body: string, ai: Ai, now: string)
    ensures var r := Webhook(s, true, from, body, ai, now);
      forall k :: |s.outbox| <= k < |r.outbox| ==> r.outbox[k].reply != InvalidName
  {
    var phone, message := NormalizePhoneNumber(from), Strip(body);
    var r := Route(s, phone, message, ai, now);
    assert Webhook(s, true, from, body, ai, now) == r;
    RouteReplies(s, phone, message, ai, now);
    forall k | |s.outbox| <= k < |r.outbox| ensures r.outbox[k].reply != InvalidName {
      assert k == |s.outbox|;
    }
  }

  /** Every branch of the webhook sends exactly one reply, and never the "valid name" one. */
  lemma RouteReplies(s: Snapshot, phone: string, message: string, ai: Ai, now: string)
    ensures var r := Route(s, phone, message, ai, now);
      |r.outbox| == |s.outbox| + 1 && r.outbox[|s.outbox|].reply != InvalidName
  {
    if !IsNameCommand(message) && phone in s.users && Truthy(s.users[phone].name) {
      AiReplyStores(s, phone, message, ai, now, phone);
    }
  }

  // ------------------------------------------------------------------ server

  class SmsApp {
    /** `db = SMSDatabase()` */
    const db: SmsDatabase
    /** Whether `sms_service` was initialised at startup. */
    const serviceReady: bool
    var outbox: seq<SmsOut>

    function State(): Snapshot
      reads this, db
    {
      Snapshot(db.users, db.created, db.conversations, db.nextId, outbox)
    }

    predicate Valid()
      reads this, db
    {
      db.Valid()
    }

    constructor (serviceReady: bool)
      ensures Valid() && fresh(db)
      ensures State() == Snapshot(map[], [], [], 1, [])
      ensures this.serviceReady == serviceReady
    {
      db := new SmsDatabase();
      this.serviceReady := serviceReady;
      outbox := [];
    }

    /** `sms_service.send_sms(phone, ...)`; its result is not used by the webhook. */
    method Send(to: string, r: SmsReply)
      requires Valid()
      modifies this
      ensures Valid() && db.users == old(db.users) && db.created == old(db.created)
      ensures db.conversations == old(db.conversations) && db.nextId == old(db.nextId)
      ensures outbox == old(outbox) + [SmsOut(to, r)]
    {
      outbox := outbox + [SmsOut(to, r)];
    }

    /** `sms_webhook`: always answers with the empty TwiML document. */
    method SmsWebhook(from: string, body: string, ai: Ai, now: string) returns (response: string)
      requires Valid()
      modifies this, db
      ensures Valid()
      ensures State() == Webhook(old(State()), serviceReady, from, body, ai, now)
      ensures response == EmptyTwiml
    {
      response := EmptyTwiml;
      if !serviceReady {
        return;
      }
      var phone := NormalizePhoneNumber(from);
      var message := Strip(body);
      if IsNameCommand(message) {
        var name := ParseNameCommand(message);
        NameMessage(phone, name, now);
      } else {
        RegularMessage(phone, message, ai, now);
      }
    }

    /** The name branch of the webhook. */
    method NameMessage(phone: string, name: Option<string>, now: string)
      requires Valid()
      modifies this, db
      ensures Valid()
      ensures State() == NameBranch(old(State()), phone, name, now)
    {
      if !Truthy(name) {
        Send(phone, InvalidName);
        return;
      }
      var user := db.GetUser(phone);
      if user.Some? {
        var updated := db.UpdateUserName(phone, name.value, now);
        Send(phone, NameUpdated(name.value));
      } else {
        var created := db.CreateUser(phone, name, now);
        Send(phone, NameRegistered(name.value));
      }
    }

    /** A message that is not a name command. */
    method RegularMessage(phone: string, message: string, ai: Ai, now: string)
      requires Valid()
      modifies this, db
      ensures Valid()
      ensures State() == Chat(old(State()), phone, message, ai, now)
    {
      var user := db.GetUser(phone);
      if user.None? || !Truthy(user.value.name) {
        Send(phone, Welcome);
      } else {
        AnswerWithAi(phone, message, ai, now);
      }
    }

    /** The AI step of the webhook. */
    method AnswerWithAi(phone: string, message: string, ai: Ai, now: string)
      requires Valid()
      modifies this, db
      ensures Valid()
      ensures State() == AiReply(old(State()), phone, message, ai, now)
    {
      ghost var s0 := State();
      var history := db.GetConversationHistoryFormatted(phone, HistoryLimit);
      assert history == Context(s0, phone);
      var userRow := db.AddConversationMessage(phone, "user", message, now);
      assert State() == Stored(s0, phone, "user", message, now);
      var answer := ai(message, history);
      SendAnswer(phone, answer, now);
    }

    /** Store and send the AI's answer when it has one, or send the error text. */
    method SendAnswer(phone: string, answer: Option<string>, now: string)
      requires Valid()
      modifies this, db
      ensures Valid()
      ensures State() == Answered(old(State()), phone, answer, now)
    {
      if Truthy(answer) {
        var assistantRow := db.AddConversationMessage(phone, "assistant", answer.value, now);
        Send(phone, AiText(TruncateSms(answer.value)));
      } else {
        Send(phone, ErrorText);
      }
    }

    /**
     * `clear_user_history`: the number is normalised first; only its rows
     * are deleted and their count is returned.
     */
    method ClearUserHistory(phoneNumber: string) returns (phone: string, count: nat)
      requires Valid()
      modifies db
      ensures Valid()
      ensures phone == NormalizePhoneNumber(phoneNumber)
      ensures count == |RowsOf(old(State()), phone)|
      ensures db.conversations == Filter(old(db.conversations), NotOfPhone(phone))
      ensures RowsOf(State(), phone) == []
      ensures db.users == old(db.users) && db.created == old(db.created) && db.nextId == old(db.nextId)
    {
      phone := NormalizePhoneNumber(phoneNumber);
      count := db.ClearConversationHistory(phone);
    }
  }
}
