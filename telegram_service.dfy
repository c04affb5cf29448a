/**
 * The text handling of the Telegram service: name-command parsing, command
 * detection, splitting of long replies into 4000-character messages, the
 * Markdown escaper and the extraction of the fields the bot uses from an
 * incoming update.
 */
module TelegramService {
  import opened Wrappers
  import opened PyText
  import opened NameCommand

  // ---------------------------------------------------------------- commands

  /**
   * `parse_name_command`: `name=<name>` or `/setname <name>` on the stripped
   * message. A message of the first shape whose name cleans up to nothing
   * gives None without the second shape being tried.
   */
  function ParseNameCommand(message: string): (r: Option<string>)
    ensures r.Some? ==> r.value != [] && '\n' !in r.value
    ensures r.Some? ==> StartsWithIgnoreCase(Strip(message), "name") || StartsWithIgnoreCase(Strip(message), "/setname")
  {
    var m := Strip(message);
    var g := MatchNameEquals(m);
    if g.Some? then NameOf(g) else NameOf(MatchSetName(m))
  }

  /** `is_name_command` */
  predicate IsNameCommand(message: string) {
    ParseNameCommand(message).Some?
  }

  /** `is_command`: the stripped message starts with `/`. */
  predicate IsCommand(message: string) {
    SlashFirst(Strip(message))
  }

  /** `s.startswith('/')` */
  predicate SlashFirst(s: string) {
    s != [] && s[0] == '/'
  }

  /** A message of the `name=` shape is parsed by that shape alone. */
  lemma ParseByNameEquals(message: string, m: string, g: string)
    requires Strip(message) == m && MatchNameEquals(m) == Some(g)
    ensures ParseNameCommand(message) == NameOf(Some(g))
  {
  }

  /** Any other message is parsed by the `/setname` shape. */
  lemma ParseBySetName(message: string, m: string)
    requires Strip(message) == m && MatchNameEquals(m).None?
    ensures ParseNameCommand(message) == NameOf(MatchSetName(m))
  {
  }

  /** Whether a message is a bot command is decided on the stripped message. */
  lemma CommandStripped(message: string, m: string)
    requires Strip(message) == m
    ensures IsCommand(message) <==> SlashFirst(m)
  {
  }

  /** A message that starts with `/` is not of the `name=` shape. */
  lemma SlashIsNotNameEquals(m: string)
    requires SlashFirst(m)
    ensures MatchNameEquals(m).None?
  {
  }

  /** A plain name sent as `name=<n>` registers exactly `n`. */
  lemma ParseNameEqualsPlain(n: string)
    requires PlainName(n)
    ensures ParseNameCommand("name=" + n) == Some(n)
  {
    StripNameEqualsPlain(n);
    MatchNameEqualsPlain(n);
    ParseKnownNameEquals("name=" + n, n);
  }

  lemma ParseKnownNameEquals(m: string, n: string)
    requires Strip(m) == m && MatchNameEquals(m) == Some(n) && PlainName(n)
    ensures ParseNameCommand(m) == Some(n)
  {
    ParseByNameEquals(m, m, n);
    NameOfPlain(n);
  }

  /**
   * A message of the `name=` shape is no bot command, so the server's name
   * handling sees it before the command handling would.
   */
  lemma NameEqualsIsNoCommand(message: string)
    requires MatchNameEquals(Strip(message)).Some?
    ensures !IsCommand(message)
  {
    var m := Strip(message);
    assert Lower(m[..4])[0] == LowerChar(m[0]) == 'n';
  }

  /** A plain name sent as `/setname <n>` parses as `n`. */
  lemma ParseSetNamePlain(m: string, n: string)
    requires PlainName(n) && m == "/setname " + n
    ensures ParseNameCommand(m) == Some(n)
  {
    SetNameShape(m, n);
    NameOfPlain(n);
    ParseKnownSetName(m, Some(n));
  }

  lemma SetNameShape(m: string, n: string)
    requires PlainName(n) && m == "/setname " + n
    ensures Strip(m) == m && SlashFirst(m) && MatchSetName(m) == Some(n)
  {
    StripSetNamePlain(n);
    MatchSetNamePlain(n);
  }

  lemma ParseKnownSetName(m: string, g: Option<string>)
    requires Strip(m) == m && SlashFirst(m) && MatchSetName(m) == g
    ensures ParseNameCommand(m) == NameOf(g)
  {
    SlashIsNotNameEquals(m);
    ParseBySetName(m, m);
  }

  /**
   * A message of the `/setname` shape is a bot command, so the server routes
   * it to the command handling and never to its name handling.
   */
  lemma SetNameIsCommand(message: string)
    requires MatchSetName(Strip(message)).Some?
    ensures IsCommand(message)
  {
    var m := Strip(message);
    assert Lower(m[..8])[0] == LowerChar(m[0]) == '/';
  }

  /** Surrounding whitespace makes no difference to either test. */
  lemma ParseIgnoresPadding(message: string)
    ensures ParseNameCommand(Strip(message)) == ParseNameCommand(message)
    ensures IsCommand(Strip(message)) == IsCommand(message)
  {
    StripIdempotent(message);
  }

  /** A name command that is also a bot command is a `/setname` command. */
  lemma CommandNameIsSetName(message: string)
    requires IsCommand(message) && IsNameCommand(message)
    ensures StartsWithIgnoreCase(Strip(message), "/setname")
  {
    var m := Strip(message);
    CommandStripped(message, m);
    SlashIsNotNameEquals(m);
    ParseBySetName(message, m);
  }

  // --------------------------------------------------------------- sending

  const ChunkSize := 4000

  /**
   * `send_message`: text over 4000 characters goes out as consecutive
   * 4000-character pieces (the last one shorter) and the call reports
   * success whatever the API answered; shorter text goes out once and the
   * API's answer is the result. `api` stands for `_send_message_api`.
   */
  method SendMessage(chatId: string, text: string, api: (string, string) -> bool)
    returns (ok: bool, sent: seq<string>)
    ensures Concat(sent) == text
    ensures forall k :: 0 <= k < |sent| ==> |sent[k]| <= ChunkSize
    ensures forall k :: 0 <= k < |sent| - 1 ==> |sent[k]| == ChunkSize
    ensures |text| > ChunkSize ==> ok && forall k :: 0 <= k < |sent| ==> sent[k] != []
    ensures |text| <= ChunkSize ==> sent == [text] && ok == api(chatId, text)
  {
    if |text| > ChunkSize {
      sent := [];
      var i := 0;
      while i < |text|
        invariant 0 <= i <= |text|
        invariant Concat(sent) == text[..i]
        invariant forall k :: 0 <= k < |sent| ==> 0 < |sent[k]| <= ChunkSize
        invariant forall k :: 0 <= k < |sent| - 1 ==> |sent[k]| == ChunkSize
        invariant i < |text| ==> i == ChunkSize * |sent| && (forall k :: 0 <= k < |sent| ==> |sent[k]| == ChunkSize)
        decreases |text| - i
      {
        var j := if i + ChunkSize < |text| then i + ChunkSize else |text|;
        var chunk := text[i..j];
        var _ := api(chatId, chunk);
        assert text[..j] == text[..i] + chunk;
        assert Concat(sent + [chunk])[..] == Concat(sent) + chunk by {
          assert (sent + [chunk])[..|sent + [chunk]| - 1] == sent;
        }
        sent := sent + [chunk];
        i := j;
      }
      assert text[..|text|] == text;
      ok := true;
    } else {
      sent := [text];
      assert [text][..0] == [];
      ok := api(chatId, text);
    }
  }

  // -------------------------------------------------------------- escaping

  /** The characters `escape_markdown` puts a backslash in front of, in the order it handles them. */
  const SpecialChars: seq<char> := ['_', '*', '[', ']', '(', ')', '~', '`', '>', '#', '+', '-', '=', '|', '{', '}', '.', '!']

  /** `s` with a backslash before every character that is in `cs`. */
  function EscapeIn(s: string, cs: seq<char>): string {
    if s == [] then "" else (if s[0] in cs then ['\\', s[0]] else [s[0]]) + EscapeIn(s[1..], cs)
  }

  /** `s.replace(c, rep)` for a one-character pattern. */
  function Replace(s: string, c: char, rep: string): string {
    if s == [] then "" else (if s[0] == c then rep else [s[0]]) + Replace(s[1..], c, rep)
  }

  lemma {:induction false} ReplaceAppend(a: string, b: string, c: char, rep: string)
    ensures Replace(a + b, c, rep) == Replace(a, c, rep) + Replace(b, c, rep)
  {
    if a == [] {
      assert a + b == b;
    } else {
      assert (a + b)[0] == a[0] && (a + b)[1..] == a[1..] + b;
      ReplaceAppend(a[1..], b, c, rep);
    }
  }

  /**
   * One round of the loop: replacing a character that is neither a
   * backslash nor already escaped escapes it as well.
   */
  lemma {:induction false} ReplaceEscapes(s: string, cs: seq<char>, c: char)
    requires c !in cs && c != '\\'
    ensures Replace(EscapeIn(s, cs), c, ['\\', c]) == EscapeIn(s, cs + [c])
  {
    if s != [] {
      var head: string := if s[0] in cs then ['\\', s[0]] else [s[0]];
      ReplaceAppend(head, EscapeIn(s[1..], cs), c, ['\\', c]);
      ReplaceEscapes(s[1..], cs, c);
      if s[0] in cs {
        assert Replace(head, c, ['\\', c]) == head by {
          assert head[1..][1..] == [];
        }
      } else {
        assert Replace(head, c, ['\\', c]) == (if s[0] == c then ['\\', c] else [s[0]]) by {
          assert head[1..] == [];
        }
      }
    }
  }

  lemma {:induction false} EscapeInNone(s: string)
    ensures EscapeIn(s, []) == s
  {
    if s != [] {
      EscapeInNone(s[1..]);
    }
  }

  /** `escape_markdown`: one `replace` per special character, in order. */
  method EscapeMarkdown(text: string) returns (r: string)
    ensures r == EscapeIn(text, SpecialChars)
  {
    r := text;
    EscapeInNone(text);
    var k := 0;
    while k < |SpecialChars|
      invariant 0 <= k <= |SpecialChars|
      invariant r == EscapeIn(text, SpecialChars[..k])
    {
      var c := SpecialChars[k];
      assert c !in SpecialChars[..k] by {
        forall i | 0 <= i < k ensures SpecialChars[..k][i] != c {
          assert SpecialChars[..k][i] == SpecialChars[i];
        }
      }
      ReplaceEscapes(text, SpecialChars[..k], c);
      assert SpecialChars[..k + 1] == SpecialChars[..k] + [c];
      r := Replace(r, c, ['\\', c]);
      k := k + 1;
    }
    assert SpecialChars[..|SpecialChars|] == SpecialChars;
  }

  /** How many characters of `s` are special. */
  function CountSpecial(s: string): nat {
    if s == [] then 0 else (if s[0] in SpecialChars then 1 else 0) + CountSpecial(s[1..])
  }

  /** Escaping adds exactly one character per special character. */
  lemma {:induction false} EscapeLength(s: string)
    ensures |EscapeIn(s, SpecialChars)| == |s| + CountSpecial(s)
  {
    if s != [] {
      EscapeLength(s[1..]);
    }
  }

  /** Reading an escaped text back: a backslash before a special character is dropped. */
  function Unescape(s: string): string
    decreases |s|
  {
    if s == [] then ""
    else if |s| >= 2 && s[0] == '\\' && s[1] in SpecialChars then [s[1]] + Unescape(s[2..])
    else [s[0]] + Unescape(s[1..])
  }

  lemma EscapeHead(s: string)
    ensures EscapeIn(s, SpecialChars) != [] ==> EscapeIn(s, SpecialChars)[0] !in SpecialChars
  {
  }

  /**
   * Escaping loses nothing: every character is kept in place and only the
   * inserted backslashes are new.
   */
  lemma {:induction false} UnescapeEscape(s: string)
    ensures Unescape(EscapeIn(s, SpecialChars)) == s
  {
    if s != [] {
      var e := EscapeIn(s, SpecialChars);
      var rest := EscapeIn(s[1..], SpecialChars);
      UnescapeEscape(s[1..]);
      if s[0] in SpecialChars {
        assert e == ['\\', s[0]] + rest;
        assert e[2..] == rest;
      } else {
        assert e == [s[0]] + rest;
        assert e[1..] == rest;
        EscapeHead(s[1..]);
      }
    }
  }

  // ------------------------------------------------------ update extraction

  /** The parts of a Telegram update the bot reads; an absent key is None. */
  datatype TgUser = TgUser(id: Option<int>, username: Option<string>, firstName: Option<string>, lastName: Option<string>)
  datatype TgChat = TgChat(id: Option<int>)
  /** `otherKeys` records whether the message object has any key besides these three. */
  datatype TgMessage = TgMessage(chat: Option<TgChat>, sender: Option<TgUser>, text: Option<string>, otherKeys: bool)
  datatype TgUpdate = TgUpdate(updateId: Option<int>, message: Option<TgMessage>)

  /** The dictionary `extract_message_data` returns. */
  datatype MessageData = MessageData(chatId: string, userId: string, text: string, username: Option<string>, fullName: Option<string>)

  /** An empty message object is falsy. */
  predicate EmptyMessage(m: TgMessage) {
    m.chat.None? && m.sender.None? && m.text.None? && !m.otherKeys
  }

  /** `str(...)` of an id that may be missing (`str(None)` is `"None"`). */
  function IdString(id: Option<int>): string {
    match id
    case None => "None"
    case Some(n) => IntToString(n)
  }

  /** The stringified id reads back as the id it came from, and a missing id reads back as none. */
  lemma IdStringRoundTrip(id: Option<int>)
    ensures IntOf(IdString(id)) == id
  {
    match id
    case None => assert !IsDigit(IdString(id)[0]);
    case Some(n) => IntToStringRoundTrip(n);
  }

  /** `f"{first_name} {last_name}".strip() if first_name else None` */
  function FullName(u: TgUser): (r: Option<string>)
    ensures r.Some? <==> u.firstName.Some? && u.firstName.value != []
  {
    match u.firstName
    case Some(first) =>
      if first == [] then None
      else
        Some(Strip(first + " " + u.lastName.GetOr("")))
    case None => None
  }

  /** A neatly written first and last name come out as `first last`. */
  lemma FullNameOfNeatNames(u: TgUser, first: string, last: string)
    requires u.firstName == Some(first) && u.lastName == Some(last)
    requires first != [] && !IsSpace(first[0]) && last != [] && !IsSpace(last[|last| - 1])
    ensures FullName(u) == Some(first + " " + last)
  {
    var s := first + " " + last;
    assert s[0] == first[0] && s[|s| - 1] == last[|last| - 1];
    StripNoop(s, None);
  }

  /**
   * `extract_message_data`: None for an update without a message or with an
   * empty one; otherwise the ids as strings, the stripped text (empty when
   * the message has none) and the sender's names.
   */
  function ExtractMessageData(update: TgUpdate): (r: Option<MessageData>)
    ensures r.None? <==> update.message.None? || EmptyMessage(update.message.value)
    ensures r.Some? ==> Strip(r.value.text) == r.value.text
    ensures r.Some? && update.message.value.chat.Some? ==> IntOf(r.value.chatId) == update.message.value.chat.value.id
    ensures r.Some? && update.message.value.chat.None? ==> IntOf(r.value.chatId) == None
  {
    match update.message
    case None => None
    case Some(m) =>
      if EmptyMessage(m) then None
      else
        var sender := m.sender.GetOr(TgUser(None, None, None, None));
        var chatId := if m.chat.Some? then m.chat.value.id else None;
        IdStringRoundTrip(chatId);
        StripIdempotent(m.text.GetOr(""));
        Some(MessageData(
          IdString(chatId),
          IdString(sender.id),
          Strip(m.text.GetOr("")),
          sender.username,
          FullName(sender)))
  }

  /**
   * The fields of the extracted data: the message text without surrounding
   * whitespace (empty when there is none), the sender's id, read back from
   * its string, and the sender's username and full name.
   */
  lemma ExtractedFields(update: TgUpdate)
    ensures var r := ExtractMessageData(update);
      r.Some? ==> var sender := update.message.value.sender.GetOr(TgUser(None, None, None, None));
        && r.value.text == Strip(update.message.value.text.GetOr(""))
        && IntOf(r.value.userId) == sender.id
        && r.value.username == sender.username
        && r.value.fullName == FullName(sender)
  {
    if ExtractMessageData(update).Some? {
      IdStringRoundTrip(update.message.value.sender.GetOr(TgUser(None, None, None, None)).id);
    }
  }
}
