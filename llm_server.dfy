/**
 * The LLM server: the plain-text prompt built from the last five history
 * entries, the mapping of the Ollama reply to a generated text, the status
 * rules of the chat endpoint, the reset of the stored contexts, and the
 * choice of the listening port at startup.
 */
module LlmServer {
  import opened Wrappers
  import opened PyText
  import opened PortUtils

  /** One history entry of a chat request: a JSON object of strings. */
  type Entry = map<string, string>

  /** The number of history entries rendered into the prompt. */
  const PromptHistory := 5

  /** The port range used when the configuration names none. */
  const DefaultPortRange := (8030, 8035)

  /** `exchange.get(key, '')` */
  function Get(e: Entry, key: string): string {
    if key in e then e[key] else ""
  }

  /** `f"User: {exchange.get('user', '')}\n"` */
  function UserLine(e: Entry): string {
    "User: " + Get(e, "user") + "\n"
  }

  /** `f"Assistant: {exchange.get('assistant', '')}\n"` */
  function AssistantLine(e: Entry): string {
    "Assistant: " + Get(e, "assistant") + "\n"
  }

  /** The two lines one history entry contributes to the prompt. */
  function Block(e: Entry): string {
    UserLine(e) + AssistantLine(e)
  }

  /** The blocks of some entries, in order. */
  function Blocks(es: seq<Entry>): string {
    if es == [] then "" else Blocks(es[..|es| - 1]) + Block(es[|es| - 1])
  }

  /** `f"User: {message}\nAssistant:"`, the closing lines of every prompt. */
  function Closing(message: string): string {
    "User: " + message + "\nAssistant:"
  }

  /** The entries the prompt renders: the last five, or none when there is no history. */
  function Rendered(history: Option<seq<Entry>>): (r: seq<Entry>)
    ensures |r| <= PromptHistory
  {
    if history.Some? then Tail(history.value, PromptHistory) else []
  }

  /** The prompt handed to Ollama. */
  function Prompt(message: string, history: Option<seq<Entry>>): string {
    Blocks(Rendered(history)) + Closing(message)
  }

  /** Blocks of a concatenation are the concatenated blocks: one block per entry, in order. */
  lemma {:induction false} BlocksAppend(a: seq<Entry>, b: seq<Entry>)
    ensures Blocks(a + b) == Blocks(a) + Blocks(b)
    decreases |b|
  {
    if b == [] {
      assert a + b == a;
    } else {
      var c := b[..|b| - 1];
      assert (a + b)[..|a + b| - 1] == a + c && (a + b)[|a + b| - 1] == b[|b| - 1];
      BlocksAppend(a, c);
    }
  }

  /**
   * The prompt renders the last five entries of the history (all of a
   * shorter one, in order) and always ends with the closing lines; with no
   * history it is the closing lines alone.
   */
  lemma PromptShape(message: string, history: Option<seq<Entry>>)
    ensures var h := if history.Some? then history.value else [];
      var r := Rendered(history);
      && |r| == (if |h| < PromptHistory then |h| else PromptHistory)
      && r == h[|h| - |r|..]
    ensures var p := Prompt(message, history); var c := Closing(message);
      |p| >= |c| && p[|p| - |c|..] == c
    ensures history.None? || history.value == [] ==> Prompt(message, history) == Closing(message)
  {
    var b := Blocks(Rendered(history));
    assert (b + Closing(message))[|b|..] == Closing(message);
  }

  /** The prompt loop of `generate_ollama_response`: one `prompt +=` per line. */
  method BuildPrompt(message: string, history: Option<seq<Entry>>) returns (prompt: string)
    ensures prompt == Prompt(message, history)
  {
    prompt := "";
    var recent: seq<Entry> := [];
    if history.Some? && history.value != [] {
      recent := Tail(history.value, PromptHistory);
    }
    var i := 0;
    while i < |recent|
      invariant 0 <= i <= |recent|
      invariant prompt == Blocks(recent[..i])
    {
      var e := recent[i];
      ghost var before := prompt;
      prompt := prompt + UserLine(e);
      prompt := prompt + AssistantLine(e);
      assert prompt == Blocks(recent[..i + 1]) by {
        assert recent[..i + 1][..i] == recent[..i] && recent[..i + 1][i] == e;
        assert prompt == before + Block(e);
      }
      i := i + 1;
    }
    assert recent == Rendered(history) by {
      assert recent[..i] == recent;
    }
    prompt := prompt + Closing(message);
  }

  /** What the `/api/generate` call gives back. */
  datatype OllamaReply =
    | Raised
    | Reply(status: int, response: Option<string>)

  /**
   * The generated text: the stripped `response` field of a 200 reply (empty
   * when the field is missing), None for any other status or an exception.
   */
  function Generated(r: OllamaReply): (g: Option<string>)
    ensures g.Some? <==> r.Reply? && r.status == 200
    ensures g.Some? ==> g.value == Strip(if r.response.Some? then r.response.value else "")
  {
    if r.Reply? && r.status == 200 then Some(Strip(if r.response.Some? then r.response.value else "")) else None
  }

  /** The answer of the chat endpoint. */
  datatype ChatResult =
    | Unavailable       // 503: Ollama is not reachable
    | GenerationFailed  // 500: no text was generated
    | ChatResponse(response: string)

  /**
   * `chat`: the connection is checked first, and Ollama is asked only when
   * it answers; an empty or missing text becomes the 500 error.
   */
  function Chat(connected: bool, reply: OllamaReply): ChatResult {
    if !connected then Unavailable
    else match Generated(reply)
      case None => GenerationFailed
      case Some(text) => if text == "" then GenerationFailed else ChatResponse(text)
  }

  /** The status rules of the chat endpoint, in both directions. */
  lemma ChatStatus(connected: bool, reply: OllamaReply)
    ensures Chat(connected, reply) == Unavailable <==> !connected
    ensures Chat(connected, reply) == GenerationFailed <==>
      connected && (Generated(reply).None? || Generated(reply).value == "")
    ensures Chat(connected, reply).ChatResponse? ==>
      connected && reply.Reply? && reply.status == 200 && Chat(connected, reply).response != ""
      && Strip(Chat(connected, reply).response) == Chat(connected, reply).response
  {
    if Chat(connected, reply).ChatResponse? {
      var raw := if reply.response.Some? then reply.response.value else "";
      StripIdempotent(raw);
    }
  }

  /** How startup ends: listening on a port, or the `RuntimeError` for a full range. */
  datatype Startup = Listening(port: int) | NoFreePort(lo: int, hi: int)

  /**
   * Startup: the configured range (8030-8035 when none is configured) is
   * scanned for the first available port; with none the server refuses to start.
   */
  method SelectPort(configured: Option<(int, int)>, available: Availability) returns (s: Startup)
    ensures var (lo, hi) := if configured.Some? then configured.value else DefaultPortRange;
      && (s.Listening? <==> exists p :: lo <= p <= hi && available(p))
      && (s.Listening? ==> lo <= s.port <= hi && available(s.port) && forall p :: lo <= p < s.port ==> !available(p))
      && (s.NoFreePort? ==> s == NoFreePort(lo, hi))
  {
    var (lo, hi) := if configured.Some? then configured.value else DefaultPortRange;
    var port, probed := FindFreePort(lo, hi, available);
    FirstFreeIsLeast(lo, hi, available);
    if port.None? {
      s := NoFreePort(lo, hi);
    } else {
      s := Listening(port.value);
    }
  }

  /** The in-memory `conversation_contexts` of the server. */
  class LlmContexts {
    var contexts: map<string, seq<Entry>>

    constructor ()
      ensures contexts == map[]
    {
      contexts := map[];
    }

    /** `reset_conversation`: every stored context is dropped. */
    method Reset()
      modifies this
      ensures contexts == map[]
    {
      contexts := map[];
    }
  }
}
