/**
 * The CEREBRUM-LLM training bridge: the shared training state, the start and
 * stop requests that guard it, the circular topic cursor, and the turn loop
 * that relays messages between the two remote agents, logs every completed
 * exchange and keeps a bounded context history for the language model.
 *
 * The two agents and the connection checks are not called: their answers are
 * inputs (a `CerebrumReply`, an optional LLM text, two booleans), and the
 * run of the loop is driven by a finite script of `Event`s.
 */
module Middleware {
  import opened Wrappers
  import opened PyText
  import opened HistoryFormat

  /** The first message the loop sends to CEREBRUM. */
  const Greeting := "Hello CEREBRUM! I'm here to have a conversation with you and help you learn language."

  /** The emotion scores CEREBRUM attaches to a reply; they are passed through untouched. */
  type Emotions = map<string, real>

  /**
   * What `send_to_cerebrum` yields. `NoReply` covers both None and an empty
   * JSON object, which `if not cerebrum_data` treats alike; a reply without a
   * `response` key has the empty response.
   */
  datatype CerebrumReply = NoReply | Reply(response: string, emotions: Emotions)

  /** A `ConversationExchange` of the session log. */
  datatype LoggedExchange = LoggedExchange(timestamp: string, llmToCerebrum: string, cerebrumResponse: string, emotions: Emotions)

  /** An `HTTPException` raised by an endpoint. */
  datatype ApiError = ApiError(status: nat, detail: string)

  /** The body `start_training` answers with (the float `delay` is not modelled). */
  datatype Started = Started(maxExchanges: int, startedAt: string)

  /** The body `get_conversation_log` answers with. */
  datatype LogPage = LogPage(totalExchanges: nat, showing: nat, exchanges: seq<LoggedExchange>)

  /**
   * What happens between two evaluations of the loop condition: a stop
   * request served by the API, or one iteration together with the answers
   * the remote agents give in it. The loop reads the shared `running` flag
   * only at its head, so a stop arriving during an iteration has the same
   * effect as one arriving right after it.
   */
  datatype Event = StopRequest | Turn(llm: Option<string>, cerebrum: CerebrumReply, now: string)

  /** One call of `send_to_llm`: the message and the context history sent with it. */
  datatype LlmCall = LlmCall(message: string, context: seq<Exchange>)

  /** Every field of the training state at one moment. */
  datatype Snapshot = Snapshot(
    running: bool,
    exchangesCompleted: nat,
    currentTopicIndex: nat,
    messagesOnCurrentTopic: nat,
    startedAt: Option<string>,
    conversationLog: seq<LoggedExchange>,
    currentTopic: string,
    savedLogs: seq<seq<LoggedExchange>>)

  /** The context entries `{'user': ..., 'assistant': ...}` that a stretch of the log stands for. */
  function HistoryOf(log: seq<LoggedExchange>): (h: seq<Exchange>)
    ensures |h| == |log|
    ensures forall i :: 0 <= i < |log| ==> h[i] == Exchange(log[i].llmToCerebrum, log[i].cerebrumResponse)
  {
    if log == [] then []
    else HistoryOf(log[..|log| - 1]) + [Exchange(log[|log| - 1].llmToCerebrum, log[|log| - 1].cerebrumResponse)]
  }

  /**
   * The context history of a run whose log entries start at `base`: the last
   * `2 * maxHistory` context entries of the run, or all of them when
   * `maxHistory` is 0 (`[-0:]` keeps the whole list).
   */
  predicate Tracks(log: seq<LoggedExchange>, base: nat, history: seq<Exchange>, maxHistory: int) {
    base <= |log|
    && (maxHistory >= 1 ==> history == Tail(HistoryOf(log[base..]), 2 * maxHistory))
    && (maxHistory == 0 ==> history == HistoryOf(log[base..]))
  }

  /** No LLM call was sent more than `maxHistory` context entries. */
  predicate ContextsBounded(calls: seq<LlmCall>, maxHistory: int) {
    maxHistory >= 1 ==> forall k :: 0 <= k < |calls| ==> |calls[k].context| <= maxHistory
  }

  /** A run that has logged nothing has an empty history. */
  lemma TracksEmpty(log: seq<LoggedExchange>, maxHistory: int)
    ensures Tracks(log, |log|, [], maxHistory)
  {
    assert log[|log|..] == [];
  }

  /** The history of a run that has logged one exchange is that exchange's entry. */
  lemma TracksFirst(log: seq<LoggedExchange>, e: LoggedExchange, maxHistory: int)
    ensures Tracks(log + [e], |log|, [Exchange(e.llmToCerebrum, e.cerebrumResponse)], maxHistory)
  {
    assert (log + [e])[|log|..] == [e];
  }

  lemma ContextsBoundedAppend(calls: seq<LlmCall>, call: LlmCall, maxHistory: int)
    requires ContextsBounded(calls, maxHistory) && (maxHistory >= 1 ==> |call.context| <= maxHistory)
    ensures ContextsBounded(calls + [call], maxHistory)
  {
  }

  /** Logging one more exchange adds its context entry at the end. */
  lemma HistoryOfAppend(log: seq<LoggedExchange>, e: LoggedExchange)
    ensures HistoryOf(log + [e]) == HistoryOf(log) + [Exchange(e.llmToCerebrum, e.cerebrumResponse)]
  {
    assert (log + [e])[..|log|] == log;
  }

  /** The last `k` of a sequence grown by one are the last `k` of its last `k`, grown by one. */
  lemma TailStep<T>(s: seq<T>, x: T, k: int)
    requires k >= 1
    ensures Tail(Tail(s, k) + [x], k) == Tail(s + [x], k)
  {
  }

  /** `s[-k:]` of a sequence no longer than `k` is the whole sequence. */
  lemma TailKeepsShort<T>(s: seq<T>, k: int)
    requires |s| <= k
    ensures Tail(s, k) == s
  {
  }

  /**
   * The bounded history keeps tracking the log: after one more logged
   * exchange it is still the last `2 * maxHistory` context entries of the
   * run (all of them when `maxHistory` is 0, since `[-0:]` keeps everything).
   */
  lemma HistoryStep(log: seq<LoggedExchange>, base: nat, e: LoggedExchange, h: seq<Exchange>, maxHistory: int)
    requires Tracks(log, base, h, maxHistory)
    ensures Tracks(log + [e], base, Tail(h + [Exchange(e.llmToCerebrum, e.cerebrumResponse)], 2 * maxHistory), maxHistory)
  {
    assert (log + [e])[base..] == log[base..] + [e];
    HistoryOfAppend(log[base..], e);
    if maxHistory >= 1 {
      TailStep(HistoryOf(log[base..]), Exchange(e.llmToCerebrum, e.cerebrumResponse), 2 * maxHistory);
    }
  }

  // ------------------------------------------------------------ the topic cursor

  /** The cursor after `i`, as `(i + 1) % len(topics)` computes it for `i < n`. */
  function Next(i: nat, n: nat): (j: nat)
    requires i < n
    ensures j < n
    ensures j == (i + 1) % n
  {
    if i + 1 < n then i + 1 else 0
  }

  /** The topics `k` successive `get_next_topic` calls return when the cursor starts at `i`. */
  function TopicsFrom(topics: seq<string>, i: nat, k: nat): (ts: seq<string>)
    requires i < |topics|
    ensures |ts| == k
    decreases k
  {
    if k == 0 then [] else [topics[i]] + TopicsFrom(topics, Next(i, |topics|), k - 1)
  }

  /** Without wrapping, the calls return a contiguous run of the list. */
  lemma {:induction false} TopicsFromRun(topics: seq<string>, i: nat, k: nat)
    requires i < |topics| && i + k <= |topics|
    ensures TopicsFrom(topics, i, k) == topics[i..i + k]
    decreases k
  {
    if k > 0 && i + 1 < |topics| {
      TopicsFromRun(topics, i + 1, k - 1);
    }
  }

  /** Running off the end of the list continues from its start. */
  lemma {:induction false} TopicsFromWrap(topics: seq<string>, i: nat, m: nat)
    requires i < |topics|
    ensures TopicsFrom(topics, i, |topics| - i + m) == topics[i..] + TopicsFrom(topics, 0, m)
    decreases |topics| - i
  {
    if i + 1 < |topics| {
      TopicsFromWrap(topics, i + 1, m);
      assert topics[i..] == [topics[i]] + topics[i + 1..];
    } else {
      assert topics[i..] == [topics[i]];
    }
  }

  /**
   * `len(topics)` successive calls, from any cursor position, return the list
   * rotated to start at that position: every topic exactly once before the
   * cursor comes back to where it started.
   */
  lemma TopicRotation(topics: seq<string>, i: nat)
    requires i < |topics|
    ensures TopicsFrom(topics, i, |topics|) == topics[i..] + topics[..i]
    ensures multiset(TopicsFrom(topics, i, |topics|)) == multiset(topics)
  {
    TopicsFromWrap(topics, i, i);
    TopicsFromRun(topics, 0, i);
    assert topics == topics[..i] + topics[i..];
  }

  // ------------------------------------------------------------ the training state

  class TrainingState {
    /** `config['conversation_topics']`, fixed for the life of the process. */
    const topics: seq<string>
    var running: bool
    var exchangesCompleted: nat
    var currentTopicIndex: nat
    var messagesOnCurrentTopic: nat
    var startedAt: Option<string>
    var conversationLog: seq<LoggedExchange>
    var currentTopic: string
    /** The session logs `save_conversation_log` has written to disk, in order. */
    var savedLogs: seq<seq<LoggedExchange>>

    function State(): Snapshot
      reads this
    {
      Snapshot(running, exchangesCompleted, currentTopicIndex, messagesOnCurrentTopic, startedAt,
               conversationLog, currentTopic, savedLogs)
    }

    /**
     * The cursor always points into the topic list (it stays 0 when the list
     * is empty), and the exchange counter is the length of the log: the two
     * are reset together and grow together.
     */
    predicate Valid()
      reads this
    {
      && (currentTopicIndex == 0 || currentTopicIndex < |topics|)
      && exchangesCompleted == |conversationLog|
    }

    /** `TrainingState()` at import time. */
    constructor (topics: seq<string>)
      ensures Valid() && this.topics == topics
      ensures State() == Snapshot(false, 0, 0, 0, None, [], "", [])
    {
      this.topics := topics;
      running := false;
      exchangesCompleted := 0;
      currentTopicIndex := 0;
      messagesOnCurrentTopic := 0;
      startedAt := None;
      conversationLog := [];
      currentTopic := "";
      savedLogs := [];
    }

    /**
     * `get_next_topic`: the topic under the cursor, the cursor moved on
     * circularly. On an empty list the indexing raises (None here) before the
     * cursor is touched.
     */
    method GetNextTopic() returns (topic: Option<string>)
      requires Valid()
      modifies this
      ensures Valid()
      ensures |topics| == 0 ==> topic.None? && State() == old(State())
      ensures |topics| > 0 ==>
        topic == Some(topics[old(currentTopicIndex)])
        && State() == old(State()).(currentTopicIndex := (old(currentTopicIndex) + 1) % |topics|)
      ensures |topics| > 0 ==> forall k: nat ::
        TopicsFrom(topics, old(currentTopicIndex), k + 1) == [topic.value] + TopicsFrom(topics, currentTopicIndex, k)
    {
      if |topics| == 0 {
        return None;
      }
      topic := Some(topics[currentTopicIndex]);
      currentTopicIndex := (currentTopicIndex + 1) % |topics|;
    }

    /** `save_conversation_log`: a session file is written exactly when the log is not empty. */
    method SaveConversationLog() returns (written: bool)
      modifies this
      ensures written <==> old(conversationLog) != []
      ensures State() == old(State()).(savedLogs := old(savedLogs) + if written then [old(conversationLog)] else [])
    {
      if conversationLog == [] {
        return false;
      }
      savedLogs := savedLogs + [conversationLog];
      written := true;
    }

    /**
     * `start_training`: refused while a run is active or when either agent is
     * unreachable (CEREBRUM is checked first), with nothing changed;
     * otherwise a fresh run starts at `now`. The loop thread it spawns is
     * `TrainingLoop`.
     */
    method StartTraining(maxExchanges: int, cerebrumUp: bool, llmUp: bool, now: string)
      returns (r: Result<Started, ApiError>)
      requires Valid()
      modifies this
      ensures Valid()
      ensures old(running) ==> r == Err(ApiError(400, "Training already running"))
      ensures !old(running) && !cerebrumUp ==> r == Err(ApiError(503, "CEREBRUM is not accessible"))
      ensures !old(running) && cerebrumUp && !llmUp ==> r == Err(ApiError(503, "LLM server is not accessible"))
      ensures r.Err? ==> State() == old(State())
      ensures r.Ok? <==> !old(running) && cerebrumUp && llmUp
      ensures r.Ok? ==>
        r.value == Started(maxExchanges, now)
        && State() == old(State()).(running := true, exchangesCompleted := 0, currentTopicIndex := 0,
                                   messagesOnCurrentTopic := 0, startedAt := Some(now),
                                   conversationLog := [], currentTopic := "")
    {
      if running {
        return Err(ApiError(400, "Training already running"));
      }
      if !cerebrumUp {
        return Err(ApiError(503, "CEREBRUM is not accessible"));
      }
      if !llmUp {
        return Err(ApiError(503, "LLM server is not accessible"));
      }
      running := true;
      exchangesCompleted := 0;
      currentTopicIndex := 0;
      messagesOnCurrentTopic := 0;
      startedAt := Some(now);
      conversationLog := [];
      currentTopic := "";
      r := Ok(Started(maxExchanges, now));
    }

    /** `stop_training`: refused when no run is active; otherwise only `running` changes. */
    method StopTraining() returns (r: Result<nat, ApiError>)
      modifies this
      ensures !old(running) ==> r == Err(ApiError(400, "Training not running")) && State() == old(State())
      ensures old(running) ==> r == Ok(old(exchangesCompleted)) && State() == old(State()).(running := false)
    {
      if !running {
        return Err(ApiError(400, "Training not running"));
      }
      running := false;
      r := Ok(exchangesCompleted);
    }

    /**
     * `get_conversation_log`: `conversation_log[-limit:]` and the log's length.
     * A positive limit shows the last `limit` entries, a zero limit the whole
     * log (`[-0:]` is `[0:]`), a negative one all but the first `-limit`.
     */
    function GetConversationLog(limit: int): (page: LogPage)
      reads this
      ensures page.totalExchanges == |conversationLog| && page.showing == |page.exchanges|
      ensures limit > 0 ==>
        page.showing == (if limit < |conversationLog| then limit else |conversationLog|)
        && page.exchanges == conversationLog[|conversationLog| - page.showing..]
      ensures limit == 0 ==> page.exchanges == conversationLog
      ensures limit < 0 ==> page.exchanges == conversationLog[(if -limit < |conversationLog| then -limit else |conversationLog|)..]
    {
      var shown := Tail(conversationLog, limit);
      LogPage(|conversationLog|, |shown|, shown)
    }

    /**
     * The topic-switch branch of the loop: the topic counter restarts, the
     * cursor moves on and the new topic is sent to CEREBRUM, whose answer (or
     * "" without one) becomes the message the LLM answers next. Nothing is
     * logged. None when `get_next_topic` raises on an empty topic list.
     */
    method SwitchTopic(cerebrum: CerebrumReply) returns (reply: Option<string>)
      requires Valid()
      modifies this
      ensures Valid()
      ensures |topics| == 0 ==> reply.None? && State() == old(State()).(messagesOnCurrentTopic := 0)
      ensures |topics| > 0 ==>
        reply == Some(if cerebrum.Reply? then cerebrum.response else "")
        && State() == old(State()).(messagesOnCurrentTopic := 0,
                                   currentTopicIndex := (old(currentTopicIndex) + 1) % |topics|,
                                   currentTopic := topics[old(currentTopicIndex)])
    {
      messagesOnCurrentTopic := 0;
      var topic := GetNextTopic();
      if topic.None? {
        return None;
      }
      currentTopic := topic.value;
      reply := Some(if cerebrum.Reply? then cerebrum.response else "");
    }

    /**
     * The normal branch of the loop: the LLM answers CEREBRUM's last message
     * with the last `maxHistory` context entries; its answer goes to CEREBRUM.
     * A failure of either agent skips the turn with nothing changed; a
     * completed turn logs one exchange, bumps both counters and appends to the
     * history, which is then cut to its last `2 * maxHistory` entries.
     */
    method RelayTurn(lastReply: string, history: seq<Exchange>, maxHistory: int,
                     llm: Option<string>, cerebrum: CerebrumReply, now: string, ghost base: nat)
      returns (call: LlmCall, logged: bool, reply: string, newHistory: seq<Exchange>)
      requires Tracks(conversationLog, base, history, maxHistory)
      modifies this
      ensures Tracks(conversationLog, base, newHistory, maxHistory)
      ensures maxHistory >= 1 ==> |call.context| <= maxHistory
      ensures call == LlmCall(lastReply, Tail(history, maxHistory))
      ensures logged <==> Truthy(llm) && cerebrum.Reply?
      ensures !logged ==> State() == old(State()) && reply == lastReply && newHistory == history
      ensures logged ==>
        reply == cerebrum.response
        && State() == old(State()).(
             conversationLog := old(conversationLog) + [LoggedExchange(now, llm.value, cerebrum.response, cerebrum.emotions)],
             exchangesCompleted := old(exchangesCompleted) + 1,
             messagesOnCurrentTopic := old(messagesOnCurrentTopic) + 1)
        && newHistory == Tail(history + [Exchange(llm.value, cerebrum.response)], 2 * maxHistory)
    {
      call := LlmCall(lastReply, Tail(history, maxHistory));
      reply := lastReply;
      newHistory := history;
      logged := false;
      if !Truthy(llm) {
        return;
      }
      if cerebrum.NoReply? {
        return;
      }
      reply := cerebrum.response;
      var e := LoggedExchange(now, llm.value, reply, cerebrum.emotions);
      HistoryStep(conversationLog, base, e, history, maxHistory);
      conversationLog := conversationLog + [e];
      exchangesCompleted := exchangesCompleted + 1;
      messagesOnCurrentTopic := messagesOnCurrentTopic + 1;
      newHistory := history + [Exchange(llm.value, reply)];
      if |newHistory| > maxHistory * 2 {
        newHistory := Tail(newHistory, maxHistory * 2);
      } else {
        TailKeepsShort(newHistory, maxHistory * 2);
      }
      logged := true;
    }

    /**
     * One pass of the loop body, entered with the loop condition true: a stop
     * request clears `running`; a turn switches topic or relays one message.
     * At most one exchange is logged, and only by a relayed turn. `raised`
     * reports the exception of an empty topic list.
     */
    method Iterate(e: Event, topicSwitchInterval: int, maxHistory: int, reply: string,
                   history: seq<Exchange>, llmCalls: seq<LlmCall>, ghost base: nat)
      returns (reply': string, history': seq<Exchange>, llmCalls': seq<LlmCall>, raised: bool)
      requires Valid() && Tracks(conversationLog, base, history, maxHistory) && ContextsBounded(llmCalls, maxHistory)
      modifies this
      ensures Valid() && Tracks(conversationLog, base, history', maxHistory) && ContextsBounded(llmCalls', maxHistory)
      ensures |old(conversationLog)| <= |conversationLog| <= |old(conversationLog)| + 1
      ensures conversationLog[..|old(conversationLog)|] == old(conversationLog)
      ensures exchangesCompleted - old(exchangesCompleted) == |conversationLog| - |old(conversationLog)|
      ensures startedAt == old(startedAt) && savedLogs == old(savedLogs)
      ensures topicSwitchInterval <= 0 ==> conversationLog == old(conversationLog)
      ensures e.StopRequest? ==> !running
      ensures e.Turn? ==> running == old(running)
    {
      reply', history', llmCalls', raised := reply, history, llmCalls, false;
      match e {
        case StopRequest =>
          var _ := StopTraining();
        case Turn(llm, cerebrum, now) =>
          if messagesOnCurrentTopic >= topicSwitchInterval {
            var r := SwitchTopic(cerebrum);
            if r.None? {
              raised := true;
            } else {
              reply' := r.value;
            }
          } else {
            var call, logged;
            call, logged, reply', history' := RelayTurn(reply, history, maxHistory, llm, cerebrum, now, base);
            ContextsBoundedAppend(llmCalls, call, maxHistory);
            llmCalls' := llmCalls + [call];
          }
      }
    }

    /**
     * The `while` loop of `training_loop` over a script of events. It stops
     * when the run is no longer active, the exchange budget is spent or an
     * empty topic list raises; `interrupted` says that the script ran out
     * while the loop would still go on.
     */
    method RunLoop(maxExchanges: int, topicSwitchInterval: int, maxHistory: int, events: seq<Event>,
                   reply: string, history: seq<Exchange>, ghost base: nat)
      returns (interrupted: bool, history': seq<Exchange>, llmCalls: seq<LlmCall>)
      requires Valid() && Tracks(conversationLog, base, history, maxHistory)
      modifies this
      ensures Valid() && Tracks(conversationLog, base, history', maxHistory) && ContextsBounded(llmCalls, maxHistory)
      ensures |old(conversationLog)| <= |conversationLog| && conversationLog[..|old(conversationLog)|] == old(conversationLog)
      ensures exchangesCompleted - old(exchangesCompleted) == |conversationLog| - |old(conversationLog)|
      ensures exchangesCompleted == old(exchangesCompleted) || exchangesCompleted <= maxExchanges
      ensures startedAt == old(startedAt) && savedLogs == old(savedLogs)
      ensures topicSwitchInterval <= 0 ==> conversationLog == old(conversationLog)
      ensures interrupted ==> running && exchangesCompleted < maxExchanges
    {
      var reply := reply;
      history' := history;
      llmCalls := [];
      var raised := false;
      var i := 0;
      while i < |events| && running && exchangesCompleted < maxExchanges && !raised
        invariant 0 <= i <= |events|
        invariant Valid() && Tracks(conversationLog, base, history', maxHistory) && ContextsBounded(llmCalls, maxHistory)
        invariant |old(conversationLog)| <= |conversationLog| && conversationLog[..|old(conversationLog)|] == old(conversationLog)
        invariant exchangesCompleted - old(exchangesCompleted) == |conversationLog| - |old(conversationLog)|
        invariant exchangesCompleted == old(exchangesCompleted) || exchangesCompleted <= maxExchanges
        invariant startedAt == old(startedAt) && savedLogs == old(savedLogs)
        invariant topicSwitchInterval <= 0 ==> conversationLog == old(conversationLog)
        decreases |events| - i
      {
        ghost var before := conversationLog;
        reply, history', llmCalls, raised := Iterate(events[i], topicSwitchInterval, maxHistory, reply, history', llmCalls, base);
        assert conversationLog[..|old(conversationLog)|] == before[..|old(conversationLog)|];
        i := i + 1;
      }
      interrupted := i == |events| && running && exchangesCompleted < maxExchanges && !raised;
    }

    /**
     * `training_loop`: the greeting exchange, then iterations while the run is
     * active and fewer than `maxExchanges` exchanges are done. An iteration
     * switches topic once `topicSwitchInterval` exchanges were made on the
     * current one, and relays one turn otherwise. Every way out (the greeting
     * failing, a stop request, the exchange budget, the exception an empty
     * topic list raises) is finished: `running` is cleared and the log saved.
     * When the script runs out first, the run is still in progress
     * (`finished` false). Also returned: the context history at the end and
     * every call made to the LLM.
     */
    method TrainingLoop(maxExchanges: int, topicSwitchInterval: int, maxHistory: int,
                        greetingReply: CerebrumReply, greetedAt: string, events: seq<Event>)
      returns (finished: bool, history: seq<Exchange>, llmCalls: seq<LlmCall>)
      requires Valid()
      modifies this
      ensures Valid()
      ensures |old(conversationLog)| <= |conversationLog|
      ensures conversationLog[..|old(conversationLog)|] == old(conversationLog)
      ensures exchangesCompleted - old(exchangesCompleted) == |conversationLog| - |old(conversationLog)|
      ensures startedAt == old(startedAt)
      ensures greetingReply.NoReply? ==>
        finished && conversationLog == old(conversationLog) && exchangesCompleted == old(exchangesCompleted)
        && llmCalls == []
      ensures greetingReply.Reply? ==>
        |conversationLog| > |old(conversationLog)|
        && conversationLog[|old(conversationLog)|]
           == LoggedExchange(greetedAt, Greeting, greetingReply.response, greetingReply.emotions)
      ensures finished ==>
        !running && savedLogs == old(savedLogs) + if conversationLog != [] then [conversationLog] else []
      ensures !finished ==> running && exchangesCompleted < maxExchanges && savedLogs == old(savedLogs)
      ensures old(exchangesCompleted) < maxExchanges ==> exchangesCompleted <= maxExchanges
      ensures topicSwitchInterval <= 0 ==> |conversationLog| <= |old(conversationLog)| + 1
      ensures Tracks(conversationLog, |old(conversationLog)|, history, maxHistory)
      ensures ContextsBounded(llmCalls, maxHistory)
    {
      ghost var base := |conversationLog|;
      history := [];
      llmCalls := [];
      if greetingReply.NoReply? {
        running := false;
        var _ := SaveConversationLog();
        assert conversationLog == old(conversationLog);
        TracksEmpty(conversationLog, maxHistory);
        return true, history, llmCalls;
      }
      var reply := greetingReply.response;
      var greeting := LoggedExchange(greetedAt, Greeting, reply, greetingReply.emotions);
      TracksFirst(conversationLog, greeting, maxHistory);
      conversationLog := conversationLog + [greeting];
      exchangesCompleted := exchangesCompleted + 1;
      messagesOnCurrentTopic := messagesOnCurrentTopic + 1;
      history := [Exchange(Greeting, reply)];
      var interrupted;
      interrupted, history, llmCalls := RunLoop(maxExchanges, topicSwitchInterval, maxHistory, events, reply, history, base);
      if interrupted {
        return false, history, llmCalls;
      }
      ghost var log := conversationLog;
      running := false;
      var _ := SaveConversationLog();
      assert conversationLog == log;
      finished := true;
    }
  }
}

