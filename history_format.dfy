/**
 * The pairing of stored chat messages into user/assistant exchanges, done
 * the same way by both conversation stores before the history is handed to
 * a language model.
 */
module HistoryFormat {
  import opened Wrappers
  import opened PyText

  /** One stored conversation row as the history query returns it. */
  datatype Message = Message(role: string, text: string)

  /** A `{'user': ..., 'assistant': ...}` dictionary of the formatted history. */
  datatype Exchange = Exchange(user: string, assistant: string)

  /**
   * The pairing scan over `ms` when the exchange under construction is
   * `pending` (`Some(u)` is the non-empty dictionary `{'user': u}`, None the
   * empty one): a user row starts a new exchange, replacing any pending one;
   * an assistant row completes a pending exchange and is dropped otherwise;
   * rows with any other role are passed over.
   */
  function Pairs(ms: seq<Message>, pending: Option<string>): seq<Exchange>
    decreases |ms|
  {
    if ms == [] then []
    else if ms[0].role == "user" then Pairs(ms[1..], Some(ms[0].text))
    else if ms[0].role == "assistant" && pending.Some? then
      [Exchange(pending.value, ms[0].text)] + Pairs(ms[1..], None)
    else Pairs(ms[1..], pending)
  }

  /** The loop of `get_conversation_history_formatted`. */
  method FormatHistory(messages: seq<Message>) returns (formatted: seq<Exchange>)
    ensures formatted == Pairs(messages, None)
  {
    formatted := [];
    var current: Option<string> := None;
    var i := 0;
    while i < |messages|
      invariant 0 <= i <= |messages|
      invariant formatted + Pairs(messages[i..], current) == Pairs(messages, None)
    {
      var msg := messages[i];
      assert messages[i..][0] == msg && messages[i..][1..] == messages[i + 1..];
      if msg.role == "user" {
        current := Some(msg.text);
      } else if msg.role == "assistant" && current.Some? {
        formatted := formatted + [Exchange(current.value, msg.text)];
        current := None;
      }
      i := i + 1;
    }
  }

  /** Every row is a user or an assistant row, as the chat services store them. */
  predicate ChatRoles(ms: seq<Message>) {
    forall i :: 0 <= i < |ms| ==> ms[i].role == "user" || ms[i].role == "assistant"
  }

  /**
   * Reference definition: one exchange for every position `j >= from` that
   * holds a user row directly followed by an assistant row, in order.
   */
  function AdjacentPairs(ms: seq<Message>, from: nat): seq<Exchange>
    decreases |ms| - from
  {
    if from + 1 >= |ms| then []
    else if ms[from].role == "user" && ms[from + 1].role == "assistant" then
      [Exchange(ms[from].text, ms[from + 1].text)] + AdjacentPairs(ms, from + 1)
    else AdjacentPairs(ms, from + 1)
  }

  /** The exchange pending after the scan has read the first `i` rows of a user/assistant history. */
  function PendingAt(ms: seq<Message>, i: nat): Option<string>
    requires i <= |ms|
  {
    if i > 0 && ms[i - 1].role == "user" then Some(ms[i - 1].text) else None
  }

  lemma {:induction false} PairsFromAdjacent(ms: seq<Message>, i: nat)
    requires ChatRoles(ms) && i <= |ms|
    ensures Pairs(ms[i..], PendingAt(ms, i)) == AdjacentPairs(ms, if i == 0 then 0 else i - 1)
    decreases |ms| - i
  {
    if i == |ms| {
    } else {
      var rest := ms[i..];
      assert rest[0] == ms[i] && rest[1..] == ms[i + 1..];
      PairsFromAdjacent(ms, i + 1);
      assert ms[i].role == "user" || ms[i].role == "assistant";
    }
  }

  /**
   * On a history of user and assistant rows the pairing keeps exactly the
   * user rows directly followed by an assistant row: an assistant row with
   * no user row before it, a user row followed by another user row and a
   * final user row are all dropped.
   */
  lemma PairsAreAdjacent(ms: seq<Message>)
    requires ChatRoles(ms)
    ensures Pairs(ms, None) == AdjacentPairs(ms, 0)
  {
    PairsFromAdjacent(ms, 0);
    assert ms[0..] == ms;
  }

  /** Each exchange consumes two rows (one when it completes an already pending one). */
  lemma {:induction false} PairsBound(ms: seq<Message>, pending: Option<string>)
    ensures 2 * |Pairs(ms, pending)| <= |ms| + (if pending.Some? then 1 else 0)
    decreases |ms|
  {
    if ms != [] {
      if ms[0].role == "user" {
        PairsBound(ms[1..], Some(ms[0].text));
      } else if ms[0].role == "assistant" && pending.Some? {
        PairsBound(ms[1..], None);
      } else {
        PairsBound(ms[1..], pending);
      }
    }
  }

  /** The rows that store a sequence of exchanges, oldest first. */
  function Flatten(ps: seq<Exchange>): (ms: seq<Message>)
    ensures |ms| == 2 * |ps| && ChatRoles(ms)
  {
    if ps == [] then []
    else [Message("user", ps[0].user), Message("assistant", ps[0].assistant)] + Flatten(ps[1..])
  }

  /** Formatting the rows of a sequence of exchanges gives those exchanges back. */
  lemma {:induction false} PairsOfFlatten(ps: seq<Exchange>, pending: Option<string>)
    ensures Pairs(Flatten(ps), pending) == ps
  {
    if ps != [] {
      var ms := Flatten(ps);
      assert ms[0] == Message("user", ps[0].user);
      assert ms[1..][0] == Message("assistant", ps[0].assistant);
      assert ms[1..][1..] == Flatten(ps[1..]);
      PairsOfFlatten(ps[1..], None);
    }
  }

  /** SQLite's `LIMIT n`: the first `n` rows, all of them when `n` is negative. */
  function Limit<T>(rows: seq<T>, n: int): seq<T> {
    if n < 0 || n >= |rows| then rows else rows[..n]
  }

  /**
   * The history query: the rows `ORDER BY timestamp DESC LIMIT n`, read back
   * reversed. That is the `n` most recent rows (all of them for a negative
   * `n`) in chronological order.
   */
  function MostRecent<T>(rows: seq<T>, n: int): (r: seq<T>)
    ensures |r| == if n < 0 || n >= |rows| then |rows| else n
  {
    Reverse(Limit(Reverse(rows), n))
  }

  /** The rows read back are the newest ones, in their stored order. */
  lemma MostRecentIsSuffix<T>(rows: seq<T>, n: int)
    ensures var r := MostRecent(rows, n); r == rows[|rows| - |r|..]
  {
    var newestFirst := Limit(Reverse(rows), n);
    var r := MostRecent(rows, n);
    forall i | 0 <= i < |r| ensures r[i] == rows[|rows| - |r| + i] {
      assert r[i] == newestFirst[|r| - 1 - i];
    }
  }
}
