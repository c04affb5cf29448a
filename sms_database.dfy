/**
 * The SMS-only user and conversation store: a `users` table keyed by
 * `phone_number` and an append-only `conversations` table with an
 * auto-incremented id, kept in memory in insertion order.
 */
module SmsStore {
  import opened Wrappers
  import opened PyText
  import opened HistoryFormat

  /** A row of `users`. */
  datatype SmsUser = SmsUser(phoneNumber: string, name: Option<string>, createdAt: string, updatedAt: string)

  /** A row of `conversations`. */
  datatype SmsRow = SmsRow(id: nat, phoneNumber: string, role: string, message: string, timestamp: string)

  /** The only failure the store reports: an insert that repeats a primary key. */
  datatype DbError = IntegrityError

  /** The conversation rows of one phone number, and the complement. */
  function OfPhone(phoneNumber: string): SmsRow -> bool {
    (r: SmsRow) => r.phoneNumber == phoneNumber
  }

  function NotOfPhone(phoneNumber: string): SmsRow -> bool {
    (r: SmsRow) => r.phoneNumber != phoneNumber
  }

  /** The stored (role, message) pairs of some conversation rows, oldest first. */
  function Messages(rows: seq<SmsRow>): (ms: seq<Message>)
    ensures |ms| == |rows|
    ensures forall i :: 0 <= i < |rows| ==> ms[i] == Message(rows[i].role, rows[i].message)
  {
    if rows == [] then [] else [Message(rows[0].role, rows[0].message)] + Messages(rows[1..])
  }

  /** The `2 * limit` most recent messages of one number (all of them for a negative limit). */
  function Recent(rows: seq<SmsRow>, phoneNumber: string, limit: int): seq<Message> {
    MostRecent(Messages(Filter(rows, OfPhone(phoneNumber))), limit * 2)
  }

  /** The recent history is the last `2 * limit` messages of the number, or all of them. */
  lemma RecentIsSuffix(rows: seq<SmsRow>, phoneNumber: string, limit: int)
    ensures var all := Messages(Filter(rows, OfPhone(phoneNumber)));
      var h := Recent(rows, phoneNumber, limit);
      |h| == (if limit < 0 || 2 * limit >= |all| then |all| else 2 * limit)
      && h == all[|all| - |h|..]
  {
    MostRecentIsSuffix(Messages(Filter(rows, OfPhone(phoneNumber))), limit * 2);
  }

  class SmsDatabase {
    /** The `users` table as a map from its primary key. */
    var users: map<string, SmsUser>
    /** Primary keys in insertion order (the order of `created_at`). */
    var created: seq<string>
    var conversations: seq<SmsRow>
    /** The next value of the `AUTOINCREMENT` id. */
    var nextId: nat

    predicate Valid()
      reads this
    {
      (forall k :: k in users ==> users[k].phoneNumber == k)
      && (forall i, j :: 0 <= i < j < |created| ==> created[i] != created[j])
      && (forall k :: k in users ==> k in created)
      && (forall i :: 0 <= i < |created| ==> created[i] in users)
      && 1 <= nextId
      && (forall i :: 0 <= i < |conversations| ==> conversations[i].id < nextId)
    }

    /** A freshly created database file. */
    constructor ()
      ensures Valid() && users == map[] && created == [] && conversations == [] && nextId == 1
    {
      users := map[];
      created := [];
      conversations := [];
      nextId := 1;
    }

    /** `get_user` */
    function GetUser(phoneNumber: string): (u: Option<SmsUser>)
      reads this
      ensures u.Some? <==> phoneNumber in users
      ensures u.Some? ==> u.value == users[phoneNumber]
    {
      if phoneNumber in users then Some(users[phoneNumber]) else None
    }

    /**
     * `create_user`: a new row with `created_at == updated_at == now`, or a
     * primary-key failure when the number is already registered.
     */
    method CreateUser(phoneNumber: string, name: Option<string>, now: string) returns (r: Result<SmsUser, DbError>)
      requires Valid()
      modifies this
      ensures Valid()
      ensures old(phoneNumber in users) ==> r == Err(IntegrityError) && users == old(users) && created == old(created)
      ensures old(phoneNumber !in users) ==>
        r == Ok(SmsUser(phoneNumber, name, now, now))
        && users == old(users)[phoneNumber := r.value] && created == old(created) + [phoneNumber]
      ensures conversations == old(conversations) && nextId == old(nextId)
    {
      if phoneNumber in users {
        return Err(IntegrityError);
      }
      var u := SmsUser(phoneNumber, name, now, now);
      users := users[phoneNumber := u];
      created := created + [phoneNumber];
      r := Ok(u);
    }

    /** `update_user_name`: only `name` and `updated_at` change, and only when the number is registered. */
    method UpdateUserName(phoneNumber: string, name: string, now: string) returns (updated: bool)
      requires Valid()
      modifies this
      ensures Valid()
      ensures updated <==> old(phoneNumber in users)
      ensures updated ==> users == old(users)[phoneNumber := old(users[phoneNumber]).(name := Some(name), updatedAt := now)]
      ensures !updated ==> users == old(users)
      ensures created == old(created) && conversations == old(conversations) && nextId == old(nextId)
    {
      updated := phoneNumber in users;
      if updated {
        users := users[phoneNumber := users[phoneNumber].(name := Some(name), updatedAt := now)];
      }
    }

    /** `add_conversation_message`: appends one row under an id larger than every stored one. */
    method AddConversationMessage(phoneNumber: string, role: string, message: string, now: string) returns (id: nat)
      requires Valid()
      modifies this
      ensures Valid()
      ensures conversations == old(conversations) + [SmsRow(id, phoneNumber, role, message, now)]
      ensures id == old(nextId) && nextId == old(nextId) + 1
      ensures forall i :: 0 <= i < |old(conversations)| ==> old(conversations)[i].id < id
      ensures users == old(users) && created == old(created)
    {
      id := nextId;
      conversations := conversations + [SmsRow(id, phoneNumber, role, message, now)];
      nextId := nextId + 1;
    }

    /**
     * `get_conversation_history`: the `2 * limit` most recent messages of
     * the number in chronological order (all of them for a negative limit).
     */
    function GetConversationHistory(phoneNumber: string, limit: int): (h: seq<Message>)
      reads this
      ensures var all := Messages(Filter(conversations, OfPhone(phoneNumber)));
        |h| == (if limit < 0 || 2 * limit >= |all| then |all| else 2 * limit)
        && h == all[|all| - |h|..]
    {
      RecentIsSuffix(conversations, phoneNumber, limit);
      Recent(conversations, phoneNumber, limit)
    }

    /** `get_conversation_history_formatted`: at most `limit` exchanges of the recent history. */
    method GetConversationHistoryFormatted(phoneNumber: string, limit: int) returns (formatted: seq<Exchange>)
      ensures formatted == Pairs(Recent(conversations, phoneNumber, limit), None)
      ensures limit >= 0 ==> |formatted| <= limit
    {
      var messages := GetConversationHistory(phoneNumber, limit);
      formatted := FormatHistory(messages);
      PairsBound(messages, None);
    }

    /** `clear_conversation_history`: deletes exactly the number's rows and returns how many. */
    method ClearConversationHistory(phoneNumber: string) returns (count: nat)
      requires Valid()
      modifies this
      ensures Valid()
      ensures conversations == Filter(old(conversations), NotOfPhone(phoneNumber))
      ensures count == |Filter(old(conversations), OfPhone(phoneNumber))|
      ensures count == |old(conversations)| - |conversations|
      ensures Filter(conversations, OfPhone(phoneNumber)) == []
      ensures users == old(users) && created == old(created) && nextId == old(nextId)
    {
      var before := conversations;
      conversations := Filter(before, NotOfPhone(phoneNumber));
      FilterMembers(before, NotOfPhone(phoneNumber));
      FilterPartition(before, OfPhone(phoneNumber), NotOfPhone(phoneNumber));
      NoneSelected(conversations, OfPhone(phoneNumber));
      count := |before| - |conversations|;
    }

    /** `get_all_users`: every row, most recently created first. */
    function GetAllUsers(): (r: seq<SmsUser>)
      requires Valid()
      reads this
      ensures |r| == |created|
      ensures forall i :: 0 <= i < |r| ==> r[i] == users[created[|created| - 1 - i]]
    {
      var rev := Reverse(created);
      var table := users;
      seq(|rev|, i requires 0 <= i < |rev| && rev[i] in table => table[rev[i]])
    }

    /** `get_user_count`: the number of registered numbers. */
    function GetUserCount(): (n: nat)
      requires Valid()
      reads this
      ensures n == |users| && n == |GetAllUsers()|
    {
      DistinctKeys(users, created);
      |created|
    }
  }

  /** Listing each key of a map exactly once takes as many entries as the map has. */
  lemma {:induction false} DistinctKeys(m: map<string, SmsUser>, ks: seq<string>)
    requires forall i, j :: 0 <= i < j < |ks| ==> ks[i] != ks[j]
    requires forall k :: k in m <==> k in ks
    ensures |m| == |ks|
    decreases |ks|
  {
    if ks == [] {
      assert m.Keys == {};
    } else {
      var k, rest := ks[|ks| - 1], ks[..|ks| - 1];
      var m' := m - {k};
      assert |m'| == |m| - 1 by {
        assert m.Keys == m'.Keys + {k};
      }
      assert forall x :: x in m' <==> x in rest by {
        DistinctInit(ks);
      }
      DistinctKeys(m', rest);
    }
  }

  /** Without its last entry, a list of distinct keys holds exactly the other keys. */
  lemma DistinctInit(ks: seq<string>)
    requires ks != [] && forall i, j :: 0 <= i < j < |ks| ==> ks[i] != ks[j]
    ensures forall x :: x in ks[..|ks| - 1] <==> x in ks && x != ks[|ks| - 1]
  {
    var rest := ks[..|ks| - 1];
    forall x | x in ks && x != ks[|ks| - 1] ensures x in rest {
      var i :| 0 <= i < |ks| && ks[i] == x;
      assert rest[i] == x;
    }
    forall x | x in rest ensures x in ks && x != ks[|ks| - 1] {
      var i :| 0 <= i < |rest| && rest[i] == x;
      assert ks[i] == x;
    }
  }
}
