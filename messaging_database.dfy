/**
 * The unified user and conversation store shared by the chat services: a
 * `users` table keyed by `user_id` and an append-only `conversations` table
 * with an auto-incremented id. The tables are kept in memory, in insertion
 * order, which stands for the order of their timestamps.
 */
module MessagingStore {
  import opened Wrappers
  import opened PyText
  import opened HistoryFormat

  const DefaultAiBackend := "openrouter"

  /** A row of `users`. */
  datatype User = User(
    userId: string,
    platform: string,
    name: Option<string>,
    username: Option<string>,
    aiBackend: string,
    createdAt: string,
    updatedAt: string)

  /** A row of `conversations`. */
  datatype Row = Row(id: nat, userId: string, platform: string, role: string, message: string, timestamp: string)

  /** The only failure the store reports: an insert that repeats a primary key. */
  datatype DbError = IntegrityError

  /**
   * The optional `platform` argument: Python's `if platform:` treats both
   * None and the empty string as "no filter".
   */
  predicate OnPlatform(filter: Option<string>, platform: string) {
    filter.None? || filter.value == "" || platform == filter.value
  }

  predicate UserSelected(u: User, userId: string, filter: Option<string>) {
    u.userId == userId && OnPlatform(filter, u.platform)
  }

  predicate RowSelected(r: Row, userId: string, filter: Option<string>) {
    r.userId == userId && OnPlatform(filter, r.platform)
  }

  /** The filter of the conversation queries; `Kept` is its complement. */
  function Selected(userId: string, platform: Option<string>): Row -> bool {
    r => RowSelected(r, userId, platform)
  }

  function Kept(userId: string, platform: Option<string>): Row -> bool {
    r => !RowSelected(r, userId, platform)
  }

  /** The filter of the user listings. */
  function OnPlatformOf(platform: Option<string>): User -> bool {
    (u: User) => OnPlatform(platform, u.platform)
  }

  /** The first user row the lookup selects (`fetchone`). */
  function FindUser(users: seq<User>, userId: string, filter: Option<string>): (u: Option<User>)
    ensures u.Some? ==> u.value in users && UserSelected(u.value, userId, filter)
    ensures u.None? ==> forall i :: 0 <= i < |users| ==> !UserSelected(users[i], userId, filter)
  {
    if users == [] then None
    else if UserSelected(users[0], userId, filter) then Some(users[0])
    else FindUser(users[1..], userId, filter)
  }

  /** The user rows with a given id, whatever their platform. */
  predicate HasUserId(users: seq<User>, userId: string) {
    exists i :: 0 <= i < |users| && users[i].userId == userId
  }

  /** The user rows after `update_user_name`: the selected rows get the name and the new `updated_at`. */
  function Renamed(users: seq<User>, userId: string, name: string, platform: Option<string>, now: string): (r: seq<User>)
    ensures |r| == |users|
    ensures forall i :: 0 <= i < |users| ==>
      r[i] == if UserSelected(users[i], userId, platform) then users[i].(name := Some(name), updatedAt := now) else users[i]
  {
    seq(|users|, i requires 0 <= i < |users| =>
      if UserSelected(users[i], userId, platform) then users[i].(name := Some(name), updatedAt := now) else users[i])
  }

  /** After a rename, the lookup finds the same row as before, now carrying the new name. */
  lemma {:induction false} FindRenamed(users: seq<User>, userId: string, name: string, platform: Option<string>, now: string)
    ensures FindUser(Renamed(users, userId, name, platform, now), userId, platform)
         == match FindUser(users, userId, platform)
            case None => None
            case Some(u) => Some(u.(name := Some(name), updatedAt := now))
    decreases |users|
  {
    if users != [] {
      var r := Renamed(users, userId, name, platform, now);
      assert r[1..] == Renamed(users[1..], userId, name, platform, now);
      FindRenamed(users[1..], userId, name, platform, now);
    }
  }

  /** A row appended after rows the lookup skips is the one it finds, if it selects it at all. */
  lemma {:induction false} FindAppended(users: seq<User>, u: User, userId: string, platform: Option<string>)
    requires forall i :: 0 <= i < |users| ==> !UserSelected(users[i], userId, platform)
    ensures FindUser(users + [u], userId, platform) == if UserSelected(u, userId, platform) then Some(u) else None
    decreases |users|
  {
    if users != [] {
      assert (users + [u])[1..] == users[1..] + [u];
      FindAppended(users[1..], u, userId, platform);
    }
  }

  /** A user row with no stored id rules out every lookup of that id. */
  lemma NoIdNoUser(users: seq<User>, userId: string, platform: Option<string>)
    requires !HasUserId(users, userId)
    ensures FindUser(users, userId, platform).None?
  {
  }

  /**
   * The `2 * limit` most recent messages of the selected conversation rows in
   * chronological order (all of them for a negative limit).
   */
  function Recent(rows: seq<Row>, userId: string, platform: Option<string>, limit: int): seq<Message> {
    MostRecent(Messages(Filter(rows, Selected(userId, platform))), limit * 2)
  }

  /** The recent history is the last `2 * limit` messages of the user, or all of them. */
  lemma RecentIsSuffix(rows: seq<Row>, userId: string, platform: Option<string>, limit: int)
    ensures var all := Messages(Filter(rows, Selected(userId, platform)));
      var h := Recent(rows, userId, platform, limit);
      |h| == (if limit < 0 || 2 * limit >= |all| then |all| else 2 * limit)
      && h == all[|all| - |h|..]
  {
    MostRecentIsSuffix(Messages(Filter(rows, Selected(userId, platform))), limit * 2);
  }

  /** The stored (role, message) pairs of some conversation rows, oldest first. */
  function Messages(rows: seq<Row>): (ms: seq<Message>)
    ensures |ms| == |rows|
    ensures forall i :: 0 <= i < |rows| ==> ms[i] == Message(rows[i].role, rows[i].message)
  {
    if rows == [] then [] else [Message(rows[0].role, rows[0].message)] + Messages(rows[1..])
  }

  class MessagingDatabase {
    var users: seq<User>
    var conversations: seq<Row>
    /** The next value of the `AUTOINCREMENT` id. */
    var nextId: nat

    /** `user_id` is the primary key; every stored id was handed out before `nextId`. */
    predicate Valid()
      reads this
    {
      (forall i, j :: 0 <= i < j < |users| ==> users[i].userId != users[j].userId)
      && 1 <= nextId
      && (forall i :: 0 <= i < |conversations| ==> conversations[i].id < nextId)
    }

    /** A freshly created database file. */
    constructor ()
      ensures Valid() && users == [] && conversations == [] && nextId == 1
    {
      users := [];
      conversations := [];
      nextId := 1;
    }

    /** `get_user`: the row for `userId` (on `platform` when one is given). */
    function GetUser(userId: string, platform: Option<string>): (u: Option<User>)
      reads this
      ensures u.Some? ==> u.value in users && UserSelected(u.value, userId, platform)
      ensures u.None? ==> forall i :: 0 <= i < |users| ==> !UserSelected(users[i], userId, platform)
    {
      FindUser(users, userId, platform)
    }

    /**
     * `create_user`: inserts a row whose two timestamps are both `now`, or
     * fails on the primary key when `userId` is already stored, whatever its
     * platform.
     */
    method CreateUser(userId: string, platform: string, name: Option<string>, username: Option<string>,
                      aiBackend: string, now: string) returns (r: Result<User, DbError>)
      requires Valid()
      modifies this
      ensures Valid()
      ensures old(HasUserId(users, userId)) ==> r == Err(IntegrityError) && users == old(users)
      ensures !old(HasUserId(users, userId)) ==>
        r == Ok(User(userId, platform, name, username, aiBackend, now, now))
        && users == old(users) + [r.value]
      ensures r.Ok? ==> r.value.createdAt == r.value.updatedAt
      ensures conversations == old(conversations) && nextId == old(nextId)
    {
      if HasUserId(users, userId) {
        return Err(IntegrityError);
      }
      var u := User(userId, platform, name, username, aiBackend, now, now);
      users := users + [u];
      r := Ok(u);
    }

    /** `update_user_name`: only `name` and `updated_at` of the selected rows change. */
    method UpdateUserName(userId: string, name: string, platform: Option<string>, now: string)
      returns (updated: bool)
      requires Valid()
      modifies this
      ensures Valid()
      ensures users == Renamed(old(users), userId, name, platform, now)
      ensures updated <==> exists i :: 0 <= i < |old(users)| && UserSelected(old(users)[i], userId, platform)
      ensures conversations == old(conversations) && nextId == old(nextId)
    {
      var before := users;
      users := Renamed(before, userId, name, platform, now);
      updated := exists i :: 0 <= i < |before| && UserSelected(before[i], userId, platform);
    }

    /** `update_user_ai_backend`: only `ai_backend` and `updated_at` of the selected rows change. */
    method UpdateUserAiBackend(userId: string, aiBackend: string, platform: Option<string>, now: string)
      returns (updated: bool)
      requires Valid()
      modifies this
      ensures Valid()
      ensures |users| == |old(users)|
      ensures forall i :: 0 <= i < |users| ==>
        users[i] == if UserSelected(old(users)[i], userId, platform)
                    then old(users)[i].(aiBackend := aiBackend, updatedAt := now) else old(users)[i]
      ensures updated <==> exists i :: 0 <= i < |old(users)| && UserSelected(old(users)[i], userId, platform)
      ensures conversations == old(conversations) && nextId == old(nextId)
    {
      var before := users;
      users := seq(|before|, i requires 0 <= i < |before| =>
        if UserSelected(before[i], userId, platform) then before[i].(aiBackend := aiBackend, updatedAt := now)
        else before[i]);
      updated := exists i :: 0 <= i < |before| && UserSelected(before[i], userId, platform);
    }

    /**
     * `add_conversation_message`: appends one row under an id larger than
     * every id stored so far. The user need not exist (foreign keys are not
     * enforced).
     */
    method AddConversationMessage(userId: string, platform: string, role: string, message: string, now: string)
      returns (id: nat)
      requires Valid()
      modifies this
      ensures Valid()
      ensures conversations == old(conversations) + [Row(id, userId, platform, role, message, now)]
      ensures id == old(nextId) && nextId == old(nextId) + 1
      ensures forall i :: 0 <= i < |old(conversations)| ==> old(conversations)[i].id < id
      ensures users == old(users)
    {
      id := nextId;
      conversations := conversations + [Row(id, userId, platform, role, message, now)];
      nextId := nextId + 1;
    }

    /** The conversation rows of `userId` (on `platform` when one is given), oldest first. */
    function RowsOf(userId: string, platform: Option<string>): seq<Row>
      reads this
    {
      Filter(conversations, Selected(userId, platform))
    }

    /**
     * `get_conversation_history`: the `2 * limit` most recent messages of the
     * user in chronological order (all of them for a negative limit).
     */
    function GetConversationHistory(userId: string, platform: Option<string>, limit: int): (h: seq<Message>)
      reads this
      ensures var all := Messages(RowsOf(userId, platform));
        |h| == (if limit < 0 || 2 * limit >= |all| then |all| else 2 * limit)
        && h == all[|all| - |h|..]
    {
      RecentIsSuffix(conversations, userId, platform, limit);
      Recent(conversations, userId, platform, limit)
    }

    /**
     * `get_conversation_history_formatted`: the exchanges of the recent
     * history, at most `limit` of them.
     */
    method GetConversationHistoryFormatted(userId: string, platform: Option<string>, limit: int)
      returns (formatted: seq<Exchange>)
      ensures formatted == Pairs(Recent(conversations, userId, platform, limit), None)
      ensures limit >= 0 ==> |formatted| <= limit
    {
      var messages := GetConversationHistory(userId, platform, limit);
      formatted := FormatHistory(messages);
      PairsBound(messages, None);
    }

    /**
     * `clear_conversation_history`: deletes exactly the selected rows, keeps
     * every other row in its order, and returns how many were deleted.
     */
    method ClearConversationHistory(userId: string, platform: Option<string>) returns (count: nat)
      requires Valid()
      modifies this
      ensures Valid()
      ensures conversations == Filter(old(conversations), Kept(userId, platform))
      ensures count == |old(RowsOf(userId, platform))| == |old(conversations)| - |conversations|
      ensures RowsOf(userId, platform) == []
      ensures users == old(users) && nextId == old(nextId)
    {
      var before := conversations;
      conversations := Filter(before, Kept(userId, platform));
      FilterMembers(before, Kept(userId, platform));
      FilterPartition(before, Selected(userId, platform), Kept(userId, platform));
      NoneSelected(conversations, Selected(userId, platform));
      count := |before| - |conversations|;
    }

    /** `get_all_users`: the selected rows, most recently created first. */
    function GetAllUsers(platform: Option<string>): (r: seq<User>)
      reads this
      ensures var on := Filter(users, OnPlatformOf(platform));
        |r| == |on| && forall i :: 0 <= i < |r| ==> r[i] == on[|on| - 1 - i]
    {
      Reverse(Filter(users, OnPlatformOf(platform)))
    }

    /** `get_user_count`: the number of user rows on `platform` (all of them without one). */
    function GetUserCount(platform: Option<string>): (n: nat)
      reads this
      ensures n == |GetAllUsers(platform)|
      ensures n <= |users|
      ensures platform.None? ==> n == |users|
    {
      FilterAll(users, OnPlatformOf(platform));
      |Filter(users, OnPlatformOf(platform))|
    }
  }
}
