/**
 * The command-line user management (manage_users.py): creating a user
 * under the same admission rule as registration, and deleting a user by
 * username. Console prompts and messages are left out; the boolean each
 * command returns is kept.
 */
module UserAdmin {
  import opened Common
  import opened Accounts
  import Auth
  import ChatApi

  /**
   * `create_user`: false with the table unchanged when the username, or
   * else the email, is taken; otherwise true with exactly one new user
   * appended and both columns still unique.
   */
  method CreateUser(table: UserTable, username: string, email: string, password: string) returns (created: bool)
    requires table.Valid()
    modifies table`users, table`nextId
    ensures table.Valid()
    ensures created <==> old(FindByUsername(table.users, username)).None? && old(FindByEmail(table.users, email)).None?
    ensures !created ==> table.users == old(table.users) && table.nextId == old(table.nextId)
    ensures created ==>
      && |table.users| == |old(table.users)| + 1
      && table.users[..|old(table.users)|] == old(table.users)
      && fresh(table.users[|old(table.users)|])
      && table.users[|old(table.users)|].username == username
      && table.users[|old(table.users)|].email == email
      && table.users[|old(table.users)|].CheckPassword(password)
  {
    var outcome := Auth.Admit(table, username, email, password);
    created := outcome.Added?;
  }

  /** The position of the first user with that username. */
  function IndexOfUsername(users: seq<User>, name: string): (r: Option<nat>)
    ensures r.Some? ==> r.value < |users| && users[r.value].username == name
    ensures r.Some? ==> forall j :: 0 <= j < r.value ==> users[j].username != name
    ensures r.None? <==> FindByUsername(users, name).None?
    ensures r.Some? ==> FindByUsername(users, name) == Some(users[r.value])
  {
    if users == [] then None
    else if users[0].username == name then Some(0)
    else
      match IndexOfUsername(users[1..], name)
      case None => None
      case Some(k) => Some(k + 1)
  }

  /**
   * The sessions that survive the deletion of user `userId` through the
   * `delete-orphan` cascade: exactly those of the other users, in order.
   */
  function SessionsNotOf(sessions: seq<ChatSession>, userId: nat): (r: seq<ChatSession>)
    ensures |r| <= |sessions|
    ensures forall s :: s in r ==> s in sessions && s.userId != userId
    ensures forall i :: 0 <= i < |sessions| && sessions[i].userId != userId ==> sessions[i] in r
    ensures (forall i :: 0 <= i < |sessions| ==> sessions[i].userId != userId) ==> r == sessions
  {
    if sessions == [] then []
    else if sessions[0].userId == userId then SessionsNotOf(sessions[1..], userId)
    else [sessions[0]] + SessionsNotOf(sessions[1..], userId)
  }

  /** The usage rows that survive the same cascade: exactly those of the other users, in order. */
  function LogsNotOf(entries: seq<UsageLog>, userId: nat): (r: seq<UsageLog>)
    ensures |r| <= |entries|
    ensures forall x :: x in r ==> x in entries && x.userId != userId
    ensures forall i :: 0 <= i < |entries| && entries[i].userId != userId ==> entries[i] in r
    ensures (forall i :: 0 <= i < |entries| ==> entries[i].userId != userId) ==> r == entries
  {
    if entries == [] then []
    else if entries[0].userId == userId then LogsNotOf(entries[1..], userId)
    else [entries[0]] + LogsNotOf(entries[1..], userId)
  }

  /** The cascade on the chat sessions: the table keeps the other users' sessions and its next key. */
  method DropSessionsOf(sessions: ChatApi.SessionTable, userId: nat)
    requires sessions.Valid()
    modifies sessions`sessions
    ensures sessions.Valid()
    ensures sessions.sessions == SessionsNotOf(old(sessions.sessions), userId)
  {
    var kept := SessionsNotOf(sessions.sessions, userId);
    forall i | 0 <= i < |kept|
      ensures kept[i].id < sessions.nextId
    {
      assert kept[i] in sessions.sessions;
    }
    sessions.sessions := kept;
  }

  /** The cascade on the usage log: the ledger keeps the other users' rows and stays consistent. */
  method DropLogsOf(ledger: UsageLedger, userId: nat)
    requires ledger.Valid()
    modifies ledger`entries
    ensures ledger.Valid()
    ensures ledger.entries == LogsNotOf(old(ledger.entries), userId)
  {
    ledger.entries := LogsNotOf(ledger.entries, userId);
  }

  /**
   * `delete_user`: when a user has that username it is removed, the others
   * keep their order, and no user with that username remains; the
   * `delete-orphan` cascades of the user model take that user's chat
   * sessions and usage rows with it. Otherwise false with every table
   * unchanged.
   */
  method DeleteUser(table: UserTable, sessions: ChatApi.SessionTable, ledger: UsageLedger, username: string)
    returns (deleted: bool)
    requires table.Valid() && sessions.Valid() && ledger.Valid()
    modifies table`users, sessions`sessions, ledger`entries
    ensures table.Valid() && sessions.Valid() && ledger.Valid()
    ensures deleted <==> old(FindByUsername(table.users, username)).Some?
    ensures !deleted ==>
      table.users == old(table.users) && sessions.sessions == old(sessions.sessions) && ledger.entries == old(ledger.entries)
    ensures deleted ==>
      var k := old(IndexOfUsername(table.users, username)).value;
      var gone := old(table.users[k].id);
      && table.users == old(table.users[..k] + table.users[k + 1..])
      && sessions.sessions == SessionsNotOf(old(sessions.sessions), gone)
      && ledger.entries == LogsNotOf(old(ledger.entries), gone)
    ensures FindByUsername(table.users, username).None?
  {
    var index := IndexOfUsername(table.users, username);
    if index.None? {
      return false;
    }
    var k := index.value;
    var gone := table.users[k].id;
    GoneAfterRemoval(table.users, k);
    table.RemoveAt(k);
    DropSessionsOf(sessions, gone);
    DropLogsOf(ledger, gone);
    deleted := true;
  }

  /** With unique usernames, removing the one holder of a username leaves nobody with it. */
  lemma GoneAfterRemoval(users: seq<User>, k: nat)
    requires UniqueUsers(users) && k < |users|
    ensures FindByUsername(users[..k] + users[k + 1..], users[k].username).None?
  {
    var rest := users[..k] + users[k + 1..];
    forall i | 0 <= i < |rest|
      ensures rest[i].username != users[k].username
    {
      if i < k {
        assert rest[i] == users[i];
      } else {
        assert rest[i] == users[i + 1];
      }
    }
  }
}
