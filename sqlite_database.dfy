/** The raw sqlite access layer: a `users` table and a `game_progress` table, with the
    account and progress operations that run INSERT and SELECT statements on them.
    The password hash is the class's `hashPassword` function; the stored code solution
    is an opaque string. */
module SqliteDatabase {
  import opened Wrappers
  import opened Aggregates

  datatype UserRow = UserRow(id: int, username: string, email: string, passwordHash: string,
                             themePreference: string)

  datatype ProgressRow = ProgressRow(userId: int, level: int, score: int,
                                     codeSolution: string)

  /** What `authenticate_user` returns for a match. */
  datatype AuthRecord = AuthRecord(id: int, username: string, themePreference: string)

  /** What `get_user_stats` returns. */
  datatype ProgressStats = ProgressStats(levelsCompleted: int, totalScore: int,
                                         highestLevel: int)

  /** Some row already holds this username or this email; the ORM routes' twin is
      `App.AccountTaken`. */
  predicate AccountTaken(users: seq<UserRow>, username: string, email: string) {
    exists i :: 0 <= i < |users| && (users[i].username == username || users[i].email == email)
  }

  /** The UNIQUE constraints on `users.username` and `users.email`; the ORM schema's
      twin is `Models.UniqueAccounts`. */
  ghost predicate UniqueAccounts(users: seq<UserRow>) {
    forall i, j :: 0 <= i < j < |users| ==>
      users[i].username != users[j].username && users[i].email != users[j].email
  }

  /** The INSERT of `create_user` raises IntegrityError exactly when the new row would
      break the UNIQUE constraints of a table that keeps them, that is, exactly when the
      username or the email is taken. */
  lemma AccountTakenIffClash(users: seq<UserRow>, u: UserRow)
    requires UniqueAccounts(users)
    ensures AccountTaken(users, u.username, u.email) <==> !UniqueAccounts(users + [u])
  {
    var all := users + [u];
    if AccountTaken(users, u.username, u.email) {
      var i :| 0 <= i < |users| && (users[i].username == u.username || users[i].email == u.email);
      assert all[i] == users[i] && all[|users|] == u;
    } else {
      forall i, j | 0 <= i < j < |all|
        ensures all[i].username != all[j].username && all[i].email != all[j].email
      {
        if j == |users| {
          assert all[i] == users[i];
        }
      }
    }
  }

  /** `SELECT ... WHERE username = ? AND password_hash = ?` with `fetchone()`: the
      position of the first such row. */
  function FirstCredentialMatch(users: seq<UserRow>, username: string, hash: string)
    : (r: Option<nat>)
    ensures r.Some? ==> r.value < |users| && users[r.value].username == username
                        && users[r.value].passwordHash == hash
    ensures r.Some? ==> forall j :: 0 <= j < r.value ==>
                          !(users[j].username == username && users[j].passwordHash == hash)
    ensures r.None? <==> forall j :: 0 <= j < |users| ==>
                           !(users[j].username == username && users[j].passwordHash == hash)
  {
    if users == [] then None
    else if users[0].username == username && users[0].passwordHash == hash then Some(0)
    else match FirstCredentialMatch(users[1..], username, hash)
      case None => None
      case Some(i) => Some(i + 1)
  }

  /** `SELECT ... FROM game_progress WHERE user_id = ?`, in storage order, equal rows
      kept as often as they occur; `Models.RowsOf` is the ORM twin. */
  function RowsOf(rows: seq<ProgressRow>, uid: int): (r: seq<ProgressRow>)
    ensures |r| <= |rows|
    ensures forall x :: x in r <==> x in rows && x.userId == uid
  {
    if rows == [] then []
    else
      assert forall x :: x in rows <==> x == rows[0] || x in rows[1..];
      (if rows[0].userId == uid then [rows[0]] else []) + RowsOf(rows[1..], uid)
  }

  /** The filter keeps each of the user's rows as often as the table holds it, and no
      other row, so the row count (`COUNT`) of the user is exact. */
  lemma {:induction false} RowsOfCounts(rows: seq<ProgressRow>, uid: int)
    ensures forall x :: multiset(RowsOf(rows, uid))[x]
                        == if x.userId == uid then multiset(rows)[x] else 0
  {
    if rows != [] {
      assert rows == [rows[0]] + rows[1..];
      RowsOfCounts(rows[1..], uid);
    }
  }

  /** The score column of the rows; `Models.Scores` is the ORM twin. */
  function Scores(rows: seq<ProgressRow>): seq<int> {
    seq(|rows|, i requires 0 <= i < |rows| => rows[i].score)
  }

  /** The level column of the rows; `Models.Levels` is the ORM twin. */
  function Levels(rows: seq<ProgressRow>): seq<int> {
    seq(|rows|, i requires 0 <= i < |rows| => rows[i].level)
  }

  class Database {
    const hashPassword: string -> string
    var users: seq<UserRow>
    var progress: seq<ProgressRow>

    /** AUTOINCREMENT ids on a table never deleted from, and the UNIQUE constraints on
        username and email. */
    ghost predicate Valid()
      reads this
    {
      && (forall i :: 0 <= i < |users| ==> users[i].id == i + 1)
      && UniqueAccounts(users)
    }

    /** `Database.__init__` with `init_tables` on a new file: both tables empty. */
    constructor (hashPassword: string -> string)
      ensures Valid()
      ensures this.hashPassword == hashPassword && users == [] && progress == []
    {
      this.hashPassword := hashPassword;
      users, progress := [], [];
    }

    /** `create_user`: None, with the table unchanged, when the username or the email is
        taken (the IntegrityError of the UNIQUE constraints); otherwise the new row's id,
        with one row added whose theme defaults to cute. */
    method CreateUser(username: string, email: string, password: string,
                      theme: Option<string>)
      returns (id: Option<int>)
      requires Valid()
      modifies this`users
      ensures Valid()
      ensures id.None? <==> AccountTaken(old(users), username, email)
      ensures id.None? ==> users == old(users)
      ensures id.Some? ==>
        id.value == |old(users)| + 1
        && users == old(users) + [UserRow(id.value, username, email, hashPassword(password),
                                          theme.GetOr("cute"))]
    {
      var passwordHash := hashPassword(password);
      if AccountTaken(users, username, email) {
        return None;
      }
      var rowId := |users| + 1;
      users := users + [UserRow(rowId, username, email, passwordHash, theme.GetOr("cute"))];
      id := Some(rowId);
    }

    /** `authenticate_user`: a record exactly when some row has this username and the
        hash of this password; a row whose email is the name given does not match. */
    method AuthenticateUser(username: string, password: string)
      returns (r: Option<AuthRecord>)
      requires Valid()
      ensures r.Some? <==> exists i :: 0 <= i < |users| && users[i].username == username
                                        && users[i].passwordHash == hashPassword(password)
      ensures r.Some? ==>
        1 <= r.value.id <= |users|
        && var u := users[r.value.id - 1];
           u.username == username && u.passwordHash == hashPassword(password)
           && r == Some(AuthRecord(u.id, u.username, u.themePreference))
    {
      var passwordHash := hashPassword(password);
      var m := FirstCredentialMatch(users, username, passwordHash);
      if m.None? {
        return None;
      }
      var u := users[m.value];
      r := Some(AuthRecord(u.id, u.username, u.themePreference));
    }

    /** `save_game_progress`: exactly one row appended with the given user, level and
        score. */
    method SaveGameProgress(userId: int, level: int, score: int, codeSolution: string)
      modifies this`progress
      ensures progress == old(progress) + [ProgressRow(userId, level, score, codeSolution)]
    {
      progress := progress + [ProgressRow(userId, level, score, codeSolution)];
    }

    /** `get_user_stats`: the number of the user's rows, the sum of their scores and the
        largest of their levels, each 0 when the user has no rows. */
    method GetUserStats(userId: int) returns (s: ProgressStats)
      ensures s.levelsCompleted == |RowsOf(progress, userId)|
      ensures s.totalScore == Total(Scores(RowsOf(progress, userId)))
      ensures RowsOf(progress, userId) == [] ==> s == ProgressStats(0, 0, 0)
      ensures RowsOf(progress, userId) != [] ==>
        s.highestLevel in Levels(RowsOf(progress, userId))
        && forall l :: l in Levels(RowsOf(progress, userId)) ==> l <= s.highestLevel
    {
      var rows := RowsOf(progress, userId);
      SumOrZero(Scores(rows));
      MaxOrDefault(Levels(rows), 0);
      assert |Levels(rows)| == |rows|;
      s := ProgressStats(OrDefault(Some(|rows|), 0), OrDefault(SqlSum(Scores(rows)), 0),
                         OrDefault(SqlMax(Levels(rows)), 0));
    }
  }

  /** Login by email does not exist here: when no row has the name as its username,
      authentication fails whatever the password. */
  lemma NoEmailLogin(users: seq<UserRow>, name: string, hash: string)
    requires forall j :: 0 <= j < |users| ==> users[j].username != name
    ensures FirstCredentialMatch(users, name, hash).None?
  {
  }
}
