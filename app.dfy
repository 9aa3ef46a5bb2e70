/** The routes of the web application that read or change the record-keeping tables:
    registration, login, theme updates, saving progress together with the achievement
    rules it triggers, the two statistics views, the leaderboard query and the mock
    code evaluator. The Flask session is a `Session` object; a request field that is
    absent is None. */
module App {
  import opened Wrappers
  import opened Aggregates
  import opened Models

  /** The cookie session: who is logged in and the theme shown to them. */
  class Session {
    var userId: Option<int>
    var username: string
    var theme: Option<string>

    /** A visitor's session before any login: no user id, so every route that needs
        one refuses. */
    constructor ()
      ensures userId == None && username == "" && theme == None
    {
      userId, username, theme := None, "", None;
    }
  }

  /** `logout`: `session.clear()` leaves the session of a visitor who never logged in. */
  method Logout(session: Session)
    modifies session
    ensures session.userId == None && session.username == "" && session.theme == None
  {
    session.userId, session.username, session.theme := None, "", None;
  }

  /** The configured list of themes, `AVAILABLE_THEMES`. */
  const AvailableThemes: seq<string> := ["cute", "deadly"]

  /** The theme test of `update_theme`, which spells out its own list of themes; that
      list agrees with the configured one. */
  predicate ValidTheme(t: string): (r: bool)
    ensures r <==> t in AvailableThemes
  {
    t == "cute" || t == "deadly"
  }

  // ---------------------------------------------------------------------------
  // Accounts

  /** Some existing user has this username or this email. The sqlite layer has its own
      `SqliteDatabase.AccountTaken` over its row type. */
  predicate AccountTaken(users: seq<User>, username: string, email: string) {
    exists i :: 0 <= i < |users| && (users[i].username == username || users[i].email == email)
  }

  /** Against a table that already keeps the UNIQUE constraints, the account check
      fails exactly when inserting the new user would break them. */
  lemma AccountTakenIffClash(users: seq<User>, u: User)
    requires UniqueAccounts(users)
    ensures AccountTaken(users, u.username, u.email) <==> !UniqueAccounts(users + [u])
  {
    var all := users + [u];
    if AccountTaken(users, u.username, u.email) {
      var i :| 0 <= i < |users| && (users[i].username == u.username || users[i].email == u.email);
      assert all[i] == users[i] && all[|users|] == u;
    } else {
      forall i, j | 0 <= i < j < |all|
        ensures all[i].username != all[j].username && all[i].email != all[j].email
      {
        if j == |users| {
          assert all[i] == users[i];
        }
      }
    }
  }

  datatype RegisterOutcome = MissingFields | AccountExists | Registered(userId: int)

  /** `register` (POST): rejects an empty field, then a taken username or email; otherwise
      inserts the user with the next id, inserts a default multiplayer stats row for
      them and logs them in. The theme is stored as given, without validation. */
  method Register(db: Db, session: Session, hash: string -> string, username: string,
                  email: string, password: string, theme: Option<string>)
    returns (out: RegisterOutcome)
    requires db.Valid()
    modifies db`users, db`stats, session
    ensures db.Valid()
    ensures out == MissingFields <==> username == "" || email == "" || password == ""
    ensures out == AccountExists <==>
      username != "" && email != "" && password != ""
      && AccountTaken(old(db.users), username, email)
    ensures !out.Registered? ==>
      db.users == old(db.users) && db.stats == old(db.stats) && unchanged(session)
    ensures out.Registered? ==>
      var id := |old(db.users)| + 1;
      && out.userId == id
      && id !in old(db.stats)
      && db.users == old(db.users)
         + [User(id, username, email, hash(password), theme.GetOr("cute"))]
      && db.stats == old(db.stats)[id := NewMultiplayerStats()]
      && session.userId == Some(id) && session.username == username
      && session.theme == Some(theme.GetOr("cute"))
  {
    if username == "" || email == "" || password == "" {
      return MissingFields;
    }
    if AccountTaken(db.users, username, email) {
      return AccountExists;
    }
    var id := |db.users| + 1;
    var user := User(id, username, email, hash(password), theme.GetOr("cute"));
    db.users := db.users + [user];
    db.stats := db.stats[id := NewMultiplayerStats()];
    session.userId := Some(id);
    session.username := user.username;
    session.theme := Some(user.themePreference);
    out := Registered(id);
  }

  /** `User.query.filter((username == name) | (email == name)).first()`: the first user
      whose username or email is the name given. */
  function FirstLoginMatch(users: seq<User>, name: string): (r: Option<nat>)
    ensures r.Some? ==> r.value < |users|
                        && (users[r.value].username == name || users[r.value].email == name)
    ensures r.Some? ==> forall j :: 0 <= j < r.value ==>
                          users[j].username != name && users[j].email != name
    ensures r.None? <==> forall j :: 0 <= j < |users| ==>
                           users[j].username != name && users[j].email != name
  {
    if users == [] then None
    else if users[0].username == name || users[0].email == name then Some(0)
    else match FirstLoginMatch(users[1..], name)
      case None => None
      case Some(i) => Some(i + 1)
  }

  datatype LoginOutcome = LoginMissingFields | LoggedIn(userId: int) | InvalidCredentials

  /** `login` (POST): looks the name up as a username or an email and compares the
      password's hash with the first match only. */
  method Login(db: Db, session: Session, hash: string -> string, username: string,
               password: string)
    returns (out: LoginOutcome)
    requires db.Valid()
    modifies session
    ensures username == "" || password == "" <==> out == LoginMissingFields
    ensures out.LoggedIn? <==>
      username != "" && password != ""
      && var m := FirstLoginMatch(db.users, username);
         m.Some? && db.users[m.value].passwordHash == hash(password)
    ensures out.LoggedIn? ==>
      var u := db.users[FirstLoginMatch(db.users, username).value];
      out.userId == u.id && session.userId == Some(u.id)
      && session.username == u.username && session.theme == Some(u.themePreference)
    ensures !out.LoggedIn? ==> unchanged(session)
  {
    if username == "" || password == "" {
      return LoginMissingFields;
    }
    var m := FirstLoginMatch(db.users, username);
    if m.Some? {
      var user := db.users[m.value];
      if user.passwordHash == hash(password) {
        session.userId := Some(user.id);
        session.username := user.username;
        session.theme := Some(user.themePreference);
        return LoggedIn(user.id);
      }
    }
    out := InvalidCredentials;
  }

  /** A user whose email is the name typed at login, and whose email no user has as a
      username, is the one the login finds. */
  lemma LoginAcceptsEmail(users: seq<User>, i: nat, name: string)
    requires UniqueAccounts(users)
    requires i < |users| && users[i].email == name
    requires forall j :: 0 <= j < |users| ==> users[j].username != name
    ensures FirstLoginMatch(users, name) == Some(i)
  {
  }

  datatype ThemeOutcome = ThemeUnauthorized | InvalidTheme | ThemeUpdated(theme: string)
                        | ThemeFailed

  /** `update_theme`: without a session 401; a theme other than cute or deadly 400; a
      session user missing from the table fails (500, rolled back); otherwise the
      stored preference and the session theme are both set. */
  method UpdateTheme(db: Db, session: Session, theme: Option<string>)
    returns (out: ThemeOutcome)
    requires db.Valid()
    modifies db`users, session`theme
    ensures db.Valid()
    ensures session.userId.None? ==> out == ThemeUnauthorized
    ensures session.userId.Some? && !ValidTheme(theme.GetOr("cute")) ==> out == InvalidTheme
    ensures (session.userId.Some? && ValidTheme(theme.GetOr("cute"))
             && !(1 <= session.userId.value <= |db.users|)) ==> out == ThemeFailed
    ensures (session.userId.Some? && ValidTheme(theme.GetOr("cute"))
             && 1 <= session.userId.value <= |old(db.users)|) ==> out.ThemeUpdated?
    ensures !out.ThemeUpdated? ==>
      db.users == old(db.users) && session.theme == old(session.theme)
    ensures out.ThemeUpdated? ==>
      var t := theme.GetOr("cute");
      var i := session.userId.value - 1;
      && ValidTheme(t) && 0 <= i < |old(db.users)| && out.theme == t
      && db.users == old(db.users)[i := old(db.users)[i].(themePreference := t)]
      && session.theme == Some(t)
  {
    if session.userId.None? {
      return ThemeUnauthorized;
    }
    var newTheme := theme.GetOr("cute");
    if !ValidTheme(newTheme) {
      return InvalidTheme;
    }
    var uid := session.userId.value;
    if !(1 <= uid <= |db.users|) {
      return ThemeFailed;
    }
    db.users := db.users[uid - 1 := db.users[uid - 1].(themePreference := newTheme)];
    session.theme := Some(newTheme);
    out := ThemeUpdated(newTheme);
  }

  // ---------------------------------------------------------------------------
  // Achievements

  /** `Achievement.query.filter_by(criteria=key).first()`: the position of the first
      catalogue entry with that criteria key. */
  function FirstWithCriteria(catalogue: seq<Achievement>, key: string): (r: Option<nat>)
    ensures r.Some? ==> r.value < |catalogue| && catalogue[r.value].criteria == key
    ensures r.Some? ==> forall j :: 0 <= j < r.value ==> catalogue[j].criteria != key
    ensures r.None? <==> forall j :: 0 <= j < |catalogue| ==> catalogue[j].criteria != key
  {
    if catalogue == [] then None
    else if catalogue[0].criteria == key then Some(0)
    else match FirstWithCriteria(catalogue[1..], key)
      case None => None
      case Some(i) => Some(i + 1)
  }

  /** The unlock row an award of `key` to `uid` is about, if the catalogue defines `key`. */
  function AwardTarget(catalogue: seq<Achievement>, uid: int, key: string)
    : (r: Option<UserAchievement>)
    ensures r.None? <==> forall j :: 0 <= j < |catalogue| ==> catalogue[j].criteria != key
    ensures r.Some? ==> r.value.userId == uid
    ensures r.Some? ==>
      exists j :: 0 <= j < |catalogue| && catalogue[j].criteria == key
                  && catalogue[j].id == r.value.achievementId
                  && forall k :: 0 <= k < j ==> catalogue[k].criteria != key
  {
    match FirstWithCriteria(catalogue, key)
    case None => None
    case Some(i) => Some(UserAchievement(uid, catalogue[i].id))
  }

  /** The unlock table after `award_achievement`: insert-if-absent of the target row. */
  function Award(unlocks: seq<UserAchievement>, catalogue: seq<Achievement>, uid: int,
                 key: string): (r: seq<UserAchievement>)
    ensures unlocks <= r && |r| <= |unlocks| + 1
    ensures forall p :: p in r <==> p in unlocks || AwardTarget(catalogue, uid, key) == Some(p)
    ensures UniquePairs(unlocks) ==> UniquePairs(r)
  {
    match AwardTarget(catalogue, uid, key)
    case None => unlocks
    case Some(p) => if p in unlocks then unlocks else unlocks + [p]
  }

  /** Awarding twice is awarding once. */
  lemma AwardIsIdempotent(unlocks: seq<UserAchievement>, catalogue: seq<Achievement>,
                          uid: int, key: string)
    ensures Award(Award(unlocks, catalogue, uid, key), catalogue, uid, key)
            == Award(unlocks, catalogue, uid, key)
  {
  }

  /** An award whose criteria key the catalogue lacks changes nothing. */
  lemma AwardOfUnknownKey(unlocks: seq<UserAchievement>, catalogue: seq<Achievement>,
                          uid: int, key: string)
    requires forall j :: 0 <= j < |catalogue| ==> catalogue[j].criteria != key
    ensures Award(unlocks, catalogue, uid, key) == unlocks
  {
  }

  /** Different criteria keys never target the same unlock row. */
  lemma DistinctKeysDistinctTargets(catalogue: seq<Achievement>, uid: int, k1: string,
                                    k2: string)
    requires AchievementIdsAreRowNumbers(catalogue)
    requires k1 != k2
    requires AwardTarget(catalogue, uid, k1).Some? && AwardTarget(catalogue, uid, k2).Some?
    ensures AwardTarget(catalogue, uid, k1) != AwardTarget(catalogue, uid, k2)
  {
    var i, j := FirstWithCriteria(catalogue, k1).value, FirstWithCriteria(catalogue, k2).value;
    assert catalogue[i].criteria != catalogue[j].criteria;
  }

  /** The unlock table after `check_achievements`, given how many of the user's progress
      rows there are, their total score, and the count of the python-category query;
      None means that query raised, which ends the check with the exception swallowed,
      so the high-score rule is skipped too. */
  function CheckAchievementsSpec(unlocks: seq<UserAchievement>, catalogue: seq<Achievement>,
                                 uid: int, progressCount: int, totalScore: int,
                                 pythonCount: Option<nat>): (r: seq<UserAchievement>)
    ensures unlocks <= r
    ensures forall p :: p in r ==> p in unlocks || p.userId == uid
    ensures forall p :: p in r && p !in unlocks ==>
              || Some(p) == AwardTarget(catalogue, uid, FirstStepsKey)
              || Some(p) == AwardTarget(catalogue, uid, PythonProdigyKey)
              || Some(p) == AwardTarget(catalogue, uid, HighScoreKey)
    ensures UniquePairs(unlocks) ==> UniquePairs(r)
  {
    var afterFirst :=
      if progressCount >= 1 then Award(unlocks, catalogue, uid, FirstStepsKey) else unlocks;
    match pythonCount
    case None => afterFirst
    case Some(n) =>
      var afterPython :=
        if n >= 5 then Award(afterFirst, catalogue, uid, PythonProdigyKey) else afterFirst;
      if totalScore >= 1000 then Award(afterPython, catalogue, uid, HighScoreKey)
      else afterPython
  }

  /** First Steps is held afterwards exactly when it was held before or the user has at
      least one progress row. */
  lemma FirstStepsRule(unlocks: seq<UserAchievement>, catalogue: seq<Achievement>, uid: int,
                       progressCount: int, totalScore: int, pythonCount: Option<nat>)
    requires AchievementIdsAreRowNumbers(catalogue)
    requires AwardTarget(catalogue, uid, FirstStepsKey).Some?
    ensures var p := AwardTarget(catalogue, uid, FirstStepsKey).value;
      p in CheckAchievementsSpec(unlocks, catalogue, uid, progressCount, totalScore, pythonCount)
      <==> p in unlocks || progressCount >= 1
  {
    var p := AwardTarget(catalogue, uid, FirstStepsKey).value;
    if AwardTarget(catalogue, uid, PythonProdigyKey).Some? {
      DistinctKeysDistinctTargets(catalogue, uid, FirstStepsKey, PythonProdigyKey);
    }
    if AwardTarget(catalogue, uid, HighScoreKey).Some? {
      DistinctKeysDistinctTargets(catalogue, uid, FirstStepsKey, HighScoreKey);
    }
  }

  /** Python Prodigy is held afterwards exactly when it was held before or the python
      query succeeded with a count of at least five. */
  lemma PythonProdigyRule(unlocks: seq<UserAchievement>, catalogue: seq<Achievement>,
                          uid: int, progressCount: int, totalScore: int,
                          pythonCount: Option<nat>)
    requires AchievementIdsAreRowNumbers(catalogue)
    requires AwardTarget(catalogue, uid, PythonProdigyKey).Some?
    ensures var p := AwardTarget(catalogue, uid, PythonProdigyKey).value;
      p in CheckAchievementsSpec(unlocks, catalogue, uid, progressCount, totalScore, pythonCount)
      <==> p in unlocks || (pythonCount.Some? && pythonCount.value >= 5)
  {
    if AwardTarget(catalogue, uid, FirstStepsKey).Some? {
      DistinctKeysDistinctTargets(catalogue, uid, FirstStepsKey, PythonProdigyKey);
    }
    if AwardTarget(catalogue, uid, HighScoreKey).Some? {
      DistinctKeysDistinctTargets(catalogue, uid, PythonProdigyKey, HighScoreKey);
    }
  }

  /** The high-score achievement is held afterwards exactly when it was held before or
      the python query succeeded and the total score is at least 1000. */
  lemma HighScoreRule(unlocks: seq<UserAchievement>, catalogue: seq<Achievement>, uid: int,
                      progressCount: int, totalScore: int, pythonCount: Option<nat>)
    requires AchievementIdsAreRowNumbers(catalogue)
    requires AwardTarget(catalogue, uid, HighScoreKey).Some?
    ensures var p := AwardTarget(catalogue, uid, HighScoreKey).value;
      p in CheckAchievementsSpec(unlocks, catalogue, uid, progressCount, totalScore, pythonCount)
      <==> p in unlocks || (pythonCount.Some? && totalScore >= 1000)
  {
    if AwardTarget(catalogue, uid, FirstStepsKey).Some? {
      DistinctKeysDistinctTargets(catalogue, uid, FirstStepsKey, HighScoreKey);
    }
    if AwardTarget(catalogue, uid, PythonProdigyKey).Some? {
      DistinctKeysDistinctTargets(catalogue, uid, PythonProdigyKey, HighScoreKey);
    }
  }

  /** With the seeded catalogue the total score never matters: it has no high-score
      criteria, so that award is always a no-op. */
  lemma SeededCatalogueIgnoresScore(unlocks: seq<UserAchievement>, uid: int,
                                    progressCount: int, totalScore: int,
                                    pythonCount: Option<nat>)
    ensures CheckAchievementsSpec(unlocks, SampleAchievements, uid, progressCount, totalScore,
                                  pythonCount)
            == CheckAchievementsSpec(unlocks, SampleAchievements, uid, progressCount, 0,
                                     pythonCount)
  {
    SampleCatalogueShape();
    assert FirstWithCriteria(SampleAchievements, HighScoreKey).None?;
  }

  /** `award_achievement`: nothing when no achievement has the criteria key or the user
      already holds it; otherwise one unlock row is inserted and the user notified. */
  method AwardAchievement(db: Db, uid: int, criteria: string) returns (notified: bool)
    requires db.Valid()
    modifies db`unlocks
    ensures db.Valid()
    ensures db.unlocks == Award(old(db.unlocks), db.achievements, uid, criteria)
    ensures notified <==> AwardTarget(db.achievements, uid, criteria).Some?
                          && AwardTarget(db.achievements, uid, criteria).value !in old(db.unlocks)
  {
    var found := FirstWithCriteria(db.achievements, criteria);
    if found.None? {
      return false;
    }
    var achievement := db.achievements[found.value];
    var pair := UserAchievement(uid, achievement.id);
    if pair in db.unlocks {
      return false;
    }
    db.unlocks := db.unlocks + [pair];
    notified := true;
  }

  /** `check_achievements`: the three threshold rules in the source's order. */
  method CheckAchievements(db: Db, uid: int, pythonCount: Option<nat>)
    requires db.Valid()
    modifies db`unlocks
    ensures db.Valid()
    ensures db.unlocks == CheckAchievementsSpec(old(db.unlocks), db.achievements, uid,
                                                LevelsCompleted(db.progress, uid),
                                                TotalScore(db.progress, uid), pythonCount)
  {
    var rows := RowsOf(db.progress, uid);
    var progressCount := |rows|;
    var totalScore := OrDefault(SqlSum(Scores(rows)), 0);
    SumOrZero(Scores(rows));
    var notified;
    if progressCount >= 1 {
      notified := AwardAchievement(db, uid, FirstStepsKey);
    }
    match pythonCount {
      case None =>
      case Some(n) =>
        if n >= 5 {
          notified := AwardAchievement(db, uid, PythonProdigyKey);
        }
        if totalScore >= 1000 {
          notified := AwardAchievement(db, uid, HighScoreKey);
        }
    }
  }

  // ---------------------------------------------------------------------------
  // Progress

  datatype SaveOutcome = SaveUnauthorized | ProgressSaved

  /** The signed-in part of `save_user_progress`: the row is stored, then the
      achievement check runs on the user's updated counts. */
  method StoreProgress(db: Db, row: GameProgress, pythonCount: Option<nat>)
    requires db.Valid()
    modifies db`progress, db`unlocks
    ensures db.Valid()
    ensures db.progress == old(db.progress) + [row]
    ensures db.unlocks == CheckAchievementsSpec(old(db.unlocks), db.achievements, row.userId,
                                                LevelsCompleted(old(db.progress), row.userId) + 1,
                                                TotalScore(old(db.progress), row.userId) + row.score,
                                                pythonCount)
    ensures AwardTarget(db.achievements, row.userId, FirstStepsKey).Some? ==>
      AwardTarget(db.achievements, row.userId, FirstStepsKey).value in db.unlocks
  {
    var uid := row.userId;
    ghost var count := LevelsCompleted(db.progress, uid) + 1;
    ghost var total := TotalScore(db.progress, uid) + row.score;
    AppendProgressAggregates(db.progress, row, uid);
    db.progress := db.progress + [row];
    assert LevelsCompleted(db.progress, uid) == count && TotalScore(db.progress, uid) == total;
    ghost var before := db.unlocks;
    CheckAchievements(db, uid, pythonCount);
    if AwardTarget(db.achievements, uid, FirstStepsKey).Some? {
      FirstStepsRule(before, db.achievements, uid, count, total, pythonCount);
    }
  }

  /** `save_user_progress`: 401 without a session; otherwise one progress row for the
      session user, with level 1, score 0, empty code and one attempt for absent fields,
      followed by the achievement check, whose failures never reach the response. */
  method SaveProgress(db: Db, session: Session, level: Option<int>, score: Option<int>,
                      code: Option<string>, timeTaken: Option<int>, attempts: Option<int>,
                      pythonCount: Option<nat>)
    returns (out: SaveOutcome)
    requires db.Valid()
    modifies db`progress, db`unlocks
    ensures db.Valid()
    ensures out == SaveUnauthorized <==> session.userId.None?
    ensures out == SaveUnauthorized ==>
      db.progress == old(db.progress) && db.unlocks == old(db.unlocks)
    ensures out == ProgressSaved ==>
      var uid := session.userId.value;
      && db.progress == old(db.progress) + [GameProgress(uid, level.GetOr(1), score.GetOr(0),
                                                         code.GetOr(""), timeTaken,
                                                         attempts.GetOr(1))]
      && db.unlocks == CheckAchievementsSpec(old(db.unlocks), db.achievements, uid,
                                             LevelsCompleted(old(db.progress), uid) + 1,
                                             TotalScore(old(db.progress), uid) + score.GetOr(0),
                                             pythonCount)
    ensures out == ProgressSaved && AwardTarget(db.achievements, session.userId.value,
                                                FirstStepsKey).Some? ==>
      AwardTarget(db.achievements, session.userId.value, FirstStepsKey).value in db.unlocks
  {
    if session.userId.None? {
      return SaveUnauthorized;
    }
    var row := GameProgress(session.userId.value, level.GetOr(1), score.GetOr(0),
                            code.GetOr(""), timeTaken, attempts.GetOr(1));
    StoreProgress(db, row, pythonCount);
    out := ProgressSaved;
  }

  // ---------------------------------------------------------------------------
  // Statistics views

  datatype StatsView = StatsUnauthorized
                     | UserStats(totalScore: int, levelsCompleted: int, multiplayerWins: int,
                                 multiplayerLosses: int, multiplayerRating: int)

  /** `get_user_stats`: the session user's total score and progress-row count, and their
      multiplayer wins, losses and rating, with 0, 0 and 1000 when they have no stats. */
  method GetUserStats(db: Db, session: Session) returns (r: StatsView)
    ensures r == StatsUnauthorized <==> session.userId.None?
    ensures session.userId.Some? ==>
      var uid := session.userId.value;
      && r.totalScore == TotalScore(db.progress, uid)
      && r.levelsCompleted == LevelsCompleted(db.progress, uid)
      && (uid in db.stats ==>
            r.multiplayerWins == db.stats[uid].wins && r.multiplayerLosses == db.stats[uid].losses
            && r.multiplayerRating == db.stats[uid].rating)
      && (uid !in db.stats ==>
            r.multiplayerWins == 0 && r.multiplayerLosses == 0
            && r.multiplayerRating == DefaultRating)
    ensures session.userId.Some? && RowsOf(db.progress, session.userId.value) == []
            && session.userId.value !in db.stats ==>
      r == UserStats(0, 0, 0, 0, DefaultRating)
  {
    if session.userId.None? {
      return StatsUnauthorized;
    }
    var uid := session.userId.value;
    var rows := RowsOf(db.progress, uid);
    var totalScore := OrDefault(SqlSum(Scores(rows)), 0);
    SumOrZero(Scores(rows));
    var levelsCompleted := OrDefault(Some(|rows|), 0);
    if uid in db.stats {
      var s := db.stats[uid];
      r := UserStats(totalScore, levelsCompleted, s.wins, s.losses, s.rating);
    } else {
      r := UserStats(totalScore, levelsCompleted, 0, 0, DefaultRating);
    }
  }

  datatype DashboardView = DashboardView(totalScore: int, levelsCompleted: int,
                                         highestLevel: int)

  /** The aggregates of `dashboard`: as in the statistics view, plus the highest level,
      where Python's `or 1` turns both "no rows" and a maximum of 0 into 1. */
  function DashboardStats(progress: seq<GameProgress>, uid: int): (r: DashboardView)
    ensures r.totalScore == TotalScore(progress, uid)
    ensures r.levelsCompleted == LevelsCompleted(progress, uid)
    ensures var ls := Levels(RowsOf(progress, uid));
      if ls == [] || (0 in ls && forall l :: l in ls ==> l <= 0) then r.highestLevel == 1
      else r.highestLevel in ls && forall l :: l in ls ==> l <= r.highestLevel
  {
    var rows := RowsOf(progress, uid);
    SumOrZero(Scores(rows));
    MaxOrDefault(Levels(rows), 1);
    DashboardView(OrDefault(SqlSum(Scores(rows)), 0), OrDefault(Some(|rows|), 0),
                  OrDefault(SqlMax(Levels(rows)), 1))
  }

  // ---------------------------------------------------------------------------
  // Leaderboard query

  const LeaderboardLimit := 20

  ghost predicate RankedByScore(rows: seq<LeaderboardRow>) {
    forall i, j :: 0 <= i < j < |rows| ==> rows[i].totalScore >= rows[j].totalScore
  }

  /** Places a row before the first row whose score it is not below. */
  function InsertByScore(row: LeaderboardRow, ranked: seq<LeaderboardRow>)
    : (r: seq<LeaderboardRow>)
    ensures |r| == |ranked| + 1
    ensures multiset(r) == multiset(ranked) + multiset{row}
  {
    if ranked == [] || row.totalScore >= ranked[0].totalScore then [row] + ranked
    else
      assert ranked == [ranked[0]] + ranked[1..];
      [ranked[0]] + InsertByScore(row, ranked[1..])
  }

  lemma {:induction false} InsertKeepsRanked(row: LeaderboardRow, ranked: seq<LeaderboardRow>)
    requires RankedByScore(ranked)
    ensures RankedByScore(InsertByScore(row, ranked))
  {
    if ranked != [] && row.totalScore < ranked[0].totalScore {
      var rest := InsertByScore(row, ranked[1..]);
      InsertKeepsRanked(row, ranked[1..]);
      InsertedBelowHead(row, ranked);
      ConsRanked(ranked[0], rest);
      assert InsertByScore(row, ranked) == [ranked[0]] + rest;
    }
  }

  /** Inserting a row that scores below the head leaves every row after the head at most
      the head's score. */
  lemma InsertedBelowHead(row: LeaderboardRow, ranked: seq<LeaderboardRow>)
    requires RankedByScore(ranked) && ranked != [] && row.totalScore < ranked[0].totalScore
    ensures forall k :: 0 <= k < |InsertByScore(row, ranked[1..])| ==>
              InsertByScore(row, ranked[1..])[k].totalScore <= ranked[0].totalScore
  {
    var tail := ranked[1..];
    var rest := InsertByScore(row, tail);
    forall k | 0 <= k < |rest| ensures rest[k].totalScore <= ranked[0].totalScore {
      assert rest[k] in multiset(tail) + multiset{row} by {
        assert rest[k] in multiset(rest);
      }
      if rest[k] != row {
        assert rest[k] in tail;
        var j :| 0 <= j < |tail| && tail[j] == rest[k];
        assert ranked[j + 1] == rest[k];
      }
    }
  }

  /** A row at least as high as every row of a ranking heads a ranking. */
  lemma ConsRanked(head: LeaderboardRow, rest: seq<LeaderboardRow>)
    requires RankedByScore(rest)
    requires forall k :: 0 <= k < |rest| ==> rest[k].totalScore <= head.totalScore
    ensures RankedByScore([head] + rest)
  {
  }

  /** `ORDER BY total_score DESC`: ties keep storage order, one of the orders the
      database may return. */
  function OrderByScore(rows: seq<LeaderboardRow>): (r: seq<LeaderboardRow>)
    ensures multiset(r) == multiset(rows)
    ensures RankedByScore(r)
  {
    if rows == [] then []
    else
      assert rows == [rows[0]] + rows[1..];
      InsertKeepsRanked(rows[0], OrderByScore(rows[1..]));
      InsertByScore(rows[0], OrderByScore(rows[1..]))
  }

  /** `order_by(total_score.desc()).limit(20)`. */
  function TopPlayers(rows: seq<LeaderboardRow>): (top: seq<LeaderboardRow>)
    ensures |top| == if |rows| < LeaderboardLimit then |rows| else LeaderboardLimit
    ensures RankedByScore(top)
    ensures multiset(top) <= multiset(rows)
    ensures forall i :: 0 <= i < |top| ==> top[i] in rows
  {
    var ordered := OrderByScore(rows);
    assert |ordered| == |multiset(ordered)| == |rows|;
    var n := if |rows| < LeaderboardLimit then |rows| else LeaderboardLimit;
    RankedPrefix(ordered, rows, n);
    ordered[..n]
  }

  /** A prefix of a ranking of `rows` is ranked and holds only rows of `rows`. */
  lemma RankedPrefix(ordered: seq<LeaderboardRow>, rows: seq<LeaderboardRow>, n: nat)
    requires RankedByScore(ordered) && multiset(ordered) == multiset(rows)
    requires n <= |ordered|
    ensures RankedByScore(ordered[..n])
    ensures multiset(ordered[..n]) <= multiset(rows)
    ensures forall i :: 0 <= i < n ==> ordered[..n][i] in rows
  {
    assert ordered == ordered[..n] + ordered[n..];
    forall i | 0 <= i < n
      ensures ordered[..n][i] in rows
    {
      assert ordered[..n][i] in multiset(ordered);
    }
  }

  /** No row left out of the top list outscores a row in it. */
  lemma TopPlayersOutrankTheRest(rows: seq<LeaderboardRow>, x: LeaderboardRow,
                                 y: LeaderboardRow)
    requires x in multiset(rows) - multiset(TopPlayers(rows))
    requires y in TopPlayers(rows)
    ensures x.totalScore <= y.totalScore
  {
    var ordered := OrderByScore(rows);
    assert |ordered| == |multiset(ordered)| == |rows|;
    var n := if |rows| < LeaderboardLimit then |rows| else LeaderboardLimit;
    assert ordered == ordered[..n] + ordered[n..];
    assert TopPlayers(rows) == ordered[..n];
    assert multiset(rows) == multiset(ordered[..n]) + multiset(ordered[n..]);
    assert x in multiset(ordered[n..]);
    var j :| 0 <= j < |ordered[n..]| && ordered[n..][j] == x;
    var i :| 0 <= i < n && ordered[i] == y;
    assert ordered[i].totalScore >= ordered[n + j].totalScore;
  }

  datatype LeaderboardEntry = LeaderboardEntry(username: string, totalScore: int,
                                               levelsCompleted: int, multiplayerRating: int)

  /** `get_leaderboard`: the top rows by total score, at most 20, each with its user's
      name, in descending order of score. */
  method GetLeaderboard(db: Db) returns (data: seq<LeaderboardEntry>)
    requires db.Valid()
    ensures |data| == |TopPlayers(db.leaderboard)| <= LeaderboardLimit
    ensures |db.leaderboard| >= LeaderboardLimit ==> |data| == LeaderboardLimit
    ensures forall i :: 0 <= i < |data| ==>
      var row := TopPlayers(db.leaderboard)[i];
      && 1 <= row.userId <= |db.users|
      && data[i] == LeaderboardEntry(db.users[row.userId - 1].username, row.totalScore,
                                     row.levelsCompleted, row.multiplayerRating)
    ensures forall i, j :: 0 <= i < j < |data| ==> data[i].totalScore >= data[j].totalScore
  {
    var topPlayers := TopPlayers(db.leaderboard);
    data := [];
    for k := 0 to |topPlayers|
      invariant |data| == k
      invariant forall i :: 0 <= i < k ==>
        var row := topPlayers[i];
        && 1 <= row.userId <= |db.users|
        && data[i] == LeaderboardEntry(db.users[row.userId - 1].username, row.totalScore,
                                       row.levelsCompleted, row.multiplayerRating)
    {
      var player := topPlayers[k];
      var user := db.users[player.userId - 1];
      data := data + [LeaderboardEntry(user.username, player.totalScore,
                                       player.levelsCompleted, player.multiplayerRating)];
    }
  }

  // ---------------------------------------------------------------------------
  // Mock evaluator

  datatype EvalResult = EvalResult(passed: bool, output: string, score: int,
                                   errors: seq<string>)

  /** `evaluate_code`: the code is not run; `passed` is the outcome of the random draw.
      A pass scores 100 with no errors, a failure 0 with two canned errors. */
  function EvaluateCode(code: string, challengeId: Option<int>, passed: bool)
    : (r: EvalResult)
    ensures r.passed == passed
    ensures r.score == 100 <==> r.passed
    ensures r.score == 0 <==> !r.passed
    ensures r.errors == [] <==> r.passed
  {
    if passed then EvalResult(true, "Challenge completed!", 100, [])
    else EvalResult(false, "Some test cases failed", 0,
                    ["Test case 1 failed", "Test case 3 failed"])
  }
}
