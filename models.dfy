/** The ORM schema: the rows of each table, the defaults of their columns, the small
    methods the row classes carry, the aggregates the routes compute over progress
    rows, and the database session `Db` with the seeding routine that fills an empty
    challenge table and an empty achievement catalogue. */
module Models {
  import opened Wrappers
  import opened Aggregates

  /** A `users` row. Last-login and creation timestamps and the active/admin flags are
      not modelled. */
  datatype User = User(id: int, username: string, email: string, passwordHash: string,
                       themePreference: string)

  datatype TestCase = TestCase(input: string, expected: string, kind: string)

  /** A `challenges` row. The JSON text columns `test_cases` and `hints` are held as
      the lists they encode; None is a NULL or empty-string column, both of which the
      getters treat as falsy. Descriptions, starter and solution code are not modelled. */
  datatype Challenge = Challenge(level: int, title: string, category: string,
                                 difficulty: string, points: int,
                                 testCases: Option<seq<TestCase>>,
                                 hints: Option<seq<string>>)

  /** A `game_progress` row: one per recorded attempt. The code solution is the opaque
      ciphertext the route stores. */
  datatype GameProgress = GameProgress(userId: int, level: int, score: int,
                                       codeSolution: string, timeTaken: Option<int>,
                                       attempts: int)

  /** A `multiplayer_stats` row; the table is keyed by its unique user id. */
  datatype MultiplayerStats = MultiplayerStats(wins: int, losses: int, draws: int,
                                               totalMatches: int, winStreak: int,
                                               maxWinStreak: int, rating: int)

  /** An `achievements` row; `criteria` is the lookup key of the award rules. */
  datatype Achievement = Achievement(id: int, name: string, points: int,
                                     criteria: string, category: string)

  /** A `user_achievements` row: one unlock. */
  datatype UserAchievement = UserAchievement(userId: int, achievementId: int)

  /** A `leaderboard` row; the table is unique on the user id. */
  datatype LeaderboardRow = LeaderboardRow(userId: int, totalScore: int,
                                           levelsCompleted: int, multiplayerRating: int)

  /** The starting Elo rating of a stats row and the leaderboard's rating default. */
  const DefaultRating := 1000

  const FirstStepsKey := "complete_level_1"
  const PythonProdigyKey := "complete_5_python_challenges"
  const HighScoreKey := "score_1000_points"

  /** A freshly inserted `multiplayer_stats` row: every column at its default. */
  function NewMultiplayerStats(): MultiplayerStats {
    MultiplayerStats(0, 0, 0, 0, 0, 0, DefaultRating)
  }

  /** `MultiplayerStats.win_rate`: the percentage of matches won, 0 when no match was
      played. */
  function WinRate(s: MultiplayerStats): (r: real)
    ensures s.totalMatches == 0 ==> r == 0.0
    ensures 0 <= s.wins <= s.totalMatches ==> 0.0 <= r <= 100.0
    ensures 0 < s.totalMatches && s.wins == s.totalMatches ==> r == 100.0
  {
    if s.totalMatches == 0 then 0.0
    else (s.wins as real / s.totalMatches as real) * 100.0
  }

  lemma NewStatsAreConsistent()
    ensures var s := NewMultiplayerStats();
      s.totalMatches == s.wins + s.losses + s.draws && s.rating == DefaultRating
      && WinRate(s) == 0.0
  {
  }

  /** `Challenge.get_test_cases`: an empty list when the column is empty, else the
      decoded list. */
  function GetTestCases(c: Challenge): (r: seq<TestCase>)
    ensures c.testCases.None? ==> r == []
    ensures c.testCases.Some? ==> r == c.testCases.value
  {
    c.testCases.GetOr([])
  }

  /** `Challenge.get_hints`: an empty list when the column is empty, else the decoded
      list. */
  function GetHints(c: Challenge): (r: seq<string>)
    ensures c.hints.None? ==> r == []
    ensures c.hints.Some? ==> r == c.hints.value
  {
    c.hints.GetOr([])
  }

  // ---------------------------------------------------------------------------
  // Progress rows of one user and the aggregates over them

  /** `GameProgress.query.filter_by(user_id=uid)`, in storage order; rows carry no id,
      so equal rows are kept as often as they occur. The sqlite layer has its own
      `SqliteDatabase.RowsOf` over its row type. */
  function RowsOf(rows: seq<GameProgress>, uid: int): (r: seq<GameProgress>)
    ensures |r| <= |rows|
    ensures forall x :: x in r <==> x in rows && x.userId == uid
  {
    if rows == [] then []
    else
      assert forall x :: x in rows <==> x == rows[0] || x in rows[1..];
      (if rows[0].userId == uid then [rows[0]] else []) + RowsOf(rows[1..], uid)
  }

  /** The filter keeps each of the user's rows as often as the table holds it, and no
      other row, so the row count (`COUNT`) of the user is exact. */
  lemma {:induction false} RowsOfCounts(rows: seq<GameProgress>, uid: int)
    ensures forall x :: multiset(RowsOf(rows, uid))[x]
                        == if x.userId == uid then multiset(rows)[x] else 0
  {
    if rows != [] {
      assert rows == [rows[0]] + rows[1..];
      RowsOfCounts(rows[1..], uid);
    }
  }

  /** The score column of the rows; `SqliteDatabase.Scores` is the sqlite twin. */
  function Scores(rows: seq<GameProgress>): seq<int> {
    seq(|rows|, i requires 0 <= i < |rows| => rows[i].score)
  }

  /** The level column of the rows; `SqliteDatabase.Levels` is the sqlite twin. */
  function Levels(rows: seq<GameProgress>): seq<int> {
    seq(|rows|, i requires 0 <= i < |rows| => rows[i].level)
  }

  /** The user's total score: the sum of the scores of their progress rows. */
  function TotalScore(progress: seq<GameProgress>, uid: int): int {
    Total(Scores(RowsOf(progress, uid)))
  }

  /** The user's number of completed levels: the number of their progress rows. */
  function LevelsCompleted(progress: seq<GameProgress>, uid: int): nat {
    |RowsOf(progress, uid)|
  }

  /** Filtering distributes over concatenation of tables. */
  lemma {:induction false} RowsOfSplit(a: seq<GameProgress>, b: seq<GameProgress>, uid: int)
    ensures RowsOf(a + b, uid) == RowsOf(a, uid) + RowsOf(b, uid)
  {
    if a == [] {
      assert a + b == b;
    } else {
      assert (a + b)[1..] == a[1..] + b;
      RowsOfSplit(a[1..], b, uid);
    }
  }

  lemma RowsOfOne(row: GameProgress, uid: int)
    ensures RowsOf([row], uid) == if row.userId == uid then [row] else []
  {
    assert [row][1..] == [];
  }

  lemma ScoresAppend(a: seq<GameProgress>, b: seq<GameProgress>)
    ensures Scores(a + b) == Scores(a) + Scores(b)
    ensures Levels(a + b) == Levels(a) + Levels(b)
  {
  }

  /** Appending one progress row raises its user's total by its score and their count
      by one, and leaves every other user's aggregates as they were. */
  lemma AppendProgressAggregates(progress: seq<GameProgress>, row: GameProgress, uid: int)
    ensures TotalScore(progress + [row], uid)
            == TotalScore(progress, uid) + (if row.userId == uid then row.score else 0)
    ensures LevelsCompleted(progress + [row], uid)
            == LevelsCompleted(progress, uid) + (if row.userId == uid then 1 else 0)
  {
    RowsOfSplit(progress, [row], uid);
    RowsOfOne(row, uid);
    var extra := if row.userId == uid then [row] else [];
    ScoresAppend(RowsOf(progress, uid), extra);
    TotalAppend(Scores(RowsOf(progress, uid)), Scores(extra));
    assert Total(Scores(extra)) == if row.userId == uid then row.score else 0;
  }

  // ---------------------------------------------------------------------------
  // Table invariants

  /** Autoincrement ids on a table that is never deleted from: row i has id i + 1. */
  ghost predicate UserIdsAreRowNumbers(users: seq<User>) {
    forall i :: 0 <= i < |users| ==> users[i].id == i + 1
  }

  ghost predicate AchievementIdsAreRowNumbers(catalogue: seq<Achievement>) {
    forall i :: 0 <= i < |catalogue| ==> catalogue[i].id == i + 1
  }

  /** The UNIQUE constraints on `users.username` and `users.email`; the sqlite
      layer's twin is `SqliteDatabase.UniqueAccounts`. */
  ghost predicate UniqueAccounts(users: seq<User>) {
    forall i, j :: 0 <= i < j < |users| ==>
      users[i].username != users[j].username && users[i].email != users[j].email
  }

  /** The `unique_user_achievement` constraint on `(user_id, achievement_id)`. */
  ghost predicate UniquePairs(unlocks: seq<UserAchievement>) {
    forall i, j :: 0 <= i < j < |unlocks| ==> unlocks[i] != unlocks[j]
  }

  /** The UNIQUE constraint on `leaderboard.user_id`. */
  ghost predicate UniqueRankedUsers(rows: seq<LeaderboardRow>) {
    forall i, j :: 0 <= i < j < |rows| ==> rows[i].userId != rows[j].userId
  }

  // ---------------------------------------------------------------------------
  // Seeding

  const SampleChallenges: seq<Challenge> := [
    Challenge(1, "Python Variables", "python", "beginner", 100,
      Some([TestCase("", "variable 'name' exists", "variable_check")]),
      Some(["Use the assignment operator = to create a variable",
            "Variable names should be descriptive and use lowercase letters",
            "Strings in Python need to be enclosed in quotes"])),
    Challenge(2, "Basic Function", "python", "beginner", 150,
      Some([TestCase("add_numbers(2, 3)", "5", "function_call"),
            TestCase("add_numbers(-1, 1)", "0", "function_call"),
            TestCase("add_numbers(0, 0)", "0", "function_call")]),
      None),
    Challenge(3, "HTML Basic Structure", "html", "beginner", 100, None, None)
  ]

  /** The seeded catalogue, with the ids autoincrement gives it in an empty table. */
  const SampleAchievements: seq<Achievement> := [
    Achievement(1, "First Steps", 10, FirstStepsKey, "learning"),
    Achievement(2, "Python Prodigy", 50, PythonProdigyKey, "learning"),
    Achievement(3, "Multiplayer Champion", 100, "win_10_matches", "multiplayer"),
    Achievement(4, "Speed Coder", 30, "fast_challenge_completion", "speed"),
    Achievement(5, "Perfect Score", 75, "perfect_scores_streak", "accuracy")
  ]

  /** A table after "only create if the table is empty". */
  function SeedIfEmpty<T>(table: seq<T>, seed: seq<T>): (r: seq<T>)
    ensures table <= r
    ensures table != [] ==> |r| == |table|
    ensures r == [] <==> table == [] && seed == []
  {
    if |table| == 0 then seed else table
  }

  /** Seeding twice adds nothing the first seeding did not. */
  lemma SeedingIsIdempotent<T>(table: seq<T>, seed: seq<T>)
    ensures SeedIfEmpty(SeedIfEmpty(table, seed), seed) == SeedIfEmpty(table, seed)
    ensures table != [] ==> SeedIfEmpty(table, seed) == table
  {
  }

  /** The seeded catalogue: five achievements with pairwise distinct criteria, among
      them the first-steps and python-prodigy rules but no high-score rule. */
  lemma SampleCatalogueShape()
    ensures |SampleAchievements| == 5
    ensures AchievementIdsAreRowNumbers(SampleAchievements)
    ensures forall i, j :: 0 <= i < j < 5 ==>
      SampleAchievements[i].criteria != SampleAchievements[j].criteria
    ensures SampleAchievements[0].criteria == FirstStepsKey
    ensures SampleAchievements[1].criteria == PythonProdigyKey
    ensures forall i :: 0 <= i < 5 ==> SampleAchievements[i].criteria != HighScoreKey
  {
  }

  /** The ORM session over all tables. */
  class Db {
    var users: seq<User>
    var challenges: seq<Challenge>
    var progress: seq<GameProgress>
    var achievements: seq<Achievement>
    var unlocks: seq<UserAchievement>
    var stats: map<int, MultiplayerStats>
    var leaderboard: seq<LeaderboardRow>

    /** The table constraints the schema declares, plus the foreign keys of the stats
        and leaderboard rows into `users`. */
    ghost predicate Valid()
      reads this`users, this`achievements, this`unlocks, this`leaderboard, this`stats
    {
      && UserIdsAreRowNumbers(users)
      && UniqueAccounts(users)
      && AchievementIdsAreRowNumbers(achievements)
      && UniquePairs(unlocks)
      && UniqueRankedUsers(leaderboard)
      && (forall k :: k in stats ==> 1 <= k <= |users|)
      && (forall i :: 0 <= i < |leaderboard| ==> 1 <= leaderboard[i].userId <= |users|)
    }

    /** `db.create_all()` on a fresh database: every table empty. */
    constructor ()
      ensures Valid()
      ensures users == [] && challenges == [] && progress == [] && achievements == []
      ensures unlocks == [] && stats == map[] && leaderboard == []
    {
      users, challenges, progress, achievements := [], [], [], [];
      unlocks, stats, leaderboard := [], map[], [];
    }

    /** `create_sample_data` of models.py: the sample challenges only into an empty
        challenge table, the sample catalogue only into an empty achievement table. */
    method CreateSampleData()
      requires Valid()
      modifies this`challenges, this`achievements
      ensures Valid()
      ensures challenges == SeedIfEmpty(old(challenges), SampleChallenges)
      ensures achievements == SeedIfEmpty(old(achievements), SampleAchievements)
    {
      SeedChallenges();
      SeedAchievements();
    }

    /** The challenge half of `create_sample_data`: each sample challenge added in
        order when the table is empty. */
    method SeedChallenges()
      requires Valid()
      modifies this`challenges
      ensures Valid()
      ensures challenges == SeedIfEmpty(old(challenges), SampleChallenges)
    {
      if |challenges| == 0 {
        var seed := SampleChallenges;
        for i := 0 to |seed|
          invariant challenges == seed[..i]
        {
          challenges := challenges + [seed[i]];
        }
        assert seed[..|seed|] == seed;
      }
    }

    /** The achievement half of `create_sample_data`: each sample achievement added in
        order when the table is empty. */
    method SeedAchievements()
      requires Valid()
      modifies this`achievements
      ensures Valid()
      ensures achievements == SeedIfEmpty(old(achievements), SampleAchievements)
    {
      if |achievements| == 0 {
        var seed := SampleAchievements;
        for i := 0 to |seed|
          invariant achievements == seed[..i]
        {
          achievements := achievements + [seed[i]];
        }
        assert seed[..|seed|] == seed;
        SampleCatalogueShape();
      }
    }
  }
}
