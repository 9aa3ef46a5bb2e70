# Python Pathfinder record keeping, in Dafny

Python Pathfinder is a Flask coding game. Players register and log in, save the result of
each challenge they play, collect achievements and appear on a leaderboard. This project
models the record-keeping rules behind those features and proves properties of them.

- **`wrappers.dfy`**: the `Option` type. A NULL column, an absent request field or a missing
  query result is `None`.
- **`aggregates.dfy`**: the SQL aggregates `SUM`, `COUNT` and `MAX` over the rows a `WHERE`
  keeps. It also models Python's `x or default` applied to their results, where both NULL
  and `0` are falsy.
- **`models.dfy`**: the ORM schema as row datatypes, plus the small methods of the row
  classes (`win_rate`, `get_test_cases`, `get_hints`). It also holds the per-user aggregates
  over progress rows and the table constraints. The database session is the class `Db`,
  whose fields are the tables and whose `Valid()` invariant holds:
  - autoincrement ids;
  - unique usernames and emails;
  - unique `(user, achievement)` unlock pairs;
  - one leaderboard row per user;
  - stats and leaderboard rows that point at existing users.

  `Db.CreateSampleData` is the seeding routine that fills only empty tables.
- **`app.dfy`**: the routes that change or read those tables, each a method over `Db` and a
  `Session` object:
  - register, login and theme update;
  - saving progress, with the achievement check it triggers;
  - the statistics view, the dashboard aggregates and the leaderboard query;
  - the mock code evaluator.

  Each achievement rule and the leaderboard ordering are stated as functions, and the
  methods are proved equal to them.
- **`sqlite_database.dfy`**: the raw sqlite layer, class `Database`, with its own `users` and
  `game_progress` tables: account creation, authentication, saving progress and statistics.
- **`sample_data.dfy`**: the sample-data script. It tops up the challenge table, draws
  progress rows, multiplayer records and achievements for new accounts, then writes their
  leaderboard rows. Each random draw is a nondeterministic choice within the bounds given
  to the generator.

The password hash (SHA-256 in the source) is an uninterpreted function. In the routes it is
the parameter `hash`; in `Database` it is the constant `hashPassword`. The count of a
user's python-category progress rows is an input, `pythonCount`. The join that computes it
has no join key in the schema and may raise, so `None` stands for "the query raised". In
that case `check_achievements` stops and swallows the error, which also skips the
high-score rule.

config.py:20 lists the themes `cute` and `deadly`, but `register` stores whatever theme
the form sends (app.py:32, 51) without checking it. Only `update_theme` checks the theme,
against its own copy of the list (app.py:332). The model keeps that difference.

Two contrasts between the two account layers are stated rather than smoothed over:
- The web login accepts a username or an email (`App.LoginAcceptsEmail`). The sqlite
  layer matches usernames only (`SqliteDatabase.NoEmailLogin`).
- The dashboard shows a highest level of 1 when a player has no rows, and also when the
  largest level is 0 (`App.DashboardStats`). `Database.get_user_stats` shows 0 in those
  cases (`SqliteDatabase.Database.GetUserStats`).

The sample multiplayer records need not be consistent: a current win streak of 10 with a
best streak of 5 can be drawn (`SampleData.SampleStreakMayExceedBest`).

## Model

| member | source | states |
|---|---|---|
| Aggregates.SqlSum | database.py:146-152 | `SUM` is NULL exactly over no rows; otherwise it is the arithmetic total of the values |
| Aggregates.OrDefault | app.py:127-137 | Python's `v or d` keeps a non-zero value and gives d for NULL and for 0; with d = 0 it is the value, or 0 for NULL |
| Aggregates.SqlMax | database.py:146-152 | `MAX` is NULL exactly over no rows; otherwise it is one of the values and no value exceeds it |
| Aggregates.SumOrZero | app.py:127-129 | `SUM(score) or 0` equals the plain sum of the scores, 0 for no rows |
| Aggregates.MaxOrDefault | app.py:135-137 | `MAX(level) or d` is d for no rows and for a maximum of 0; otherwise it is the largest level present |
| Models.WinRate | models.py:123-126 | the win rate is 0 with no matches, lies in [0,100] when wins do not exceed matches, and is 100 when every match was won |
| Models.NewStatsAreConsistent | models.py:114-120 | a fresh stats row has matches = wins + losses + draws, rating 1000 and win rate 0 |
| Models.GetTestCases | models.py:86-89 | an empty column gives the empty list; a filled one gives its decoded list |
| Models.GetHints | models.py:91-94 | an empty column gives the empty list; a filled one gives its decoded list |
| Models.RowsOf | app.py:127-129 | the `WHERE user_id = ?` filter keeps a row iff it is in the table and belongs to the user, and keeps no more rows than the table has |
| Models.RowsOfCounts | app.py:131-133 | the filter keeps each of the user's rows exactly as often as the table holds it and no other row, so `COUNT` of the user's rows is exact even for equal rows |
| Models.AppendProgressAggregates | app.py:256-266 | appending one progress row raises its user's total by its score and row count by one; every other user's aggregates are unchanged |
| Models.SeedIfEmpty | models.py:275 | seeding never removes or reorders existing rows, leaves a non-empty table at its size, and leaves a table empty only when both it and the seed are |
| Models.SeedingIsIdempotent | models.py:275 | seeding an empty table and then seeding again adds nothing; a non-empty table is never touched |
| Models.SampleCatalogueShape | models.py:332-373 | the seeded catalogue has five entries with ids 1..5 and pairwise distinct criteria; it includes `complete_level_1` and `complete_5_python_challenges` and never `score_1000_points` |
| Models.Db.constructor | app.py:18-19 | a fresh database has every table empty and satisfies the invariant |
| Models.Db.CreateSampleData | models.py:272-378 | the sample challenges are inserted only into an empty challenge table and the catalogue only into an empty achievement table; the invariant is kept |
| Models.Db.SeedChallenges | models.py:275-328 | an empty challenge table receives the sample challenges in order; a non-empty one is unchanged |
| Models.Db.SeedAchievements | models.py:331-378 | an empty achievement table receives the sample catalogue in order; a non-empty one is unchanged; the invariant is kept |
| App.AccountTakenIffClash | app.py:40-43 | on a table that keeps the unique username and email constraints, `AccountTaken` holds exactly when inserting the new user would break them |
| App.Session.constructor | app.py:118 | a visitor's session holds no user id, name or theme, so every route that checks `'user_id' in session` refuses it |
| App.Logout | app.py:110-114 | `session.clear()` leaves the session with no user id, name or theme |
| App.ValidTheme | app.py:332 | the theme test of `update_theme` accepts exactly the themes of `AVAILABLE_THEMES` (config.py:20) |
| App.Register | app.py:27-75 | empty fields and a taken username or email are rejected with no user, stats row or session change; otherwise exactly one user (next id, hashed password, theme default cute) and one default stats row are added and the session is set |
| App.FirstLoginMatch | app.py:88 | finds the first user whose username or email equals the name; None exactly when no user matches either way |
| App.Login | app.py:78-108 | empty fields are rejected; login succeeds exactly when the first username-or-email match has the hash of the password, and then the session holds that user |
| App.LoginAcceptsEmail | app.py:88 | a name that is some user's email, and nobody's username, finds that user |
| App.UpdateTheme | app.py:324-346 | no session gives 401; a theme outside cute/deadly gives 400; an unknown session user fails; on all of these the stored preference and session theme are unchanged; a logged-in existing user with a valid theme always gets it stored in their row and session, and no other user changes |
| App.FirstWithCriteria | app.py:481 | finds the first catalogue entry with the criteria key; None exactly when no entry has it |
| App.AwardTarget | app.py:481-490 | the target exists iff some catalogue entry has the key; it is the user's pair with the id of the first such entry |
| App.Award | app.py:478-499 | the unlock table only grows, by at most one row; a row is present afterwards iff it was before or it is the catalogue target of the key; uniqueness of pairs is preserved |
| App.AwardIsIdempotent | app.py:487-499 | awarding the same key twice equals awarding it once |
| App.AwardOfUnknownKey | app.py:481-483 | an award whose key no achievement has leaves the unlock table unchanged |
| App.DistinctKeysDistinctTargets | app.py:481-490 | with autoincrement ids, two different criteria keys never target the same unlock row |
| App.CheckAchievementsSpec | app.py:449-476 | the check only adds unlock rows, only for the user checked, and only the targets of the three rule keys (First Steps, Python Prodigy, high score); pairs stay unique |
| App.FirstStepsRule | app.py:459-460 | First Steps is held afterwards iff it was held before or the user has at least one progress row |
| App.PythonProdigyRule | app.py:463-469 | Python Prodigy is held afterwards iff it was held before or the python query succeeded with a count of at least 5 |
| App.HighScoreRule | app.py:472-476 | the high-score achievement is held afterwards iff it was held before or the python query succeeded and the total score is at least 1000 |
| App.SeededCatalogueIgnoresScore | app.py:472-473 | with the seeded catalogue the outcome of the check does not depend on the total score |
| App.AwardAchievement | app.py:478-509 | the unlock table becomes `Award(...)`; the user is notified exactly on a fresh insert |
| App.CheckAchievements | app.py:449-476 | the unlock table becomes `CheckAchievementsSpec` of the user's row count, score total and python count |
| App.StoreProgress | app.py:255-269 | exactly the given row is appended; the unlock table then follows the rules on the user's count plus one and total plus the row's score; First Steps is then held when the catalogue has it |
| App.SaveProgress | app.py:240-274 | without a session: 401 and nothing changes; otherwise exactly one row is appended for the session user with defaults level 1, score 0, attempts 1; achievements follow the rules on the new count and total, and First Steps is then held when the catalogue has it |
| App.GetUserStats | app.py:294-321 | 401 exactly without a session; otherwise total score and count of the user's rows, plus wins, losses and rating from their stats row (0, 0, 1000 without one) |
| App.DashboardStats | app.py:124-137 | total score and row count of the user; highest level is 1 with no rows or when the largest level is 0, and otherwise exactly the largest level present |
| App.InsertByScore | app.py:279-281 | insertion adds exactly one element and keeps the multiset of rows |
| App.InsertKeepsRanked | app.py:279-281 | inserting into a list ordered by descending score keeps it ordered |
| App.OrderByScore | app.py:279-280 | `ORDER BY total_score DESC` is a permutation of the rows in descending score order |
| App.RankedPrefix | app.py:279-281 | a prefix of a descending ranking of the rows is itself descending and holds only rows of the table |
| App.TopPlayers | app.py:279-281 | the top list has min(20, n) rows taken from the table, in descending score order |
| App.TopPlayersOutrankTheRest | app.py:279-281 | no row left out of the top list has a higher score than a row in it |
| App.GetLeaderboard | app.py:277-292 | one entry per top row, with the user's name and the row's score, levels and rating; at most 20 entries, exactly 20 when the table has 20 rows; scores descend |
| App.EvaluateCode | app.py:424-447 | the score is 100 iff passed and 0 iff not passed; errors are empty iff passed |
| SqliteDatabase.AccountTakenIffClash | database.py:95-96 | on a table that keeps its UNIQUE constraints, `AccountTaken`, the model of the IntegrityError, holds exactly when the new row would break them |
| SqliteDatabase.RowsOf | database.py:151-152 | the `WHERE user_id = ?` filter keeps a row iff it is in the table and belongs to the user, and keeps no more rows than the table has |
| SqliteDatabase.RowsOfCounts | database.py:147-152 | the filter keeps each of the user's rows exactly as often as the table holds it and no other row, so `COUNT(*)` is exact even for equal rows |
| SqliteDatabase.FirstCredentialMatch | database.py:107-112 | finds the first row with this username and this hash, no earlier row having both; None exactly when none has both |
| SqliteDatabase.Database.constructor | database.py:13-15 | a new database file has both tables empty |
| SqliteDatabase.Database.CreateUser | database.py:81-98 | None exactly when the username or email is taken, with the table unchanged; otherwise the new row id, with one row added whose theme defaults to cute |
| SqliteDatabase.Database.AuthenticateUser | database.py:100-121 | a record iff some row has exactly this username and the hash of this password; the record is that row's id, name and theme |
| SqliteDatabase.Database.SaveGameProgress | database.py:123-139 | exactly one row is appended with the given user, level and score |
| SqliteDatabase.Database.GetUserStats | database.py:141-162 | the count and score sum of the user's rows; highest level is the largest level present, all 0 with no rows |
| SqliteDatabase.NoEmailLogin | database.py:109 | a name that no row has as its username never authenticates, whatever the password |
| SampleData.CreateAdditionalChallenges | create_sample_data.py:172-230 | exactly the three extra challenges (levels 4 to 6) are appended, in order, and returned |
| SampleData.ChallengesForSampling | create_sample_data.py:241-252 | fewer than 10 challenges get the three extra ones, otherwise the table is unchanged; at least three challenges are sampled from |
| SampleData.ProgressSample | create_sample_data.py:78-88 | one row per drawn challenge, in drawn order, each within the generator's ranges, appended to the progress table |
| SampleData.CreateSampleProgress | create_sample_data.py:70-91 | each account gets rows for between 3 and all challenges, none twice; each row scores within 20 of the challenge's points, takes 30 to 300 seconds and 1 to 3 attempts; the rows are appended account by account |
| SampleData.SampleProgressPerUser | create_sample_data.py:74-88 | an account with no earlier rows ends with exactly its own sample rows, so its count and total are theirs |
| SampleData.SampleProgressCounts | create_sample_data.py:74-88 | every fresh account has between 3 and `len(challenges)` completed levels, and a total equal to its sample rows' sum |
| SampleData.CreateSampleMultiplayerStats | create_sample_data.py:93-117 | one new stats row per account, with no other row touched; matches = wins + losses + draws, with wins, losses, draws, streaks and rating (800..1200) within the generator's ranges |
| SampleData.PutStats | create_sample_data.py:103-114 | storing the record of an existing account sets exactly that account's entry and keeps the invariant |
| SampleData.SampleStreakMayExceedBest | create_sample_data.py:109-110 | a generated record can have a current streak above its best streak |
| SampleData.UnlockSample | create_sample_data.py:129-135 | one unlock per drawn achievement, in drawn order; pairs stay unique |
| SampleData.NoUnlocksAppend | create_sample_data.py:129-135 | unlocks written for one account leave every other account without unlocks |
| SampleData.InConcat | create_sample_data.py:125-135 | every row written for an account is among the rows written for all accounts |
| SampleData.AssignSampleAchievements | create_sample_data.py:119-138 | each account gets between one and all achievements, none twice, written account by account in drawn order; pairs stay unique |
| SampleData.AssignIfCatalogue | create_sample_data.py:261-262 | the unlock table becomes the earlier rows plus the written blocks; an empty catalogue writes none; otherwise each account gets one draw of between one and all achievements, none twice, and holds at least one achievement |
| SampleData.RankingRow | create_sample_data.py:147-165 | the row's total is the sum of the user's scores (0 with none), its level count is their row count, and its rating is their stats rating or 1000 |
| SampleData.RankingRows | create_sample_data.py:146-167 | one computed row per account, in the accounts' order, each for its own account |
| SampleData.RankingRowsAt | create_sample_data.py:146-167 | the i-th computed leaderboard row is the row of the i-th account |
| SampleData.AddRankingRow | create_sample_data.py:161-167 | a row for an existing, not yet ranked account is appended and the invariant, one row per user, is kept |
| SampleData.NotRankedAppend | create_sample_data.py:161-167 | a row for one account leaves every other account unranked |
| SampleData.UpdateLeaderboard | create_sample_data.py:140-170 | exactly one row per account is appended, computed from the progress and stats tables; one row per user is kept |
| SampleData.RecordSampleProgress | create_sample_data.py:255-256 | each account's block is one draw of `create_sample_progress`: 3 to `len(challenges)` distinct challenges, one row each, scoring within 20 below the challenge's points, 30 to 300 seconds, 1 to 3 attempts; the progress table becomes the earlier rows plus these blocks; each fresh account's level count and total are those of its own block |
| SampleData.RecordSampleActivity | create_sample_data.py:254-262 | each account's block is one draw of `create_sample_progress`: 3 to `len(challenges)` distinct challenges, one row each, scoring within 20 below the challenge's points, 30 to 300 seconds, 1 to 3 attempts; the progress and unlock tables become the earlier rows plus the written blocks; earlier stats records are unchanged and exactly the fresh accounts gain a sample record, rating within 200 of 1000; without a catalogue no unlock is written, otherwise each account gets one draw of between one and all achievements, none twice, and holds at least one |
| SampleData.RecordStatsAndUnlocks | create_sample_data.py:257-262 | earlier stats records are unchanged and exactly the fresh accounts gain a sample record; the unlock table becomes the earlier rows plus the written blocks, and without a catalogue no unlock is written, otherwise each account gets one draw of between one and all achievements, none twice, and holds at least one; the invariant is kept |
| SampleData.SampleLeaderboard | create_sample_data.py:140-170 | after the leaderboard step the earlier rows are unchanged, and the new row of each fresh account counts its own sample rows, scores their sum and rates within 200 of 1000 |
| SampleData.CreateSampleGameData | create_sample_data.py:232-265 | the challenge table is topped up below 10 rows and is what the draws sample from; each account's block is one draw of `create_sample_progress`: 3 to `len(challenges)` distinct challenges, one row each, scoring within 20 below the challenge's points, 30 to 300 seconds, 1 to 3 attempts; the progress and unlock tables become the earlier rows plus the written blocks; without a catalogue no unlock is written, otherwise each account gets one draw of between one and all achievements, none twice, and holds at least one; earlier stats records and leaderboard rows are unchanged; each fresh account gains one sample stats record and one leaderboard row: its block's level count and score sum, and a rating within 200 of 1000 |
| SampleData.RecordAndRank | create_sample_data.py:254-265 | the recording steps over the sampled challenges followed by the leaderboard step, with the same guarantees on progress, stats, unlocks and leaderboard |
| SampleData.RankSampleAccounts | create_sample_data.py:264-265 | after the recording steps, the earlier leaderboard rows are unchanged and each fresh account gains one row: its block's level count and score sum, and a rating within 200 of 1000; what the recording steps left in the progress, stats and unlock tables still holds; the invariant is kept |
| SampleData.RecordedForRanking | create_sample_data.py:254-265 | after the recording steps every account has its own progress block and a sample multiplayer record, which is what the leaderboard step reads |

## Left out

- Flask routing, templates, flash messages and redirects are not modelled. The session is
  only the user id, name and theme it holds.
- The index, game, multiplayer and lessons routes are not modelled; they only render
  pages. Of `logout` only the clearing of the session is modelled. The 404/500 error handlers are also left out.
- The Socket.IO handlers and the achievement broadcast are not modelled, because they are
  network I/O. `AwardAchievement` returns a `notified` flag in place of the broadcast.
- Fernet encryption, base64 and the JSON wrapping of code solutions are left out. They are
  a foreign library with a per-process key.
  - App.SaveProgress stores the submitted code string in place of its ciphertext and
    timestamp.
  - SqliteDatabase.Database.SaveGameProgress does the same.
- SHA-256 is an uninterpreted function.
- Randomness is nondeterministic choice within the generator's bounds, not probabilities:
  - App.EvaluateCode takes the draw's outcome as the input `passed`;
  - the 70% pass rate is not modelled.
- Timestamps (`created_at`, `last_login`, `completed_at`, `unlocked_at`, `last_match`,
  `last_updated`) are not modelled. The login's `last_login` update is therefore absent.
- Descriptions, starter and solution code, icons and learning objectives are not held in
  the row types.
- Models.WinRate uses exact real division, not floating point.
- The `MultiplayerMatch` and `CodeSubmission` tables and every `to_dict` are not
  modelled. No modelled operation reads or writes them.
- A JSON field that is present but `null` is not told apart from an absent one. Both are
  `None`.
- A non-integer JSON value is not modelled; the source would store or reject it according
  to the database.
- App.Register does not model a failure of the second commit, the one that inserts the
  stats row after the user row is committed. Nor does it model the 500 path of the
  database raising.
- App.SaveProgress does not model a database failure of the insert (the 500 path). Only
  failures inside the achievement check, which are swallowed, are modelled.
- App.CheckAchievements models the exception of the python-category query as
  `pythonCount == None`. The count and sum queries are assumed not to raise.
- App.UpdateTheme fails only for a session user id with no row. Other database errors on
  commit are not modelled.
- App.FirstLoginMatch returns the lowest-id match. The query's `.first()` has no ORDER
  BY, so when several users match (one by username, another by email, which registration
  allows) the source leaves the choice open; this is one permitted choice among several.
- app.py:6 imports `encrypt_data` and `decrypt_data` from `database`, which defines them
  only as methods of `Database` (database.py:68-79), so importing app.py raises
  ImportError, and so do create_sample_data.py and init_db.py, which import app. The
  model treats the routes as if that import succeeded; encryption is left out as above.
- App.FirstWithCriteria returns the lowest-position catalogue entry with the key. The
  query's `.first()` has no ORDER BY and `criteria` is not UNIQUE, so with several such
  entries the source leaves the choice open; this is one permitted choice among several.
- App.OrderByScore breaks ties in storage order. SQL leaves the order of tied rows
  unspecified, so this is one permitted order among several.
- SqliteDatabase.Database.CreateUser models only the UNIQUE violations of username and
  email. Strings are never NULL here, so NOT NULL violations cannot arise.
- The `challenges` table that `init_tables` creates in the sqlite file is left out. No
  modelled operation of `Database` reads it.
- SQLite's INTEGER is a signed 64-bit value, so an out-of-range score fails at insert and a
  `SUM` can overflow. The model's integers are unbounded, so neither failure is modelled.
- `create_sample_users` and the exception/rollback wrapper of `main` are not modelled.
  - SampleData.CreateSampleGameData takes the ids of the new accounts and requires that no
    row refers to them yet.
- SampleData.CreateSampleProgress requires at least three challenges.
  `random.randint(3, len(challenges))` raises with fewer. `main` always passes at least
  three, as `ChallengesForSampling` proves.
- init_db.py is left out: an interactive menu and file deletion.
- setup.py is left out: packaging.
- config.py is left out apart from `AVAILABLE_THEMES`: its other constants are read by
  none of the modelled code.
