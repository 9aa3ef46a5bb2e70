/** The sample-data script: for a list of freshly created accounts it tops up the
    challenge table, records a random selection of completed challenges per account,
    gives each account a random multiplayer record and a random set of achievements,
    and finally writes one leaderboard row per account from what was recorded.
    Every random draw is a nondeterministic choice within the bounds the script
    passes to the generator. */
module SampleData {
  import opened Wrappers
  import opened Aggregates
  import opened Models

  /** The script only tops up a challenge table smaller than this. */
  const ChallengeTopUpBelow := 10

  /** The three challenges `create_additional_challenges` inserts. Descriptions,
      starter and solution code are not modelled. */
  const AdditionalChallenges: seq<Challenge> := [
    Challenge(4, "CSS Styling", "css", "beginner", 120, None, None),
    Challenge(5, "JavaScript Function", "javascript", "beginner", 130, None, None),
    Challenge(6, "Python Lists", "python", "intermediate", 150, None, None)
  ]

  /** The account ids handed to the script are pairwise different. */
  ghost predicate DistinctIds(users: seq<int>) {
    forall a, b :: 0 <= a < b < |users| ==> users[a] != users[b]
  }

  /** What `random.sample` over a list of `n` items picks: positions in range, none
      twice. */
  predicate IsSample(picks: seq<nat>, n: nat) {
    && (forall a :: 0 <= a < |picks| ==> picks[a] < n)
    && (forall a, b :: 0 <= a < b < |picks| ==> picks[a] != picks[b])
  }

  function FirstPositions(k: nat): (r: seq<nat>)
    ensures |r| == k && forall a :: 0 <= a < k ==> r[a] == a
  {
    seq(k, a requires 0 <= a < k => a as nat)
  }

  /** The rows written for each account, one block after the other. */
  function Concat<T>(blocks: seq<seq<T>>): (r: seq<T>)
    ensures blocks == [] ==> r == []
  {
    if blocks == [] then [] else Concat(blocks[..|blocks| - 1]) + blocks[|blocks| - 1]
  }

  lemma ConcatSnoc<T>(blocks: seq<seq<T>>, block: seq<T>)
    ensures Concat(blocks + [block]) == Concat(blocks) + block
  {
    assert (blocks + [block])[..|blocks|] == blocks;
  }

  // ---------------------------------------------------------------------------
  // Challenges

  /** `create_additional_challenges`: the three extra challenges appended in order and
      returned. */
  method CreateAdditionalChallenges(db: Db) returns (added: seq<Challenge>)
    modifies db`challenges
    ensures added == AdditionalChallenges
    ensures db.challenges == old(db.challenges) + added
  {
    added := [];
    for i := 0 to |AdditionalChallenges|
      invariant added == AdditionalChallenges[..i]
      invariant db.challenges == old(db.challenges) + added
    {
      db.challenges := db.challenges + [AdditionalChallenges[i]];
      added := added + [AdditionalChallenges[i]];
    }
  }

  /** The top-up step of `main`: a table of fewer than ten challenges gets the three
      extra ones; the challenges sampled from are the whole table afterwards, so there
      are always at least three of them. */
  method ChallengesForSampling(db: Db) returns (all: seq<Challenge>)
    modifies db`challenges
    ensures |old(db.challenges)| < ChallengeTopUpBelow ==>
      db.challenges == old(db.challenges) + AdditionalChallenges
    ensures |old(db.challenges)| >= ChallengeTopUpBelow ==> db.challenges == old(db.challenges)
    ensures all == db.challenges
    ensures |all| >= 3
  {
    var existing := db.challenges;
    if |existing| < ChallengeTopUpBelow {
      var added := CreateAdditionalChallenges(db);
      all := existing + added;
    } else {
      all := existing;
    }
  }

  // ---------------------------------------------------------------------------
  // Progress

  /** The code text recorded for a sample completion of `c`. */
  function SolutionText(c: Challenge): string {
    "# Solution for " + c.title + "\ndef solution():\n    return 'completed'"
  }

  /** A progress row `create_sample_progress` may write for account `uid` and challenge
      `c`: up to twenty points below the challenge's points, 30 to 300 seconds, one to
      three attempts. */
  ghost predicate SampleProgressRow(row: GameProgress, uid: int, c: Challenge) {
    && row.userId == uid && row.level == c.level
    && c.points - 20 <= row.score <= c.points
    && row.codeSolution == SolutionText(c)
    && row.timeTaken.Some? && 30 <= row.timeTaken.value <= 300
    && 1 <= row.attempts <= 3
  }

  /** A draw of `create_sample_progress` for account `uid`: between three and all of
      the challenges, none twice, and one progress row for each. */
  ghost predicate ProgressDraw(picks: seq<nat>, block: seq<GameProgress>, uid: int,
                               challenges: seq<Challenge>)
  {
    && 3 <= |picks| <= |challenges|
    && IsSample(picks, |challenges|)
    && |block| == |picks|
    && forall j :: 0 <= j < |picks| ==> SampleProgressRow(block[j], uid, challenges[picks[j]])
  }

  /** The inner loop of `create_sample_progress` for one account: one row per drawn
      challenge, in the drawn order. */
  method ProgressSample(db: Db, uid: int, challenges: seq<Challenge>, sample: seq<nat>)
    returns (block: seq<GameProgress>)
    requires IsSample(sample, |challenges|)
    modifies db`progress
    ensures |block| == |sample|
    ensures forall j :: 0 <= j < |sample| ==>
              SampleProgressRow(block[j], uid, challenges[sample[j]])
    ensures db.progress == old(db.progress) + block
  {
    block := [];
    for j := 0 to |sample|
      invariant |block| == j
      invariant forall t :: 0 <= t < j ==> SampleProgressRow(block[t], uid, challenges[sample[t]])
      invariant db.progress == old(db.progress) + block
    {
      var c := challenges[sample[j]];
      var deduction :| 0 <= deduction <= 20;
      var timeTaken :| 30 <= timeTaken <= 300;
      var attempts :| 1 <= attempts <= 3;
      var row := GameProgress(uid, c.level, c.points - deduction, SolutionText(c),
                              Some(timeTaken), attempts);
      db.progress := db.progress + [row];
      block := block + [row];
    }
  }

  /** `create_sample_progress`: for each account, between three and all of the
      challenges, each at most once, and one progress row per chosen challenge; `picks`
      are the chosen positions and `blocks` the rows written, account by account. */
  method CreateSampleProgress(db: Db, users: seq<int>, challenges: seq<Challenge>)
    returns (picks: seq<seq<nat>>, blocks: seq<seq<GameProgress>>)
    requires |challenges| >= 3
    modifies db`progress
    ensures |picks| == |users| && |blocks| == |users|
    ensures forall i :: 0 <= i < |users| ==>
              ProgressDraw(picks[i], blocks[i], users[i], challenges)
    ensures db.progress == old(db.progress) + Concat(blocks)
  {
    picks, blocks := [], [];
    for i := 0 to |users|
      invariant |picks| == i && |blocks| == i
      invariant forall t :: 0 <= t < i ==>
                  ProgressDraw(picks[t], blocks[t], users[t], challenges)
      invariant db.progress == old(db.progress) + Concat(blocks)
    {
      var k :| 3 <= k <= |challenges|;
      assert IsSample(FirstPositions(k), |challenges|);
      var sample: seq<nat> :| |sample| == k && IsSample(sample, |challenges|);
      var block := ProgressSample(db, users[i], challenges, sample);
      assert ProgressDraw(sample, block, users[i], challenges);
      ConcatSnoc(blocks, block);
      picks := picks + [sample];
      blocks := blocks + [block];
    }
  }

  /** Every row of the block belongs to account `uid`. */
  ghost predicate OwnedBy(block: seq<GameProgress>, uid: int) {
    forall j :: 0 <= j < |block| ==> block[j].userId == uid
  }

  /** When block `t` holds only rows of account `users[t]` and the accounts differ, the
      rows of account `users[i]` among the first `m` blocks are block `i` if it is one of
      them and nothing otherwise. */
  lemma {:induction false} RowsOfBlocks(blocks: seq<seq<GameProgress>>, users: seq<int>,
                                        i: nat, m: nat)
    requires |blocks| == |users| && DistinctIds(users)
    requires forall t :: 0 <= t < |blocks| ==> OwnedBy(blocks[t], users[t])
    requires i < |users| && m <= |blocks|
    ensures RowsOf(Concat(blocks[..m]), users[i]) == if i < m then blocks[i] else []
  {
    if m > 0 {
      var uid := users[i];
      var init, last := blocks[..m - 1], blocks[m - 1];
      assert RowsOf(Concat(blocks[..m]), uid) == RowsOf(Concat(init), uid) + RowsOf(last, uid)
      by {
        assert blocks[..m] == init + [last];
        ConcatSnoc(init, last);
        RowsOfSplit(Concat(init), last, uid);
      }
      assert RowsOf(Concat(init), uid) == if i < m - 1 then blocks[i] else [] by {
        RowsOfBlocks(blocks, users, i, m - 1);
      }
      assert RowsOf(last, uid) == if i == m - 1 then last else [] by {
        assert OwnedBy(last, users[m - 1]);
        RowsOfOwn(last, users[m - 1], uid);
        if i < m - 1 {
          assert users[i] != users[m - 1];
        } else if i > m - 1 {
          assert users[m - 1] != users[i];
        }
      }
      if i < m - 1 {
        assert blocks[i] + [] == blocks[i];
      } else if i == m - 1 {
        assert [] + last == last;
      }
    }
  }

  /** A block of rows of one account filtered by an account id: all of it or none. */
  lemma {:induction false} RowsOfOwn(block: seq<GameProgress>, owner: int, uid: int)
    requires OwnedBy(block, owner)
    ensures RowsOf(block, uid) == if owner == uid then block else []
  {
    if block != [] {
      RowsOfOwn(block[1..], owner, uid);
    }
  }

  /** After `create_sample_progress` over accounts with no earlier progress, each
      account has exactly the rows written for it, so between three and as many
      completed levels as there are challenges. */
  lemma SampleProgressPerUser(before: seq<GameProgress>, blocks: seq<seq<GameProgress>>,
                              users: seq<int>, i: nat)
    requires |blocks| == |users| && DistinctIds(users)
    requires forall t :: 0 <= t < |blocks| ==> OwnedBy(blocks[t], users[t])
    requires i < |users| && RowsOf(before, users[i]) == []
    ensures RowsOf(before + Concat(blocks), users[i]) == blocks[i]
    ensures LevelsCompleted(before + Concat(blocks), users[i]) == |blocks[i]|
    ensures TotalScore(before + Concat(blocks), users[i]) == Total(Scores(blocks[i]))
  {
    RowsOfSplit(before, Concat(blocks), users[i]);
    RowsOfBlocks(blocks, users, i, |blocks|);
    assert blocks[..|blocks|] == blocks;
  }

  /** Over accounts with no earlier progress, `create_sample_progress` leaves each
      account with between three and as many completed levels as there are challenges,
      and a total score equal to the sum of its own sample rows. */
  lemma SampleProgressCounts(before: seq<GameProgress>, picks: seq<seq<nat>>,
                             blocks: seq<seq<GameProgress>>, users: seq<int>,
                             challenges: seq<Challenge>)
    requires |picks| == |users| && |blocks| == |users| && DistinctIds(users)
    requires forall i :: 0 <= i < |users| ==>
               ProgressDraw(picks[i], blocks[i], users[i], challenges)
    requires forall i :: 0 <= i < |users| ==> RowsOf(before, users[i]) == []
    ensures forall i :: 0 <= i < |users| ==>
      && 3 <= LevelsCompleted(before + Concat(blocks), users[i]) == |blocks[i]| <= |challenges|
      && TotalScore(before + Concat(blocks), users[i]) == Total(Scores(blocks[i]))
  {
    assert forall t :: 0 <= t < |blocks| ==> OwnedBy(blocks[t], users[t]) by {
      forall t | 0 <= t < |blocks|
        ensures OwnedBy(blocks[t], users[t])
      {
        assert ProgressDraw(picks[t], blocks[t], users[t], challenges);
      }
    }
    forall i | 0 <= i < |users|
      ensures 3 <= LevelsCompleted(before + Concat(blocks), users[i]) == |blocks[i]| <= |challenges|
      ensures TotalScore(before + Concat(blocks), users[i]) == Total(Scores(blocks[i]))
    {
      SampleProgressPerUser(before, blocks, users, i);
    }
  }

  // ---------------------------------------------------------------------------
  // Multiplayer records

  /** A record `create_sample_multiplayer_stats` may write: up to 20 wins, 15 losses and
      5 draws, their sum as the match count, a streak of up to 10, a best streak from 5
      to 15, and a rating within 200 of 1000. */
  ghost predicate SampleStats(s: MultiplayerStats) {
    && 0 <= s.wins <= 20 && 0 <= s.losses <= 15 && 0 <= s.draws <= 5
    && s.totalMatches == s.wins + s.losses + s.draws
    && 0 <= s.winStreak <= 10 && 5 <= s.maxWinStreak <= 15
    && DefaultRating - 200 <= s.rating <= DefaultRating + 200
  }

  /** `create_sample_multiplayer_stats`: one new record per account, no other record
      touched. */
  method CreateSampleMultiplayerStats(db: Db, users: seq<int>)
    requires db.Valid() && DistinctIds(users)
    requires forall i :: 0 <= i < |users| ==> 1 <= users[i] <= |db.users|
    requires forall i :: 0 <= i < |users| ==> users[i] !in db.stats
    modifies db`stats
    ensures db.Valid()
    ensures db.stats.Keys == old(db.stats).Keys + set i | 0 <= i < |users| :: users[i]
    ensures forall k :: k in old(db.stats) ==> db.stats[k] == old(db.stats)[k]
    ensures forall i :: 0 <= i < |users| ==> SampleStats(db.stats[users[i]])
  {
    for i := 0 to |users|
      invariant db.Valid()
      invariant db.stats.Keys == old(db.stats).Keys + set t | 0 <= t < i :: users[t]
      invariant forall k :: k in old(db.stats) ==> db.stats[k] == old(db.stats)[k]
      invariant forall t :: 0 <= t < i ==> SampleStats(db.stats[users[t]])
    {
      var wins :| 0 <= wins <= 20;
      var losses :| 0 <= losses <= 15;
      var draws :| 0 <= draws <= 5;
      var streak :| 0 <= streak <= 10;
      var bestStreak :| 5 <= bestStreak <= 15;
      var shift :| -200 <= shift <= 200;
      PutStats(db, users[i], MultiplayerStats(wins, losses, draws, wins + losses + draws,
                                              streak, bestStreak, DefaultRating + shift));
    }
  }

  /** Storing the multiplayer record of an existing account keeps the tables
      consistent. */
  method PutStats(db: Db, uid: int, s: MultiplayerStats)
    requires db.Valid() && 1 <= uid <= |db.users|
    modifies db`stats
    ensures db.Valid()
    ensures db.stats == old(db.stats)[uid := s]
  {
    db.stats := db.stats[uid := s];
  }

  /** The generated records need not be consistent: a current streak of 10 with a best
      streak of 5 is among them. */
  lemma SampleStreakMayExceedBest()
    ensures var s := MultiplayerStats(0, 0, 0, 0, 10, 5, DefaultRating);
            SampleStats(s) && s.winStreak > s.maxWinStreak
  {
  }

  // ---------------------------------------------------------------------------
  // Achievements

  /** No unlock of account `uid` is recorded. */
  ghost predicate NoUnlocksOf(unlocks: seq<UserAchievement>, uid: int) {
    forall p :: p in unlocks ==> p.userId != uid
  }

  /** A draw of `assign_sample_achievements` for account `uid`: between one and all
      of the catalogue's achievements, none twice, and the unlock rows written for
      them in the drawn order. */
  ghost predicate UnlockDraw(picks: seq<nat>, block: seq<UserAchievement>, uid: int,
                             catalogue: seq<Achievement>)
  {
    && 1 <= |picks| <= |catalogue|
    && IsSample(picks, |catalogue|)
    && |block| == |picks|
    && forall j :: 0 <= j < |picks| ==> block[j] == UserAchievement(uid, catalogue[picks[j]].id)
  }

  /** The inner loop of `assign_sample_achievements` for one account without unlocks:
      one unlock per drawn achievement, in the drawn order, and the pairs stay unique. */
  method UnlockSample(db: Db, uid: int, sample: seq<nat>) returns (block: seq<UserAchievement>)
    requires db.Valid() && IsSample(sample, |db.achievements|)
    requires NoUnlocksOf(db.unlocks, uid)
    modifies db`unlocks
    ensures db.Valid()
    ensures |block| == |sample|
    ensures forall j :: 0 <= j < |sample| ==>
              block[j] == UserAchievement(uid, db.achievements[sample[j]].id)
    ensures db.unlocks == old(db.unlocks) + block
  {
    block := [];
    for j := 0 to |sample|
      invariant db.Valid()
      invariant |block| == j
      invariant forall t :: 0 <= t < j ==>
        block[t] == UserAchievement(uid, db.achievements[sample[t]].id)
      invariant db.unlocks == old(db.unlocks) + block
    {
      var pair := UserAchievement(uid, db.achievements[sample[j]].id);
      assert forall t :: 0 <= t < j ==> sample[t] != sample[j];
      assert pair !in block;
      assert pair !in db.unlocks;
      db.unlocks := db.unlocks + [pair];
      block := block + [pair];
    }
  }

  /** Appending unlocks of other accounts keeps an account without unlocks. */
  lemma NoUnlocksAppend(unlocks: seq<UserAchievement>, block: seq<UserAchievement>, uid: int,
                        owner: int)
    requires NoUnlocksOf(unlocks, uid) && owner != uid
    requires forall j :: 0 <= j < |block| ==> block[j].userId == owner
    ensures NoUnlocksOf(unlocks + block, uid)
  {
    forall p | p in unlocks + block
      ensures p.userId != uid
    {
      if p !in unlocks {
        var j :| 0 <= j < |block| && block[j] == p;
      }
    }
  }

  /** Every element of block `t` is in the concatenation. */
  lemma {:induction false} InConcat<T>(blocks: seq<seq<T>>, t: nat, j: nat)
    requires t < |blocks| && j < |blocks[t]|
    ensures blocks[t][j] in Concat(blocks)
  {
    var init, last := blocks[..|blocks| - 1], blocks[|blocks| - 1];
    if t < |blocks| - 1 {
      InConcat(init, t, j);
      assert init[t] == blocks[t];
      assert Concat(blocks) == Concat(init) + last;
    }
  }

  /** `assign_sample_achievements`: for each account, between one and all of the
      catalogue's achievements, each at most once, unlocked in the drawn order; the
      unlock pairs stay unique. */
  method AssignSampleAchievements(db: Db, users: seq<int>)
    returns (picks: seq<seq<nat>>, blocks: seq<seq<UserAchievement>>)
    requires db.Valid() && |db.achievements| >= 1 && DistinctIds(users)
    requires forall i :: 0 <= i < |users| ==> NoUnlocksOf(db.unlocks, users[i])
    modifies db`unlocks
    ensures db.Valid()
    ensures |picks| == |users| && |blocks| == |users|
    ensures forall i :: 0 <= i < |users| ==>
              UnlockDraw(picks[i], blocks[i], users[i], db.achievements)
    ensures db.unlocks == old(db.unlocks) + Concat(blocks)
  {
    var n := |db.achievements|;
    picks, blocks := [], [];
    for i := 0 to |users|
      invariant db.Valid() && n == |db.achievements|
      invariant |picks| == i && |blocks| == i
      invariant forall t :: 0 <= t < i ==>
                  UnlockDraw(picks[t], blocks[t], users[t], db.achievements)
      invariant db.unlocks == old(db.unlocks) + Concat(blocks)
      invariant forall t :: i <= t < |users| ==> NoUnlocksOf(db.unlocks, users[t])
    {
      var k :| 1 <= k <= n;
      assert IsSample(FirstPositions(k), n);
      var sample: seq<nat> :| |sample| == k && IsSample(sample, n);
      ghost var unlocks := db.unlocks;
      var block := UnlockSample(db, users[i], sample);
      assert UnlockDraw(sample, block, users[i], db.achievements);
      forall t | i < t < |users|
        ensures NoUnlocksOf(db.unlocks, users[t])
      {
        NoUnlocksAppend(unlocks, block, users[t], users[i]);
      }
      ConcatSnoc(blocks, block);
      picks := picks + [sample];
      blocks := blocks + [block];
    }
  }

  /** The achievements step of `main`: skipped when the catalogue is empty; otherwise
      the draws of `assign_sample_achievements` are appended, so every account holds
      at least one achievement afterwards. */
  method AssignIfCatalogue(db: Db, users: seq<int>)
    returns (picks: seq<seq<nat>>, blocks: seq<seq<UserAchievement>>)
    requires db.Valid() && DistinctIds(users)
    requires forall i :: 0 <= i < |users| ==> NoUnlocksOf(db.unlocks, users[i])
    modifies db`unlocks
    ensures db.Valid()
    ensures db.unlocks == old(db.unlocks) + Concat(blocks)
    ensures |db.achievements| == 0 ==> blocks == []
    ensures |db.achievements| > 0 ==>
      && |picks| == |users| && |blocks| == |users|
      && forall i :: 0 <= i < |users| ==>
           UnlockDraw(picks[i], blocks[i], users[i], db.achievements)
    ensures |db.achievements| > 0 ==>
      forall i :: 0 <= i < |users| ==> !NoUnlocksOf(db.unlocks, users[i])
  {
    picks, blocks := [], [];
    if |db.achievements| > 0 {
      ghost var unlocks := db.unlocks;
      picks, blocks := AssignSampleAchievements(db, users);
      forall i | 0 <= i < |users|
        ensures !NoUnlocksOf(db.unlocks, users[i])
      {
        assert UnlockDraw(picks[i], blocks[i], users[i], db.achievements);
        InConcat(blocks, i, 0);
        assert blocks[i][0] in unlocks + Concat(blocks);
      }
    }
  }

  // ---------------------------------------------------------------------------
  // Leaderboard

  /** The leaderboard row `update_leaderboard` computes for an account: the sum of its
      progress scores (0 with no rows), its number of progress rows, and the rating of
      its multiplayer record, 1000 without one. */
  function RankingRow(progress: seq<GameProgress>, stats: map<int, MultiplayerStats>,
                      uid: int): (r: LeaderboardRow)
    ensures r.userId == uid
    ensures r.totalScore == TotalScore(progress, uid)
    ensures r.levelsCompleted == LevelsCompleted(progress, uid)
    ensures uid !in stats ==> r.multiplayerRating == DefaultRating
    ensures uid in stats ==> r.multiplayerRating == stats[uid].rating
  {
    var rows := RowsOf(progress, uid);
    SumOrZero(Scores(rows));
    LeaderboardRow(uid, OrDefault(SqlSum(Scores(rows)), 0), OrDefault(Some(|rows|), 0),
                   if uid in stats then stats[uid].rating else DefaultRating)
  }

  /** The rows `update_leaderboard` computes for the accounts, in the accounts' order. */
  function RankingRows(progress: seq<GameProgress>, stats: map<int, MultiplayerStats>,
                       users: seq<int>): (r: seq<LeaderboardRow>)
    ensures |r| == |users|
    ensures forall i :: 0 <= i < |users| ==> r[i].userId == users[i]
  {
    if users == [] then []
    else RankingRows(progress, stats, users[..|users| - 1])
         + [RankingRow(progress, stats, users[|users| - 1])]
  }

  /** Row `i` of the computed rows is the row of account `users[i]`. */
  lemma {:induction false} RankingRowsAt(progress: seq<GameProgress>,
                                         stats: map<int, MultiplayerStats>, users: seq<int>,
                                         i: nat)
    requires i < |users|
    ensures RankingRows(progress, stats, users)[i] == RankingRow(progress, stats, users[i])
  {
    if i < |users| - 1 {
      RankingRowsAt(progress, stats, users[..|users| - 1], i);
    }
  }

  /** No leaderboard row refers to account `uid`. */
  ghost predicate NotRanked(rows: seq<LeaderboardRow>, uid: int) {
    forall k :: 0 <= k < |rows| ==> rows[k].userId != uid
  }

  /** Adding a leaderboard row for an account that exists and is not yet ranked keeps
      the tables consistent. */
  method AddRankingRow(db: Db, row: LeaderboardRow)
    requires db.Valid() && 1 <= row.userId <= |db.users| && NotRanked(db.leaderboard, row.userId)
    modifies db`leaderboard
    ensures db.Valid()
    ensures db.leaderboard == old(db.leaderboard) + [row]
  {
    db.leaderboard := db.leaderboard + [row];
  }

  /** A row of account `owner` leaves every other account unranked. */
  lemma NotRankedAppend(rows: seq<LeaderboardRow>, row: LeaderboardRow, uid: int)
    requires NotRanked(rows, uid) && row.userId != uid
    ensures NotRanked(rows + [row], uid)
  {
  }

  /** `update_leaderboard`: one new leaderboard row per account, computed from the
      progress and multiplayer tables as they stand. */
  method UpdateLeaderboard(db: Db, users: seq<int>)
    requires db.Valid() && DistinctIds(users)
    requires forall i :: 0 <= i < |users| ==> 1 <= users[i] <= |db.users|
    requires forall i :: 0 <= i < |users| ==> NotRanked(db.leaderboard, users[i])
    modifies db`leaderboard
    ensures db.Valid()
    ensures db.leaderboard == old(db.leaderboard) + RankingRows(db.progress, db.stats, users)
  {
    for i := 0 to |users|
      invariant db.Valid()
      invariant db.leaderboard == old(db.leaderboard) + RankingRows(db.progress, db.stats, users[..i])
      invariant forall t :: i <= t < |users| ==> NotRanked(db.leaderboard, users[t])
    {
      var row := RankingRow(db.progress, db.stats, users[i]);
      assert users[..i + 1][..i] == users[..i];
      ghost var ranked := db.leaderboard;
      AddRankingRow(db, row);
      forall t | i < t < |users|
        ensures NotRanked(db.leaderboard, users[t])
      {
        NotRankedAppend(ranked, row, users[t]);
      }
    }
    assert users[..|users|] == users;
  }

  // ---------------------------------------------------------------------------
  // The whole script

  /** An account just created: no progress, no multiplayer record, no unlock and no
      leaderboard row refers to it yet. */
  ghost predicate Untouched(db: Db, uid: int)
    reads db`users, db`progress, db`stats, db`unlocks, db`leaderboard
  {
    && 1 <= uid <= |db.users|
    && RowsOf(db.progress, uid) == []
    && uid !in db.stats
    && NoUnlocksOf(db.unlocks, uid)
    && NotRanked(db.leaderboard, uid)
  }

  /** What the progress step leaves for each account: its completed levels are exactly
      its own sample rows, between three and all of the challenges, and its total score
      is the sum of their scores. */
  ghost predicate ProgressRecorded(progress: seq<GameProgress>, users: seq<int>,
                                   blocks: seq<seq<GameProgress>>, challenges: seq<Challenge>)
  {
    && |blocks| == |users|
    && forall i :: 0 <= i < |users| ==>
      && 3 <= LevelsCompleted(progress, users[i]) == |blocks[i]| <= |challenges|
      && TotalScore(progress, users[i]) == Total(Scores(blocks[i]))
  }

  /** `create_sample_progress` over accounts with no earlier progress: the rows drawn
      are appended after the existing ones, and each account's aggregates are those of
      its own block. */
  method RecordSampleProgress(db: Db, users: seq<int>, challenges: seq<Challenge>)
    returns (picks: seq<seq<nat>>, blocks: seq<seq<GameProgress>>)
    requires DistinctIds(users) && |challenges| >= 3
    requires forall i :: 0 <= i < |users| ==> RowsOf(db.progress, users[i]) == []
    modifies db`progress
    ensures ProgressDrawn(picks, blocks, users, challenges)
    ensures db.progress == old(db.progress) + Concat(blocks)
    ensures ProgressRecorded(db.progress, users, blocks, challenges)
  {
    ghost var before := db.progress;
    picks, blocks := CreateSampleProgress(db, users, challenges);
    SampleProgressCounts(before, picks, blocks, users, challenges);
  }

  /** One draw of `create_sample_progress` per account: `blocks[i]` holds the rows of
      account `users[i]` for the challenges at positions `picks[i]`. */
  ghost predicate ProgressDrawn(picks: seq<seq<nat>>, blocks: seq<seq<GameProgress>>,
                                users: seq<int>, challenges: seq<Challenge>)
  {
    && |picks| == |users| && |blocks| == |users|
    && forall i :: 0 <= i < |users| ==> ProgressDraw(picks[i], blocks[i], users[i], challenges)
  }

  /** What the achievements step leaves: no draw without a catalogue; otherwise one draw
      of `assign_sample_achievements` per account, each of which then holds at least
      one achievement. */
  ghost predicate UnlocksDrawn(picks: seq<seq<nat>>, blocks: seq<seq<UserAchievement>>,
                               users: seq<int>, catalogue: seq<Achievement>,
                               unlocks: seq<UserAchievement>)
  {
    if |catalogue| == 0 then blocks == []
    else
      && |picks| == |users| && |blocks| == |users|
      && (forall i :: 0 <= i < |users| ==> UnlockDraw(picks[i], blocks[i], users[i], catalogue))
      && (forall i :: 0 <= i < |users| ==> !NoUnlocksOf(unlocks, users[i]))
  }

  /** What the multiplayer step leaves: the earlier records unchanged, and one sample
      record added for each account. */
  ghost predicate StatsRecorded(before: map<int, MultiplayerStats>,
                                after: map<int, MultiplayerStats>, users: seq<int>)
  {
    && after.Keys == before.Keys + (set i | 0 <= i < |users| :: users[i])
    && (forall k :: k in before ==> after[k] == before[k])
    && (forall i :: 0 <= i < |users| ==> SampleStats(after[users[i]]))
  }

  /** What the three recording steps leave, given the tables before (`progress0`,
      `stats0`, `unlocks0`) and after: the progress rows drawn for each account appended,
      each account's aggregates those of its own block, a sample multiplayer record
      added for each account with the earlier records kept, and the achievement draws
      appended. */
  ghost predicate ActivityRecorded(progress0: seq<GameProgress>, progress: seq<GameProgress>,
                                   stats0: map<int, MultiplayerStats>,
                                   stats: map<int, MultiplayerStats>,
                                   unlocks0: seq<UserAchievement>, unlocks: seq<UserAchievement>,
                                   catalogue: seq<Achievement>, users: seq<int>,
                                   challenges: seq<Challenge>, picks: seq<seq<nat>>,
                                   blocks: seq<seq<GameProgress>>, unlockPicks: seq<seq<nat>>,
                                   unlockBlocks: seq<seq<UserAchievement>>)
  {
    && ProgressDrawn(picks, blocks, users, challenges)
    && progress == progress0 + Concat(blocks)
    && ProgressRecorded(progress, users, blocks, challenges)
    && StatsRecorded(stats0, stats, users)
    && UnlocksDrawn(unlockPicks, unlockBlocks, users, catalogue, unlocks)
    && unlocks == unlocks0 + Concat(unlockBlocks)
  }

  /** After the recording steps every account has its own progress block and a sample
      multiplayer record, which is what the leaderboard step ranks. */
  lemma RecordedForRanking(progress0: seq<GameProgress>, progress: seq<GameProgress>,
                           stats0: map<int, MultiplayerStats>, stats: map<int, MultiplayerStats>,
                           unlocks0: seq<UserAchievement>, unlocks: seq<UserAchievement>,
                           catalogue: seq<Achievement>, users: seq<int>,
                           challenges: seq<Challenge>, picks: seq<seq<nat>>,
                           blocks: seq<seq<GameProgress>>, unlockPicks: seq<seq<nat>>,
                           unlockBlocks: seq<seq<UserAchievement>>)
    requires ActivityRecorded(progress0, progress, stats0, stats, unlocks0, unlocks, catalogue,
                              users, challenges, picks, blocks, unlockPicks, unlockBlocks)
    ensures ProgressRecorded(progress, users, blocks, challenges)
    ensures forall i :: 0 <= i < |users| ==> users[i] in stats && SampleStats(stats[users[i]])
  {
    forall i | 0 <= i < |users|
      ensures users[i] in stats
    {
      assert users[i] in (set j | 0 <= j < |users| :: users[j]);
    }
  }

  /** The three recording steps of `main`: sample progress, multiplayer records and,
      when the catalogue is not empty, achievements. Afterwards each account has its
      drawn progress rows, a sample multiplayer record, and at least one achievement
      when there is a catalogue. */
  method RecordSampleActivity(db: Db, users: seq<int>, challenges: seq<Challenge>)
    returns (picks: seq<seq<nat>>, blocks: seq<seq<GameProgress>>,
             unlockPicks: seq<seq<nat>>, unlockBlocks: seq<seq<UserAchievement>>)
    requires db.Valid() && DistinctIds(users) && |challenges| >= 3
    requires forall i :: 0 <= i < |users| ==> Untouched(db, users[i])
    modifies db`progress, db`stats, db`unlocks
    ensures db.Valid()
    ensures ActivityRecorded(old(db.progress), db.progress, old(db.stats), db.stats,
                             old(db.unlocks), db.unlocks, db.achievements, users, challenges,
                             picks, blocks, unlockPicks, unlockBlocks)
  {
    assert forall i :: 0 <= i < |users| ==>
      1 <= users[i] <= |db.users| && users[i] !in db.stats && NoUnlocksOf(db.unlocks, users[i])
      && RowsOf(db.progress, users[i]) == [];
    picks, blocks := RecordSampleProgress(db, users, challenges);
    unlockPicks, unlockBlocks := RecordStatsAndUnlocks(db, users);
  }

  /** The multiplayer and achievement steps of `main`, for accounts with neither. */
  method RecordStatsAndUnlocks(db: Db, users: seq<int>)
    returns (unlockPicks: seq<seq<nat>>, unlockBlocks: seq<seq<UserAchievement>>)
    requires db.Valid() && DistinctIds(users)
    requires forall i :: 0 <= i < |users| ==>
      1 <= users[i] <= |db.users| && users[i] !in db.stats && NoUnlocksOf(db.unlocks, users[i])
    modifies db`stats, db`unlocks
    ensures db.Valid()
    ensures StatsRecorded(old(db.stats), db.stats, users)
    ensures UnlocksDrawn(unlockPicks, unlockBlocks, users, db.achievements, db.unlocks)
    ensures db.unlocks == old(db.unlocks) + Concat(unlockBlocks)
  {
    CreateSampleMultiplayerStats(db, users);
    ghost var stats := db.stats;
    assert StatsRecorded(old(db.stats), stats, users);
    unlockPicks, unlockBlocks := AssignIfCatalogue(db, users);
  }

  /** Leaderboard rows as `main` leaves them for the sample accounts: row `i` is account
      `users[i]`'s, counts its own sample rows as completed levels, between three and
      all of the challenges, scores their sum, and rates within 200 of 1000. */
  ghost predicate SampleRanking(rows: seq<LeaderboardRow>, users: seq<int>,
                                blocks: seq<seq<GameProgress>>, challenges: seq<Challenge>)
  {
    && |rows| == |users| == |blocks|
    && forall i :: 0 <= i < |users| ==>
      && rows[i].userId == users[i]
      && 3 <= rows[i].levelsCompleted == |blocks[i]| <= |challenges|
      && rows[i].totalScore == Total(Scores(blocks[i]))
      && DefaultRating - 200 <= rows[i].multiplayerRating <= DefaultRating + 200
  }

  /** The leaderboard after `update_leaderboard` has run on top of the recording steps:
      the earlier rows unchanged, then one sample ranking row per account. */
  lemma SampleLeaderboard(leaderboard: seq<LeaderboardRow>, ranked: seq<LeaderboardRow>,
                          progress: seq<GameProgress>, stats: map<int, MultiplayerStats>,
                          users: seq<int>, blocks: seq<seq<GameProgress>>,
                          challenges: seq<Challenge>)
    requires leaderboard == ranked + RankingRows(progress, stats, users)
    requires ProgressRecorded(progress, users, blocks, challenges)
    requires forall i :: 0 <= i < |users| ==> users[i] in stats && SampleStats(stats[users[i]])
    ensures |leaderboard| == |ranked| + |users| && leaderboard[..|ranked|] == ranked
    ensures SampleRanking(leaderboard[|ranked|..], users, blocks, challenges)
  {
    var rows := RankingRows(progress, stats, users);
    assert leaderboard[|ranked|..] == rows;
    forall i | 0 <= i < |users|
      ensures rows[i] == RankingRow(progress, stats, users[i])
    {
      RankingRowsAt(progress, stats, users, i);
    }
  }

  /** `main` after `create_sample_users`: every account ends with one leaderboard row
      that counts between three and all of the sampled challenges as completed, whose
      score is the sum of its sample rows, and whose rating is within 200 of 1000. */
  method CreateSampleGameData(db: Db, users: seq<int>)
    returns (challenges: seq<Challenge>, picks: seq<seq<nat>>, blocks: seq<seq<GameProgress>>,
             unlockPicks: seq<seq<nat>>, unlockBlocks: seq<seq<UserAchievement>>)
    requires db.Valid() && DistinctIds(users)
    requires forall i :: 0 <= i < |users| ==> Untouched(db, users[i])
    modifies db`challenges, db`progress, db`stats, db`unlocks, db`leaderboard
    ensures db.Valid()
    ensures |old(db.challenges)| < ChallengeTopUpBelow ==>
      challenges == old(db.challenges) + AdditionalChallenges
    ensures |old(db.challenges)| >= ChallengeTopUpBelow ==> challenges == old(db.challenges)
    ensures db.challenges == challenges
    ensures ActivityRecorded(old(db.progress), db.progress, old(db.stats), db.stats,
                             old(db.unlocks), db.unlocks, db.achievements, users, challenges,
                             picks, blocks, unlockPicks, unlockBlocks)
    ensures |db.leaderboard| == |old(db.leaderboard)| + |users|
    ensures db.leaderboard[..|old(db.leaderboard)|] == old(db.leaderboard)
    ensures SampleRanking(db.leaderboard[|old(db.leaderboard)|..], users, blocks, challenges)
  {
    challenges := ChallengesForSampling(db);
    picks, blocks, unlockPicks, unlockBlocks := RecordAndRank(db, users, challenges);
  }

  /** The recording steps and then the leaderboard step of `main`, over the challenges
      sampled from. */
  method RecordAndRank(db: Db, users: seq<int>, challenges: seq<Challenge>)
    returns (picks: seq<seq<nat>>, blocks: seq<seq<GameProgress>>,
             unlockPicks: seq<seq<nat>>, unlockBlocks: seq<seq<UserAchievement>>)
    requires db.Valid() && DistinctIds(users) && |challenges| >= 3
    requires forall i :: 0 <= i < |users| ==> Untouched(db, users[i])
    modifies db`progress, db`stats, db`unlocks, db`leaderboard
    ensures db.Valid()
    ensures ActivityRecorded(old(db.progress), db.progress, old(db.stats), db.stats,
                             old(db.unlocks), db.unlocks, db.achievements, users, challenges,
                             picks, blocks, unlockPicks, unlockBlocks)
    ensures |db.leaderboard| == |old(db.leaderboard)| + |users|
    ensures db.leaderboard[..|old(db.leaderboard)|] == old(db.leaderboard)
    ensures SampleRanking(db.leaderboard[|old(db.leaderboard)|..], users, blocks, challenges)
  {
    assert forall i :: 0 <= i < |users| ==>
      1 <= users[i] <= |db.users| && NotRanked(db.leaderboard, users[i]);
    ghost var ranked, accounts := db.leaderboard, |db.users|;
    ghost var progress, stats, unlocks := db.progress, db.stats, db.unlocks;
    picks, blocks, unlockPicks, unlockBlocks := RecordSampleActivity(db, users, challenges);
    assert db.leaderboard == ranked && |db.users| == accounts;
    RankSampleAccounts(db, users, challenges, progress, stats, unlocks, picks, blocks,
                       unlockPicks, unlockBlocks);
  }

  /** The leaderboard step of `main`, after the recording steps: one ranking row per
      account, computed from its sample rows and record. */
  method RankSampleAccounts(db: Db, users: seq<int>, challenges: seq<Challenge>,
                            ghost progress0: seq<GameProgress>,
                            ghost stats0: map<int, MultiplayerStats>,
                            ghost unlocks0: seq<UserAchievement>, ghost picks: seq<seq<nat>>,
                            ghost blocks: seq<seq<GameProgress>>,
                            ghost unlockPicks: seq<seq<nat>>,
                            ghost unlockBlocks: seq<seq<UserAchievement>>)
    requires db.Valid() && DistinctIds(users)
    requires forall i :: 0 <= i < |users| ==>
      1 <= users[i] <= |db.users| && NotRanked(db.leaderboard, users[i])
    requires ActivityRecorded(progress0, db.progress, stats0, db.stats, unlocks0, db.unlocks,
                              db.achievements, users, challenges, picks, blocks, unlockPicks,
                              unlockBlocks)
    modifies db`leaderboard
    ensures db.Valid()
    ensures ActivityRecorded(progress0, db.progress, stats0, db.stats, unlocks0, db.unlocks,
                             db.achievements, users, challenges, picks, blocks, unlockPicks,
                             unlockBlocks)
    ensures |db.leaderboard| == |old(db.leaderboard)| + |users|
    ensures db.leaderboard[..|old(db.leaderboard)|] == old(db.leaderboard)
    ensures SampleRanking(db.leaderboard[|old(db.leaderboard)|..], users, blocks, challenges)
  {
    RecordedForRanking(progress0, db.progress, stats0, db.stats, unlocks0, db.unlocks,
                       db.achievements, users, challenges, picks, blocks, unlockPicks,
                       unlockBlocks);
    UpdateLeaderboard(db, users);
    SampleLeaderboard(db.leaderboard, old(db.leaderboard), db.progress, db.stats, users, blocks,
                      challenges);
  }
}
