/** The dashboard (sections/Dashboard.tsx): the progress threshold, the leaderboard
    and when the level check runs. */
module Dashboard {
  import opened Types
  import opened Text
  import opened Ledger
  import AdminPanel

  /** `nextLevelPoints`: the point count the progress bar runs up to. */
  function NextLevelPoints(level: int): (p: int)
    ensures 1 <= level < MaxLevel ==> LevelFor(p) == level + 1 && LevelFor(p - 1) == level
  {
    level * PointsPerLevel
  }

  /** Once the level check has run on a user whose stored level does not run ahead
      of the points, the bar spans exactly the current level's band: the points are
      at least the previous threshold and, below the cap, short of the shown one. */
  lemma ThresholdBoundsPoints(s: Snapshot)
    requires s.user.Some? && s.user.value.level <= LevelFor(s.user.value.points)
    ensures var u := CheckLevelUp(s).next.user.value;
      && u.level == LevelFor(u.points)
      && (u.level < MaxLevel ==> NextLevelPoints(u.level - 1) <= u.points < NextLevelPoints(u.level))
  {
  }

  /** The band can be left behind: a BOY at 1000 points and level 2 whose dropped
      question draws a vote loses the penalty, and the level check, which never
      lowers a level, leaves the bar at 995 of 2000, below the band [1000, 2000). */
  lemma PenaltyLeavesLevelAboveBand()
    ensures var a := User("a", "A", BOY, 1000, 2, "", None, None, None);
            var q := Question("q", "a", "T", "", false, [], ["b", "c"], true, [], "", None, None);
            var s := Snapshot([a], [], [q], Some(a), false, false, "");
            var u := CheckLevelUp(VoteQuestion(s, "q", Down).next).next.user.value;
            && a.level <= LevelFor(a.points)
            && u.points == 995 && u.level == 2
            && u.level > LevelFor(u.points)
            && u.points < NextLevelPoints(u.level - 1)
  {
    var a := User("a", "A", BOY, 1000, 2, "", None, None, None);
    var q := Question("q", "a", "T", "", false, [], ["b", "c"], true, [], "", None, None);
    var s := Snapshot([a], [], [q], Some(a), false, false, "");
    var once := VoteQuestion(s, "q", Down).next;
    assert HasId("a")(a);
    assert UserById(s.users, "a") == Some(a);
    assert QuestionHasId("q")(once.questions[0]);
    assert QuestionById(once.questions, "q") == Some(once.questions[0]);
    assert once.user == Some(a.(points := 995));
  }

  /** Shown on the leaderboard: everyone neither blacklisted nor waiting. */
  predicate Ranked(u: User) {
    u.role != REJECTED && u.role != PENDING
  }

  /** `users.filter(u => u.role !== REJECTED && u.role !== PENDING)`. */
  function RankedUsers(users: seq<User>): (r: seq<User>)
    ensures |r| <= |users|
  {
    if users == [] then []
    else (if Ranked(users[0]) then [users[0]] else []) + RankedUsers(users[1..])
  }

  /** The leaderboard's filter keeps the same users, in the same order, as the admin
      console's roster. */
  lemma {:induction false} RankedIsRoster(users: seq<User>)
    ensures RankedUsers(users) == AdminPanel.Members(users, AdminPanel.Roster)
  {
    if users != [] {
      RankedIsRoster(users[1..]);
    }
  }

  /** The leaderboard's filter keeps its users in list order. */
  lemma RankedKeepsOrder(users: seq<User>)
    ensures IsSubsequence(RankedUsers(users), users)
  {
    RankedIsRoster(users);
    AdminPanel.MembersKeepOrder(users, AdminPanel.Roster);
  }

  /** Points never increase along the list. */
  predicate Descending(us: seq<User>) {
    forall i, j :: 0 <= i < j < |us| ==> us[i].points >= us[j].points
  }

  /** Puts `u` in front of the first entry with no more points than it: one step of
      `sort((a, b) => b.points - a.points)`, ties keeping `u` first. */
  function Insert(u: User, sorted: seq<User>): (r: seq<User>)
    requires Descending(sorted)
    ensures Descending(r)
    ensures multiset(r) == multiset(sorted) + multiset{u}
    ensures |r| > 0 && (r[0] == u || (sorted != [] && r[0] == sorted[0]))
  {
    if sorted == [] || u.points >= sorted[0].points then [u] + sorted
    else
      var rest := Insert(u, sorted[1..]);
      assert sorted == [sorted[0]] + sorted[1..];
      [sorted[0]] + rest
  }

  /** The list ordered by points, highest first. */
  function SortByPoints(us: seq<User>): (r: seq<User>)
    ensures Descending(r)
    ensures multiset(r) == multiset(us)
  {
    if us == [] then []
    else
      assert us == [us[0]] + us[1..];
      Insert(us[0], SortByPoints(us[1..]))
  }

  /** `sortedUsers`. */
  function Leaderboard(users: seq<User>): (r: seq<User>)
    ensures Descending(r)
    ensures multiset(r) == multiset(RankedUsers(users))
  {
    SortByPoints(RankedUsers(users))
  }

  /** The leaderboard is ordered by points, is a rearrangement of the ranked users,
      and holds exactly the users who are neither REJECTED nor PENDING. */
  lemma LeaderboardContents(users: seq<User>, u: User)
    ensures Descending(Leaderboard(users))
    ensures multiset(Leaderboard(users)) == multiset(RankedUsers(users))
    ensures u in Leaderboard(users) <==> u in users && u.role != REJECTED && u.role != PENDING
  {
    RankedIsRoster(users);
    AdminPanel.MemberIff(users, AdminPanel.Roster, u);
    assert u in Leaderboard(users) <==> u in multiset(Leaderboard(users));
  }

  /** The level check's effect runs again whenever the user's points change; it
      also runs when the session user or the user list change, since the check is
      rebuilt from both. */
  predicate LevelCheckDue(before: Snapshot, after: Snapshot)
    requires before.user.Some? && after.user.Some?
  {
    || before.user.value.points != after.user.value.points
    || before.user != after.user
    || before.users != after.users
  }

  /** A claim that moves the claimer's points re-runs the check, which leaves the
      claimer at the level the new points earn or above. */
  lemma ClaimTriggersLevelCheck(s: Snapshot, taskId: Id)
    requires s.user.Some? && CanClaim(s, taskId)
    ensures var claimed := Claim(s, taskId).next;
      && claimed.user.Some?
      && (ClaimAward(TaskById(s.tasks, taskId).value, |TaskById(s.tasks, taskId).value.completedBy|) != 0 ==> LevelCheckDue(s, claimed))
      && var checked := CheckLevelUp(claimed).next.user.value;
      checked.level >= LevelFor(checked.points) && checked.points == claimed.user.value.points
  {
  }
}
