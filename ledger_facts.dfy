/** Properties of the ledger that relate several handler runs: what repeating a
    handler does, what a sequence of group claims adds up to, and where the
    handlers keep (or fail to keep) the lists free of duplicates. */
module LedgerFacts {
  import opened Types
  import opened Text
  import opened Ledger

  // ------------------------------------------------------------- lookups

  /** Lists that agree, position by position, on `p` have the same first match. */
  lemma {:induction false} FirstIndexAgrees<T, U>(xs: seq<T>, p: T -> bool, ys: seq<U>, q: U -> bool)
    requires |xs| == |ys|
    requires forall i :: 0 <= i < |xs| ==> p(xs[i]) == q(ys[i])
    ensures FirstIndex(xs, p) == FirstIndex(ys, q)
  {
    if xs != [] && !p(xs[0]) {
      assert forall i :: 0 <= i < |xs[1..]| ==> xs[1..][i] == xs[i + 1] && ys[1..][i] == ys[i + 1];
      FirstIndexAgrees(xs[1..], p, ys[1..], q);
    }
  }

  ghost predicate UniqueIds(users: seq<User>) {
    forall i, j :: 0 <= i < j < |users| ==> users[i].id != users[j].id
  }

  /** Same length and the same id at every position. */
  ghost predicate SameIds(a: seq<User>, b: seq<User>) {
    |a| == |b| && forall i :: 0 <= i < |a| ==> a[i].id == b[i].id
  }

  /** With unique ids, looking a user up by id finds the one entry carrying it. */
  lemma UserByIdAt(users: seq<User>, j: int)
    requires UniqueIds(users) && 0 <= j < |users|
    ensures UserById(users, users[j].id) == Some(users[j])
  {
    var p := HasId(users[j].id);
    assert p(users[j]);
    var k := FirstIndex(users, p);
    assert p(users[k]);
  }

  /** Lists with the same id at every position find a given id at the same position. */
  lemma UserByIdSameIds(a: seq<User>, b: seq<User>, id: Id)
    requires SameIds(a, b)
    ensures FirstIndex(a, HasId(id)) == FirstIndex(b, HasId(id))
    ensures UserById(a, id).Some? <==> UserById(b, id).Some?
  {
    FirstIndexAgrees(a, HasId(id), b, HasId(id));
  }

  // ------------------------------------------------------------ sessions

  /** Two users whose names differ only in letter case count as the same name. */
  ghost predicate NamesDistinct(users: seq<User>) {
    forall i, j :: 0 <= i < j < |users| ==> !SameIgnoringCase(users[i].name, users[j].name)
  }

  /** Login looks names up case-insensitively before registering, so it never
      creates a second account for a name already in the fetched list. */
  lemma LoginKeepsNamesDistinct(s: Snapshot, fetched: seq<User>, newId: Id, now: string, agent: string)
    requires NamesDistinct(s.users) && NamesDistinct(fetched)
    ensures NamesDistinct(Login(s, fetched, newId, now, agent).next.users)
  {
    var r := Login(s, fetched, newId, now, agent);
    if Trim(s.nameInput) != [] && UserByName(fetched, s.nameInput).None? {
      var all := r.next.users;
      assert all == fetched + [r.next.user.value];
      forall i, j | 0 <= i < j < |all| ensures !SameIgnoringCase(all[i].name, all[j].name) {
        if j == |fetched| {
          assert !NameMatches(s.nameInput)(fetched[i]);
          assert !SameIgnoringCase(fetched[i].name, s.nameInput);
        }
      }
    }
  }

  /** A second poll of the same fetched list changes nothing and raises no alert:
      the pending session was settled (or left waiting) by the first one. */
  lemma PollSettles(s: Snapshot, fetched: seq<User>)
    ensures var once := Poll(s, fetched).next; Poll(once, fetched) == Unchanged(once)
  {
  }

  /** Approving twice is approving once; likewise for rejecting. */
  lemma RoleDecisionsIdempotent(s: Snapshot, id: Id)
    ensures Approve(Approve(s, id).next, id) == Approve(s, id)
    ensures Reject(Reject(s, id).next, id) == Reject(s, id)
  {
    assert SetRole(SetRole(s.users, id, BOY), id, BOY) == SetRole(s.users, id, BOY);
    assert SetRole(SetRole(s.users, id, REJECTED), id, REJECTED) == SetRole(s.users, id, REJECTED);
  }

  /** The last decision wins: a rejected user re-admitted is as if approved outright,
      so REJECTED is not terminal; and an approved user discharged is as if rejected. */
  lemma LastRoleDecisionWins(s: Snapshot, id: Id)
    ensures Approve(Reject(s, id).next, id) == Approve(s, id)
    ensures Reject(Approve(s, id).next, id) == Reject(s, id)
  {
    assert SetRole(SetRole(s.users, id, REJECTED), id, BOY) == SetRole(s.users, id, BOY);
    assert SetRole(SetRole(s.users, id, BOY), id, REJECTED) == SetRole(s.users, id, REJECTED);
  }

  /** After one level check the session user's level is at least the level its points
      earn, so a second check without new points does nothing. */
  lemma LevelCheckSettles(s: Snapshot)
    ensures var once := CheckLevelUp(s).next;
      && (once.user.Some? ==> once.user.value.level >= LevelFor(once.user.value.points))
      && CheckLevelUp(once) == Unchanged(once)
  {
  }

  // ------------------------------------------------------------------ claims

  ghost predicate CompletersDistinct(tasks: seq<Task>) {
    forall i :: 0 <= i < |tasks| ==> NoDuplicates(tasks[i].completedBy)
  }

  /** Claims only append users not yet in `completedBy`, so the lists stay free
      of duplicates. */
  lemma ClaimKeepsCompletersDistinct(s: Snapshot, taskId: Id)
    requires CompletersDistinct(s.tasks)
    ensures CompletersDistinct(Claim(s, taskId).next.tasks)
  {
    if CanClaim(s, taskId) {
      var task := TaskById(s.tasks, taskId).value;
      assert task == s.tasks[FirstIndex(s.tasks, TaskHasId(taskId))];
      assert NoDuplicates(task.completedBy + [s.user.value.id]);
    }
  }

  /** The task list after a claim has the same ids at the same positions, so the
      same task is found. */
  lemma ClaimFindsSameTask(s: Snapshot, taskId: Id, id: Id)
    ensures FirstIndex(Claim(s, taskId).next.tasks, TaskHasId(id)) == FirstIndex(s.tasks, TaskHasId(id))
  {
    var after := Claim(s, taskId).next.tasks;
    assert forall i :: 0 <= i < |s.tasks| ==> after[i].id == s.tasks[i].id;
    FirstIndexAgrees(s.tasks, TaskHasId(id), after, TaskHasId(id));
  }

  /** Claiming the same task twice: the second claim is a no-op. */
  lemma ClaimTwiceIsNoOp(s: Snapshot, taskId: Id)
    ensures var once := Claim(s, taskId).next; Claim(once, taskId) == Unchanged(once)
  {
    if CanClaim(s, taskId) {
      var once := Claim(s, taskId).next;
      ClaimFindsSameTask(s, taskId, taskId);
      assert s.user.value.id in TaskById(once.tasks, taskId).value.completedBy;
    }
  }

  /** The session adopts the claimer's current record, then claims. */
  function ClaimAs(s: Snapshot, uid: Id, taskId: Id): Snapshot {
    Claim(s.(user := UserById(s.users, uid)), taskId).next
  }

  /** The claimers, one after another, each claiming `taskId`. */
  function ClaimInTurn(s: Snapshot, claimers: seq<Id>, taskId: Id): Snapshot
    decreases |claimers|
  {
    if claimers == [] then s
    else ClaimAs(ClaimInTurn(s, claimers[..|claimers| - 1], taskId), claimers[|claimers| - 1], taskId)
  }

  /** What each of `k` completers of a pool holds in the end. */
  function NetShare(pool: int, k: nat): int { if k == 0 then 0 else pool / k }

  /** `users` is `base` with every claimer up by the equal share of `pool`. */
  ghost predicate SharedOut(base: seq<User>, users: seq<User>, claimers: seq<Id>, pool: int) {
    && |users| == |base|
    && forall i :: 0 <= i < |base| ==>
         users[i] == base[i].(points := base[i].points + if base[i].id in claimers then NetShare(pool, |claimers|) else 0)
  }

  /** The arithmetic of one group claim: the newcomer gets `pool / (n + 1)` and the
      `n` earlier completers move from `pool / n` to `pool / (n + 1)`. */
  lemma GroupClaimUsers(base: seq<User>, prev: seq<User>, after: seq<User>, cs: seq<Id>, c: Id, k: int, pool: int)
    requires SharedOut(base, prev, cs, pool) && UniqueIds(base)
    requires 0 <= k < |base| && base[k].id == c && c !in cs
    requires |after| == |prev|
    requires forall i :: 0 <= i < |prev| ==>
      if prev[i].id == c then after[i] == prev[k].(points := prev[k].points + pool / (|cs| + 1))
      else if |cs| > 0 && prev[i].id in cs then after[i] == prev[i].(points := prev[i].points + GroupShift(pool, |cs|))
      else after[i] == prev[i]
    ensures SharedOut(base, after, cs + [c], pool)
  {
    forall i | 0 <= i < |base|
      ensures after[i] == base[i].(points := base[i].points + if base[i].id in cs + [c] then NetShare(pool, |cs| + 1) else 0)
    {
      if base[i].id == c {
        assert i == k;
      }
    }
  }

  /** One more claimer of the group task, claiming with their current record. */
  lemma GroupClaimStep(base: seq<User>, prev: Snapshot, cs: seq<Id>, c: Id, taskId: Id, task: Task)
    requires UniqueIds(base) && SharedOut(base, prev.users, cs, task.points)
    requires TaskById(prev.tasks, taskId) == Some(task.(completedBy := cs)) && task.isGroupTask
    requires c !in cs && UserById(base, c).Some?
    ensures var after := ClaimAs(prev, c, taskId);
      && TaskById(after.tasks, taskId) == Some(task.(completedBy := cs + [c]))
      && SharedOut(base, after.users, cs + [c], task.points)
  {
    assert SameIds(base, prev.users);
    assert UniqueIds(prev.users);
    UserByIdSameIds(base, prev.users, c);
    var k := FirstIndex(base, HasId(c));
    assert k < |base| && base[k].id == c;
    UserByIdAt(prev.users, k);
    assert prev.users[k] == base[k];
    var session := prev.(user := Some(base[k]));
    assert CanClaim(session, taskId);
    var after := Claim(session, taskId).next;
    ClaimFindsSameTask(session, taskId, taskId);
    GroupClaimUsers(base, prev.users, after.users, cs, c, k, task.points);
  }

  /** `k` equal floored shares never exceed the pool they were cut from. */
  lemma SharesFitPool(pool: int, k: nat)
    ensures k * NetShare(pool, k) <= pool || k == 0
  {
    if k > 0 {
      assert pool == k * (pool / k) + pool % k;
    }
  }

  /** The redistribution telescopes: after `k` distinct users claim a fresh group
      task one after another, each of them is up by exactly `pool / k` (the later
      shifts cancel the earlier shares), nobody else moved, and together they got
      no more than the pool. */
  lemma {:induction false} GroupClaimsShareEqually(s: Snapshot, claimers: seq<Id>, taskId: Id, task: Task)
    requires UniqueIds(s.users)
    requires TaskById(s.tasks, taskId) == Some(task) && task.isGroupTask && task.completedBy == []
    requires NoDuplicates(claimers)
    requires forall k :: 0 <= k < |claimers| ==> UserById(s.users, claimers[k]).Some?
    ensures var after := ClaimInTurn(s, claimers, taskId);
      && TaskById(after.tasks, taskId) == Some(task.(completedBy := claimers))
      && SharedOut(s.users, after.users, claimers, task.points)
      && (|claimers| > 0 ==> |claimers| * NetShare(task.points, |claimers|) <= task.points)
    decreases |claimers|
  {
    if claimers == [] {
      assert task.(completedBy := []) == task;
      assert forall i :: 0 <= i < |s.users| ==> s.users[i].(points := s.users[i].points + 0) == s.users[i];
    } else {
      var n := |claimers| - 1;
      var cs, c := claimers[..n], claimers[n];
      assert claimers == cs + [c];
      assert NoDuplicates(cs) && c !in cs;
      GroupClaimsShareEqually(s, cs, taskId, task);
      GroupClaimStep(s.users, ClaimInTurn(s, cs, taskId), cs, c, taskId, task);
      assert ClaimInTurn(s, claimers, taskId) == ClaimAs(ClaimInTurn(s, cs, taskId), c, taskId);
      SharesFitPool(task.points, |claimers|);
    }
  }

  /** The redistribution is not floored: an earlier completer whose recorded points
      are below the shift goes negative. */
  lemma GroupShiftCanGoNegative()
    ensures var a := User("a", "A", BOY, 10, 1, "", None, None, None);
            var b := User("b", "B", BOY, 0, 1, "", None, None, None);
            var t := Task("t", "T", "", 100, WEEKLY, OTHER, "x", true, ["a"], "", None);
            var s := Snapshot([a, b], [t], [], Some(b), false, false, "");
            Claim(s, "t").next.users[0].points == -40
  {
    var a := User("a", "A", BOY, 10, 1, "", None, None, None);
    var b := User("b", "B", BOY, 0, 1, "", None, None, None);
    var t := Task("t", "T", "", 100, WEEKLY, OTHER, "x", true, ["a"], "", None);
    var s := Snapshot([a, b], [t], [], Some(b), false, false, "");
    assert TaskHasId("t")(t);
    assert TaskById(s.tasks, "t") == Some(t);
    assert CanClaim(s, "t");
  }

  // ---------------------------------------------------------------- votes

  /** The ledger keeps every question vote: the same user voting twice is listed twice. */
  lemma RepeatedQuestionVotesAreKept(s: Snapshot, qId: Id, i: int, vote: Vote)
    requires s.user.Some? && 0 <= i < |s.questions| && s.questions[i].id == qId
    ensures var twice := VoteQuestion(VoteQuestion(s, qId, vote).next, qId, vote).next;
      var v := s.user.value.id;
      && twice.questions[i].upvotes == s.questions[i].upvotes + (if vote == Up then [v, v] else [])
      && twice.questions[i].downvotes == s.questions[i].downvotes + (if vote == Down then [v, v] else [])
  {
    var once := VoteQuestion(s, qId, vote).next;
    VoteLandsAt(s, qId, i, vote);
    VoteLandsAt(once, qId, i, vote);
    CastTwice(s.questions[i], s.user.value.id, vote);
  }

  lemma CastTwice(q: Question, v: Id, vote: Vote)
    ensures var twice := CastVote(CastVote(q, v, vote), v, vote);
      && twice.upvotes == q.upvotes + (if vote == Up then [v, v] else [])
      && twice.downvotes == q.downvotes + (if vote == Down then [v, v] else [])
  {
    assert q.upvotes + [v] + [v] == q.upvotes + [v, v];
    assert q.downvotes + [v] + [v] == q.downvotes + [v, v];
    assert q.upvotes + [] == q.upvotes;
    assert q.downvotes + [] == q.downvotes;
  }

  /** One vote changes the voted question by `CastVote` and leaves the voter signed in. */
  lemma VoteLandsAt(s: Snapshot, qId: Id, i: int, vote: Vote)
    requires s.user.Some? && 0 <= i < |s.questions| && s.questions[i].id == qId
    ensures var r := VoteQuestion(s, qId, vote).next;
      && |r.questions| == |s.questions|
      && r.questions[i] == CastVote(s.questions[i], s.user.value.id, vote)
      && r.questions[i].id == qId
      && r.user.Some? && r.user.value.id == s.user.value.id
  {
  }

  /** The question found by id is at the same position after a vote. */
  lemma VoteFindsSameQuestion(s: Snapshot, qId: Id, vote: Vote)
    ensures FirstIndex(VoteQuestion(s, qId, vote).next.questions, QuestionHasId(qId)) == FirstIndex(s.questions, QuestionHasId(qId))
  {
    var after := VoteQuestion(s, qId, vote).next.questions;
    assert forall i :: 0 <= i < |s.questions| ==> after[i].id == s.questions[i].id;
    FirstIndexAgrees(s.questions, QuestionHasId(qId), after, QuestionHasId(qId));
  }

  /** One vote on a question that is already dropped: it stays dropped and first
      in line for its id, and its author is charged. */
  lemma VoteOnDroppedCharges(s: Snapshot, qId: Id, vote: Vote, q: Question, author: User)
    requires s.user.Some? && UniqueIds(s.users)
    requires QuestionById(s.questions, qId) == Some(q) && q.dropped
    requires UserById(s.users, q.authorId) == Some(author)
    ensures var once := VoteQuestion(s, qId, vote).next;
      && once.user.Some? && UniqueIds(once.users)
      && QuestionById(once.questions, qId) == Some(CastVote(q, s.user.value.id, vote))
      && UserById(once.users, author.id) == Some(author.(points := Penalized(author.points)))
  {
    var once := VoteQuestion(s, qId, vote).next;
    VoteFindsSameQuestion(s, qId, vote);
    var q1 := CastVote(q, s.user.value.id, vote);
    assert QuestionById(once.questions, qId) == Some(q1);
    var j := FirstIndex(s.users, HasId(author.id));
    assert s.users[j] == author;
    var p1 := author.(points := Penalized(author.points));
    assert once.users == ReplaceUser(s.users, author.id, p1);
    assert SameIds(s.users, once.users);
    UserByIdAt(once.users, j);
  }

  /** The drop penalty is charged on every vote that leaves the question dropped, not
      only on the vote that drops it: two votes on a dropped question cost its author
      twice. */
  lemma PenaltyChargedPerVote(s: Snapshot, qId: Id, vote: Vote, q: Question, author: User)
    requires s.user.Some? && UniqueIds(s.users)
    requires QuestionById(s.questions, qId) == Some(q) && q.dropped
    requires UserById(s.users, q.authorId) == Some(author)
    ensures var twice := VoteQuestion(VoteQuestion(s, qId, vote).next, qId, vote).next;
      UserById(twice.users, author.id) == Some(author.(points := Penalized(Penalized(author.points))))
  {
    var once := VoteQuestion(s, qId, vote).next;
    VoteOnDroppedCharges(s, qId, vote, q, author);
    var q1 := CastVote(q, s.user.value.id, vote);
    VoteOnDroppedCharges(once, qId, vote, q1, author.(points := Penalized(author.points)));
  }

  /** Ballots `voter` holds across a list of solutions. */
  function Ballots(sols: seq<Solution>, voter: Id): nat {
    if sols == [] then 0 else Occurrences(sols[0].votes, voter) + Ballots(sols[1..], voter)
  }

  /** Number of solutions carrying id `sId`. */
  function Matching(sols: seq<Solution>, sId: Id): nat {
    if sols == [] then 0 else (if sols[0].id == sId then 1 else 0) + Matching(sols[1..], sId)
  }

  ghost predicate SolutionIdsDistinct(sols: seq<Solution>) {
    forall i, j :: 0 <= i < j < |sols| ==> sols[i].id != sols[j].id
  }

  lemma {:induction false} NoBallotsUnlessVoted(sols: seq<Solution>, voter: Id)
    ensures Ballots(sols, voter) == 0 <==> forall k :: 0 <= k < |sols| ==> voter !in sols[k].votes
  {
    if sols != [] {
      NoBallotsUnlessVoted(sols[1..], voter);
      assert forall k :: 1 <= k < |sols| ==> sols[k] == sols[1..][k - 1];
    }
  }

  lemma {:induction false} MatchingAtMostOne(sols: seq<Solution>, sId: Id)
    requires SolutionIdsDistinct(sols)
    ensures Matching(sols, sId) <= 1
  {
    if sols != [] {
      MatchingAtMostOne(sols[1..], sId);
      if sols[0].id == sId {
        MatchingNone(sols[1..], sId);
      }
    }
  }

  lemma {:induction false} MatchingNone(sols: seq<Solution>, sId: Id)
    requires forall k :: 0 <= k < |sols| ==> sols[k].id != sId
    ensures Matching(sols, sId) == 0
  {
    if sols != [] {
      MatchingNone(sols[1..], sId);
    }
  }

  /** Appending the voter to the solutions with id `sId` adds one ballot per such solution. */
  lemma {:induction false} BallotsAfterAppend(sols: seq<Solution>, after: seq<Solution>, sId: Id, voter: Id)
    requires |after| == |sols|
    requires forall k :: 0 <= k < |sols| ==>
      after[k].votes == sols[k].votes + (if sols[k].id == sId then [voter] else [])
    ensures Ballots(after, voter) == Ballots(sols, voter) + Matching(sols, sId)
  {
    if sols != [] {
      assert forall k :: 0 <= k < |sols[1..]| ==>
        after[1..][k].votes == sols[1..][k].votes + (if sols[1..][k].id == sId then [voter] else []);
      BallotsAfterAppend(sols[1..], after[1..], sId, voter);
      if sols[0].id == sId {
        OccurrencesAppend(sols[0].votes, voter, voter);
      } else {
        assert after[0].votes == sols[0].votes;
      }
    }
  }

  /** One solution vote per question and user: a user with at most one ballot on a
      question (distinct solution ids) still has at most one after voting again; a
      user with none gains exactly one for an existing solution id. */
  lemma SolutionVoteKeepsOneBallot(q: Question, sId: Id, voter: Id)
    requires SolutionIdsDistinct(q.solutions)
    ensures var after := VoteFor(q, sId, voter).solutions;
      && (Ballots(q.solutions, voter) <= 1 ==> Ballots(after, voter) <= 1)
      && (!VotedOnAnySolution(q, voter) ==> Ballots(after, voter) == Matching(q.solutions, sId))
  {
    var after := VoteFor(q, sId, voter);
    if !VotedOnAnySolution(q, voter) {
      NoBallotsUnlessVoted(q.solutions, voter);
      assert forall k :: 0 <= k < |q.solutions| ==>
        after.solutions[k].votes == q.solutions[k].votes + (if q.solutions[k].id == sId then [voter] else []);
      BallotsAfterAppend(q.solutions, after.solutions, sId, voter);
      MatchingAtMostOne(q.solutions, sId);
    }
  }

  /** A second solution vote on the same question, for any solution, is ignored once
      the first one has landed on an existing solution. */
  lemma SecondSolutionVoteIgnored(q: Question, s1: Id, s2: Id, voter: Id, k: int)
    requires 0 <= k < |q.solutions| && q.solutions[k].id == s1
    ensures VoteFor(VoteFor(q, s1, voter), s2, voter) == VoteFor(q, s1, voter)
  {
    var once := VoteFor(q, s1, voter);
    if !VotedOnAnySolution(q, voter) {
      assert voter in once.solutions[k].votes;
    }
  }
}
