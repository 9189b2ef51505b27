/** The session ledger of App.tsx: every handler, as a function from the
    session's snapshot (and what the store returned) to the next snapshot,
    the whole collections it writes back and the alert it raises. */
module Ledger {
  import opened Types
  import opened Text

  /** The state App.tsx keeps with `useState` (the current view excepted). */
  datatype Snapshot = Snapshot(
    users: seq<User>,
    tasks: seq<Task>,
    questions: seq<Question>,
    user: Option<User>,
    pendingStatus: bool,
    isLoading: bool,
    nameInput: string)

  /** What a handler sends to the store. Each present list replaces the stored
      collection as a whole; there is no per-record patch. */
  datatype Writes = Writes(
    users: Option<seq<User>>,
    tasks: Option<seq<Task>>,
    questions: Option<seq<Question>>)

  const NoWrites := Writes(None, None, None)

  /** One handler run: the next snapshot, the writes it issued, the alert it showed. */
  datatype Step = Step(next: Snapshot, writes: Writes, alert: Option<string>)

  datatype Vote = Up | Down

  const AccessDeniedAlert := "ACCESS DENIED. You have been blacklisted from The Boys."
  const TerminatedAlert := "CONNECTION TERMINATED: ACCESS DENIED BY ADMIN."
  const MaxLevel := 10
  const PointsPerLevel := 1000
  const DropPenalty := 5

  /** Before the first fetch: nothing loaded, no session. */
  const Initial := Snapshot([], [], [], None, false, true, "")

  function Unchanged(s: Snapshot): Step { Step(s, NoWrites, None) }

  // ---------------------------------------------------------------- lookups

  /** Position of the first element satisfying `p` (`findIndex`), or `|xs|` when none does. */
  function FirstIndex<T>(xs: seq<T>, p: T -> bool): (k: nat)
    ensures k <= |xs|
    ensures k < |xs| ==> p(xs[k])
    ensures forall j :: 0 <= j < k ==> !p(xs[j])
  {
    if xs == [] then 0
    else if p(xs[0]) then 0
    else 1 + FirstIndex(xs[1..], p)
  }

  /** `find`: the first element satisfying `p`. */
  function Find<T>(xs: seq<T>, p: T -> bool): (r: Option<T>)
    ensures r.None? <==> forall j :: 0 <= j < |xs| ==> !p(xs[j])
    ensures r.Some? ==> r.value == xs[FirstIndex(xs, p)]
  {
    var k := FirstIndex(xs, p);
    if k < |xs| then Some(xs[k]) else None
  }

  function HasId(id: Id): User -> bool { (u: User) => u.id == id }

  function UserById(users: seq<User>, id: Id): Option<User> { Find(users, HasId(id)) }

  function NameMatches(name: string): User -> bool { (u: User) => SameIgnoringCase(u.name, name) }

  function UserByName(users: seq<User>, name: string): Option<User> { Find(users, NameMatches(name)) }

  function TaskHasId(id: Id): Task -> bool { (t: Task) => t.id == id }

  function TaskById(tasks: seq<Task>, id: Id): Option<Task> { Find(tasks, TaskHasId(id)) }

  function QuestionHasId(id: Id): Question -> bool { (q: Question) => q.id == id }

  function QuestionById(questions: seq<Question>, id: Id): Option<Question> {
    Find(questions, QuestionHasId(id))
  }

  // ------------------------------------------------------- list transforms

  /** `users.map(u => u.id === id ? v : u)`. */
  function ReplaceUser(users: seq<User>, id: Id, v: User): seq<User> {
    seq(|users|, i requires 0 <= i < |users| => if users[i].id == id then v else users[i])
  }

  /** `users.map(u => u.id === id ? { ...u, role } : u)`. */
  function SetRole(users: seq<User>, id: Id, role: Role): seq<User> {
    seq(|users|, i requires 0 <= i < |users| => if users[i].id == id then users[i].(role := role) else users[i])
  }

  /** `users.map(u => ids.includes(u.id) ? { ...u, points: u.points + delta } : u)`. */
  function ShiftPoints(users: seq<User>, ids: seq<Id>, delta: int): seq<User> {
    seq(|users|, i requires 0 <= i < |users| =>
      if users[i].id in ids then users[i].(points := users[i].points + delta) else users[i])
  }

  function ReplaceTask(tasks: seq<Task>, id: Id, v: Task): seq<Task> {
    seq(|tasks|, i requires 0 <= i < |tasks| => if tasks[i].id == id then v else tasks[i])
  }

  /** `questions.map(q => q.id !== id ? q : f(q))`. */
  function MapQuestion(questions: seq<Question>, id: Id, f: Question -> Question): seq<Question> {
    seq(|questions|, i requires 0 <= i < |questions| => if questions[i].id == id then f(questions[i]) else questions[i])
  }

  // ------------------------------------------------------------ login/poll

  /** The record a first login creates. */
  function Recruit(id: Id, name: string, now: string, agent: string): User {
    User(id, name, PENDING, 0, 1, now, Some(agent), None, None)
  }

  /** `handleLogin` (App.tsx:96-142). The store is read once (`fetched`); a new
      name is appended to that fresh list and the whole list is saved. */
  function Login(s: Snapshot, fetched: seq<User>, newId: Id, now: string, agent: string): (r: Step)
    // a name that trims to nothing: no effect at all
    ensures Trim(s.nameInput) == [] ==> r == Unchanged(s)
    // otherwise loading ends, the fetched list is adopted, and tasks, questions and input stay
    ensures Trim(s.nameInput) != [] ==>
      && !r.next.isLoading
      && r.next.tasks == s.tasks && r.next.questions == s.questions && r.next.nameInput == s.nameInput
    // a known name (case-insensitive, untrimmed input): nothing is created or saved
    ensures Trim(s.nameInput) != [] && UserByName(fetched, s.nameInput).Some? ==>
      var e := UserByName(fetched, s.nameInput).value;
      && e in fetched && SameIgnoringCase(e.name, s.nameInput)
      && r.next.users == fetched && r.writes == NoWrites
      && (e.role == REJECTED ==>
            r.alert == Some(AccessDeniedAlert) && r.next.user == s.user && r.next.pendingStatus == s.pendingStatus)
      && (e.role == PENDING ==> r.alert == None && r.next.user == Some(e) && r.next.pendingStatus)
      && (e.role in {BOY, ADMIN} ==> r.alert == None && r.next.user == Some(e) && !r.next.pendingStatus)
    // an unknown name: exactly one PENDING recruit with 0 points and level 1 is appended and saved
    ensures Trim(s.nameInput) != [] && UserByName(fetched, s.nameInput).None? ==>
      && r.next.user.Some?
      && var u := r.next.user.value;
      && u.id == newId && u.name == s.nameInput && u.role == PENDING && u.points == 0 && u.level == 1
      && u.deviceDetails == Some(agent)
      && r.next.users == fetched + [u]
      && r.writes == Writes(Some(r.next.users), None, None)
      && r.next.pendingStatus && r.alert == None
  {
    if Trim(s.nameInput) == [] then Unchanged(s)
    else
      var loaded := s.(users := fetched, isLoading := false);
      match UserByName(fetched, s.nameInput)
      case Some(e) =>
        if e.role == REJECTED then Step(loaded, NoWrites, Some(AccessDeniedAlert))
        else if e.role == PENDING then Step(loaded.(pendingStatus := true, user := Some(e)), NoWrites, None)
        else Step(loaded.(user := Some(e), pendingStatus := false), NoWrites, None)
      case None =>
        var u := Recruit(newId, s.nameInput, now, agent);
        var all := fetched + [u];
        Step(loaded.(users := all, user := Some(u), pendingStatus := true), Writes(Some(all), None, None), None)
  }

  /** The initial fetch (App.tsx:66-79): all three collections, then loading ends. */
  function Load(s: Snapshot, users: seq<User>, tasks: seq<Task>, questions: seq<Question>): (r: Snapshot)
    ensures r.users == users && r.tasks == tasks && r.questions == questions && !r.isLoading
    ensures r.user == s.user && r.pendingStatus == s.pendingStatus && r.nameInput == s.nameInput
  {
    s.(users := users, tasks := tasks, questions := questions, isLoading := false)
  }

  /** One tick of the polling interval (App.tsx:32-58); no interval runs while loading. */
  function Poll(s: Snapshot, fetched: seq<User>): (r: Step)
    ensures s.isLoading ==> r == Unchanged(s)
    ensures !s.isLoading ==>
      && r.next.users == fetched && r.writes == NoWrites
      && r.next.tasks == s.tasks && r.next.questions == s.questions && !r.next.isLoading
    // a session that is not waiting keeps user, pending flag and input
    ensures !(s.pendingStatus && s.user.Some?) ==>
      r.next.user == s.user && r.next.pendingStatus == s.pendingStatus && r.next.nameInput == s.nameInput
      && r.alert == None
    // a waiting session looks itself up by id in the fetched list
    ensures !s.isLoading && s.pendingStatus && s.user.Some? ==>
      var me := UserById(fetched, s.user.value.id);
      && (me.Some? && me.value.role == BOY ==>
            r.next.user == me && !r.next.pendingStatus && r.next.nameInput == s.nameInput && r.alert == None)
      && (me.Some? && me.value.role == REJECTED ==>
            r.next.user == None && !r.next.pendingStatus && r.next.nameInput == [] && r.alert == Some(TerminatedAlert))
      && (me.None? || me.value.role in {ADMIN, PENDING} ==>
            r.next.user == s.user && r.next.pendingStatus && r.next.nameInput == s.nameInput && r.alert == None)
  {
    if s.isLoading then Unchanged(s)
    else
      var synced := s.(users := fetched);
      if s.pendingStatus && s.user.Some? then
        match UserById(fetched, s.user.value.id)
        case Some(me) =>
          if me.role == BOY then Step(synced.(user := Some(me), pendingStatus := false), NoWrites, None)
          else if me.role == REJECTED then
            Step(synced.(user := None, pendingStatus := false, nameInput := []), NoWrites, Some(TerminatedAlert))
          else Step(synced, NoWrites, None)
        case None => Step(synced, NoWrites, None)
      else Step(synced, NoWrites, None)
  }

  // -------------------------------------------------------- admin actions

  /** Every field of every user is kept except the role of the users with id `id`,
      which becomes `role`. */
  ghost predicate OnlyRoleSet(before: seq<User>, after: seq<User>, id: Id, role: Role) {
    && |after| == |before|
    && forall i :: 0 <= i < |before| ==>
         && after[i].(role := before[i].role) == before[i]
         && after[i].role == if before[i].id == id then role else before[i].role
  }

  /** `approveUser` (App.tsx:145-149). */
  function Approve(s: Snapshot, id: Id): (r: Step)
    ensures OnlyRoleSet(s.users, r.next.users, id, BOY)
    ensures r.next == s.(users := r.next.users) && r.writes == Writes(Some(r.next.users), None, None)
    ensures r.alert == None
  {
    var users := SetRole(s.users, id, BOY);
    Step(s.(users := users), Writes(Some(users), None, None), None)
  }

  /** `rejectUser` (App.tsx:151-155). */
  function Reject(s: Snapshot, id: Id): (r: Step)
    ensures OnlyRoleSet(s.users, r.next.users, id, REJECTED)
    ensures r.next == s.(users := r.next.users) && r.writes == Writes(Some(r.next.users), None, None)
    ensures r.alert == None
  {
    var users := SetRole(s.users, id, REJECTED);
    Step(s.(users := users), Writes(Some(users), None, None), None)
  }

  // ------------------------------------------------------------------ level

  /** `Math.min(10, Math.floor(points / 1000) + 1)`: the thousand-point band that
      holds `points`, capped at 10 (for a positive divisor Dafny's `/` floors). */
  function LevelFor(points: int): (level: int)
    ensures level <= MaxLevel
    ensures level == MaxLevel || (level - 1) * PointsPerLevel <= points < level * PointsPerLevel
    ensures points >= 0 ==> 1 <= level
  {
    Min(MaxLevel, points / PointsPerLevel + 1)
  }

  /** `checkLevelUp` (App.tsx:82-93): only the session user, only upwards. */
  function CheckLevelUp(s: Snapshot): (r: Step)
    ensures s.user.None? ==> r == Unchanged(s)
    ensures s.user.Some? ==>
      var u := s.user.value;
      && r.next.user == Some(u.(level := Max(u.level, LevelFor(u.points))))
      && r.next == s.(user := r.next.user, users := r.next.users) && r.alert == None
      && |r.next.users| == |s.users|
      && (LevelFor(u.points) > u.level ==>
            && r.writes == Writes(Some(r.next.users), None, None)
            && forall i :: 0 <= i < |s.users| ==>
                 r.next.users[i] == if s.users[i].id == u.id then r.next.user.value else s.users[i])
      && (LevelFor(u.points) <= u.level ==> r == Unchanged(s))
  {
    match s.user
    case None => Unchanged(s)
    case Some(u) =>
      var calculated := LevelFor(u.points);
      if calculated > u.level then
        var updated := u.(level := calculated);
        var users := ReplaceUser(s.users, u.id, updated);
        Step(s.(user := Some(updated), users := users), Writes(Some(users), None, None), None)
      else Unchanged(s)
  }

  // ------------------------------------------------------------------ tasks

  /** What the claimer of `task` receives when `n` users completed it before:
      the whole reward for a solo task, the new per-person share of a group task. */
  function ClaimAward(task: Task, n: nat): (award: int)
    ensures !task.isGroupTask ==> award == task.points
    ensures task.isGroupTask ==> award * (n + 1) <= task.points < (award + 1) * (n + 1)
  {
    if task.isGroupTask then task.points / (n + 1) else task.points
  }

  /** How much each earlier completer of a group task moves when the (n+1)-th claims:
      the new share minus the old one. */
  function GroupShift(pool: int, n: nat): (delta: int)
    requires n > 0
    ensures pool >= 0 ==> delta <= 0
  {
    ShareShrinks(pool, n);
    pool / (n + 1) - pool / n
  }

  /** A non-negative pool split among more people gives nobody a larger share. */
  lemma ShareShrinks(pool: int, n: nat)
    requires n > 0
    ensures pool >= 0 ==> pool / (n + 1) <= pool / n
  {
    if pool >= 0 {
      var a, b := pool / (n + 1), pool / n;
      assert a * (n + 1) <= pool;
      assert a >= 0;
      assert a * n <= a * (n + 1);
      assert pool < (b + 1) * n;
    }
  }

  /** The claim handler's guard (App.tsx:159-161): a session user, a task with that id,
      and the user not yet among its completers. */
  predicate CanClaim(s: Snapshot, taskId: Id) {
    && s.user.Some?
    && TaskById(s.tasks, taskId).Some?
    && s.user.value.id !in TaskById(s.tasks, taskId).value.completedBy
  }

  /** `claimTask` (App.tsx:158-204). */
  function Claim(s: Snapshot, taskId: Id): (r: Step)
    ensures !CanClaim(s, taskId) ==> r == Unchanged(s)
    ensures CanClaim(s, taskId) ==>
      var u := s.user.value;
      var task := TaskById(s.tasks, taskId).value;
      var n := |task.completedBy|;
      var award := ClaimAward(task, n);
      // the claimer is appended once to every task with that id
      && |r.next.tasks| == |s.tasks|
      && (forall i :: 0 <= i < |s.tasks| ==>
            r.next.tasks[i] == if s.tasks[i].id == taskId then task.(completedBy := task.completedBy + [u.id]) else s.tasks[i])
      // the session user (and its entries in the list) gain the award
      && r.next.user == Some(u.(points := u.points + award))
      && |r.next.users| == |s.users|
      && (forall i :: 0 <= i < |s.users| ==>
            if s.users[i].id == u.id then r.next.users[i] == r.next.user.value
            else if task.isGroupTask && n > 0 && s.users[i].id in task.completedBy then
              r.next.users[i] == s.users[i].(points := s.users[i].points + GroupShift(task.points, n))
            else r.next.users[i] == s.users[i])
      && r.next == s.(tasks := r.next.tasks, users := r.next.users, user := r.next.user)
      && r.writes == Writes(Some(r.next.users), Some(r.next.tasks), None)
      && r.alert == None
  {
    if !CanClaim(s, taskId) then Unchanged(s)
    else
      var u := s.user.value;
      var task := TaskById(s.tasks, taskId).value;
      var n := |task.completedBy|;
      var shifted := if task.isGroupTask && n > 0 then ShiftPoints(s.users, task.completedBy, GroupShift(task.points, n)) else s.users;
      var tasks := ReplaceTask(s.tasks, taskId, task.(completedBy := task.completedBy + [u.id]));
      var updated := u.(points := u.points + ClaimAward(task, n));
      var users := ReplaceUser(shifted, u.id, updated);
      Step(s.(tasks := tasks, user := Some(updated), users := users), Writes(Some(users), Some(tasks), None), None)
  }

  /** `createTask` (App.tsx:207-211): the new task goes first. */
  function CreateTask(s: Snapshot, task: Task): (r: Step)
    ensures r.next.tasks == [task] + s.tasks
    ensures r.next == s.(tasks := r.next.tasks) && r.writes == Writes(None, Some(r.next.tasks), None)
    ensures r.alert == None
  {
    var tasks := [task] + s.tasks;
    Step(s.(tasks := tasks), Writes(None, Some(tasks), None), None)
  }

  // -------------------------------------------------------------- questions

  /** `addQuestion` (App.tsx:214-232): a fresh question goes first; only an admin's
      skips the voting phase. */
  function AddQuestion(s: Snapshot, title: string, content: string, id: Id, now: string): (r: Step)
    ensures s.user.None? ==> r == Unchanged(s)
    ensures s.user.Some? ==>
      && |r.next.questions| == |s.questions| + 1 && r.next.questions[1..] == s.questions
      && var q := r.next.questions[0];
      && q.id == id && q.authorId == s.user.value.id && q.title == title && q.content == content
      && q.isInterestCheck == (s.user.value.role != ADMIN)
      && q.upvotes == [] && q.downvotes == [] && q.solutions == [] && !q.dropped
      && r.next == s.(questions := r.next.questions)
      && r.writes == Writes(None, None, Some(r.next.questions)) && r.alert == None
  {
    match s.user
    case None => Unchanged(s)
    case Some(u) =>
      var q := Question(id, u.id, title, content, u.role != ADMIN, [], [], false, [], now, None, None);
      var questions := [q] + s.questions;
      Step(s.(questions := questions), Writes(None, None, Some(questions)), None)
  }

  /** The drop rule: at least two downvotes and more downvotes than upvotes. */
  predicate DropRule(up: seq<Id>, down: seq<Id>) {
    |down| >= 2 && |down| > |up|
  }

  /** The per-question part of `voteQuestion` (App.tsx:237-247). The voter is
      appended with no check for an earlier vote; `dropped` is never reset. */
  function CastVote(q: Question, voter: Id, vote: Vote): (r: Question)
    ensures r.upvotes == if vote == Up then q.upvotes + [voter] else q.upvotes
    ensures r.downvotes == if vote == Down then q.downvotes + [voter] else q.downvotes
    ensures r.dropped <==> q.dropped || DropRule(r.upvotes, r.downvotes)
    ensures r.isInterestCheck <==> !r.dropped && q.isInterestCheck
    ensures r.(upvotes := q.upvotes, downvotes := q.downvotes, dropped := q.dropped, isInterestCheck := q.isInterestCheck) == q
  {
    var up := if vote == Up then q.upvotes + [voter] else q.upvotes;
    var down := if vote == Down then q.downvotes + [voter] else q.downvotes;
    var dropped := if DropRule(up, down) then true else q.dropped;
    q.(upvotes := up, downvotes := down, dropped := dropped, isInterestCheck := if dropped then false else q.isInterestCheck)
  }

  /** `Math.max(0, points - 5)`. */
  function Penalized(points: int): (p: int)
    ensures p >= 0 && p <= Max(points, 0)
    ensures points >= DropPenalty ==> p == points - DropPenalty
  {
    Max(0, points - DropPenalty)
  }

  /** `voteQuestion` (App.tsx:234-265): the vote, then the penalty for the author of
      the resulting question whenever it is dropped. */
  function VoteQuestion(s: Snapshot, qId: Id, vote: Vote): (r: Step)
    ensures s.user.None? ==> r == Unchanged(s)
    ensures s.user.Some? ==>
      var voter := s.user.value.id;
      && |r.next.questions| == |s.questions|
      && (forall i :: 0 <= i < |s.questions| ==>
            r.next.questions[i] == if s.questions[i].id == qId then CastVote(s.questions[i], voter, vote) else s.questions[i])
      && r.writes.questions == Some(r.next.questions) && r.writes.tasks == None
      && r.next.tasks == s.tasks && r.alert == None
      && r.next.pendingStatus == s.pendingStatus && r.next.isLoading == s.isLoading && r.next.nameInput == s.nameInput
      && var dq := QuestionById(r.next.questions, qId);
      // penalised whenever the voted question ends up dropped and its author is known
      && (if dq.Some? && dq.value.dropped && UserById(s.users, dq.value.authorId).Some? then
            var author := UserById(s.users, dq.value.authorId).value;
            var punished := author.(points := Penalized(author.points));
            && r.next.users == ReplaceUser(s.users, author.id, punished)
            && r.writes.users == Some(r.next.users)
            && r.next.user == if voter == author.id then Some(punished) else s.user
          else
            r.next.users == s.users && r.next.user == s.user && r.writes.users == None)
  {
    match s.user
    case None => Unchanged(s)
    case Some(u) =>
      var questions := MapQuestion(s.questions, qId, (q: Question) => CastVote(q, u.id, vote));
      var voted := s.(questions := questions);
      match QuestionById(questions, qId)
      case Some(dq) =>
        if dq.dropped then
          match UserById(s.users, dq.authorId)
          case Some(author) =>
            var punished := author.(points := Penalized(author.points));
            var users := ReplaceUser(s.users, author.id, punished);
            Step(voted.(users := users, user := if u.id == author.id then Some(punished) else s.user),
                 Writes(Some(users), None, Some(questions)), None)
          case None => Step(voted, Writes(None, None, Some(questions)), None)
        else Step(voted, Writes(None, None, Some(questions)), None)
      case None => Step(voted, Writes(None, None, Some(questions)), None)
  }

  /** `addSolution` (App.tsx:267-278): no check of phase or drop. */
  function AddSolution(s: Snapshot, qId: Id, content: string, id: Id): (r: Step)
    ensures s.user.None? ==> r == Unchanged(s)
    ensures s.user.Some? ==>
      && |r.next.questions| == |s.questions|
      && (forall i :: 0 <= i < |s.questions| ==>
            var q := s.questions[i];
            r.next.questions[i] ==
              if q.id == qId then q.(solutions := q.solutions + [Solution(id, s.user.value.id, content, [], None)]) else q)
      && r.next == s.(questions := r.next.questions)
      && r.writes == Writes(None, None, Some(r.next.questions)) && r.alert == None
  {
    match s.user
    case None => Unchanged(s)
    case Some(u) =>
      var sol := Solution(id, u.id, content, [], None);
      var questions := MapQuestion(s.questions, qId, (q: Question) => q.(solutions := q.solutions + [sol]));
      Step(s.(questions := questions), Writes(None, None, Some(questions)), None)
  }

  /** Whether `voter` already voted for any solution of `q` (App.tsx:284). */
  predicate VotedOnAnySolution(q: Question, voter: Id) {
    exists k :: 0 <= k < |q.solutions| && voter in q.solutions[k].votes
  }

  /** The per-question part of `voteSolution` (App.tsx:283-290). */
  function VoteFor(q: Question, sId: Id, voter: Id): (r: Question)
    ensures VotedOnAnySolution(q, voter) ==> r == q
    ensures !VotedOnAnySolution(q, voter) ==>
      && r == q.(solutions := r.solutions) && |r.solutions| == |q.solutions|
      && forall k :: 0 <= k < |q.solutions| ==>
           r.solutions[k] == if q.solutions[k].id == sId
                             then q.solutions[k].(votes := q.solutions[k].votes + [voter])
                             else q.solutions[k]
  {
    if VotedOnAnySolution(q, voter) then q
    else q.(solutions := seq(|q.solutions|, k requires 0 <= k < |q.solutions| =>
              var sol := q.solutions[k];
              if sol.id == sId then sol.(votes := sol.votes + [voter]) else sol))
  }

  /** `voteSolution` (App.tsx:280-294). */
  function VoteSolution(s: Snapshot, qId: Id, sId: Id): (r: Step)
    ensures s.user.None? ==> r == Unchanged(s)
    ensures s.user.Some? ==>
      && |r.next.questions| == |s.questions|
      && (forall i :: 0 <= i < |s.questions| ==>
            r.next.questions[i] == if s.questions[i].id == qId then VoteFor(s.questions[i], sId, s.user.value.id) else s.questions[i])
      && r.next == s.(questions := r.next.questions)
      && r.writes == Writes(None, None, Some(r.next.questions)) && r.alert == None
  {
    match s.user
    case None => Unchanged(s)
    case Some(u) =>
      var questions := MapQuestion(s.questions, qId, (q: Question) => VoteFor(q, sId, u.id));
      Step(s.(questions := questions), Writes(None, None, Some(questions)), None)
  }

  // ----------------------------------------------------------- small steps

  /** "Back / Cancel Request" (App.tsx:318): only the pending flag is cleared. */
  function CancelPending(s: Snapshot): (r: Snapshot)
    ensures !r.pendingStatus && r.(pendingStatus := s.pendingStatus) == s
  {
    s.(pendingStatus := false)
  }

  /** Typing into the codename box, or a quick-login button (App.tsx:297-299, 334). */
  function SetNameInput(s: Snapshot, text: string): (r: Snapshot)
    ensures r.nameInput == text && r.(nameInput := s.nameInput) == s
  {
    s.(nameInput := text)
  }

  // ----------------------------------------------------------------- screen

  datatype Screen = Connecting | AccessPending | LoginForm | Main(adminConsole: bool)

  /** The screen App.tsx renders (App.tsx:301-355, 379, 465): loading first, then the
      pending wait, then the login form when there is no user; otherwise the main
      view, with the admin console only for an ADMIN. */
  function ScreenOf(s: Snapshot): (v: Screen)
    ensures v == Connecting <==> s.isLoading
    ensures v == AccessPending <==> !s.isLoading && s.pendingStatus
    ensures v == LoginForm <==> !s.isLoading && !s.pendingStatus && s.user.None?
    ensures v.Main? <==> !s.isLoading && !s.pendingStatus && s.user.Some?
    ensures v.Main? ==> (v.adminConsole <==> s.user.value.role == ADMIN)
  {
    if s.isLoading then Connecting
    else if s.pendingStatus then AccessPending
    else match s.user
      case None => LoginForm
      case Some(u) => Main(u.role == ADMIN)
  }
}
