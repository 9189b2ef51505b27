/** The App component's state and handlers (App.tsx), as a class whose fields are
    the `useState` slots and whose methods update them step by step the way the
    handlers do. Each method is proved to produce exactly the step the ledger
    function of the same name describes: the ledger function is the
    specification, and the method body is the handler's own step-by-step
    version of it. */
module Session {
  import opened Types
  import opened Text
  import opened Ledger

  class Session {
    var users: seq<User>
    var tasks: seq<Task>
    var questions: seq<Question>
    var user: Option<User>
    var pendingStatus: bool
    var isLoading: bool
    var nameInput: string

    /** The session as a ledger snapshot. */
    function State(): Snapshot
      reads this
    {
      Snapshot(users, tasks, questions, user, pendingStatus, isLoading, nameInput)
    }

    /** A freshly mounted App: empty collections, loading, no session. */
    constructor ()
      ensures State() == Initial
    {
      users, tasks, questions := [], [], [];
      user, pendingStatus, isLoading, nameInput := None, false, true, "";
    }

    /** `fetchData` (App.tsx:66-79). */
    method FetchAll(fetchedUsers: seq<User>, fetchedTasks: seq<Task>, fetchedQuestions: seq<Question>)
      modifies this
      ensures State() == Load(old(State()), fetchedUsers, fetchedTasks, fetchedQuestions)
    {
      users := fetchedUsers;
      tasks := fetchedTasks;
      questions := fetchedQuestions;
      isLoading := false;
    }

    /** The codename input and the quick-login buttons (App.tsx:297-299, 334). */
    method TypeName(text: string)
      modifies this
      ensures State() == SetNameInput(old(State()), text)
    {
      nameInput := text;
    }

    /** "Back / Cancel Request" (App.tsx:318). */
    method CancelRequest()
      modifies this
      ensures State() == CancelPending(old(State()))
    {
      pendingStatus := false;
    }

    /** `handleLogin` (App.tsx:96-142); `fetched` is what `getUsers` returned. */
    method HandleLogin(fetched: seq<User>, newId: Id, now: string, agent: string) returns (saved: Writes, alert: Option<string>)
      modifies this
      ensures Step(State(), saved, alert) == Login(old(State()), fetched, newId, now, agent)
    {
      saved, alert := NoWrites, None;
      var s := State();
      if Trim(s.nameInput) == [] {
        return;
      }
      var existing := UserByName(fetched, s.nameInput);
      var nextUsers, nextUser, nextPending := fetched, s.user, s.pendingStatus;
      if existing.Some? {
        if existing.value.role == REJECTED {
          alert := Some(AccessDeniedAlert);
        } else if existing.value.role == PENDING {
          nextUser, nextPending := existing, true;
        } else {
          nextUser, nextPending := existing, false;
        }
      } else {
        var newUser := Recruit(newId, s.nameInput, now, agent);
        nextUsers := fetched + [newUser];
        saved := Writes(Some(nextUsers), None, None);
        nextUser, nextPending := Some(newUser), true;
      }
      ghost var next := s.(users := nextUsers, user := nextUser, pendingStatus := nextPending, isLoading := false);
      assert Step(next, saved, alert) == Login(s, fetched, newId, now, agent);
      users, user, pendingStatus, isLoading := nextUsers, nextUser, nextPending, false;
    }

    /** One tick of the polling interval (App.tsx:32-58). */
    method PollTick(fetched: seq<User>) returns (alert: Option<string>)
      modifies this
      ensures Step(State(), NoWrites, alert) == Poll(old(State()), fetched)
    {
      alert := None;
      if isLoading {
        return;
      }
      if users != fetched {
        users := fetched;
      }
      if pendingStatus && user.Some? {
        var me := UserById(fetched, user.value.id);
        if me.Some? {
          if me.value.role == BOY {
            user := me;
            pendingStatus := false;
          } else if me.value.role == REJECTED {
            user := None;
            pendingStatus := false;
            nameInput := "";
            alert := Some(TerminatedAlert);
          }
        }
      }
    }

    /** `approveUser` (App.tsx:145-149). */
    method ApproveUser(id: Id) returns (saved: Writes)
      modifies this
      ensures Step(State(), saved, None) == Approve(old(State()), id)
    {
      var newUsers := SetRole(users, id, BOY);
      users := newUsers;
      saved := Writes(Some(newUsers), None, None);
    }

    /** `rejectUser` (App.tsx:151-155). */
    method RejectUser(id: Id) returns (saved: Writes)
      modifies this
      ensures Step(State(), saved, None) == Reject(old(State()), id)
    {
      var newUsers := SetRole(users, id, REJECTED);
      users := newUsers;
      saved := Writes(Some(newUsers), None, None);
    }

    /** `checkLevelUp` (App.tsx:82-93). */
    method LevelCheck() returns (saved: Writes)
      modifies this
      ensures Step(State(), saved, None) == CheckLevelUp(old(State()))
    {
      saved := NoWrites;
      if user.None? {
        return;
      }
      var me := user.value;
      var calculatedLevel := Min(10, me.points / 1000 + 1);
      if calculatedLevel > me.level {
        var updated := me.(level := calculatedLevel);
        user := Some(updated);
        var newUsers := ReplaceUser(users, me.id, updated);
        users := newUsers;
        saved := Writes(Some(newUsers), None, None);
      }
    }

    /** `claimTask` (App.tsx:158-204), with its running `newUsersList`. */
    method ClaimTask(taskId: Id) returns (saved: Writes)
      modifies this
      ensures Step(State(), saved, None) == Claim(old(State()), taskId)
    {
      saved := NoWrites;
      if user.None? {
        return;
      }
      ghost var s0 := State();
      var me := user.value;
      var found := TaskById(tasks, taskId);
      if found.Some? && me.id !in found.value.completedBy {
        var task := found.value;
        var pointsAwarded := task.points;
        var newUsersList := users;
        if task.isGroupTask {
          var oldCompleters := task.completedBy;
          var newCount := |oldCompleters| + 1;
          var newPointsPerPerson := task.points / newCount;
          pointsAwarded := newPointsPerPerson;
          if |oldCompleters| > 0 {
            var oldPointsPerPerson := task.points / |oldCompleters|;
            var delta := newPointsPerPerson - oldPointsPerPerson;
            assert delta == GroupShift(task.points, |oldCompleters|);
            newUsersList := ShiftPoints(newUsersList, oldCompleters, delta);
          }
        }
        assert pointsAwarded == ClaimAward(task, |task.completedBy|);
        var updatedTask := task.(completedBy := task.completedBy + [me.id]);
        var updatedTasks := ReplaceTask(tasks, taskId, updatedTask);
        var updatedUser := me.(points := me.points + pointsAwarded);
        newUsersList := ReplaceUser(newUsersList, me.id, updatedUser);
        saved := Writes(Some(newUsersList), Some(updatedTasks), None);
        ghost var next := s0.(tasks := updatedTasks, user := Some(updatedUser), users := newUsersList);
        assert Claim(s0, taskId) == Step(next, saved, None);
        tasks, user, users := updatedTasks, Some(updatedUser), newUsersList;
        assert State() == next;
      }
    }

    /** `createTask` (App.tsx:207-211). */
    method CreateTaskFrom(task: Task) returns (saved: Writes)
      modifies this
      ensures Step(State(), saved, None) == CreateTask(old(State()), task)
    {
      var newTasks := [task] + tasks;
      tasks := newTasks;
      saved := Writes(None, Some(newTasks), None);
    }

    /** `addQuestion` (App.tsx:214-232). */
    method PostQuestion(title: string, content: string, id: Id, now: string) returns (saved: Writes)
      modifies this
      ensures Step(State(), saved, None) == AddQuestion(old(State()), title, content, id, now)
    {
      saved := NoWrites;
      if user.None? {
        return;
      }
      var isAdmin := user.value.role == ADMIN;
      var newQ := Question(id, user.value.id, title, content, !isAdmin, [], [], false, [], now, None, None);
      var newQuestions := [newQ] + questions;
      questions := newQuestions;
      saved := Writes(None, None, Some(newQuestions));
    }

    /** `voteQuestion` (App.tsx:234-265). */
    method VoteOnQuestion(qId: Id, vote: Vote) returns (saved: Writes)
      modifies this
      ensures Step(State(), saved, None) == VoteQuestion(old(State()), qId, vote)
    {
      saved := NoWrites;
      if user.None? {
        return;
      }
      var voter := user.value;
      var newQuestions := MapQuestion(questions, qId, (q: Question) => CastVote(q, voter.id, vote));
      questions := newQuestions;
      saved := Writes(None, None, Some(newQuestions));
      var droppedQ := QuestionById(newQuestions, qId);
      if droppedQ.Some? && droppedQ.value.dropped {
        var author := UserById(users, droppedQ.value.authorId);
        if author.Some? {
          var punished := author.value.(points := Penalized(author.value.points));
          var newUsers := ReplaceUser(users, author.value.id, punished);
          users := newUsers;
          if voter.id == author.value.id {
            user := Some(punished);
          }
          saved := Writes(Some(newUsers), None, Some(newQuestions));
        }
      }
    }

    /** `addSolution` (App.tsx:267-278). */
    method PostSolution(qId: Id, content: string, id: Id) returns (saved: Writes)
      modifies this
      ensures Step(State(), saved, None) == AddSolution(old(State()), qId, content, id)
    {
      saved := NoWrites;
      if user.None? {
        return;
      }
      var sol := Solution(id, user.value.id, content, [], None);
      var newQuestions := MapQuestion(questions, qId, (q: Question) => q.(solutions := q.solutions + [sol]));
      questions := newQuestions;
      saved := Writes(None, None, Some(newQuestions));
    }

    /** `voteSolution` (App.tsx:280-294). */
    method VoteOnSolution(qId: Id, sId: Id) returns (saved: Writes)
      modifies this
      ensures Step(State(), saved, None) == VoteSolution(old(State()), qId, sId)
    {
      saved := NoWrites;
      if user.None? {
        return;
      }
      var voter := user.value.id;
      var newQuestions := MapQuestion(questions, qId, (q: Question) => VoteFor(q, sId, voter));
      questions := newQuestions;
      saved := Writes(None, None, Some(newQuestions));
    }
  }
}
