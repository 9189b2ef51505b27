/** The mission list (sections/QuestLog.tsx): the admin-only create form, the task
    it builds, and the claim button's gate. */
module QuestLog {
  import opened Types
  import opened Ledger

  /** The create form's draft (`Partial<Task>`): unset fields are `None`. The form
      has no control for the task type, so `kind` keeps its initial value. */
  datatype TaskDraft = TaskDraft(
    title: Option<string>,
    description: Option<string>,
    points: Option<int>,
    kind: TaskType,
    category: TaskCategory)

  /** The draft on mount and after every creation. */
  const FreshDraft := TaskDraft(None, None, None, WEEKLY, OTHER)

  /** The create panel: whether it is shown, and its draft. */
  datatype CreatePanel = CreatePanel(open: bool, draft: TaskDraft)

  const InitialPanel := CreatePanel(false, FreshDraft)

  /** The controls of the form: title, briefing, reward (`Number(value)`), category. */
  datatype DraftEdit = SetTitle(string) | SetDescription(string) | SetPoints(int) | SetCategory(TaskCategory)

  function Edit(d: TaskDraft, e: DraftEdit): (r: TaskDraft)
    ensures r.kind == d.kind
  {
    match e
    case SetTitle(t) => d.(title := Some(t))
    case SetDescription(t) => d.(description := Some(t))
    case SetPoints(p) => d.(points := Some(p))
    case SetCategory(c) => d.(category := c)
  }

  function EditAll(d: TaskDraft, edits: seq<DraftEdit>): TaskDraft
    decreases |edits|
  {
    if edits == [] then d else EditAll(Edit(d, edits[0]), edits[1..])
  }

  /** No sequence of edits changes the task type. */
  lemma {:induction false} EditsKeepKind(d: TaskDraft, edits: seq<DraftEdit>)
    ensures EditAll(d, edits).kind == d.kind
    decreases |edits|
  {
    if edits != [] {
      EditsKeepKind(Edit(d, edits[0]), edits[1..]);
    }
  }

  /** The "+ New Operation" / "Cancel" toggle, which only an admin is shown. */
  function ToggleCreate(p: CreatePanel, isAdmin: bool): (r: CreatePanel)
    ensures !isAdmin ==> r == p
    ensures isAdmin ==> r.open == !p.open && r.draft == p.draft
  {
    if isAdmin then p.(open := !p.open) else p
  }

  /** A string or number the form would treat as truthy. */
  predicate FilledTitle(d: TaskDraft) { d.title.Some? && d.title.value != [] }

  predicate FilledPoints(d: TaskDraft) { d.points.Some? && d.points.value != 0 }

  /** `handleCreate`: with a non-empty title and non-zero points (negative ones
      pass) it builds a solo task of the current user's and resets the panel;
      otherwise nothing happens. `id` and `now` stand for `Date.now()` and the
      creation time. */
  function HandleCreate(p: CreatePanel, userId: Id, id: Id, now: string): (r: (CreatePanel, Option<Task>))
    ensures r.1.Some? <==> FilledTitle(p.draft) && FilledPoints(p.draft)
    ensures r.1.None? ==> r.0 == p
    ensures r.1.Some? ==>
      var t := r.1.value;
      && r.0 == InitialPanel
      && t.id == id && t.title == p.draft.title.value && t.points == p.draft.points.value
      && t.description == (if p.draft.description.Some? then p.draft.description.value else [])
      && t.kind == p.draft.kind && t.category == p.draft.category
      && t.createdBy == userId && !t.isGroupTask && t.completedBy == [] && t.createdAt == now
      && t.expiresAt.None?
  {
    var d := p.draft;
    if FilledTitle(d) && FilledPoints(d) then
      var description := if d.description.Some? then d.description.value else [];
      (InitialPanel, Some(Task(id, d.title.value, description, d.points.value, d.kind, d.category, userId, false, [], now, None)))
    else (p, None)
  }

  /** Every task the form creates is a WEEKLY one, however the form was filled. */
  lemma CreatedTasksAreWeekly(edits: seq<DraftEdit>, userId: Id, id: Id, now: string)
    ensures var r := HandleCreate(CreatePanel(true, EditAll(FreshDraft, edits)), userId, id, now);
      r.1.Some? ==> r.1.value.kind == WEEKLY && r.0.draft.kind == WEEKLY
  {
    EditsKeepKind(FreshDraft, edits);
  }

  /** A freshly created task goes first, so it is the one its id finds; any session
      user can claim it, and the first claimer receives its full points. */
  lemma CreatedTaskPaysInFull(s: Snapshot, p: CreatePanel, id: Id, now: string)
    requires s.user.Some? && HandleCreate(p, s.user.value.id, id, now).1.Some?
    ensures var t := HandleCreate(p, s.user.value.id, id, now).1.value;
      var created := CreateTask(s, t).next;
      && TaskById(created.tasks, id) == Some(t)
      && CanClaim(created, id)
      && Claim(created, id).next.user.value.points == s.user.value.points + t.points
  {
    var t := HandleCreate(p, s.user.value.id, id, now).1.value;
    var created := CreateTask(s, t).next;
    assert TaskHasId(id)(created.tasks[0]);
  }

  /** `isCompleted`: the claim button is disabled and reads "Mission Accomplished". */
  predicate IsCompleted(task: Task, userId: Id) {
    userId in task.completedBy
  }

  /** After a claim on the task its id finds, the claimer's button reads
      "Mission Accomplished", whether the claim went through or was already done,
      and every other user's button is as it was. */
  lemma ClaimMarksCompleted(s: Snapshot, i: int, other: Id)
    requires s.user.Some? && 0 <= i < |s.tasks|
    requires FirstIndex(s.tasks, TaskHasId(s.tasks[i].id)) == i
    ensures IsCompleted(Claim(s, s.tasks[i].id).next.tasks[i], s.user.value.id)
    ensures other != s.user.value.id ==>
      (IsCompleted(Claim(s, s.tasks[i].id).next.tasks[i], other) <==> IsCompleted(s.tasks[i], other))
  {
    var id := s.tasks[i].id;
    assert TaskById(s.tasks, id) == Some(s.tasks[i]);
    if CanClaim(s, id) {
      var t := Claim(s, id).next.tasks[i];
      assert t.completedBy == s.tasks[i].completedBy + [s.user.value.id];
      assert t.completedBy[|s.tasks[i].completedBy|] == s.user.value.id;
    }
  }

  /** The button matches the handler's own guard: on the task its id finds, the
      button is enabled exactly when the claim would go through, and a disabled
      button's claim would change nothing. */
  lemma ClaimButtonMatchesGuard(s: Snapshot, i: int)
    requires s.user.Some? && 0 <= i < |s.tasks|
    requires FirstIndex(s.tasks, TaskHasId(s.tasks[i].id)) == i
    ensures !IsCompleted(s.tasks[i], s.user.value.id) <==> CanClaim(s, s.tasks[i].id)
    ensures IsCompleted(s.tasks[i], s.user.value.id) ==> Claim(s, s.tasks[i].id) == Unchanged(s)
  {
    assert TaskById(s.tasks, s.tasks[i].id) == Some(s.tasks[i]);
  }
}
