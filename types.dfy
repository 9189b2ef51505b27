/** The records shared by every part of the tracker (types.ts).
    Identifiers are opaque strings; optional fields become `Option`. */
module Types {

  datatype Option<+T> = None | Some(value: T)

  type Id = string

  /** Exactly four roles; ADMIN is a bootstrap role that no handler grants. */
  datatype Role = ADMIN | BOY | PENDING | REJECTED

  /** `type` is a Dafny keyword, so a task's type is held in the field `kind`. */
  datatype TaskType = WEEKLY | LONG_TERM | SUB_GOAL

  datatype TaskCategory = STUDY | FITNESS | CODING | OTHER

  datatype User = User(
    id: Id,
    name: string,
    role: Role,
    points: int,
    level: int,
    joinedAt: string,
    deviceDetails: Option<string>,
    avatar: Option<string>,
    customTags: Option<seq<string>>)

  /** `completedBy` is a list, so nothing in the type keeps it free of duplicates. */
  datatype Task = Task(
    id: Id,
    title: string,
    description: string,
    points: int,
    kind: TaskType,
    category: TaskCategory,
    createdBy: Id,
    isGroupTask: bool,
    completedBy: seq<Id>,
    createdAt: string,
    expiresAt: Option<string>)

  datatype Solution = Solution(
    id: Id,
    authorId: Id,
    content: string,
    votes: seq<Id>,
    isBestAnswer: Option<bool>)

  datatype Question = Question(
    id: Id,
    authorId: Id,
    title: string,
    content: string,
    isInterestCheck: bool,
    upvotes: seq<Id>,
    downvotes: seq<Id>,
    dropped: bool,
    solutions: seq<Solution>,
    createdAt: string,
    adminApproved: Option<bool>,
    majorityApproved: Option<bool>)

  datatype BountyStatus = OPEN | CLOSED

  datatype SubmissionStatus = SubmissionPending | Approved | Rejected

  datatype Bounty = Bounty(
    id: Id,
    title: string,
    description: string,
    reward: int,
    status: BountyStatus,
    createdAt: string)

  datatype BountySubmission = BountySubmission(
    id: Id,
    bountyId: Id,
    userId: Id,
    proof: string,
    status: SubmissionStatus,
    feedback: Option<string>,
    submittedAt: string)

  /** A nullable current user paired with the three shared collections. */
  datatype AppState = AppState(
    currentUser: Option<User>,
    users: seq<User>,
    tasks: seq<Task>,
    questions: seq<Question>)

  function Min(a: int, b: int): int { if a <= b then a else b }

  function Max(a: int, b: int): int { if a >= b then a else b }

  /** No identifier occurs twice in the list. */
  predicate NoDuplicates(ids: seq<Id>) {
    forall i, j :: 0 <= i < j < |ids| ==> ids[i] != ids[j]
  }

  /** Number of times `x` occurs in `ids`. */
  function Occurrences(ids: seq<Id>, x: Id): (n: nat)
    ensures n <= |ids|
    ensures n == 0 <==> x !in ids
  {
    if ids == [] then 0
    else (if ids[0] == x then 1 else 0) + Occurrences(ids[1..], x)
  }

  lemma {:induction false} OccurrencesAppend(ids: seq<Id>, y: Id, x: Id)
    ensures Occurrences(ids + [y], x) == Occurrences(ids, x) + (if y == x then 1 else 0)
  {
    if ids == [] {
      assert ids + [y] == [y];
    } else {
      assert (ids + [y])[1..] == ids[1..] + [y];
      OccurrencesAppend(ids[1..], y, x);
    }
  }

  lemma {:induction false} NoDuplicatesOccurrences(ids: seq<Id>, x: Id)
    requires NoDuplicates(ids)
    ensures Occurrences(ids, x) <= 1
  {
    if ids != [] {
      NoDuplicatesOccurrences(ids[1..], x);
      if ids[0] == x {
        assert x !in ids[1..] by {
          forall k | 0 <= k < |ids[1..]| ensures ids[1..][k] != x {
            assert ids[1..][k] == ids[k + 1];
          }
        }
      }
    }
  }

  lemma {:induction false} OccurrencesConcat(a: seq<Id>, b: seq<Id>, x: Id)
    ensures Occurrences(a + b, x) == Occurrences(a, x) + Occurrences(b, x)
  {
    if a != [] {
      assert (a + b)[1..] == a[1..] + b;
      OccurrencesConcat(a[1..], b, x);
    } else {
      assert a + b == b;
    }
  }
}
