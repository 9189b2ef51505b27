/** The council board (sections/Council.tsx): which questions are listed, which
    vote controls a viewer gets, when a solution's author is revealed, and the two
    submit forms. The board's gates are the only thing that holds a user to one
    question vote: the ledger itself records every vote it is sent. */
module Council {
  import opened Types
  import opened Ledger
  import LedgerFacts
  import opened Text

  const UnknownAuthor := "Unknown Boy"
  const SelfAuthor := "You"

  /** The questions the board lists: the ones not dropped, in their order. */
  function Listed(questions: seq<Question>): (r: seq<Question>)
    ensures |r| <= |questions|
    ensures forall q :: q in r <==> q in questions && !q.dropped
  {
    if questions == [] then []
    else (if questions[0].dropped then [] else [questions[0]]) + Listed(questions[1..])
  }

  /** The board keeps the stored order of the questions it lists (newest first,
      since a new question is put at the front). */
  lemma {:induction false} ListedKeepsOrder(questions: seq<Question>)
    ensures IsSubsequence(Listed(questions), questions)
  {
    if questions != [] {
      ListedKeepsOrder(questions[1..]);
      FilterStep(!questions[0].dropped, questions, Listed(questions[1..]));
    }
  }

  /** `hasVotedQ`: the viewer is among the up- or downvoters. */
  predicate HasVotedQ(q: Question, viewer: Id) {
    viewer in q.upvotes || viewer in q.downvotes
  }

  /** A recorded vote, up or down, marks its voter as having voted, and nobody
      else's mark changes. */
  lemma CastVoteMarksVoter(q: Question, voter: Id, vote: Vote, other: Id)
    ensures HasVotedQ(CastVote(q, voter, vote), voter)
    ensures other != voter ==> (HasVotedQ(CastVote(q, voter, vote), other) <==> HasVotedQ(q, other))
  {
    var r := CastVote(q, voter, vote);
    if vote == Up {
      assert r.upvotes[|q.upvotes|] == voter;
    } else {
      assert r.downvotes[|q.downvotes|] == voter;
    }
  }

  /** The name a by-line shows for someone else's solution; an unknown id or an
      empty name falls back to the placeholder. */
  function AuthorName(users: seq<User>, authorId: Id): (name: string)
    ensures name != []
    ensures UserById(users, authorId).None? ==> name == UnknownAuthor
    ensures UserById(users, authorId).Some? && UserById(users, authorId).value.name != [] ==>
      name == UserById(users, authorId).value.name
  {
    match UserById(users, authorId)
    case Some(u) => if u.name != [] then u.name else UnknownAuthor
    case None => UnknownAuthor
  }

  /** One row of a question's solution list. */
  datatype SolutionRow = SolutionRow(solution: Solution, byLine: Option<string>, voteEnabled: bool, tally: nat)

  /** The lower half of a card: vote buttons with the score in the voting phase,
      the solution rows afterwards. */
  datatype Panel = Voting(enabled: bool, score: int) | Solutions(rows: seq<SolutionRow>)

  datatype Card = Card(question: Question, panel: Panel)

  /** A solution row as `viewer` sees it. */
  function Row(q: Question, sol: Solution, viewer: Id, isAdmin: bool, users: seq<User>): (r: SolutionRow)
    ensures r.solution == sol && r.tally == |sol.votes|
    // one solution vote per question: only the row already voted for stays clickable
    ensures r.voteEnabled <==> !VotedOnAnySolution(q, viewer) || viewer in sol.votes
    // the author is hidden until the viewer has voted, unless admin or author
    ensures r.byLine.Some? <==> VotedOnAnySolution(q, viewer) || isAdmin || sol.authorId == viewer
    ensures r.byLine.Some? ==> r.byLine.value != []
    ensures r.byLine.Some? && sol.authorId == viewer ==> r.byLine.value == SelfAuthor
  {
    var isAuthor := sol.authorId == viewer;
    var voted := VotedOnAnySolution(q, viewer);
    var byLine := if voted || isAdmin || isAuthor then Some(if isAuthor then SelfAuthor else AuthorName(users, sol.authorId)) else None;
    SolutionRow(sol, byLine, !(voted && viewer !in sol.votes), |sol.votes|)
  }

  /** The card of one listed question. */
  function CardOf(q: Question, viewer: Id, isAdmin: bool, users: seq<User>): (c: Card)
    ensures c.question == q
    ensures c.panel.Voting? <==> q.isInterestCheck
    ensures c.panel.Voting? ==> (c.panel.enabled <==> !HasVotedQ(q, viewer))
    ensures c.panel.Voting? ==> c.panel.score == |q.upvotes| - |q.downvotes|
    ensures c.panel.Solutions? ==>
      && |c.panel.rows| == |q.solutions|
      && forall k :: 0 <= k < |q.solutions| ==> c.panel.rows[k] == Row(q, q.solutions[k], viewer, isAdmin, users)
  {
    if q.isInterestCheck then Card(q, Voting(!HasVotedQ(q, viewer), |q.upvotes| - |q.downvotes|))
    else Card(q, Solutions(seq(|q.solutions|, k requires 0 <= k < |q.solutions| => Row(q, q.solutions[k], viewer, isAdmin, users))))
  }

  /** The board: one card per listed question, in order. */
  function Board(questions: seq<Question>, viewer: Id, isAdmin: bool, users: seq<User>): (cards: seq<Card>)
    ensures |cards| == |Listed(questions)|
    ensures forall i :: 0 <= i < |cards| ==> cards[i] == CardOf(Listed(questions)[i], viewer, isAdmin, users)
    ensures forall i :: 0 <= i < |cards| ==> cards[i].question in questions && !cards[i].question.dropped
  {
    var listed := Listed(questions);
    seq(|listed|, i requires 0 <= i < |listed| => CardOf(listed[i], viewer, isAdmin, users))
  }

  /** A vote through an enabled button records the viewer exactly once on that
      question, and the buttons are disabled (or gone) from then on; the ledger
      alone would record a repeated vote twice. */
  lemma BoardVoteCountsOnce(s: Snapshot, qId: Id, vote: Vote, i: int, isAdmin: bool)
    requires s.user.Some? && 0 <= i < |s.questions| && s.questions[i].id == qId
    requires !HasVotedQ(s.questions[i], s.user.value.id)
    ensures var after := VoteQuestion(s, qId, vote).next;
      var q := after.questions[i];
      var voter := s.user.value.id;
      && Occurrences(q.upvotes + q.downvotes, voter) == 1
      && var c := CardOf(q, voter, isAdmin, after.users);
      c.panel.Voting? ==> !c.panel.enabled
  {
    var voter := s.user.value.id;
    var q0 := s.questions[i];
    var q := VoteQuestion(s, qId, vote).next.questions[i];
    assert q == CastVote(q0, voter, vote);
    OccurrencesConcat(q.upvotes, q.downvotes, voter);
    if vote == Up {
      OccurrencesAppend(q0.upvotes, voter, voter);
    } else {
      OccurrencesAppend(q0.downvotes, voter, voter);
    }
  }

  /** On the board the drop penalty fires only on the vote that drops the listed
      question (with a known author), and the question then leaves the board, so
      board votes charge its author at most once. */
  lemma BoardPenaltyOnlyOnDrop(s: Snapshot, qId: Id, vote: Vote)
    requires s.user.Some?
    requires QuestionById(s.questions, qId).Some?
    requires QuestionById(s.questions, qId).value in Listed(s.questions)
    ensures var q := QuestionById(s.questions, qId).value;
      var r := VoteQuestion(s, qId, vote);
      var after := CastVote(q, s.user.value.id, vote);
      && QuestionById(r.next.questions, qId) == Some(after)
      && (r.writes.users.Some? <==> DropRule(after.upvotes, after.downvotes) && UserById(s.users, q.authorId).Some?)
      && (r.writes.users.Some? ==> after !in Listed(r.next.questions))
  {
    var j := FirstIndex(s.questions, QuestionHasId(qId));
    LedgerFacts.VoteFindsSameQuestion(s, qId, vote);
    var r := VoteQuestion(s, qId, vote);
    assert r.next.questions[j] == CastVote(s.questions[j], s.user.value.id, vote);
  }

  /** After the viewer's solution vote lands on an existing solution, every author
      on that question is revealed and only the chosen rows stay clickable. */
  lemma VotingRevealsAuthors(q: Question, sId: Id, viewer: Id, k: int, isAdmin: bool, users: seq<User>)
    requires 0 <= k < |q.solutions| && q.solutions[k].id == sId
    ensures var after := VoteFor(q, sId, viewer);
      && VotedOnAnySolution(after, viewer)
      && forall m :: 0 <= m < |after.solutions| ==>
           var row := Row(after, after.solutions[m], viewer, isAdmin, users);
           && row.byLine.Some?
           && (row.voteEnabled <==> viewer in after.solutions[m].votes)
  {
    var after := VoteFor(q, sId, viewer);
    if !VotedOnAnySolution(q, viewer) {
      assert viewer in after.solutions[k].votes;
    }
  }

  // ------------------------------------------------------------------ forms

  /** The proposal inputs. */
  datatype QuestionForm = QuestionForm(title: string, details: string)

  /** What "Post for Review" hands to `addQuestion`. */
  datatype Proposal = Proposal(title: string, content: string)

  /** `submitQuestion`: an empty title does nothing; otherwise the proposal is sent
      and both inputs are cleared. */
  function SubmitQuestion(form: QuestionForm): (r: (QuestionForm, Option<Proposal>))
    ensures r.1.None? <==> form.title == []
    ensures r.1.None? ==> r.0 == form
    ensures r.1.Some? ==> r.0 == QuestionForm([], []) && r.1.value == Proposal(form.title, form.details)
  {
    if form.title == [] then (form, None)
    else (QuestionForm([], []), Some(Proposal(form.title, form.details)))
  }

  /** A posted proposal heads the board: in the voting phase with score 0 and open
      buttons when its author is not an admin, straight in the solutions phase with
      no solutions when the author is. */
  lemma ProposalHeadsBoard(s: Snapshot, form: QuestionForm, id: Id, now: string, viewer: Id, isAdmin: bool)
    requires s.user.Some? && form.title != []
    ensures var p := SubmitQuestion(form).1.value;
      var after := AddQuestion(s, p.title, p.content, id, now).next;
      var board := Board(after.questions, viewer, isAdmin, after.users);
      && |board| > 0
      && board[0].question.id == id && board[0].question.title == form.title
      && board[0].panel == if s.user.value.role == ADMIN then Solutions([]) else Voting(true, 0)
  {
    var p := SubmitQuestion(form).1.value;
    var after := AddQuestion(s, p.title, p.content, id, now).next;
    var q := after.questions[0];
    assert Listed(after.questions) == [q] + Listed(after.questions[1..]);
  }

  /** The solution input, shared by all cards, and the card it is open on. */
  datatype SolutionForm = SolutionForm(solvingId: Option<Id>, text: string)

  /** "Add Solution" opens the input on card `qId`, keeping any typed text. */
  function OpenSolution(form: SolutionForm, qId: Id): (r: SolutionForm)
    ensures r.solvingId == Some(qId) && r.text == form.text
  {
    form.(solvingId := Some(qId))
  }

  /** "Submit" exists only on the card being solved; it sends the text as typed
      (even empty) and closes and clears the input. */
  function SubmitSolution(form: SolutionForm, qId: Id): (r: (SolutionForm, Option<(Id, string)>))
    ensures form.solvingId != Some(qId) ==> r == (form, None)
    ensures form.solvingId == Some(qId) ==> r == (SolutionForm(None, []), Some((qId, form.text)))
  {
    if form.solvingId == Some(qId) then (SolutionForm(None, []), Some((qId, form.text))) else (form, None)
  }
}
