# The Boys tracker: a Dafny model of its session ledger and sections

The system is a small React application. Agents log in with a codename. New
codenames wait for an admin to approve them. Members claim missions for points
and level up. They propose questions to a council, which votes on them and
drops the unpopular ones. They submit proof screenshots for bounties.

This project models the core of the application in Dafny:

- **App component** (`App.tsx`). `Ledger` models every handler as a function
  from the session snapshot to the next snapshot, the whole collections written
  back to the store, and the alert shown. `Session` is the component itself: a
  class whose fields are the `useState` slots. Its methods update those fields
  step by step, and each is proved to produce exactly the step its ledger
  function describes. `LedgerFacts` relates several handler runs:
  - idempotence of approve, reject, level check, claim and poll;
  - the telescoping group-claim redistribution;
  - repeated votes and repeated drop penalties;
  - one solution vote per user and question.
- **Records** (`types.ts`) become the datatypes of `Types`. The task field
  `type` is called `kind`. `Text` holds JavaScript's `trim`, ASCII case mapping
  and the index filter used by two sections.
- **Sections:**
  - `Council`: the board, its vote and reveal gates, and the two forms.
  - `QuestLog`: the create form and the claim button.
  - `AdminPanel`: the three role sections and their buttons.
  - `Dashboard`: the progress threshold, the leaderboard and the level-check
    trigger.
  - `Profile`: a class for the tag and avatar editor.
  - `TargetList`: a class for the proof-image draft, whose upload is a loop,
    plus the submission review.
  - `ProofCodec`: the JSON text a proof travels in, with a round-trip proof.

  The Profile and TargetList sections are written as components but App.tsx
  does not mount them. They are modelled on their own.

Where field names and declarations suggest more than the code does, the model follows the code:

- A question vote is appended with no check for an earlier vote by the same
  user (`LedgerFacts.RepeatedQuestionVotesAreKept`). Only the board's disabled
  buttons keep a user to one vote (`Council.BoardVoteCountsOnce`).
- The author's 5-point penalty is charged on every vote that leaves the
  question dropped, not only on the vote that drops it
  (`LedgerFacts.PenaltyChargedPerVote`).
- REJECTED is not terminal. The blacklist offers re-admission, and approving
  overrides a rejection (`LedgerFacts.LastRoleDecisionWins`,
  `AdminPanel.ReadmitReturnsToRoster`).
- There is no best-answer action. Solution votes only append the voter.
- Levels only rise, and only for the session user (`Ledger.CheckLevelUp`).
- The group-task redistribution is not floored at zero. An earlier completer
  can go negative (`LedgerFacts.GroupShiftCanGoNegative`).

**Parameters and outputs:**

- The store is abstracted. What a handler fetched is a parameter. What it saves
  is reported as whole collections (`Ledger.Writes`).
- `Date.now()` ids, ISO timestamps, `navigator.userAgent`, the answer to a
  confirmation dialog, and whether the store accepted a request are
  parameters.
- Alerts are outputs.

## Model

| member | source | states |
|---|---|---|
| Text.TrimStart | sections/Profile.tsx:44 | the result is a suffix of the input; every dropped character is white space; the result does not start with white space |
| Text.TrimEnd | sections/Profile.tsx:44 | the result is a prefix of the input; every dropped character is white space; the result does not end with white space |
| Text.Trim | sections/Profile.tsx:44 | the result is no longer than the input and has no white space at either end |
| Text.TrimIsSlice | sections/Profile.tsx:44 | `trim` keeps one contiguous piece of the input, and every character dropped before or after it is white space |
| Text.TrimKeeps | sections/Profile.tsx:44 | trimming only removes characters: whatever holds of every input character holds of every character left |
| Text.TrimEmptyIffBlank | App.tsx:97 | `!s.trim()` holds exactly when the input is made only of white space |
| Text.ToLower | App.tsx:104 | same length; each character lower-cased on its own |
| Text.ToUpper | sections/Profile.tsx:44 | same length; each character upper-cased on its own |
| Text.LowerChar | App.tsx:104 | no upper-case ASCII letter is left; white space stays white space |
| Text.UpperChar | sections/Profile.tsx:44 | no lower-case ASCII letter is left; white space stays white space |
| Text.SameIgnoringCaseIsEquivalence | App.tsx:104 | the case-insensitive name match is reflexive, symmetric and transitive |
| Text.TrimOfUpperHasNoOuterSpace | sections/Profile.tsx:35-44 | the upper-cased, trimmed tag is empty exactly when the input was blank |
| Text.RemoveAt | sections/Profile.tsx:54 | the index filter shortens the list by one exactly when the index is in range |
| Text.RemoveAtSplices | sections/TargetList.tsx:97-99 | the index filter removes exactly position `idx` and keeps the rest in order; an out-of-range index changes nothing |
| Ledger.FirstIndex | App.tsx:160 | `findIndex`: no earlier element matches, and the found one does |
| Ledger.Find | App.tsx:160 | `find` is None exactly when nothing matches, and otherwise returns the first match |
| Ledger.Recruit | App.tsx:125-133 | the record a first login creates: a PENDING user with 0 points and level 1, the given id, name, time and device details (the Login row states this of the appended user) |
| Ledger.Login | App.tsx:96-142 | blank input: no effect. Known name (case-insensitive, untrimmed): REJECTED alerts and stays out; PENDING waits as that user; others enter; nothing is saved. Unknown name: exactly one PENDING recruit (0 points, level 1, device details) is appended to the fetched list, which is saved |
| Ledger.Load | App.tsx:66-79 | the three collections are replaced and loading ends; the session is untouched |
| Ledger.Poll | App.tsx:32-58 | no tick while loading; otherwise users are refreshed. A waiting user found as BOY enters, found as REJECTED is logged out with the termination alert and a cleared input, and otherwise keeps waiting |
| Ledger.Approve | App.tsx:145-149 | only the role of the users with that id changes, to BOY; the whole list is saved |
| Ledger.Reject | App.tsx:151-155 | only the role of the users with that id changes, to REJECTED; the whole list is saved |
| Ledger.LevelFor | App.tsx:84 | the level is the thousand-point band holding the points, capped at 10, and at least 1 for non-negative points |
| Ledger.CheckLevelUp | App.tsx:82-93 | only the session user's level changes, only upwards, to the level its points earn, and only then is the list saved |
| Ledger.ClaimAward | App.tsx:162-170 | a solo task pays its points; a group task pays the floored share `points / (n + 1)` |
| Ledger.GroupShift | App.tsx:173-175 | with a non-negative pool, earlier completers never gain when another one joins |
| Ledger.ShareShrinks | App.tsx:169-175 | splitting a non-negative pool among one more person gives no larger floored share |
| Ledger.Claim | App.tsx:158-204 | without a session user, an unknown task or a repeat claim: no effect. Otherwise the claimer is appended once to the task's completers, gains the award, earlier group completers shift by the share difference, nobody else changes, and tasks and users are saved |
| Ledger.CreateTask | App.tsx:207-211 | the new task goes first, the rest is kept, and tasks are saved |
| Ledger.AddQuestion | App.tsx:214-232 | a fresh, undropped question with no votes or solutions goes first; it starts in the voting phase unless an admin posts it |
| Ledger.DropRule | App.tsx:243-244 | the drop test: at least two downvotes and more downvotes than upvotes, counted after the new vote (CastVote states where it applies) |
| Ledger.CastVote | App.tsx:236-248 | the voter is appended to the chosen list; the question is dropped once it has at least two downvotes and more downs than ups, and stays dropped; a dropped question leaves the voting phase; nothing else changes |
| Ledger.Penalized | App.tsx:258 | the penalty never goes below zero and subtracts 5 when the points allow it |
| Ledger.VoteQuestion | App.tsx:234-265 | every question with that id takes the vote. When the question found by id ends up dropped and its author is known, the author (and the session user if it is them) loses the penalty and users are saved; otherwise users are untouched |
| Ledger.AddSolution | App.tsx:267-278 | the solution with no votes is appended to every question with that id, whatever its phase |
| Ledger.VotedOnAnySolution | App.tsx:284 | `q.solutions.some(s => s.votes.includes(voter))`: some solution of the question lists the voter (VoteFor states that such a voter changes nothing) |
| Ledger.VoteFor | App.tsx:283-290 | a user who voted on any solution of the question changes nothing; otherwise they are appended to the solutions with that id |
| Ledger.VoteSolution | App.tsx:280-294 | every question with that id gets `VoteFor`; questions are saved |
| Ledger.CancelPending | App.tsx:318 | only the pending flag is cleared |
| Ledger.SetNameInput | App.tsx:297-299 | only the codename input changes |
| Ledger.ScreenOf | App.tsx:301-351 | loading first, then the pending wait, then the login form without a user, otherwise the main view, with the admin console exactly for an ADMIN |
| LedgerFacts.FirstIndexAgrees | App.tsx:160 | lists that agree position by position on the test have the same first match |
| LedgerFacts.UserByIdAt | App.tsx:46 | with unique ids, the lookup by id finds the one entry carrying it |
| LedgerFacts.UserByIdSameIds | App.tsx:256 | lists with the same ids at the same positions find an id at the same position |
| LedgerFacts.LoginKeepsNamesDistinct | App.tsx:104-135 | login never registers a second account for a name already present, ignoring case |
| LedgerFacts.PollSettles | App.tsx:32-58 | a second poll of the same fetched list changes nothing |
| LedgerFacts.RoleDecisionsIdempotent | App.tsx:145-155 | approving twice is approving once; likewise for rejecting |
| LedgerFacts.LastRoleDecisionWins | App.tsx:145-155 | re-admitting a rejected user equals approving outright, and the reverse |
| LedgerFacts.LevelCheckSettles | App.tsx:82-93 | after one level check the level is at least the one the points earn, so a second check does nothing |
| LedgerFacts.ClaimKeepsCompletersDistinct | App.tsx:161-186 | claims keep every completer list free of duplicates |
| LedgerFacts.ClaimFindsSameTask | App.tsx:187 | after a claim every id is found at the same position |
| LedgerFacts.ClaimTwiceIsNoOp | App.tsx:161 | claiming the same task again changes nothing |
| LedgerFacts.GroupClaimUsers | App.tsx:165-193 | one more group claim turns "each of `n` completers up by `pool / n`" into "each of `n + 1` up by `pool / (n + 1)`" |
| LedgerFacts.GroupClaimStep | App.tsx:158-204 | one claim of a group task by a new user keeps the equal-share state and appends them to the completers |
| LedgerFacts.SharesFitPool | App.tsx:169 | `k` floored equal shares never exceed the pool |
| LedgerFacts.GroupClaimsShareEqually | App.tsx:165-193 | after `k` distinct users claim a fresh group task in turn, each is up by exactly `pool / k`, nobody else moved, and together they got no more than the pool |
| LedgerFacts.GroupShiftCanGoNegative | App.tsx:173-179 | an earlier completer with fewer points than the shift ends up negative: 10 points and a shift of -50 give -40 |
| LedgerFacts.RepeatedQuestionVotesAreKept | App.tsx:238-239 | the same user voting twice is listed twice |
| LedgerFacts.VoteFindsSameQuestion | App.tsx:254 | after a vote every question id is found at the same position |
| LedgerFacts.VoteOnDroppedCharges | App.tsx:254-262 | one vote on an already dropped question charges its author again |
| LedgerFacts.PenaltyChargedPerVote | App.tsx:254-262 | two votes on a dropped question cost its author the penalty twice |
| LedgerFacts.NoBallotsUnlessVoted | App.tsx:284 | a user holds no solution ballot exactly when no solution lists them |
| LedgerFacts.MatchingAtMostOne | App.tsx:289 | with distinct solution ids, at most one solution matches an id |
| LedgerFacts.MatchingNone | App.tsx:289 | no solution with that id means no match |
| LedgerFacts.BallotsAfterAppend | App.tsx:289 | appending the voter to the matching solutions adds one ballot per match |
| LedgerFacts.SolutionVoteKeepsOneBallot | App.tsx:284-290 | with distinct solution ids a user never holds more than one ballot on a question, and a first vote for an existing id adds exactly one |
| LedgerFacts.SecondSolutionVoteIgnored | App.tsx:284-285 | once a user's vote has landed, any further solution vote on that question is ignored |
| Session.Session.constructor | App.tsx:16-25 | the session starts loading, with nothing loaded and no user |
| Session.Session.FetchAll | App.tsx:66-79 | the fields become exactly `Load` of the old state |
| Session.Session.TypeName | App.tsx:297-299 | the fields become exactly `SetNameInput` of the old state |
| Session.Session.CancelRequest | App.tsx:318 | the fields become exactly `CancelPending` of the old state |
| Session.Session.HandleLogin | App.tsx:96-142 | the new fields, the saved lists and the alert are exactly `Login` of the old state |
| Session.Session.PollTick | App.tsx:32-58 | the new fields and the alert are exactly `Poll` of the old state |
| Session.Session.ApproveUser | App.tsx:145-149 | the new fields and the saved list are exactly `Approve` |
| Session.Session.RejectUser | App.tsx:151-155 | the new fields and the saved list are exactly `Reject` |
| Session.Session.LevelCheck | App.tsx:82-93 | the new fields and the saved list are exactly `CheckLevelUp` |
| Session.Session.ClaimTask | App.tsx:158-204 | the running `newUsersList` computation yields exactly `Claim` |
| Session.Session.CreateTaskFrom | App.tsx:207-211 | the new fields and the saved list are exactly `CreateTask` |
| Session.Session.PostQuestion | App.tsx:214-232 | the new fields and the saved list are exactly `AddQuestion` |
| Session.Session.VoteOnQuestion | App.tsx:234-265 | the new fields and the saved lists are exactly `VoteQuestion` |
| Session.Session.PostSolution | App.tsx:267-278 | the new fields and the saved list are exactly `AddSolution` |
| Session.Session.VoteOnSolution | App.tsx:280-294 | the new fields and the saved list are exactly `VoteSolution` |
| Council.HasVotedQ | sections/Council.tsx:42 | the `hasVotedQ` test that gates the vote buttons (CardOf states the gate; CastVoteMarksVoter and BoardVoteCountsOnce state when it turns on) |
| Council.CastVoteMarksVoter | sections/Council.tsx:42 | after a recorded vote, up or down, the voter counts as having voted, and every other user's mark is as before |
| Council.Listed | sections/Council.tsx:41 | the board lists exactly the questions that are not dropped |
| Council.ListedKeepsOrder | sections/Council.tsx:41 | the listed questions keep their stored order (newest first): the list with the dropped ones left out |
| Council.AuthorName | sections/Council.tsx:90 | a found author with a non-empty name is shown by that name; an unknown author or an empty name shows "Unknown Boy"; the result is never empty |
| Council.Row | sections/Council.tsx:85-105 | a row's vote button is enabled exactly when the viewer has no solution vote on the question or voted for this row; the author is shown exactly when the viewer voted, is admin, or wrote it; an own solution reads "You"; the tally is the vote count |
| Council.CardOf | sections/Council.tsx:42-79 | a voting-phase card shows vote buttons, enabled exactly when the viewer has not voted, and the score up minus down; otherwise it shows one row per solution |
| Council.Board | sections/Council.tsx:41 | one card per listed question, in order; no dropped question appears |
| Council.BoardVoteCountsOnce | sections/Council.tsx:63-72 | a vote through an enabled button records the voter exactly once on the question, and its buttons are disabled afterwards |
| Council.BoardPenaltyOnlyOnDrop | sections/Council.tsx:41 | for a listed question, a vote charges the penalty exactly when it drops the question and the author is known, and the question then leaves the board |
| Council.VotingRevealsAuthors | sections/Council.tsx:86-102 | once a solution vote lands, every author on the question is revealed and only the voted rows stay clickable |
| Council.SubmitQuestion | sections/Council.tsx:22-27 | an empty title does nothing; otherwise the proposal is sent and both inputs are cleared |
| Council.ProposalHeadsBoard | sections/Council.tsx:22-27 | a posted proposal heads the board: voting with score 0 and open buttons for a non-admin author, solutions with no rows for an admin |
| Council.OpenSolution | sections/Council.tsx:126 | "Add Solution" opens the input on that card and keeps the typed text |
| Council.SubmitSolution | sections/Council.tsx:112-123 | Submit exists only on the card being solved; it sends the text as typed and closes and clears the input |
| QuestLog.IsCompleted | sections/QuestLog.tsx:82 | the `isCompleted` test that disables the claim button (ClaimButtonMatchesGuard ties it to the handler's guard; ClaimMarksCompleted states when it turns on) |
| QuestLog.ClaimMarksCompleted | sections/QuestLog.tsx:82 | after a claim on the task its id finds, the claimer's button reads as completed, and every other user's is as before |
| QuestLog.Edit | sections/QuestLog.tsx:53-70 | no control of the form changes the task type |
| QuestLog.EditsKeepKind | sections/QuestLog.tsx:15 | no sequence of edits changes the task type |
| QuestLog.ToggleCreate | sections/QuestLog.tsx:40-44 | only an admin can toggle the create panel; the draft is kept |
| QuestLog.HandleCreate | sections/QuestLog.tsx:17-34 | a task is built exactly when the title is non-empty and the points non-zero: a solo task of the current user with no completers, the draft's fields, an empty description by default; the panel is then closed and reset; otherwise nothing happens |
| QuestLog.CreatedTasksAreWeekly | sections/QuestLog.tsx:15-24 | every task the form creates is WEEKLY |
| QuestLog.CreatedTaskPaysInFull | sections/QuestLog.tsx:17-34 | a created task is the one its id finds, can be claimed, and pays its first claimer the full points |
| QuestLog.ClaimButtonMatchesGuard | sections/QuestLog.tsx:82-104 | the claim button is enabled exactly when the handler's guard passes, and a disabled button's claim would change nothing |
| AdminPanel.Members | sections/AdminPanel.tsx:12-14 | a section is no longer than the user list |
| AdminPanel.MembersKeepOrder | sections/AdminPanel.tsx:12-14 | a section is the user list with some users left out and the rest in their original order |
| AdminPanel.MemberIff | sections/AdminPanel.tsx:12-14 | a section holds exactly the users whose role belongs there |
| AdminPanel.SectionsPartitionUsers | sections/AdminPanel.tsx:12-14 | every user appears in exactly one section, as often as in the list |
| AdminPanel.Perform | sections/AdminPanel.tsx:38-39 | authorize and re-admit call approve; terminate and discharge call reject |
| AdminPanel.PendingDecisions | sections/AdminPanel.tsx:38-39 | a pending user is offered both decisions; authorizing puts them on the roster as BOY, terminating on the blacklist |
| AdminPanel.ReadmitReturnsToRoster | sections/AdminPanel.tsx:91 | a blacklisted user is offered re-admission, which puts them on the roster as BOY and off the blacklist |
| AdminPanel.DischargeSparesAdmins | sections/AdminPanel.tsx:70-71 | with unique ids no ADMIN is offered a discharge; a discharge keeps every ADMIN and blacklists its target |
| Dashboard.NextLevelPoints | sections/Dashboard.tsx:13 | for a level below the cap, the bar's target `level * 1000` is the first point count of the next level, and one point less still earns the current level |
| Dashboard.ThresholdBoundsPoints | sections/Dashboard.tsx:13 | for a user whose stored level does not run ahead of the points, after the level check the points lie in the band the progress bar spans: at least the previous threshold and, below the cap, short of `level * 1000` |
| Dashboard.PenaltyLeavesLevelAboveBand | sections/Dashboard.tsx:13 | that condition can fail: a level-2 BOY at 1000 points whose dropped question draws a vote falls to 995, the level check keeps level 2, and the points sit below the band [1000, 2000) |
| Dashboard.RankedUsers | sections/Dashboard.tsx:21 | the filtered list is no longer than the user list |
| Dashboard.RankedKeepsOrder | sections/Dashboard.tsx:21 | the filter leaves some users out and keeps the rest in their original order |
| Dashboard.RankedIsRoster | sections/Dashboard.tsx:21 | the leaderboard filter keeps the same users, in order, as the admin roster |
| Dashboard.Insert | sections/Dashboard.tsx:22 | inserting into a list sorted by points keeps it sorted and adds exactly that user |
| Dashboard.SortByPoints | sections/Dashboard.tsx:22 | the result is sorted by points, highest first, and is a permutation of the input |
| Dashboard.Leaderboard | sections/Dashboard.tsx:20-22 | `sortedUsers` is ordered by points, highest first, and is a rearrangement of the ranked users |
| Dashboard.LeaderboardContents | sections/Dashboard.tsx:20-22 | the leaderboard is sorted by points, permutes the ranked users, and holds exactly the users who are neither REJECTED nor PENDING |
| Dashboard.ClaimTriggersLevelCheck | sections/Dashboard.tsx:16-18 | a claim that moves the claimer's points changes what the level-check effect depends on, so the effect is due; when it runs it leaves the level at least the one the points earn. The effect runs only while the dashboard is mounted (App.tsx:442), so after a claim on the quests view it runs on the next visit to the dashboard |
| Profile.TryAddTag | sections/Profile.tsx:34-51 | blank input is ignored; a full list (three tags) is refused before the length limit of ten on the untrimmed input; otherwise the trimmed upper-case input is appended, the list stays at most three, and the new tag is well formed |
| Profile.StoredTagWellFormed | sections/Profile.tsx:44 | an accepted tag is non-empty, at most ten characters, has no outer white space and no lower-case letter |
| Profile.CheckAvatar | sections/Profile.tsx:16-32 | no file does nothing; above 2 MiB is an error; otherwise the data URL becomes the avatar |
| Profile.AddKeepsTagsOk | sections/Profile.tsx:34-51 | an add keeps the list at most three well-formed tags |
| Profile.TagsOkSnoc | sections/Profile.tsx:44 | appending a well-formed tag to a short list keeps it valid |
| Profile.RemoveKeepsTagsOk | sections/Profile.tsx:53-57 | a removal keeps the list valid |
| Profile.TagEditsKeepTagsOk | sections/Profile.tsx:34-57 | any sequence of adds and removals keeps at most three well-formed tags |
| Profile.ProfileEditor.constructor | sections/Profile.tsx:11-13 | the tags start as the user's custom tags, or empty |
| Profile.ProfileEditor.TypeTag | sections/Profile.tsx:34 | only the input changes |
| Profile.ProfileEditor.AddTag | sections/Profile.tsx:34-51 | fields, error and pushed user follow `TryAddTag`; the list never passes three |
| Profile.ProfileEditor.RemoveTag | sections/Profile.tsx:53-57 | the list loses exactly that index, and the user with the new list is pushed |
| Profile.ProfileEditor.UploadAvatar | sections/Profile.tsx:16-32 | follows `CheckAvatar`: error on a large file, otherwise the avatar is pushed |
| ProofCodec.EscapeChar | sections/TargetList.tsx:117 | a written character is never a bare quote, and is either an escape or the printable character itself |
| ProofCodec.EncodeProof | sections/TargetList.tsx:117 | the proof text is a bracketed array |
| ProofCodec.SkipWs | sections/TargetList.tsx:182 | the rest after white space is a suffix that does not start with white space |
| ProofCodec.Unescape | sections/TargetList.tsx:182 | an escape consumes between two characters and the whole input |
| ProofCodec.ParseStringBody | sections/TargetList.tsx:182 | a parsed string literal consumes input |
| ProofCodec.ParseItems | sections/TargetList.tsx:182 | parsed elements consume input |
| ProofCodec.ParseArray | sections/TargetList.tsx:182 | a parse succeeds only on text whose first non-blank character is `[` (ProofRoundTrip gives the parse of every written proof) |
| ProofCodec.ParseProof | sections/TargetList.tsx:181-185 | text that is not a JSON array of strings, such as the older single-image format, is shown as the one image it is |
| ProofCodec.StringRoundTrip | sections/TargetList.tsx:117 | a string literal written at line 117 and parsed at line 182 reads back as the string, leaving the rest |
| ProofCodec.ItemsRoundTrip | sections/TargetList.tsx:117 | the elements written at line 117 and closing bracket read back as the list |
| ProofCodec.ProofRoundTrip | sections/TargetList.tsx:117 | what the submitter writes (line 117), the reviewer (line 182) reads back as exactly the images |
| TargetList.Accepted | sections/TargetList.tsx:84-93 | a batch contributes at most one data URL per file |
| TargetList.AcceptedIff | sections/TargetList.tsx:85-88 | a data URL comes in exactly when some file within 5 MiB carries it; every file is either taken or answered by an alert |
| TargetList.Upload | sections/TargetList.tsx:73-95 | no file list: nothing. Five held: refused with an alert. Otherwise only the first `5 - held` files are looked at; those within 5 MiB are appended after the held images, which are kept; the count never passes five |
| TargetList.ImageCountStaysBounded | sections/TargetList.tsx:77-99 | uploads and removals handled one after another never hold more than five images |
| TargetList.TotalLength | sections/TargetList.tsx:105 | the summed length is at least the length of each image |
| TargetList.TotalLengthSnoc | sections/TargetList.tsx:105 | the sum taken image by image from the front equals the running `reduce` total: one more image adds exactly its length |
| TargetList.PrepareSubmission | sections/TargetList.tsx:101-119 | nothing without a selected bounty or images; an alert above the total length limit; otherwise a pending request for that bounty and user whose proof reads back as exactly the images |
| TargetList.FindBounty | sections/TargetList.tsx:168 | the first bounty with that id, or None exactly when no bounty has it |
| TargetList.CardTitle | sections/TargetList.tsx:170 | a review card shows the related bounty's title when it is found and non-empty, and "Unknown Target" otherwise; the title is never empty |
| TargetList.Verify | sections/TargetList.tsx:130-148 | a request is sent exactly for a confirmed decision on a pending submission; a rejection passes reward 0 and "Intel insufficient."; an approval passes the related bounty's reward (0 when there is none) and "Good hunting." |
| TargetList.ProofDraft.constructor | sections/TargetList.tsx:22-23 | no bounty selected and no images |
| TargetList.ProofDraft.SelectBounty | sections/TargetList.tsx:244 | the modal opens on that bounty; the images are kept |
| TargetList.ProofDraft.Cancel | sections/TargetList.tsx:291 | the selection and the images are cleared |
| TargetList.ProofDraft.UploadImages | sections/TargetList.tsx:73-95 | the loop over the files leaves the images and alerts exactly as `Upload` says, keeping the count at most five |
| TargetList.ProofDraft.RemoveImage | sections/TargetList.tsx:97-99 | the images lose exactly that index |
| TargetList.ProofDraft.SubmitProof | sections/TargetList.tsx:101-128 | follows `PrepareSubmission`; a stored request clears the selection and images with the success alert, a failed one keeps both with the failure alert |

## Left out

- Store I/O (`server/index.js`, `services/storageService.ts`): HTTP routes,
  database queries, fetch failures and the `catch` branches. Fetched lists
  are parameters and saves are reported as whole collections. The store
  calls `getBounties`, `submitBounty` and `verifySubmission` are not part of
  this model. `loadData` and `handleCreateBounty` are left out with them,
  because they only fetch or store.
- The AI section (`AILab.tsx`, `services/geminiService.ts`): a foreign
  service.
- Rendering, CSS and the `isLoading` spinners inside sections.
- The `alert`/`confirm` dialogs are outputs and parameters. They are not
  modal interaction.
- Concurrency: the 4-second polling interval, `async` interleavings and lost
  updates between sessions. Each handler is one atomic step.
  - `LedgerFacts.PollSettles` is about two ticks with the same fetched list.
  - The `JSON.stringify` comparison before `setUsers` only avoids a
    re-render, so the refreshed list is always the fetched one.
- FileReader callbacks are asynchronous and may complete in any order.
  - TargetList.ProofDraft.UploadImages appends in file order.
  - Two uploads started before their readers finish could pass five images in
    the real component. The bound holds only for uploads handled one after
    another.
- Points, rewards and levels are integers. JavaScript numbers may be
  fractional or NaN, which is not modelled. The progress-bar percentage is
  floating point and is left out.
- Case mapping covers ASCII letters only. Non-ASCII `toUpperCase` and
  `toLowerCase`, such as `ß`, are not modelled.
- ProofCodec.ParseProof: recognises only arrays of strings.
  - `JSON.parse` also accepts other JSON values: a lone string, numbers,
    objects, or arrays with non-string elements. The component would wrap a
    lone value as `[value]` or display the raw elements. The model shows such
    a proof as the one image `[proof]`.
  - Any surrogate escape (`\uD800` to `\uDFFF`), paired or not, is rejected.
    A valid escaped pair such as `"\ud83d\ude00"`, which `JSON.parse`
    accepts, makes the proof fall back to the single image `[proof]`.
  - The round trip itself is proved for every list of strings.
- Profile.TryAddTag: the ten-character limit counts Unicode scalar values
  (Dafny `char`s), while `tagInput.length > 10` (sections/Profile.tsx:40)
  counts UTF-16 code units. Six emoji are twelve code units: the component
  refuses them and the model adds them. `Profile.ProfileEditor.AddTag`
  inherits the difference. The field's `maxLength={10}`
  (sections/Profile.tsx:124) also counts code units, so typed input does not
  reach it.
- Dashboard.ClaimTriggersLevelCheck: says when the level-check effect is due,
  not when it runs. The effect runs only while the dashboard is mounted
  (`view === 'dashboard'`, App.tsx:442). Claims are made on the quests view
  (App.tsx:443-447), so the check runs on the next visit to the dashboard. A
  user who never opens it never levels up. View switching is not modelled.
- Dashboard.SortByPoints: does not claim the sort is stable. The stable
  `Array.prototype.sort` keeps equal-point users in list order, which is not
  stated.
- types.ts declares `isBestAnswer` (types.ts:67) and
  `adminApproved`/`majorityApproved` (types.ts:58-59), but no code sets them.
  They are carried as `Option` fields and never written.
- The `view` switch and navigation are not modelled beyond `Ledger.ScreenOf`.
  The `IncomingSignalAlert` component is not part of this model.
