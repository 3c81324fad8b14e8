# Hiring board model

A Dafny model of the logic behind a kanban hiring board. Job requisitions
carry an ordered list of hiring stages. Candidates move through those stages
by drag and drop on a board, and a move may record an automatic interview.

The model covers:

- the rule that decides whether a stage move records an interview, and the two
  drop reducers of the board (`kanban.dfy`);
- the client-side store: the collections, the navigation and modal cells, and
  the derived views and statistics (`store.dfy`, `stats.dfy`);
- the default pipeline, the sample records and the lookups over them
  (`data.dfy`);
- the candidate detail drawer with its save-time e-mail check and list editors
  (`candidate_modal.dfy`);
- the dialog that edits an interview, with its validation (`interview_form.dfy`);
- the drawers that create a candidate and a requisition (`candidate_form.dfy`,
  `requisition_form.dfy`);
- the all-candidates page with its filters and labels (`candidates_page.dfy`);
- the sign-in state and the values derived from it (`auth.dfy`);
- the route guard (`auth_guard.dfy`).

The records are in `model.dfy`. The JavaScript string and list primitives they
rely on are in `common.dfy`: `trim`, `split`, `join`, `parseInt`, `filter`,
`find`, `indexOf`, de-duplication through a `Set`, and slot assignment.

Three kinds of source code take three forms:

- Stateful components and atoms are classes whose methods update the fields,
  e.g. `Store.Store`, `CandidateModal.CandidateModal` and
  `InterviewForm.EditInterviewForm`.
- Loops that fill a dictionary are methods with loop invariants, proved
  against a specification function (`Stats.CountStages`,
  `Data.GetRequisitionStats`).
- Pure expressions are functions, and the promised properties are lemmas about
  them.

Timestamps and `Date.now()` ids are parameters (`now`, `millis`). A drag
payload arrives already decoded as a `Candidate`.

## Model

| member | source | states |
|---|---|---|
| Kanban.ShouldCreateInterview | components/candidate-kanban.jsx:77-99 | a new interview is created only when none exists for the destination, and only for a move to a terminal stage or to a different declared stage; a move to a terminal stage with no interview for it always creates one |
| Kanban.NoSecondInterview | components/candidate-kanban.jsx:83-86 | an interview already on record for the destination stage suppresses a new one, in either direction |
| Kanban.ForwardMoveCreates | components/candidate-kanban.jsx:77-91 | with unique stage ids, a move to a later pipeline position records an interview when none exists for that stage |
| Kanban.UnknownSourceCountsAsForward | components/candidate-kanban.jsx:78-91 | a source stage missing from the pipeline (index -1) makes any move to a declared stage count as forward |
| Kanban.TerminalMoveCreates | components/candidate-kanban.jsx:94-98 | a move to `rejected` or `hired` records an interview from any stage when none exists for it |
| Kanban.BackwardMoveSkips | components/candidate-kanban.jsx:94-98 | a move back (or in place) to a non-terminal stage never records one |
| Kanban.SystemInterview | components/candidate-kanban.jsx:116-122 | the automatic record: the move time, the destination as type, interviewer `System`, rating 3 |
| Kanban.SystemInterviewNamesStage | components/candidate-kanban.jsx:108-122 | its feedback names the destination stage by its display name |
| Kanban.Moved | components/candidate-kanban.jsx:112-131 | the moved card gets the new stage and time; all other fields stay; exactly one automatic interview is appended when the stage changes and the rule allows it, otherwise none |
| Kanban.DropOverColumn | components/candidate-kanban.jsx:101-138 | no store update when the payload already sits at the column; otherwise same length and ids, every other card unchanged, the dragged card `Moved` |
| Kanban.MovedKeepsKindsUnique | components/candidate-kanban.jsx:77-131 | a move never records a second interview of the same type |
| Kanban.DropOverColumnKeepsKindsUnique | components/candidate-kanban.jsx:101-138 | a column drop keeps every card's interview types distinct |
| Kanban.DropOverColumnTwiceIsNoOp | components/candidate-kanban.jsx:105 | dropping the moved card on the same column again sends no update |
| Kanban.ListDrop | components/candidate-kanban.jsx:140-188 | no update exactly when the target is the dragged card or is not listed |
| Kanban.TargetSurvivesRemoval | components/candidate-kanban.jsx:148-156 | a listed target other than the dragged card is still found after the dragged card is removed, so the second not-found check never fires |
| Kanban.ListDropPlacesNextToTarget | components/candidate-kanban.jsx:148-187 | the card takes the target's stage and lands right before the target (`top`) or right after it; the other cards keep their relative order |
| Kanban.ListDropKeepsIds | components/candidate-kanban.jsx:148-187 | with unique ids and the dragged card listed once, the card count stays the same and no id is duplicated |
| Kanban.DropOverListItem | components/candidate-kanban.jsx:140-188 | the step-by-step splice produces exactly `ListDrop` |
| Kanban.ColumnCount | components/candidate-kanban.jsx:251-255 | a column's badge is at most the card count and is 0 exactly when no card sits at that stage |
| Kanban.ColumnCounts | components/candidate-kanban.jsx:251-255 | every column of the board has a badge, only columns have one, and no badge exceeds the number of cards |
| Kanban.ColumnCountsAddUp | components/candidate-kanban.jsx:251-255 | on every board each column badge equals the per-stage count of `requisitionStatsAtom`; when every card sits at a declared stage of a board with distinct stages the badges add up to the number of cards |
| Kanban.ScenarioForwardColumnDrop | components/candidate-kanban.jsx:101-138 | applied to technical interview records exactly one interview of that type |
| Kanban.ScenarioBackwardColumnDrop | components/candidate-kanban.jsx:101-138 | moving back to applied records nothing |
| Kanban.ScenarioDropBelowCard | components/candidate-kanban.jsx:140-188 | a card dropped below an `offer` card lands after it, at `offer`, with an `offer` interview |
| Store.CandidatesByRequisition | lib/atoms.js:23-32 | empty without a selection; otherwise exactly the selected requisition's candidates, in store order |
| Store.ReplaceById | lib/atoms.js:66-75 | same length; records with the update's id become the update, the others are unchanged |
| Store.ReplaceByIdKeepsIds | lib/atoms.js:66-75 | the id sequence is kept and a second identical update changes nothing |
| Store.MergeOne | lib/atoms.js:77-93 | the record becomes the first update carrying its id exactly when that update belongs to the selected requisition; with no such update, or one of another requisition, it stays as it was |
| Store.MergeUpdates | lib/atoms.js:77-93 | the store keeps its length, order and ids; records with no update are untouched; with unique update ids, a record with an update of the selected requisition becomes that update and any other stays |
| Store.MergeOwnRecords | lib/atoms.js:77-93 | with unique ids, merging the store's own records leaves it unchanged |
| Store.NoUpdateOutsideSelection | lib/atoms.js:77-93 | a record of another requisition has no counterpart in an update list drawn from the selected requisition |
| Store.ColumnDropReachesStore | lib/atoms.js:77-93 | a column drop on the board, merged into the store, replaces the dragged record by its moved version and leaves every other record as it was |
| Store.RequisitionStatsEntries | lib/atoms.js:178-205 | one entry per requisition, in order: its candidate total and the per-stage counts |
| Store.Store.constructor | lib/atoms.js:6-20 | the cells' initial values: overview, nothing selected, every modal closed |
| Store.Store.AddRequisition | lib/atoms.js:50-56 | appends one requisition and keeps the rest |
| Store.Store.AddCandidate | lib/atoms.js:58-64 | appends one candidate and keeps the rest |
| Store.Store.UpdateCandidate | lib/atoms.js:66-75 | the candidates become `ReplaceById` of the old list |
| Store.Store.UpdateCandidates | lib/atoms.js:77-93 | the candidates become `MergeUpdates` of the old list for the selected requisition |
| Store.Store.SelectRequisition | lib/atoms.js:96-102 | selects the requisition and shows the board |
| Store.Store.BackToOverview | lib/atoms.js:104-110 | clears the selection and shows the overview |
| Store.Store.OpenCandidateModal | lib/atoms.js:113-119 | selects the candidate and opens its drawer |
| Store.Store.CloseCandidateModal | lib/atoms.js:121-127 | clears the candidate and closes the drawer |
| Store.Store.OpenAddRequisitionModal | lib/atoms.js:129-134 | opens the requisition drawer |
| Store.Store.CloseAddRequisitionModal | lib/atoms.js:136-141 | closes it |
| Store.Store.OpenAddCandidateModal | lib/atoms.js:143-149 | records the requisition to add to and opens the drawer |
| Store.Store.CloseAddCandidateModal | lib/atoms.js:151-157 | clears that requisition and closes the drawer |
| Store.Store.SelectedCandidates | lib/atoms.js:23-32 | the derived view over the current cells |
| Store.Store.Stats | lib/atoms.js:160-176 | the total is the store size, the interview bucket counts the cards at the seven interview stages, the offer and hired buckets count the cards at `offer` and `hired`, and the buckets never exceed the total |
| Store.Store.RequisitionStats | lib/atoms.js:178-205 | one entry per stored requisition, in order, with its candidate total, its positions to fill and the count for each of its stages |
| Stats.CandidateStatsOf | lib/atoms.js:160-176 | the total, the interview-stage bucket, `offer` and `hired`; the buckets sum to at most the total |
| Stats.InInterview | lib/atoms.js:164-166 | true exactly for the seven interview stages, and never for `applied`, `screening`, `offer`, `hired` or `rejected` |
| Stats.DisjointBuckets | lib/atoms.js:160-176 | the three buckets are disjoint, so their sizes add up to at most the list length |
| Stats.StageCountsSpec | lib/atoms.js:193-198 | one key per declared stage id |
| Stats.CountStages | lib/data.js:483-488 | the `forEach` fill produces exactly the stage dictionary |
| Stats.StageCountsSumToTotal | lib/data.js:483-488 | with unique stage ids and every candidate at a declared stage, the per-stage counts add up to the candidate count |
| Data.GetRequisitionById | lib/data.js:452-454 | `None` exactly when no requisition has the id; otherwise a listed requisition with that id |
| Data.GetCandidatesByRequisition | lib/data.js:456-460 | the requisition's candidates, in order |
| Data.GetCandidatesByStage | lib/data.js:462-468 | the requisition's candidates at the stage, in order |
| Data.ByStageRefinesByRequisition | lib/data.js:456-468 | the per-stage list is the per-requisition list filtered by stage |
| Data.GetRequisitionStats | lib/data.js:470-491 | `None` exactly for an unknown id; otherwise the candidate total, the positions copied from the requisition, and a count per declared stage |
| Data.PriorityColor | lib/data.js:494-505 | any priority other than high, medium and low gets the gray default |
| Data.PriorityColorsDistinct | lib/data.js:494-505 | the three known priorities get three distinct, non-gray classes |
| Data.PriorityBadge | lib/data.js:507-516 | a listed priority gets its badge, a name inherited from `Object.prototype` reads the inherited member, and anything else gets the low badge |
| Data.PriorityBadgeFallsBackToLow | lib/data.js:507-516 | a priority is styled as `low` exactly when it is neither `high` nor `medium` nor an inherited name |
| Data.DefaultStagesWellFormed | lib/data.js:14-55 | the default stage ids are unique and include `hired` and `rejected` |
| Data.SampleStageIds | lib/data.js:14-218 | the stage ids of the three sample pipelines, in order |
| Data.SampleRequisitionLookup | lib/data.js:58-218 | each sample requisition is found by its id |
| Data.SampleCandidatesUnique | lib/data.js:221-449 | the sample candidate ids are unique |
| Data.SampleCandidatesDeclared | lib/data.js:58-449 | every sample candidate's stage and interview types are stages of its requisition |
| CandidateModal.EmailShapeMatchesPattern | components/candidate-modal.jsx:49-50 | the structural check accepts exactly what the e-mail pattern matches |
| CandidateModal.CheckEmail | components/candidate-modal.jsx:43-53 | missing exactly when blank after trimming; accepted exactly when the trimmed text matches the pattern |
| CandidateModal.SavedRecord | components/candidate-modal.jsx:55-63 | the non-blank tags in order, each kept as many times as it was entered, a fresh update time, every other field (the e-mail untrimmed) unchanged |
| CandidateModal.ExperienceLevelOf | components/candidate-modal.jsx:153-158 | Junior exactly up to 2 years, Mid-level exactly above 2 up to 5, Senior exactly above 5 up to 8, Principal exactly above 8 |
| CandidateModal.ExperienceLevelMonotone | components/candidate-modal.jsx:153-158 | more experience never gives a lower level; Junior exactly up to 2 years, Mid-level exactly from above 2 to 5, Senior exactly from above 5 to 8, Principal exactly above 8 (the board's copy in components/candidate-kanban.jsx:47-52 is the same classifier) |
| CandidateModal.RatingStars | components/candidate-modal.jsx:160-162 | for ratings 0 to 5, five characters: `rating` filled stars, then empty ones; no value where `repeat` would throw |
| CandidateModal.CandidateModal.constructor | components/candidate-modal.jsx:29-30 | nothing shown, nothing edited, read mode |
| CandidateModal.CandidateModal.Sync | components/candidate-modal.jsx:33-38 | an open drawer with a candidate starts a fresh read-only copy |
| CandidateModal.CandidateModal.HandleSave | components/candidate-modal.jsx:40-68 | a missing or malformed e-mail raises its alert and saves nothing; otherwise `SavedRecord` is saved, edit mode ends and the drawer closes |
| CandidateModal.CandidateModal.HandleEditToggle | components/candidate-modal.jsx:70-76 | flips edit mode; leaving it restores the shown candidate |
| CandidateModal.CandidateModal.HandleInputChange | components/candidate-modal.jsx:78-83 | the named field takes the value; nothing else changes |
| CandidateModal.CandidateModal.HandleEmailChange | components/candidate-modal.jsx:78-83 | the e-mail takes the value |
| CandidateModal.CandidateModal.HandleExperienceChange | components/candidate-modal.jsx:78-83 | the years take `parseInt(text) || 0` |
| CandidateModal.CandidateModal.HandleTagChange | components/candidate-modal.jsx:85-92 | only the slot at the index changes |
| CandidateModal.CandidateModal.AddTag | components/candidate-modal.jsx:94-99 | one empty tag is appended |
| CandidateModal.CandidateModal.RemoveTag | components/candidate-modal.jsx:101-107 | the tag at the index is dropped |
| CandidateModal.CandidateModal.HandleDeleteInterview | components/candidate-modal.jsx:111-121 | the entry at the index is dropped; nothing happens without a record |
| CandidateModal.CandidateModal.HandleUpdateInterview | components/candidate-modal.jsx:123-133 | only the entry at the index is replaced; nothing happens without a record |
| CandidateModal.DeleteInterviewRemovesOne | components/candidate-modal.jsx:111-121 | exactly that entry goes, the others keep their order; an index outside the list changes nothing |
| Model.WithProfileField | components/candidate-modal.jsx:78-83 | the named field reads back the value and every other field is unchanged |
| Model.ExperienceFromInput | components/add-candidate-form.jsx:225 | an input that does not parse gives 0, otherwise the parsed integer |
| Model.ExperienceInputRoundTrip | components/add-candidate-form.jsx:225 | typing a year count reads it back; a blank input reads 0 |
| InterviewForm.InitialFormData | components/edit-interview-form.jsx:21-25 | the interview's texts, and its rating unless that is falsy |
| InterviewForm.ParseRating | components/edit-interview-form.jsx:41-42 | a number in the field reads back as itself, and the empty text is no number |
| InterviewForm.ParseRatingOfOption | components/edit-interview-form.jsx:38-45 | each rating option parses to its value |
| InterviewForm.Validate | components/edit-interview-form.jsx:27-49 | the interviewer is missing when blank, too short under two trimmed characters, else accepted; the rating is missing when falsy, out of range unless it parses to 1 to 5, else accepted |
| InterviewForm.InterviewerError | components/edit-interview-form.jsx:31-35 | no message exactly when at least two characters remain after trimming; "required" exactly when blank; "too short" exactly when not blank with fewer than two left |
| InterviewForm.RatingError | components/edit-interview-form.jsx:38-45 | no message exactly when the rating parses to 1 to 5; "required" exactly when falsy (`0` or `""`); "out of range" exactly for every other value |
| InterviewForm.AcceptedForm | components/edit-interview-form.jsx:47-48 | no messages exactly when both fields are acceptable |
| InterviewForm.SubmittedInterview | components/edit-interview-form.jsx:58-63 | the interview's other fields kept, trimmed interviewer and feedback, the parsed rating from 1 to 5 |
| InterviewForm.SubmittedIsValid | components/edit-interview-form.jsx:51-67 | a submitted record has a rating from 1 to 5 and an interviewer of two or more characters without leading whitespace |
| InterviewForm.UntouchedFormRoundTrip | components/edit-interview-form.jsx:21-63 | a well-formed stored interview passes untouched and comes back unchanged |
| InterviewForm.WithField | components/edit-interview-form.jsx:80-85 | the named field takes the typed value |
| InterviewForm.EditInterviewForm.constructor | components/edit-interview-form.jsx:19-25 | closed, no messages, the interview's values |
| InterviewForm.EditInterviewForm.ReceiveInterview | components/edit-interview-form.jsx:21-25 | a new interview prop leaves the form values as they are |
| InterviewForm.EditInterviewForm.ValidateForm | components/edit-interview-form.jsx:27-49 | stores `Validate`'s messages and reports success exactly when there are none |
| InterviewForm.EditInterviewForm.SetOpen | components/edit-interview-form.jsx:105 | the dialog's open flag takes the given value and nothing else changes |
| InterviewForm.EditInterviewForm.HandleSubmit | components/edit-interview-form.jsx:51-67 | an update is handed over exactly when validation passes, and then it is `SubmittedInterview` and the dialog closes |
| InterviewForm.EditInterviewForm.HandleCancel | components/edit-interview-form.jsx:69-78 | back to the interview's values, no messages, closed |
| InterviewForm.EditInterviewForm.HandleInputChange | components/edit-interview-form.jsx:80-93 | stores the value and clears only that field's message |
| CandidateForm.IsFormValid | components/add-candidate-form.jsx:111 | save is disabled exactly when the first name, last name or e-mail is empty; whitespace counts as content |
| CandidateForm.InitialDraftInvalid | components/add-candidate-form.jsx:20-39 | the initial draft cannot be saved and has one tag input |
| CandidateForm.WithDraftField | components/add-candidate-form.jsx:41-46 | only the named field changes |
| CandidateForm.RemoveTagKeepsOneInput | components/add-candidate-form.jsx:349 | removing through a shown button keeps at least one tag input |
| CandidateForm.CandidateId | components/add-candidate-form.jsx:75 | the id starts with `cand-` |
| CandidateForm.NewCandidate | components/add-candidate-form.jsx:73-82 | the draft's fields, the requisition's id, the date part of the timestamp, the non-blank tags, no interviews |
| CandidateForm.NewCandidateTags | components/add-candidate-form.jsx:78 | the saved tags are exactly the non-blank inputs, in order, each as many times as it was entered; none exactly when every input is blank |
| CandidateForm.AddCandidateForm.constructor | components/add-candidate-form.jsx:20-39 | the initial draft |
| CandidateForm.AddCandidateForm.HandleInputChange | components/add-candidate-form.jsx:41-46 | the draft becomes `WithDraftField` |
| CandidateForm.AddCandidateForm.HandleExperienceChange | components/add-candidate-form.jsx:225 | the years take `parseInt(text) || 0` |
| CandidateForm.AddCandidateForm.HandleTagChange | components/add-candidate-form.jsx:48-55 | only the slot at the index changes |
| CandidateForm.AddCandidateForm.AddTag | components/add-candidate-form.jsx:57-62 | one empty tag input is appended |
| CandidateForm.AddCandidateForm.RemoveTag | components/add-candidate-form.jsx:64-70 | the input at the index is dropped |
| CandidateForm.AddCandidateForm.HandleSave | components/add-candidate-form.jsx:72-109 | hands over `NewCandidate` of the draft and resets to exactly the initial draft |
| RequisitionForm.InitialDraft | components/add-requisition-form.jsx:21-37 | status draft, one position, one empty requirement, the default role and its stages |
| RequisitionForm.IsFormValid | components/add-requisition-form.jsx:111 | save is disabled exactly when the title, department or hiring manager is empty; whitespace counts as content |
| RequisitionForm.InitialDraftInvalid | components/add-requisition-form.jsx:111 | the initial draft cannot be saved |
| RequisitionForm.WithField | components/add-requisition-form.jsx:39-53 | only the named field changes, except that a new role also replaces the stages with that role's |
| RequisitionForm.WithFieldKeepsStagesForRole | components/add-requisition-form.jsx:39-53 | stages that follow the role keep following it after any field change |
| RequisitionForm.PositionsFromInput | components/add-requisition-form.jsx:210 | never 0: `NaN` and 0 both give 1, any other parse is kept |
| RequisitionForm.PositionsInputRoundTrip | components/add-requisition-form.jsx:210 | a typed positive count reads back; a blank input or 0 reads 1 |
| RequisitionForm.RequisitionId | components/add-requisition-form.jsx:82 | the id starts with `req-` |
| RequisitionForm.NewRequisition | components/add-requisition-form.jsx:79-85 | the draft's fields, an id, the date part of the timestamp, the non-blank requirements |
| RequisitionForm.NewRequisitionRequirements | components/add-requisition-form.jsx:84 | the saved requirements are exactly the non-blank inputs, in order, each as many times as it was entered; none exactly when every input is blank |
| RequisitionForm.AddRequisitionForm.constructor | components/add-requisition-form.jsx:21-37 | the initial draft, with the invariant established |
| RequisitionForm.AddRequisitionForm.HandleInputChange | components/add-requisition-form.jsx:39-53 | the draft becomes `WithField`; status draft, stages that follow the role and a non-zero count are kept |
| RequisitionForm.AddRequisitionForm.HandlePositionsChange | components/add-requisition-form.jsx:210 | the count takes `PositionsFromInput` |
| RequisitionForm.AddRequisitionForm.HandleRequirementChange | components/add-requisition-form.jsx:55-62 | only the slot at the index changes |
| RequisitionForm.AddRequisitionForm.AddRequirement | components/add-requisition-form.jsx:64-69 | one empty input is appended |
| RequisitionForm.AddRequisitionForm.RemoveRequirement | components/add-requisition-form.jsx:71-77 | the input at the index is dropped |
| RequisitionForm.AddRequisitionForm.HandleSave | components/add-requisition-form.jsx:79-109 | hands over `NewRequisition` of the draft (a draft with a non-zero count and the role's stages) and resets to the initial draft |
| CandidatesPage.Enrich | app/candidates/page.js:24-31 | the first requisition with the candidate's id supplies title and department, `Unknown` when missing or empty; the candidate itself is unchanged |
| CandidatesPage.EnrichWithoutRequisition | app/candidates/page.js:24-31 | a candidate without a listed requisition reads `Unknown` twice |
| CandidatesPage.EnrichAll | lib/atoms.js:34-47 | one row per candidate, in order |
| CandidatesPage.CandidatesOfEnrichAll | app/candidates/page.js:24-31 | enrichment loses no candidate |
| CandidatesPage.Accepts | app/candidates/page.js:34-40 | the `all` selector accepts every value; any other selector accepts exactly its own value |
| CandidatesPage.FilterCandidates | app/candidates/page.js:34-40 | an order-preserving subsequence holding exactly the rows every selector accepts |
| CandidatesPage.NoSelectionKeepsAll | app/candidates/page.js:34-40 | with every selector at `all` every row stays |
| CandidatesPage.PageStats | app/candidates/page.js:86-120 | the page's figures are the dashboard figures of the shown rows |
| CandidatesPage.UnfilteredPageMatchesDashboard | app/candidates/page.js:86-120 | unfiltered, they equal the global dashboard figures |
| CandidatesPage.PriorityValues | app/candidates/page.js:43 | no priority is offered twice, and every priority that occurs is offered |
| CandidatesPage.PriorityOptions | app/candidates/page.js:43 | every priority that occurs, each once, and no other |
| CandidatesPage.StageValues | app/candidates/page.js:44 | no stage is offered twice, and every stage that occurs is offered |
| CandidatesPage.StageOptions | app/candidates/page.js:44 | every stage that occurs, each once, and no other |
| Common.DistinctSpec | app/candidates/page.js:43-44 | de-duplication keeps each value once, in first-occurrence order |
| CandidatesPage.Capitalise | app/candidates/page.js:47-49 | same length; the first character upper-cased and every other character kept |
| CandidatesPage.FormatStage | app/candidates/page.js:46-50 | equals the character-wise reading: each `_` becomes a space and each word's first letter is upper-cased |
| CandidatesPage.FormatStageIsSpaced | app/candidates/page.js:46-50 | the label equals the character-wise reading: each `_` becomes a space and each word's first letter is upper-cased |
| CandidatesPage.StageBadgeColor | app/candidates/page.js:52-70 | the table's entry for a listed stage, the inherited member for an unlisted name from `Object.prototype`, and the gray default otherwise |
| CandidatesPage.StageBadgeGrayExactlyUnlisted | app/candidates/page.js:52-70 | the gray badge shows exactly for stages neither listed nor inherited |
| Auth.AuthState.constructor | lib/auth-atoms.js:8-22 | no user, not loading, no error, not initialised, dialogs hidden, login mode |
| Auth.AuthState.OpenLoginModal | lib/auth-atoms.js:187-194 | login mode, login dialog shown, error cleared |
| Auth.AuthState.OpenRegisterModal | lib/auth-atoms.js:196-203 | register mode, register dialog shown, error cleared |
| Auth.AuthState.OpenResetPasswordModal | lib/auth-atoms.js:205-212 | reset mode, login dialog shown, error cleared |
| Auth.AuthState.CloseAuthModals | lib/auth-atoms.js:214-221 | both dialogs hidden, error cleared, mode kept |
| Auth.AuthState.Status | lib/auth-atoms.js:262-276 | the status `AuthStatusOf` gives for the state's user, loading and initialised fields; once settled, unauthenticated exactly when there is no user |
| Auth.UserDisplayName | lib/auth-atoms.js:238-242 | empty exactly without a user; otherwise the display name, else the e-mail, else `User` |
| Auth.IsAuthenticated | lib/auth-atoms.js:226-229 | signed in exactly when there is a display name to show |
| Auth.IsEmailVerified | lib/auth-atoms.js:232-235 | verified only when signed in, and then exactly when the user's flag is set |
| Auth.AuthStatusOf | lib/auth-atoms.js:262-276 | loading exactly when uninitialised or busy; afterwards authenticated, unverified or unauthenticated by the user and its verification flag |
| Auth.StatusAgreesWithUser | lib/auth-atoms.js:226-276 | once settled, the status says signed in exactly when there is a user |
| Auth.UserInitialsAsWritten | lib/auth-atoms.js:245-259 | empty without a user |
| Auth.TwoWordBranch | lib/auth-atoms.js:250-253 | as written, a name made of a word, one space and a second word, then nothing or a space, gives the upper-cased first letters of the two words |
| Auth.OneWordBranch | lib/auth-atoms.js:245-259 | a name without spaces takes the one-word branch, so a user with no name gets empty initials and the `U` fallback is never reached |
| Auth.LeadingSpaceInitials | lib/auth-atoms.js:250-253 | a leading space gives `UNDEFINEDA` for ` Ada` |
| Auth.SingleSpaceThrows | lib/auth-atoms.js:250-253 | a name of one space throws |
| Auth.UserInitials | lib/auth-atoms.js:245-259 | empty exactly without a user; otherwise one or two upper-cased letters of the name, or `U` when it has no word |
| Auth.InitialsOfTwoWords | lib/auth-atoms.js:250-253 | as intended, a name with two or more words, whatever spaces surround them, gives the upper-cased first letters of its first two words |
| Auth.InitialsOfOneWord | lib/auth-atoms.js:250-255 | as intended, a name with one word between spaces gives the word's first two letters upper-cased |
| Auth.InitialsOfNoWord | lib/auth-atoms.js:250-258 | as intended, a name of spaces only, the empty name included, gives `U` |
| Auth.InitialsAgreeOnWellSpacedNames | lib/auth-atoms.js:245-259 | on names without empty pieces the code as written gives the intended initials |
| AuthGuard.GuardEffect | components/auth-guard.jsx:17-32 | no navigation while loading; signed out off `/login` goes to `/login`; signed in on `/login` goes to `/` |
| AuthGuard.GuardRender | components/auth-guard.jsx:34-70 | the waiting screen exactly while loading, a redirect screen exactly in the two redirect cases, the page otherwise |
| AuthGuard.EffectAgreesWithRender | components/auth-guard.jsx:17-70 | at most one navigation, and one exactly when a redirect screen is shown, to the page that screen names |
| AuthGuard.GuardOnStore | components/auth-guard.jsx:17-70 | over the store's cells the page is shown exactly when settled and signed in off `/login` or signed out on it; unverified users are let in |

## Left out

- Sign-up, sign-in, sign-out, password reset, profile update and e-mail verification: these are asynchronous calls into Firebase Auth, which is not part of this model. So are the Firestore and Supabase services.
- JSX markup, Tailwind classes other than the looked-up badge and border classes, and date formatting for display.
- `localStorage` persistence of the store cells: the store starts from the collections it is given.
- The clock: `new Date().toISOString()` and `Date.now()` are the `now` and `millis` parameters. A handler that reads the clock twice is given one `now`.
- Drag payloads are not parsed from JSON; a payload arrives as a decoded `Candidate`.
- `getHiringStagesForRole` and `ROLE_TYPES` are not part of this model. They are the `stagesForRole` and `defaultRole` parameters of `RequisitionForm.AddRequisitionForm`.
- CandidatesPage.EnrichAll: the `requisition` object that the store's enrichment also attaches is not kept; only title and department are.
- CandidateModal.CandidateModal.HandleInputChange: requires a record being edited. The inputs exist only in edit mode, which is entered with a record. The same holds for `HandleEmailChange`, `HandleExperienceChange`, `AddTag`, `RemoveTag` and `HandleTagChange`.
- CandidateModal.CandidateModal.HandleTagChange: also requires an index inside the tag list. The UI passes only indices of rendered inputs. An out-of-range JavaScript assignment would grow the array instead. The same holds for `CandidateForm.AddCandidateForm.HandleTagChange` and `RequisitionForm.AddRequisitionForm.HandleRequirementChange`.
- InterviewForm.EditInterviewForm.ReceiveInterview: the form values are initialised once per mounted dialog; remounting is not modelled.
- The sample requisitions keep only the opening words of their descriptions and the first two of their requirements; no operation reads those texts. Every other field of the sample records is as in lib/data.js.
- Kanban: the `targetIndex === -1` branch of the card drop is left out of the method body. `Kanban.TargetSurvivesRemoval` proves it cannot be taken.
- Strings are sequences of characters. Upper-casing covers ASCII letters only, and whitespace is the set JavaScript's `trim` and `\s` use, listed explicitly.
- InterviewForm.Validate: counts Unicode characters, where `.trim().length` counts UTF-16 code units. A character outside the Basic Multilingual Plane counts once here and twice in JavaScript: an interviewer name of one emoji is accepted by the source and rejected as too short by the model.
- InterviewForm.InterviewerError: counts Unicode characters where `.trim().length` counts UTF-16 code units, as for `InterviewForm.Validate` above.
- CandidatesPage.Capitalise: `charAt(0)` and `slice(1)` take UTF-16 code units, so a word starting outside the Basic Multilingual Plane is split there and kept whole here.
- Auth.UserInitials, Auth.UserInitialsAsWritten and CandidatesPage.Capitalise: `[0]` and `slice(0, 2)` take UTF-16 code units, so the source can cut a surrogate pair in half where the model takes a whole character. The same holds for the lemmas about them (Auth.InitialsOfTwoWords, Auth.InitialsOfOneWord, Auth.TwoWordBranch, Auth.OneWordBranch).
- Data.PriorityBadge and CandidatesPage.StageBadgeColor: the inherited member is named, not evaluated; the class text that would result from it is not modelled. Own keys are not shadowed by prototype names, as neither table uses one.

## Findings

| source | as written | input that shows it | evidently intended | confidence | as-written member | corrected member |
|---|---|---|---|---|---|---|
| lib/auth-atoms.js:245-259 | `name.split(' ')` keeps empty pieces, and `words[i][0]` of an empty piece is `undefined`; concatenation turns one such piece into the text `undefined`, and two into `NaN`, whose `toUpperCase` throws; the `U` fallback is unreachable | display name ` Ada` gives `UNDEFINEDA`; display name ` ` throws a `TypeError`; a user with neither name nor e-mail gets `""` instead of `U` | initials from the non-empty words: first letters of the first two, the first two letters of a single word, `U` when there is none | not executed | Auth.UserInitialsAsWritten, Auth.TwoWordBranch, Auth.LeadingSpaceInitials, Auth.SingleSpaceThrows, Auth.OneWordBranch | Auth.UserInitials, Auth.InitialsOfTwoWords, Auth.InitialsOfOneWord, Auth.InitialsOfNoWord |
