# C Escape Quest: a verified model of the game core

C Escape Quest is a browser escape-room game with five levels. On every level the player:

1. finds the board and answers a question about C;
2. picks up the key, which appears only after that answer;
3. activates the switch, which unlocks the door;
4. walks through the door to the next room.

After the fifth door comes the victory screen.

This project models the game's logic in Dafny and proves what the code promises about it. It covers the following parts.

- **The progression state and its reducer** (`GameStateMachine`).
  - `GameState` is the nine-field record.
  - `Reduce` handles the twelve actions and checks no precondition.
  - `Run` applies a sequence of actions.
  - The class `GameStore` is the one state cell that the `useGameState` hook owns, with one dispatch wrapper per action.
- **The engine** (`GameEngine`).
  - `Dispatches` maps each callback to the actions it dispatches in a given state.
  - `ScreenFor` chooses the screen from the phase.
  - `Offered` says which callbacks the screen on display can fire.
  - The class `Engine` has one method per click handler.
  - The invariant `Inv` is proved for every state a legal run can reach: the key, the switch and the door are taken in order, and the key is revealed only after the question is answered.
  - It also looks up the current level's configuration and question.
- **The level setup** (`LevelSetup`).
  - The mulberry32 generator is modelled bit-exactly on `bv32` (the class `Rng`).
  - The Fisher–Yates shuffle is an in-place loop over a fresh array (`Shuffle`), proved equal to the value-level `ShuffleSpec`.
  - The resolver `Resolve` is proved equal to the pure `ResolveWith`. It picks the object that holds the question, the one that hides the key and three questions.
- **The catalogs.**
  - `QuestionBank` holds the thirty questions: id, level, kind, options and answer.
  - `RoomCatalog` holds the eleven room objects.
  - `LevelCatalog` holds the five level configurations: level, name and how the key is revealed.
  - Each catalog comes with the well-formedness facts that the engine and the resolver rely on.
- **The question overlay** (`QuestionOverlay`).
  - The class `Overlay` holds the overlay's four state cells.
  - `Judge` is the submit rule; `SubmitEnabled` is the button's enabling rule.
  - An invariant says that `onCorrect` is called back exactly once, and only for a right answer.
- **The heads-up display** (`Hud`): the current objective, the level dots and the feedback toast.
- **Helpers.**
  - `Seqs` models the array helpers the code uses: `filter`, `findIndex`, `find`, `slice(0, n)` and the swap.
  - `Text` models `String.prototype.trim` over an explicit whitespace table.

Choices the model makes:

- **Timers take effect at once.** The door's 500 ms delay before moving on is modelled as two actions in a row, so a door click is `ClearFeedback` and then `NextLevel`. The overlay's 2.5 s clearing of a failure notice becomes its own method, `Overlay.ExpireFeedback`. The room's 800 ms key reveal is the engine callback `OnKeyRevealed`, offered only once the question is answered, which is the condition `components/Room.tsx:89` checks.
- **A setup that cannot resolve returns an error.** `useLevelSetup` reads `.id` of an `undefined` object when one of its candidate lists is empty, which throws. The model returns `Err(NoQuestionHolder)` or `Err(NoKeyHider)` instead. `LevelSetup.CatalogSetup` proves that on the game's own tables neither error occurs, for any level from 1 to 5 and any seed.
- **The model has the state the code has.** The start screen (`src/game/ui/StartScreen.tsx:28`, `:41`) advertises lives, but `GameState` (`src/game/hooks/useGameState.ts:3-13`) has no lives and no seed field. `GameEngine.tsx` never calls `useLevelSetup`, so the resolver is modelled on its own with the seed as a parameter. The overlay shows one question, the first of the level, as `GameEngine.tsx:42-45` does.

## Model

Paths are relative to the repository root.

| member | source | states |
|---|---|---|
| Seqs.FilterMembers | src/game/hooks/useLevelSetup.ts:40-54 | `filter` keeps exactly the elements that satisfy the predicate: every kept element is from the input and passes, and every passing element is kept |
| Seqs.FilterKeepsOrder | src/game/hooks/useLevelSetup.ts:40-54 | `filter` keeps the input's order: its result embeds in the input at strictly increasing positions |
| Seqs.FilterSubMultiset | src/game/hooks/useLevelSetup.ts:40-54 | `filter` takes no element more often than the input has it |
| Seqs.FindIndex | src/game/ui/HUD.tsx:20 | `findIndex` returns -1 exactly when no element passes, and otherwise the index of a passing element with none passing before it |
| Seqs.Find | src/game/GameEngine.tsx:43 | `find` returns nothing exactly when no element passes, and otherwise the first passing element |
| Seqs.Take | src/game/hooks/useLevelSetup.ts:54 | `slice(0, n)` has length min(n, length) and agrees with the input position by position |
| Seqs.SwapFacts | src/game/hooks/useLevelSetup.ts:30 | the destructuring swap exchanges the two positions, leaves every other position alone and keeps the multiset of elements |
| Text.LeadingSpace | src/game/ui/QuestionOverlay.tsx:17 | the leading run of whitespace that `trim` removes: each of its characters is whitespace and the one after it is not |
| Text.TrailingSpace | src/game/ui/QuestionOverlay.tsx:17 | the trailing run of whitespace that `trim` removes: each of its characters is whitespace and the one before it is not |
| Text.TrimIsBorderlessSlice | src/game/ui/QuestionOverlay.tsx:17 | `trim` returns a middle slice of its input; everything cut off on either side is whitespace, and a non-empty result neither starts nor ends with whitespace |
| Text.TrimBlankIffAllWhitespace | src/game/ui/QuestionOverlay.tsx:144 | the trimmed input is blank exactly when every character typed is whitespace |
| Text.TrimFixesBorderless | src/game/ui/QuestionOverlay.tsx:17 | a string with no whitespace at either end is unchanged by `trim` |
| Text.TrimIdempotent | src/game/ui/QuestionOverlay.tsx:17 | trimming a trimmed string changes nothing |
| GameStateMachine.Changed | src/game/hooks/useGameState.ts:3-13 | the set of fields in which two states differ is empty exactly when the states are equal; it is used to say what an action leaves alone |
| GameStateMachine.StartGameResets | src/game/hooks/useGameState.ts:29-44 | from any state, START_GAME yields the initial record with only the phase changed, to playing |
| GameStateMachine.RestartResets | src/game/hooks/useGameState.ts:106-107 | from any state, RESTART yields the start phase at level 1 with all six flags false and no feedback |
| GameStateMachine.NextLevelAtLast | src/game/hooks/useGameState.ts:91-93 | at level 5 or above, NEXT_LEVEL sets the phase to victory and changes nothing else |
| GameStateMachine.NextLevelAdvances | src/game/hooks/useGameState.ts:94-104 | below level 5, NEXT_LEVEL increments the level, keeps the phase, clears all six flags and removes the feedback |
| GameStateMachine.AnswerCorrectEffect | src/game/hooks/useGameState.ts:52-58 | ANSWER_CORRECT marks the question answered, hides it and shows the success toast; no other field changes |
| GameStateMachine.CollectKeyEffect | src/game/hooks/useGameState.ts:72-77 | COLLECT_KEY sets the key flag and shows its toast; no other field changes, and it does not require the key to be revealed |
| GameStateMachine.ActivateSwitchEffect | src/game/hooks/useGameState.ts:79-85 | ACTIVATE_SWITCH sets the switch and the door flags together and shows its toast; no other field changes |
| GameStateMachine.ShowQuestionEffect | src/game/hooks/useGameState.ts:46-47 | SHOW_QUESTION sets the overlay flag and changes no other field |
| GameStateMachine.HideQuestionEffect | src/game/hooks/useGameState.ts:49-50 | HIDE_QUESTION clears the overlay flag and changes no other field |
| GameStateMachine.AnswerIncorrectEffect | src/game/hooks/useGameState.ts:60-64 | ANSWER_INCORRECT shows the given message as a failure toast and changes no other field |
| GameStateMachine.ClearFeedbackEffect | src/game/hooks/useGameState.ts:66-67 | CLEAR_FEEDBACK removes the toast and changes no other field |
| GameStateMachine.RevealKeyEffect | src/game/hooks/useGameState.ts:69-70 | REVEAL_KEY sets the key-revealed flag and changes no other field |
| GameStateMachine.UnlockDoorEffect | src/game/hooks/useGameState.ts:87-88 | UNLOCK_DOOR sets the door flag and changes no other field |
| GameStateMachine.ReducerIsUnguarded | src/game/hooks/useGameState.ts:72-104 | the reducer alone enforces no order: right after starting, the key can be collected unrevealed, the door unlocked without the switch, and the level left with the door locked |
| GameStateMachine.ReduceKeepsLevelInRange | src/game/hooks/useGameState.ts:41-112 | one action keeps a level in 1..5 there, and only NEXT_LEVEL, START_GAME and RESTART can change it |
| GameStateMachine.RunKeepsLevelInRange | src/game/hooks/useGameState.ts:41-112 | any sequence of actions keeps a level in 1..5 there |
| GameStateMachine.LevelInRangeFromInitial | src/game/hooks/useGameState.ts:29-112 | from the initial state, every sequence of actions keeps the level in 1..5 |
| GameStateMachine.GameStore.constructor | src/game/hooks/useGameState.ts:115 | the store starts in the initial state |
| GameStateMachine.GameStore.Dispatch | src/game/hooks/useGameState.ts:115 | dispatching replaces the state by the reducer's result |
| GameStateMachine.GameStore.StartGame | src/game/hooks/useGameState.ts:117 | `startGame` dispatches START_GAME |
| GameStateMachine.GameStore.ShowQuestion | src/game/hooks/useGameState.ts:118 | `showQuestion` dispatches SHOW_QUESTION |
| GameStateMachine.GameStore.HideQuestion | src/game/hooks/useGameState.ts:119 | `hideQuestion` dispatches HIDE_QUESTION |
| GameStateMachine.GameStore.AnswerCorrect | src/game/hooks/useGameState.ts:120 | `answerCorrect` dispatches ANSWER_CORRECT |
| GameStateMachine.GameStore.AnswerIncorrect | src/game/hooks/useGameState.ts:121-122 | `answerIncorrect(message)` dispatches ANSWER_INCORRECT with that message |
| GameStateMachine.GameStore.ClearFeedback | src/game/hooks/useGameState.ts:123 | `clearFeedback` dispatches CLEAR_FEEDBACK |
| GameStateMachine.GameStore.RevealKey | src/game/hooks/useGameState.ts:124 | `revealKey` dispatches REVEAL_KEY |
| GameStateMachine.GameStore.CollectKey | src/game/hooks/useGameState.ts:125 | `collectKey` dispatches COLLECT_KEY |
| GameStateMachine.GameStore.ActivateSwitch | src/game/hooks/useGameState.ts:126 | `activateSwitch` dispatches ACTIVATE_SWITCH |
| GameStateMachine.GameStore.UnlockDoor | src/game/hooks/useGameState.ts:127 | `unlockDoor` dispatches UNLOCK_DOOR |
| GameStateMachine.GameStore.NextLevel | src/game/hooks/useGameState.ts:128 | `nextLevel` dispatches NEXT_LEVEL |
| GameStateMachine.GameStore.Restart | src/game/hooks/useGameState.ts:129 | `restart` dispatches RESTART |
| GameEngine.GuardedSteps | src/game/GameEngine.tsx:47-70 | the board opens the question only while it is unanswered; the key is collected only when revealed and not yet taken; the switch works only with the key in hand and only once; the door, only when unlocked, clears the feedback and then moves on; otherwise each click changes nothing |
| GameEngine.UnguardedSteps | src/game/GameEngine.tsx:72-78 | the answer, key-revealed, close, toast, start and restart callbacks each dispatch their one action unconditionally |
| GameEngine.NeverDispatchesUnguarded | src/game/GameEngine.tsx:23-35 | no callback of the engine ever dispatches UNLOCK_DOOR or ANSWER_INCORRECT |
| GameEngine.StepPreservesInv | src/game/GameEngine.tsx:47-78 | every callback the screen offers keeps the invariant: level in 1..5, the key/switch/door flags in order, key revealed only after the answer, an answered question never shown, the start phase untouched, and victory only through level 5's unlocked door |
| GameEngine.PlayPreservesInv | src/game/GameEngine.tsx:47-78 | any legal sequence of callbacks from a state satisfying the invariant ends in one |
| GameEngine.ReachableSatisfiesInv | src/game/GameEngine.tsx:23-78 | every state reachable from the initial one satisfies keyCollected ⇒ keyRevealed, switchActivated ⇒ keyCollected, doorUnlocked ⇒ switchActivated, keyRevealed ⇒ questionAnswered and questionAnswered ⇒ ¬showQuestion, with the level in 1..5 |
| GameEngine.ScreensOfReachableStates | src/game/GameEngine.tsx:80-88 | in a reachable state the start screen shows only the untouched initial state, and the victory screen only after every step of level 5 is done |
| GameEngine.CurrentLevelConfig | src/game/GameEngine.tsx:37-40 | for a level in 1..5, `levelConfigs[currentLevel - 1]` is a catalog entry configuring that very level |
| GameEngine.CurrentQuestion | src/game/GameEngine.tsx:42-45 | the question shown is the first catalog entry of the current level; it exists, and its id is 'l<level>q1' |
| GameEngine.OverlayQuestion | src/game/GameEngine.tsx:131-136 | the overlay is mounted exactly when the room is on screen and the question is shown, and it shows the first catalog question of the current level, 'l<level>q1' |
| GameEngine.Engine.constructor | src/game/GameEngine.tsx:23-35 | the engine starts in the initial state, which satisfies the invariant |
| GameEngine.Engine.HandleBoardClick | src/game/GameEngine.tsx:47-51 | the board click performs the guarded step and keeps the invariant |
| GameEngine.Engine.HandleKeyClick | src/game/GameEngine.tsx:53-57 | the key click performs the guarded step and keeps the invariant |
| GameEngine.Engine.HandleSwitchClick | src/game/GameEngine.tsx:59-63 | the switch click performs the guarded step and keeps the invariant |
| GameEngine.Engine.HandleDoorClick | src/game/GameEngine.tsx:65-70 | the door click, when unlocked, clears the feedback and then moves on, and keeps the invariant |
| GameEngine.Engine.HandleCorrectAnswer | src/game/GameEngine.tsx:72-74 | the overlay's success callback marks the question answered and keeps the invariant |
| GameEngine.Engine.HandleKeyRevealed | src/game/GameEngine.tsx:76-78 | the room's reveal callback, fired only after the answer, reveals the key and keeps the invariant |
| GameEngine.Engine.CloseQuestion | src/game/GameEngine.tsx:131-136 | the overlay's close callback hides the question and keeps the invariant |
| GameEngine.Engine.DismissFeedback | src/game/GameEngine.tsx:124-128 | a click on the toast clears the feedback and keeps the invariant |
| GameEngine.Engine.Start | src/game/GameEngine.tsx:81-82 | the start screen's button starts the game and keeps the invariant |
| GameEngine.Engine.PlayAgain | src/game/GameEngine.tsx:86-87 | the victory screen's button restarts and keeps the invariant |
| GameEngine.Engine.LevelConfigShown | src/game/GameEngine.tsx:100-101 | the configuration the room is rendered with is a catalog entry whose level is the current level |
| GameEngine.Engine.QuestionShown | src/game/GameEngine.tsx:130-136 | a question is handed to the overlay exactly while the room is on screen and the question is shown; it is what `find` by the current level returns, with id 'l<level>q1' |
| LevelCatalog.ConfigsIndexedByLevel | src/game/data/levels.ts:17-93 | there are five configurations and entry i configures level i + 1 |
| QuestionBank.Level1Block | src/game/data/questions.ts:13-77 | the level-1 entries are six questions of level 1 numbered 'l1q1' to 'l1q6' |
| QuestionBank.Level2Block | src/game/data/questions.ts:79-174 | the level-2 entries are six questions of level 2 numbered 'l2q1' to 'l2q6' |
| QuestionBank.Level3Block | src/game/data/questions.ts:176-256 | the level-3 entries are six questions of level 3 numbered 'l3q1' to 'l3q6' |
| QuestionBank.Level4Block | src/game/data/questions.ts:258-333 | the level-4 entries are six questions of level 4 numbered 'l4q1' to 'l4q6' |
| QuestionBank.Level5Block | src/game/data/questions.ts:335-427 | the level-5 entries are six questions of level 5 numbered 'l5q1' to 'l5q6' |
| QuestionBank.Level1WellFormed | src/game/data/questions.ts:13-77 | every level-1 question is well formed for its kind |
| QuestionBank.Level2WellFormed | src/game/data/questions.ts:79-174 | every level-2 question is well formed for its kind |
| QuestionBank.Level3WellFormed | src/game/data/questions.ts:176-256 | every level-3 question is well formed for its kind |
| QuestionBank.Level4WellFormed | src/game/data/questions.ts:258-333 | every level-4 question is well formed for its kind |
| QuestionBank.Level5WellFormed | src/game/data/questions.ts:335-427 | every level-5 question is well formed for its kind |
| QuestionBank.CatalogLayout | src/game/data/questions.ts:12-428 | the table has thirty entries in blocks of six, level 1 first; entry i has level i/6 + 1 and id 'l<i/6+1>q<i%6+1>' |
| QuestionBank.LaidOutDistinct | src/game/data/questions.ts:12-428 | a table laid out in that way never repeats an id |
| QuestionBank.IdsDistinct | src/game/data/questions.ts:12-428 | no two questions share an id |
| QuestionBank.LevelsInRangeAndAscending | src/game/data/questions.ts:13-427 | every level is in 1..5, and the entries are in ascending level order |
| QuestionBank.CatalogWellFormed | src/game/data/questions.ts:12-428 | every multiple-choice question has four distinct non-empty options including its answer; every typed-answer question has no options and a non-empty digit string as its answer |
| QuestionBank.InputAnswersTrimmed | src/game/data/questions.ts:12-428 | every typed answer is non-empty and equal to its own trim, so a trimmed input can match it |
| QuestionBank.QuestionsOfLevel | src/game/data/questions.ts:13-427 | the questions of level L are the six consecutive entries of its block, so slicing three always yields three |
| QuestionBank.LevelPoolDistinct | src/game/data/questions.ts:13-427 | each level has exactly six questions, with distinct ids |
| QuestionBank.FirstOfLevel | src/game/data/questions.ts:13-427 | the first catalog question of level L is the head of its block, with id 'lLq1' |
| RoomCatalog.IdsDistinct | src/game/data/roomObjects.ts:13-123 | no two room objects share an id |
| RoomCatalog.HidersHaveKeyPosition | src/game/data/roomObjects.ts:15-93 | every object that can hide the key says where the key appears |
| RoomCatalog.QuestionHintsPresent | src/game/data/roomObjects.ts:15-93 | every object that can hold the question has a non-empty question hint |
| RoomCatalog.KeyHintsPresent | src/game/data/roomObjects.ts:15-93 | every object that can hide the key has a non-empty key hint |
| RoomCatalog.DecorationsTakeNoRole | src/game/data/roomObjects.ts:96-122 | the table, the chair and the stool can neither hold the question nor hide the key |
| RoomCatalog.HolderCount | src/game/data/roomObjects.ts:15-93 | exactly six objects can hold the question |
| RoomCatalog.HiderCount | src/game/data/roomObjects.ts:15-93 | exactly seven objects have `canHideKey` |
| RoomCatalog.EveryHolderLeavesAHider | src/game/data/roomObjects.ts:74-83 | whichever object holds the question, another object (the crate) can hide the key, so the key candidates are never empty |
| LevelSetup.Output | src/game/hooks/useLevelSetup.ts:19-21 | the tempered value read with `>>> 0` is an unsigned 32-bit number |
| LevelSetup.Draw | src/game/hooks/useLevelSetup.ts:21 | every draw lies in [0, 1) |
| LevelSetup.SwapPartner | src/game/hooks/useLevelSetup.ts:29 | the exchange index drawn at step i lies in 0..i |
| LevelSetup.DrawFloor | src/game/hooks/useLevelSetup.ts:29 | `Math.floor(draw * (i + 1))` equals the integer quotient (u * (i + 1)) div 2^32 for the 32-bit value u behind the draw, in exact arithmetic; JavaScript's double product agrees for arrays of at most 2^21 elements, which covers every call in the game |
| LevelSetup.ShuffleFromPermutes | src/game/hooks/useLevelSetup.ts:28-31 | the shuffle loop keeps the length and the multiset of elements |
| LevelSetup.ShuffleFromDraws | src/game/hooks/useLevelSetup.ts:28-31 | the loop from index i down to 1 advances the generator by exactly i draws |
| LevelSetup.ShuffleFromKeepsDistinct | src/game/hooks/useLevelSetup.ts:28-31 | elements with distinct keys still have distinct keys after the loop |
| LevelSetup.ShuffleFacts | src/game/hooks/useLevelSetup.ts:26-33 | `shuffle` returns a permutation of its input and consumes max(0, n - 1) draws |
| LevelSetup.Rng.constructor | src/game/hooks/useLevelSetup.ts:15-16 | the generator's state starts as the seed's 32-bit pattern |
| LevelSetup.Rng.Next | src/game/hooks/useLevelSetup.ts:17-22 | a draw adds 0x6D2B79F5 to the state with wrap-around and returns the tempered state divided by 2^32 |
| LevelSetup.Shuffle | src/game/hooks/useLevelSetup.ts:26-33 | the loop over a fresh copy returns exactly the arrangement and leaves exactly the generator state that `ShuffleSpec` prescribes, so its result is a permutation consuming max(0, n - 1) draws; the input is a value and stays unmodified |
| LevelSetup.ResolveRoles | src/game/hooks/useLevelSetup.ts:40-60 | the question object can hold questions; the key object can hide the key and has a different id; both are from the table; the ids are theirs; the key position is the hider's, or [0, -2, 0] |
| LevelSetup.ShuffledSelection | src/game/hooks/useLevelSetup.ts:52-54 | three of the shuffled questions of level L: min(3, pool size) of them, each from the table and of level L, with distinct ids when the pool's ids are distinct |
| LevelSetup.ResolveSelection | src/game/hooks/useLevelSetup.ts:52-54 | a resolved setup selects min(3, number of level-L questions) questions, all of level L and from the table, none repeated when the level's ids are distinct |
| LevelSetup.ResolveNeedsHolder | src/game/hooks/useLevelSetup.ts:40-46 | the setup fails for want of a question object exactly when no object can hold questions |
| LevelSetup.ResolveSucceeds | src/game/hooks/useLevelSetup.ts:40-49 | the setup succeeds whenever some object can hold questions and every such object leaves another that can hide the key |
| LevelSetup.ResolveDependsOnGeneratorSeed | src/game/hooks/useLevelSetup.ts:35-37 | the setup depends on level and seed only through the 32-bit generator seed of seed·31 + level·7 |
| LevelSetup.CatalogCanResolve | src/game/hooks/useLevelSetup.ts:40-49 | the game's object table meets both conditions for success |
| LevelSetup.CatalogSetup | src/game/hooks/useLevelSetup.ts:35-64 | on the game's tables, every level 1..5 with any seed resolves, selects three distinct questions of that level, and places the key where its hider says |
| LevelSetup.Resolve | src/game/hooks/useLevelSetup.ts:35-64 | one generator threaded through the three shuffles (holders, key hiders other than the holder, the level's questions) yields exactly the setup `ResolveWith` defines |
| LevelSetup.ResolveLevel | src/game/hooks/useLevelSetup.ts:35-64 | `useLevelSetup(level, seed)` over the game's own tables |
| QuestionOverlay.SubmitEnabledIffAnswerGiven | src/game/ui/QuestionOverlay.tsx:144 | the submit button is enabled exactly when `handleSubmit` would judge an answer instead of returning early |
| QuestionOverlay.RightIffExactMatch | src/game/ui/QuestionOverlay.tsx:20 | an answer is right exactly when it equals the correct answer character for character, and that answer is not empty |
| QuestionOverlay.JudgeSeesTrimmedInput | src/game/ui/QuestionOverlay.tsx:17 | only the trimmed input counts: trimming it beforehand does not change the verdict |
| QuestionOverlay.McqOptionVerdicts | src/game/ui/QuestionOverlay.tsx:82-104 | on a catalog multiple-choice question every option can be submitted, and exactly one of the four, the correct answer, is judged right |
| QuestionOverlay.InputVerdicts | src/game/ui/QuestionOverlay.tsx:107-125 | on a catalog typed-answer question an input is right exactly when its trim is the answer, so typing the answer is right |
| QuestionOverlay.Overlay.constructor | src/game/ui/QuestionOverlay.tsx:11-14 | the overlay opens with no selection, empty input, no feedback and unanswered |
| QuestionOverlay.Overlay.SelectOption | src/game/ui/QuestionOverlay.tsx:88 | clicking one of the options of an open multiple-choice question selects it and changes nothing else |
| QuestionOverlay.Overlay.TypeInput | src/game/ui/QuestionOverlay.tsx:114 | a change of the text field stores the value as typed and changes nothing else |
| QuestionOverlay.Overlay.Submit | src/game/ui/QuestionOverlay.tsx:16-35 | without an answer nothing changes; a right answer latches `answered`, shows the success message and calls `onCorrect` once; a wrong one shows the failure message, keeps the question open and calls nothing |
| QuestionOverlay.Overlay.ExpireFeedback | src/game/ui/QuestionOverlay.tsx:33 | the delayed clearing of a failure notice removes it and leaves the question open |
| QuestionOverlay.AnsweredFreezes | src/game/ui/QuestionOverlay.tsx:82-152 | once answered, the options and the input are disabled, submission is impossible, no expiry is pending, and `onCorrect` has been called exactly once |
| QuestionOverlay.UnansweredCanRetry | src/game/ui/QuestionOverlay.tsx:29-34 | while unanswered, `onCorrect` has never been called, and submitting stays possible (always for typed answers, with a selection for multiple choice) |
| Hud.CurrentObjective | src/game/ui/HUD.tsx:11-20 | `currentObj` is -1 exactly when the answer, key, switch and door flags are all set; otherwise it is the first unfinished objective, and never 'Solve the challenge' |
| Hud.ObjectiveTextFollowsFlags | src/game/ui/HUD.tsx:54 | the objective line names the next task in play order (board, key, switch, door), or says to proceed through the door once all are done; it never reads 'Solve the challenge' |
| Hud.Dots | src/game/ui/HUD.tsx:30-41 | there is one dot per level, five in all |
| Hud.DotsMarkOneLevel | src/game/ui/HUD.tsx:30-41 | for a level in 1..5 exactly one dot is current, the dots before it are completed and those after it pending |
| Hud.Toast | src/game/ui/HUD.tsx:60-73 | the toast is shown exactly when there is feedback; it carries the feedback's message and has the success style exactly for correct feedback |
| Hud.ToastClickClears | src/game/ui/HUD.tsx:60-73 | in the room, a visible toast can be clicked, and the click clears the feedback so the toast disappears |

## Left out

- Lives: the start screen's text about lives is not implemented by any code, so the model has no lives.
- Timers are taken as immediate. This leaves out the races they allow:
  - two door clicks within 500 ms each moving on a level;
  - a failure notice's 2.5 s clearing firing after a later right answer and erasing the success message (`Overlay.ExpireFeedback` is offered only while a failure notice shows);
  - `onCorrect` firing 2 s after the overlay was closed;
  - the room's 800 ms key reveal being cancelled by a level change.
- React machinery (`useReducer`, `useMemo` caching, `useCallback`, re-rendering) is not modelled: memoization only avoids recomputation.
- The reducer's `default:` branch is not modelled, because the action type admits no other action.
- The 3D room is not modelled: meshes, animations, lights, hover tooltips and the `Room`/`RoomObject` components. Room.tsx enters only through its condition for reporting the key revealed, and its per-object active flags repeat the engine's guards.
- The markup of the start and victory screens is not modelled: only their single buttons (`OnStart`, `OnRestart`).
- Level colours, fog and light intensities are left out. A level configuration keeps only its level, name and key-reveal kind.
- Question wording, code listings and explanations are display text and are left out of `Question`. The overlay takes the explanation as a parameter and shows it after the success mark.
- Room-object hints, names and positions are kept as plain data. Positions are `real` triples and nothing computes with them.
- GeneratorSeed: JavaScript computes `seed * 31 + level * 7` in double precision. The model uses exact integers, which agree only while the value stays below 2^53. A non-integer seed is not modelled.
- Shuffle: the draw is multiplied by `i + 1` in real arithmetic (`DrawFloor`). JavaScript's double product is exact only while u·(i + 1) stays below 2^53, that is for arrays of at most 2^21 elements. On longer arrays the generic `shuffle` may round across an integer and pick a different partner, which the model does not capture. The game shuffles at most 11 elements.
- Int32Bits has no contract of its own; it is the definition of `x | 0` for integers.
- Trim: `String.prototype.trim` is modelled over an explicit table of ECMAScript whitespace and line terminators. Characters outside the basic multilingual plane are not considered.
- The overlay's close button (`src/game/ui/QuestionOverlay.tsx:48-50`) has no member of its own in the overlay. It calls `onClose` whether or not the question was answered, and its effect on the game, hiding the question, is `Engine.CloseQuestion`. That method is offered whenever the overlay is shown.
- Overlay.Submit: the 2 s delay before `onCorrect` is not modelled. The callback is returned immediately, and the engine's `HandleCorrectAnswer` is its effect.
- The level setup's failures are modelled as an error value, where the code throws while reading `.id` of `undefined`.
