/** The game's progression state, the reducer over it and the store that
    owns the one mutable state cell (`useGameState`). */
module GameStateMachine {
  import opened Wrappers

  datatype Phase = Start | Playing | Victory

  datatype FeedbackKind = Correct | Incorrect

  /** The toast the HUD shows. */
  datatype Feedback = Feedback(kind: FeedbackKind, message: string)

  datatype GameState = GameState(
    gamePhase: Phase,
    currentLevel: int,
    questionAnswered: bool,
    keyRevealed: bool,
    keyCollected: bool,
    switchActivated: bool,
    doorUnlocked: bool,
    showQuestion: bool,
    feedback: Option<Feedback>)

  /** The twelve actions; only the wrong-answer action carries data. */
  datatype Action =
    | StartGame
    | ShowQuestion
    | HideQuestion
    | AnswerCorrect
    | AnswerIncorrect(message: string)
    | ClearFeedback
    | RevealKey
    | CollectKey
    | ActivateSwitch
    | UnlockDoor
    | NextLevel
    | Restart

  /** The level after which the game is won. */
  const LastLevel := 5

  const Initial := GameState(Start, 1, false, false, false, false, false, false, None)

  const CorrectAnswerMessage := "Correct! A key has been revealed somewhere in the room..."
  const KeyCollectedMessage := "Key collected! Find the switch to unlock the door."
  const SwitchActivatedMessage := "Switch activated! The door is now unlocked."

  /** `gameReducer`: the new state after `a`, checking no precondition. */
  function Reduce(s: GameState, a: Action): GameState {
    match a
    case StartGame => Initial.(gamePhase := Playing)
    case ShowQuestion => s.(showQuestion := true)
    case HideQuestion => s.(showQuestion := false)
    case AnswerCorrect =>
      s.(questionAnswered := true, showQuestion := false,
         feedback := Some(Feedback(Correct, CorrectAnswerMessage)))
    case AnswerIncorrect(message) => s.(feedback := Some(Feedback(Incorrect, message)))
    case ClearFeedback => s.(feedback := None)
    case RevealKey => s.(keyRevealed := true)
    case CollectKey =>
      s.(keyCollected := true, feedback := Some(Feedback(Correct, KeyCollectedMessage)))
    case ActivateSwitch =>
      s.(switchActivated := true, doorUnlocked := true,
         feedback := Some(Feedback(Correct, SwitchActivatedMessage)))
    case UnlockDoor => s.(doorUnlocked := true)
    case NextLevel =>
      if s.currentLevel >= LastLevel then s.(gamePhase := Victory)
      else s.(currentLevel := s.currentLevel + 1, questionAnswered := false,
              keyRevealed := false, keyCollected := false, switchActivated := false,
              doorUnlocked := false, showQuestion := false, feedback := None)
    case Restart => Initial
  }

  /** The actions `acts`, dispatched one after the other from `s`. */
  function Run(s: GameState, acts: seq<Action>): GameState
    decreases |acts|
  {
    if acts == [] then s else Run(Reduce(s, acts[0]), acts[1..])
  }

  /** The nine fields of the state, to say which of them an action touches. */
  datatype Field =
    | PhaseField | LevelField | AnsweredField | RevealedField | CollectedField
    | SwitchField | DoorField | OverlayField | FeedbackField

  /** The fields in which `s` and `t` differ; none exactly when they are equal. */
  function Changed(s: GameState, t: GameState): (r: set<Field>)
    ensures r == {} <==> s == t
  {
    (if s.gamePhase != t.gamePhase then {PhaseField} else {})
    + (if s.currentLevel != t.currentLevel then {LevelField} else {})
    + (if s.questionAnswered != t.questionAnswered then {AnsweredField} else {})
    + (if s.keyRevealed != t.keyRevealed then {RevealedField} else {})
    + (if s.keyCollected != t.keyCollected then {CollectedField} else {})
    + (if s.switchActivated != t.switchActivated then {SwitchField} else {})
    + (if s.doorUnlocked != t.doorUnlocked then {DoorField} else {})
    + (if s.showQuestion != t.showQuestion then {OverlayField} else {})
    + (if s.feedback != t.feedback then {FeedbackField} else {})
  }

  /** Starting the game from any state yields the initial record with only
      the phase changed, to playing. */
  lemma StartGameResets(s: GameState)
    ensures Reduce(s, StartGame).gamePhase == Playing
    ensures Changed(Initial, Reduce(s, StartGame)) == {PhaseField}
  {
  }

  /** Restarting from any state yields the start phase at level 1 with every
      flag cleared and no feedback. */
  lemma RestartResets(s: GameState)
    ensures var t := Reduce(s, Restart);
      && t.gamePhase == Start && t.currentLevel == 1
      && !t.questionAnswered && !t.keyRevealed && !t.keyCollected
      && !t.switchActivated && !t.doorUnlocked && !t.showQuestion
      && t.feedback == None
  {
  }

  /** After the last level, moving on only switches the phase to victory. */
  lemma NextLevelAtLast(s: GameState)
    requires s.currentLevel >= LastLevel
    ensures Reduce(s, NextLevel).gamePhase == Victory
    ensures Changed(s, Reduce(s, NextLevel)) <= {PhaseField}
  {
  }

  /** Before the last level, moving on goes to the next level in the same
      phase, with every flag cleared and no feedback. */
  lemma NextLevelAdvances(s: GameState)
    requires s.currentLevel < LastLevel
    ensures var t := Reduce(s, NextLevel);
      && t.currentLevel == s.currentLevel + 1 && t.gamePhase == s.gamePhase
      && !t.questionAnswered && !t.keyRevealed && !t.keyCollected
      && !t.switchActivated && !t.doorUnlocked && !t.showQuestion
      && t.feedback == None
  {
  }

  /** A correct answer marks the question answered, hides it and reports
      success; nothing else changes. */
  lemma AnswerCorrectEffect(s: GameState)
    ensures var t := Reduce(s, AnswerCorrect);
      && t.questionAnswered && !t.showQuestion
      && t.feedback == Some(Feedback(Correct, CorrectAnswerMessage))
      && Changed(s, t) <= {AnsweredField, OverlayField, FeedbackField}
  {
  }

  /** Collecting the key sets the key flag and reports it; nothing else
      changes, and the key need not have been revealed. */
  lemma CollectKeyEffect(s: GameState)
    ensures var t := Reduce(s, CollectKey);
      && t.keyCollected && t.feedback == Some(Feedback(Correct, KeyCollectedMessage))
      && Changed(s, t) <= {CollectedField, FeedbackField}
  {
  }

  /** The switch unlocks the door in the same step, and reports it; nothing
      else changes. */
  lemma ActivateSwitchEffect(s: GameState)
    ensures var t := Reduce(s, ActivateSwitch);
      && t.switchActivated && t.doorUnlocked
      && t.feedback == Some(Feedback(Correct, SwitchActivatedMessage))
      && Changed(s, t) <= {SwitchField, DoorField, FeedbackField}
  {
  }

  /** Showing the question sets only the overlay flag. */
  lemma ShowQuestionEffect(s: GameState)
    ensures Reduce(s, ShowQuestion).showQuestion
    ensures Changed(s, Reduce(s, ShowQuestion)) <= {OverlayField}
  {
  }

  /** Hiding the question clears only the overlay flag. */
  lemma HideQuestionEffect(s: GameState)
    ensures !Reduce(s, HideQuestion).showQuestion
    ensures Changed(s, Reduce(s, HideQuestion)) <= {OverlayField}
  {
  }

  /** A wrong answer only reports the given message as a failure. */
  lemma AnswerIncorrectEffect(s: GameState, message: string)
    ensures Reduce(s, AnswerIncorrect(message)).feedback == Some(Feedback(Incorrect, message))
    ensures Changed(s, Reduce(s, AnswerIncorrect(message))) <= {FeedbackField}
  {
  }

  /** Clearing the feedback only removes the toast. */
  lemma ClearFeedbackEffect(s: GameState)
    ensures Reduce(s, ClearFeedback).feedback == None
    ensures Changed(s, Reduce(s, ClearFeedback)) <= {FeedbackField}
  {
  }

  /** Revealing the key sets only the key-revealed flag. */
  lemma RevealKeyEffect(s: GameState)
    ensures Reduce(s, RevealKey).keyRevealed
    ensures Changed(s, Reduce(s, RevealKey)) <= {RevealedField}
  {
  }

  /** Unlocking the door sets only the door flag. */
  lemma UnlockDoorEffect(s: GameState)
    ensures Reduce(s, UnlockDoor).doorUnlocked
    ensures Changed(s, Reduce(s, UnlockDoor)) <= {DoorField}
  {
  }

  /** The reducer alone guards nothing: right after starting, a key can be
      collected that was never revealed, the door unlocked without the
      switch, and the level left with the door still locked. */
  lemma ReducerIsUnguarded()
    ensures var t := Run(Initial, [StartGame, CollectKey]); t.keyCollected && !t.keyRevealed
    ensures var t := Run(Initial, [StartGame, UnlockDoor]); t.doorUnlocked && !t.switchActivated
    ensures var t := Run(Initial, [StartGame, NextLevel]); t.currentLevel == 2 && t.gamePhase == Playing
  {
    assert [StartGame, CollectKey][1..] == [CollectKey];
    assert [StartGame, UnlockDoor][1..] == [UnlockDoor];
    assert [StartGame, NextLevel][1..] == [NextLevel];
  }

  /** One action keeps a level between 1 and 5 there: only moving on
      changes the level, and not past the last. */
  lemma ReduceKeepsLevelInRange(s: GameState, a: Action)
    requires 1 <= s.currentLevel <= LastLevel
    ensures 1 <= Reduce(s, a).currentLevel <= LastLevel
    ensures a != NextLevel && a != StartGame && a != Restart ==>
      Reduce(s, a).currentLevel == s.currentLevel
  {
    match a {
      case NextLevel =>
      case StartGame =>
      case Restart =>
      case _ =>
        assert Reduce(s, a).currentLevel == s.currentLevel;
    }
  }

  /** Whatever actions are dispatched, a level between 1 and 5 stays there. */
  lemma {:induction false} RunKeepsLevelInRange(s: GameState, acts: seq<Action>)
    requires 1 <= s.currentLevel <= LastLevel
    ensures 1 <= Run(s, acts).currentLevel <= LastLevel
    decreases |acts|
  {
    if acts != [] {
      ReduceKeepsLevelInRange(s, acts[0]);
      RunKeepsLevelInRange(Reduce(s, acts[0]), acts[1..]);
    }
  }

  /** From the initial state, every action sequence keeps the level in 1..5. */
  lemma LevelInRangeFromInitial(acts: seq<Action>)
    ensures 1 <= Run(Initial, acts).currentLevel <= LastLevel
  {
    RunKeepsLevelInRange(Initial, acts);
  }

  /** The state cell of `useGameState` and its dispatch wrappers. */
  class GameStore {
    var state: GameState

    constructor ()
      ensures state == Initial
    {
      state := Initial;
    }

    /** Replaces the state by the reducer's result. */
    method Dispatch(a: Action)
      modifies this
      ensures state == Reduce(old(state), a)
    {
      state := Reduce(state, a);
    }

    method StartGame()
      modifies this
      ensures state == Reduce(old(state), Action.StartGame)
    {
      Dispatch(Action.StartGame);
    }

    method ShowQuestion()
      modifies this
      ensures state == Reduce(old(state), Action.ShowQuestion)
    {
      Dispatch(Action.ShowQuestion);
    }

    method HideQuestion()
      modifies this
      ensures state == Reduce(old(state), Action.HideQuestion)
    {
      Dispatch(Action.HideQuestion);
    }

    method AnswerCorrect()
      modifies this
      ensures state == Reduce(old(state), Action.AnswerCorrect)
    {
      Dispatch(Action.AnswerCorrect);
    }

    method AnswerIncorrect(message: string)
      modifies this
      ensures state == Reduce(old(state), Action.AnswerIncorrect(message))
    {
      Dispatch(Action.AnswerIncorrect(message));
    }

    method ClearFeedback()
      modifies this
      ensures state == Reduce(old(state), Action.ClearFeedback)
    {
      Dispatch(Action.ClearFeedback);
    }

    method RevealKey()
      modifies this
      ensures state == Reduce(old(state), Action.RevealKey)
    {
      Dispatch(Action.RevealKey);
    }

    method CollectKey()
      modifies this
      ensures state == Reduce(old(state), Action.CollectKey)
    {
      Dispatch(Action.CollectKey);
    }

    method ActivateSwitch()
      modifies this
      ensures state == Reduce(old(state), Action.ActivateSwitch)
    {
      Dispatch(Action.ActivateSwitch);
    }

    method UnlockDoor()
      modifies this
      ensures state == Reduce(old(state), Action.UnlockDoor)
    {
      Dispatch(Action.UnlockDoor);
    }

    method NextLevel()
      modifies this
      ensures state == Reduce(old(state), Action.NextLevel)
    {
      Dispatch(Action.NextLevel);
    }

    method Restart()
      modifies this
      ensures state == Reduce(old(state), Action.Restart)
    {
      Dispatch(Action.Restart);
    }
  }
}
