/** The game engine: the click handlers that guard the reducer, the lookups
    of the current level's configuration and question, and the choice of
    screen by phase. */
module GameEngine {
  import opened Wrappers
  import opened Seqs
  import opened GameStateMachine
  import opened QuestionBank
  import opened LevelCatalog

  /** The callbacks the engine hands to the screens, the room, the HUD and
      the question overlay. */
  datatype Handler =
    | OnBoardClick | OnKeyClick | OnSwitchClick | OnDoorClick
    | OnCorrectAnswer | OnKeyRevealed | OnCloseQuestion | OnClearFeedback
    | OnStart | OnRestart

  /** The actions a handler dispatches in state `s`, in order. The door's
      delayed move to the next level is taken as immediate. */
  function Dispatches(s: GameState, h: Handler): seq<Action> {
    match h
    case OnBoardClick => if !s.questionAnswered then [ShowQuestion] else []
    case OnKeyClick => if s.keyRevealed && !s.keyCollected then [CollectKey] else []
    case OnSwitchClick => if s.keyCollected && !s.switchActivated then [ActivateSwitch] else []
    case OnDoorClick => if s.doorUnlocked then [ClearFeedback, NextLevel] else []
    case OnCorrectAnswer => [AnswerCorrect]
    case OnKeyRevealed => [RevealKey]
    case OnCloseQuestion => [HideQuestion]
    case OnClearFeedback => [ClearFeedback]
    case OnStart => [StartGame]
    case OnRestart => [Restart]
  }

  /** The state after handler `h` has run in state `s`. */
  function Step(s: GameState, h: Handler): GameState {
    Run(s, Dispatches(s, h))
  }

  datatype Screen = StartScreen | VictoryScreen | PlayScreen

  /** The start screen in the start phase, the victory screen in the victory
      phase, the room otherwise. */
  function ScreenFor(s: GameState): Screen {
    if s.gamePhase == Start then StartScreen
    else if s.gamePhase == Victory then VictoryScreen
    else PlayScreen
  }

  /** Whether the screen on display can fire `h`: the start and victory
      screens have one button each; the overlay's callbacks exist only while
      it is shown, the toast's only while there is feedback; the room reports
      the key revealed only once the question is answered. */
  predicate Offered(s: GameState, h: Handler) {
    match h
    case OnStart => ScreenFor(s) == StartScreen
    case OnRestart => ScreenFor(s) == VictoryScreen
    case OnCorrectAnswer => ScreenFor(s) == PlayScreen && s.showQuestion
    case OnCloseQuestion => ScreenFor(s) == PlayScreen && s.showQuestion
    case OnClearFeedback => ScreenFor(s) == PlayScreen && s.feedback.Some?
    case OnKeyRevealed => ScreenFor(s) == PlayScreen && s.questionAnswered
    case _ => ScreenFor(s) == PlayScreen
  }

  /** What holds in every state the engine can reach: the level is one of
      the five; the key, the switch and the door are taken in order; the key
      appears only after the question is answered, and an answered question
      is never shown again; the start phase is the untouched initial state,
      and victory is reached only through the unlocked door of level 5. */
  ghost predicate Inv(s: GameState) {
    && 1 <= s.currentLevel <= LastLevel
    && (s.keyCollected ==> s.keyRevealed)
    && (s.switchActivated ==> s.keyCollected)
    && (s.doorUnlocked ==> s.switchActivated)
    && (s.keyRevealed ==> s.questionAnswered)
    && (s.questionAnswered ==> !s.showQuestion)
    && (s.gamePhase == Start ==> s == Initial)
    && (s.gamePhase == Victory ==> s.currentLevel == LastLevel && s.doorUnlocked)
  }

  /** One action dispatched alone. */
  lemma RunOne(s: GameState, a: Action)
    ensures Run(s, [a]) == Reduce(s, a)
  {
    assert [a][1..] == [];
  }

  /** Two actions dispatched in a row. */
  lemma RunTwo(s: GameState, a: Action, b: Action)
    ensures Run(s, [a, b]) == Reduce(Reduce(s, a), b)
  {
    assert [a, b][1..] == [b];
    RunOne(Reduce(s, a), b);
  }

  /** The guarded handlers: the board opens the question only while it is
      unanswered, the key is collected only once revealed and not yet taken,
      the switch is activated only with the key in hand and only once, and
      the door, only when unlocked, clears the feedback and then moves on. */
  lemma GuardedSteps(s: GameState)
    ensures Step(s, OnBoardClick) == if !s.questionAnswered then Reduce(s, ShowQuestion) else s
    ensures Step(s, OnKeyClick) ==
      if s.keyRevealed && !s.keyCollected then Reduce(s, CollectKey) else s
    ensures Step(s, OnSwitchClick) ==
      if s.keyCollected && !s.switchActivated then Reduce(s, ActivateSwitch) else s
    ensures Step(s, OnDoorClick) ==
      if s.doorUnlocked then Reduce(Reduce(s, ClearFeedback), NextLevel) else s
  {
    RunOne(s, ShowQuestion);
    RunOne(s, CollectKey);
    RunOne(s, ActivateSwitch);
    RunTwo(s, ClearFeedback, NextLevel);
  }

  /** The other handlers dispatch their one action unconditionally. */
  lemma UnguardedSteps(s: GameState)
    ensures Step(s, OnCorrectAnswer) == Reduce(s, AnswerCorrect)
    ensures Step(s, OnKeyRevealed) == Reduce(s, RevealKey)
    ensures Step(s, OnCloseQuestion) == Reduce(s, HideQuestion)
    ensures Step(s, OnClearFeedback) == Reduce(s, ClearFeedback)
    ensures Step(s, OnStart) == Reduce(s, StartGame)
    ensures Step(s, OnRestart) == Reduce(s, Restart)
  {
    RunOne(s, AnswerCorrect);
    RunOne(s, RevealKey);
    RunOne(s, HideQuestion);
    RunOne(s, ClearFeedback);
    RunOne(s, StartGame);
    RunOne(s, Restart);
  }

  /** The engine never unlocks the door directly and never reports a wrong
      answer: neither action is among those any handler dispatches. */
  lemma NeverDispatchesUnguarded(s: GameState, h: Handler)
    ensures forall a :: a in Dispatches(s, h) ==> a != UnlockDoor && !a.AnswerIncorrect?
  {
  }

  /** Every handler the screen offers keeps the invariant. */
  lemma StepPreservesInv(s: GameState, h: Handler)
    requires Inv(s) && Offered(s, h)
    ensures Inv(Step(s, h))
  {
    match h {
      case OnBoardClick => RunOne(s, ShowQuestion);
      case OnKeyClick => RunOne(s, CollectKey);
      case OnSwitchClick => RunOne(s, ActivateSwitch);
      case OnDoorClick =>
        RunTwo(s, ClearFeedback, NextLevel);
      case OnCorrectAnswer => RunOne(s, AnswerCorrect);
      case OnKeyRevealed => RunOne(s, RevealKey);
      case OnCloseQuestion => RunOne(s, HideQuestion);
      case OnClearFeedback => RunOne(s, ClearFeedback);
      case OnStart => RunOne(s, StartGame);
      case OnRestart => RunOne(s, Restart);
    }
  }

  /** The handlers `hs`, fired one after the other from `s`. */
  function Play(s: GameState, hs: seq<Handler>): GameState
    decreases |hs|
  {
    if hs == [] then s else Play(Step(s, hs[0]), hs[1..])
  }

  /** Each handler of `hs` is offered by the screen shown when it fires. */
  predicate Legal(s: GameState, hs: seq<Handler>)
    decreases |hs|
  {
    hs == [] || (Offered(s, hs[0]) && Legal(Step(s, hs[0]), hs[1..]))
  }

  /** Any legal run from a state satisfying the invariant ends in one. */
  lemma {:induction false} PlayPreservesInv(s: GameState, hs: seq<Handler>)
    requires Inv(s) && Legal(s, hs)
    ensures Inv(Play(s, hs))
    decreases |hs|
  {
    if hs != [] {
      StepPreservesInv(s, hs[0]);
      PlayPreservesInv(Step(s, hs[0]), hs[1..]);
    }
  }

  /** Every state the engine reaches from the initial one keeps the key,
      the switch and the door in order, reveals the key only after the
      question is answered and never shows an answered question. */
  lemma ReachableSatisfiesInv(hs: seq<Handler>)
    requires Legal(Initial, hs)
    ensures var t := Play(Initial, hs);
      && 1 <= t.currentLevel <= LastLevel
      && (t.keyCollected ==> t.keyRevealed)
      && (t.switchActivated ==> t.keyCollected)
      && (t.doorUnlocked ==> t.switchActivated)
      && (t.keyRevealed ==> t.questionAnswered)
      && (t.questionAnswered ==> !t.showQuestion)
  {
    PlayPreservesInv(Initial, hs);
  }

  /** On the victory screen of a reachable state every step of level 5 has
      been done; on the start screen nothing has happened yet. */
  lemma ScreensOfReachableStates(hs: seq<Handler>)
    requires Legal(Initial, hs)
    ensures var t := Play(Initial, hs);
      && (ScreenFor(t) == StartScreen ==> t == Initial)
      && (ScreenFor(t) == VictoryScreen ==>
            && t.currentLevel == LastLevel && t.questionAnswered && t.keyRevealed
            && t.keyCollected && t.switchActivated && t.doorUnlocked)
  {
    PlayPreservesInv(Initial, hs);
  }

  /** `levelConfigs[currentLevel - 1]`: the configuration of the current level. */
  function CurrentLevelConfig(s: GameState): (c: LevelConfig)
    requires 1 <= s.currentLevel <= LastLevel
    ensures c in LevelConfigs && c.level == s.currentLevel
  {
    ConfigsIndexedByLevel();
    LevelConfigs[s.currentLevel - 1]
  }

  /** `questions.find(q => q.level === currentLevel)`: the first question of
      the current level, which is 'l<level>q1'. */
  function CurrentQuestion(s: GameState): (q: Question)
    requires 1 <= s.currentLevel <= LastLevel
    ensures Find(Questions, LevelIs(s.currentLevel)) == Some(q)
    ensures q.level == s.currentLevel && q.id == CatalogId(s.currentLevel, 1)
  {
    FirstOfLevel(s.currentLevel);
    Find(Questions, LevelIs(s.currentLevel)).value
  }

  /** The question overlay is on screen only in the room, while the question
      is shown, and it shows the current level's first question, 'l<level>q1'. */
  function OverlayQuestion(s: GameState): (r: Option<Question>)
    requires 1 <= s.currentLevel <= LastLevel
    ensures r.Some? <==> ScreenFor(s) == PlayScreen && s.showQuestion
    ensures r.Some? ==> r.value.level == s.currentLevel && r.value.id == CatalogId(s.currentLevel, 1)
    ensures r.Some? ==> Find(Questions, LevelIs(s.currentLevel)) == r
  {
    if ScreenFor(s) == PlayScreen && s.showQuestion then Some(CurrentQuestion(s)) else None
  }

  /** The engine component: it owns the store and turns each handler into
      guarded dispatches. */
  class Engine {
    const store: GameStore

    ghost predicate Valid()
      reads this, store
    {
      Inv(store.state)
    }

    constructor ()
      ensures Valid() && store.state == Initial
    {
      store := new GameStore();
    }

    method HandleBoardClick()
      requires Valid() && Offered(store.state, OnBoardClick)
      modifies store
      ensures Valid() && store.state == Step(old(store.state), OnBoardClick)
    {
      ghost var s := store.state;
      GuardedSteps(s);
      StepPreservesInv(s, OnBoardClick);
      if !store.state.questionAnswered {
        store.ShowQuestion();
      }
    }

    method HandleKeyClick()
      requires Valid() && Offered(store.state, OnKeyClick)
      modifies store
      ensures Valid() && store.state == Step(old(store.state), OnKeyClick)
    {
      ghost var s := store.state;
      GuardedSteps(s);
      StepPreservesInv(s, OnKeyClick);
      if store.state.keyRevealed && !store.state.keyCollected {
        store.CollectKey();
      }
    }

    method HandleSwitchClick()
      requires Valid() && Offered(store.state, OnSwitchClick)
      modifies store
      ensures Valid() && store.state == Step(old(store.state), OnSwitchClick)
    {
      ghost var s := store.state;
      GuardedSteps(s);
      StepPreservesInv(s, OnSwitchClick);
      if store.state.keyCollected && !store.state.switchActivated {
        store.ActivateSwitch();
      }
    }

    method HandleDoorClick()
      requires Valid() && Offered(store.state, OnDoorClick)
      modifies store
      ensures Valid() && store.state == Step(old(store.state), OnDoorClick)
    {
      ghost var s := store.state;
      GuardedSteps(s);
      StepPreservesInv(s, OnDoorClick);
      if store.state.doorUnlocked {
        store.ClearFeedback();
        store.NextLevel();
      }
    }

    method HandleCorrectAnswer()
      requires Valid() && Offered(store.state, OnCorrectAnswer)
      modifies store
      ensures Valid() && store.state == Step(old(store.state), OnCorrectAnswer)
    {
      ghost var s := store.state;
      UnguardedSteps(s);
      StepPreservesInv(s, OnCorrectAnswer);
      store.AnswerCorrect();
    }

    method HandleKeyRevealed()
      requires Valid() && Offered(store.state, OnKeyRevealed)
      modifies store
      ensures Valid() && store.state == Step(old(store.state), OnKeyRevealed)
    {
      ghost var s := store.state;
      UnguardedSteps(s);
      StepPreservesInv(s, OnKeyRevealed);
      store.RevealKey();
    }

    /** The overlay's close button. */
    method CloseQuestion()
      requires Valid() && Offered(store.state, OnCloseQuestion)
      modifies store
      ensures Valid() && store.state == Step(old(store.state), OnCloseQuestion)
    {
      ghost var s := store.state;
      UnguardedSteps(s);
      StepPreservesInv(s, OnCloseQuestion);
      store.HideQuestion();
    }

    /** A click on the feedback toast. */
    method DismissFeedback()
      requires Valid() && Offered(store.state, OnClearFeedback)
      modifies store
      ensures Valid() && store.state == Step(old(store.state), OnClearFeedback)
    {
      ghost var s := store.state;
      UnguardedSteps(s);
      StepPreservesInv(s, OnClearFeedback);
      store.ClearFeedback();
    }

    /** The start screen's button. */
    method Start()
      requires Valid() && Offered(store.state, OnStart)
      modifies store
      ensures Valid() && store.state == Step(old(store.state), OnStart)
    {
      ghost var s := store.state;
      UnguardedSteps(s);
      StepPreservesInv(s, OnStart);
      store.StartGame();
    }

    /** The victory screen's button. */
    method PlayAgain()
      requires Valid() && Offered(store.state, OnRestart)
      modifies store
      ensures Valid() && store.state == Step(old(store.state), OnRestart)
    {
      ghost var s := store.state;
      UnguardedSteps(s);
      StepPreservesInv(s, OnRestart);
      store.Restart();
    }

    /** The configuration used to render the room. */
    method LevelConfigShown() returns (c: LevelConfig)
      requires Valid()
      ensures c in LevelConfigs && c.level == store.state.currentLevel
    {
      c := CurrentLevelConfig(store.state);
    }

    /** The question handed to the overlay, when it is shown. */
    method QuestionShown() returns (r: Option<Question>)
      requires Valid()
      ensures r.Some? <==> ScreenFor(store.state) == PlayScreen && store.state.showQuestion
      ensures r.Some? ==> Find(Questions, LevelIs(store.state.currentLevel)) == r
      ensures r.Some? ==>
        r.value.level == store.state.currentLevel && r.value.id == CatalogId(store.state.currentLevel, 1)
    {
      r := OverlayQuestion(store.state);
    }
  }
}
