/** The heads-up display (`HUD`): the objective list and the current
    objective, the five level dots and the feedback toast. */
module Hud {
  import opened Wrappers
  import opened Seqs
  import opened GameStateMachine
  import opened GameEngine

  /** One line of the objective list. */
  datatype Objective = Objective(name: string, done: bool)

  /** The five objectives; the board and the challenge are both done once
      the question is answered. */
  function Objectives(s: GameState): seq<Objective> {
    [ Objective("Find the board", s.questionAnswered),
      Objective("Solve the challenge", s.questionAnswered),
      Objective("Find the key", s.keyCollected),
      Objective("Activate switch", s.switchActivated),
      Objective("Escape the room", s.doorUnlocked) ]
  }

  /** The filter predicate `o => !o.done`. */
  function NotDone(): Objective -> bool {
    (o: Objective) => !o.done
  }

  /** `currentObj`: the index of the first unfinished objective, or -1. */
  function CurrentObjective(s: GameState): (i: int)
    ensures -1 <= i < 5
    ensures i == -1 <==> s.questionAnswered && s.keyCollected && s.switchActivated && s.doorUnlocked
    ensures i >= 0 ==> !Objectives(s)[i].done && forall k :: 0 <= k < i ==> Objectives(s)[k].done
    ensures i != 1
  {
    var objs := Objectives(s);
    assert forall k :: 0 <= k < 5 ==> (NotDone()(objs[k]) <==> !objs[k].done);
    assert objs[0].done == objs[1].done == s.questionAnswered;
    assert objs[2].done == s.keyCollected && objs[3].done == s.switchActivated && objs[4].done == s.doorUnlocked;
    FindIndex(objs, NotDone())
  }

  const ProceedText := "> Proceed through the door"

  /** The objective line: the current objective's name after "> ", or the
      invitation to leave once everything is done. */
  function ObjectiveText(s: GameState): string {
    var i := CurrentObjective(s);
    if i >= 0 then "> " + Objectives(s)[i].name else ProceedText
  }

  /** The next task read straight off the flags, in the order the room is
      played: the board, the key, the switch, the door. */
  function NextTask(s: GameState): Option<string> {
    if !s.questionAnswered then Some("Find the board")
    else if !s.keyCollected then Some("Find the key")
    else if !s.switchActivated then Some("Activate switch")
    else if !s.doorUnlocked then Some("Escape the room")
    else None
  }

  /** The objective line names the next task, or says to proceed when there
      is none; "Solve the challenge" is never shown. */
  lemma ObjectiveTextFollowsFlags(s: GameState)
    ensures NextTask(s).Some? ==> ObjectiveText(s) == "> " + NextTask(s).value
    ensures NextTask(s).None? ==> ObjectiveText(s) == ProceedText
    ensures ObjectiveText(s) != "> Solve the challenge"
  {
    var i := CurrentObjective(s);
    var objs := Objectives(s);
    assert objs[0].done == s.questionAnswered && objs[2].done == s.keyCollected;
    assert objs[3].done == s.switchActivated && objs[4].done == s.doorUnlocked;
    assert i == 0 <==> !s.questionAnswered;
    assert "> Solve the challenge"[2] == 'S';
    assert ProceedText[2] == 'P';
    if i >= 0 {
      assert ("> " + Objectives(s)[i].name)[2] == Objectives(s)[i].name[0];
      if !s.questionAnswered {
        assert i == 0;
      } else if !s.keyCollected {
        assert i == 2;
      } else if !s.switchActivated {
        assert i == 3;
      } else {
        assert i == 4;
      }
    }
  }

  /** How a level dot is drawn. */
  datatype DotStyle = Completed | Current | Pending

  /** Dot `l`: completed below the current level, pulsing at it, muted above. */
  function Dot(l: int, currentLevel: int): DotStyle {
    if l < currentLevel then Completed
    else if l == currentLevel then Current
    else Pending
  }

  /** The dots of levels 1 to 5, left to right. */
  function Dots(currentLevel: int): (r: seq<DotStyle>)
    ensures |r| == 5
  {
    seq(5, k => Dot(k + 1, currentLevel))
  }

  /** On levels 1 to 5 exactly one dot is current, the dots before it are
      completed and the ones after it pending. */
  lemma DotsMarkOneLevel(currentLevel: int)
    requires 1 <= currentLevel <= LastLevel
    ensures forall k :: 0 <= k < 5 ==> (Dots(currentLevel)[k] == Current <==> k == currentLevel - 1)
    ensures forall k :: 0 <= k < 5 ==> (Dots(currentLevel)[k] == Completed <==> k < currentLevel - 1)
    ensures forall k :: 0 <= k < 5 ==> (Dots(currentLevel)[k] == Pending <==> k > currentLevel - 1)
  {
  }

  /** How the toast is drawn. */
  datatype ToastStyle = SuccessToast | ErrorToast

  /** The feedback toast, when there is one: its style and its text. */
  function Toast(s: GameState): (t: Option<(ToastStyle, string)>)
    ensures t.Some? <==> s.feedback.Some?
    ensures t.Some? ==> t.value.1 == s.feedback.value.message
    ensures t.Some? ==> (t.value.0 == SuccessToast <==> s.feedback.value.kind == Correct)
  {
    match s.feedback
    case None => None
    case Some(f) => Some((if f.kind == Correct then SuccessToast else ErrorToast, f.message))
  }

  /** The HUD is drawn only in the room, and there a visible toast can be
      clicked away: the engine offers the feedback-clearing callback. */
  lemma ToastClickClears(s: GameState)
    requires ScreenFor(s) == PlayScreen && Toast(s).Some?
    ensures Offered(s, OnClearFeedback)
    ensures Step(s, OnClearFeedback).feedback == None
    ensures Toast(Step(s, OnClearFeedback)).None?
  {
    RunOne(s, ClearFeedback);
  }
}
