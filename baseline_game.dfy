/**
 The baseline `Game` as an object whose methods update its fields in place.
 Every method is proved to leave the state the matching function of
 `BaselineProgression` computes, so the lemmas there are facts about this
 class.
 */
module BaselineGame {
  import opened Wrappers
  import opened Questions
  import opened Input
  import opened Doors
  import opened BaselineProgression

  class Game {
    /** `doors[i]` is the `opened` flag of door number `i + 1`. */
    var doors: seq<bool>
    var currentQuestion: MathQuestion?
    var showQuestion: bool
    var questionResult: Verdict
    var doorsOpened: int
    var gameWon: bool
    /** The index of `current_door` in `doors`. */
    var currentDoor: Option<nat>

    ghost function State(): BaseState
      reads this, currentQuestion
    {
      BaseState(doors, if currentQuestion == null then None else Some(currentQuestion.Value()),
                showQuestion, questionResult, doorsOpened, gameWon, currentDoor)
    }

    ghost predicate Valid()
      reads this, currentQuestion
    {
      Inv(State())
    }

    /** `__init__`. */
    constructor ()
      ensures State() == NewGame() && Valid()
    {
      doors := ClosedDoors();
      currentQuestion, showQuestion, questionResult := null, false, Unanswered;
      doorsOpened, gameWon, currentDoor := 0, false, None;
      new;
      NewGameInv();
    }

    // As in the enhanced game, a method whose contract is stated in terms
    // of `State()` changes the fields through at most one field-framed
    // helper on each path, which is why `RaiseQuestion` and `AnswerRight`
    // are one-line methods over `ShowQuestion` and `RecordCorrect`.

    /** `reset_game`. */
    method ResetGame()
      modifies this
      ensures State() == BaselineProgression.ResetGame(old(State()))
    {
      ClearLayout();
    }

    /** The player runs into door `i`: `check_door_collision` builds the
        question for the door's level from the given draws. */
    method TouchDoor(i: int, d: Draws, draws: seq<nat>, perm: seq<nat>) returns (outcome: TouchOutcome)
      requires IsPermutation(perm, 4)
      modifies this
      ensures outcome == Ignored <==> !CanTouch(old(State()), i)
      ensures outcome == Exhausted <==>
        CanTouch(old(State()), i) && Generate(DoorLevel(i), i + 1, d, draws, perm).None?
      ensures outcome == Raised ==>
        State() == BaselineProgression.TouchDoor(old(State()), i, Generate(DoorLevel(i), i + 1, d, draws, perm).value)
      ensures outcome != Raised ==> State() == old(State())
      ensures old(Valid()) ==> Valid()
    {
      ghost var s0 := State();
      if !(!showQuestion && !gameWon && 0 <= i < |doors| && !doors[i]) {
        return Ignored;
      }
      var q := new MathQuestion(DoorLevel(i), i + 1);
      var ok := q.GenerateQuestion(d, draws, perm);
      if !ok {
        return Exhausted;
      }
      RaiseQuestion(q, i);
      outcome := Raised;
      if Inv(s0) {
        TouchDoorInv(s0, i, q.Value());
      }
    }

    /** The question goes on screen for door `i`. */
    method RaiseQuestion(q: MathQuestion, i: nat)
      modifies this
      ensures State() == BaselineProgression.RaiseQuestion(old(State()), i, q.Value())
    {
      ShowQuestion(q, i);
    }

    /** `check_answer(selected_index)`. */
    method CheckAnswer(selected: int)
      requires currentQuestion != null && currentDoor.Some? && currentDoor.value < |doors|
      modifies this
      ensures State() == BaselineProgression.CheckAnswer(old(State()), selected)
    {
      if selected == currentQuestion.correctIndex {
        AnswerRight();
      } else {
        SetVerdict(Incorrect);
      }
    }

    /** The right answer (the first branch of `check_answer`). */
    method AnswerRight()
      requires currentDoor.Some? && currentDoor.value < |doors|
      modifies this
      ensures State() == BaselineProgression.AnswerRight(old(State()))
    {
      RecordCorrect();
    }

    /** The SPACE branch of `run`, taken while a verdict shows. */
    method Acknowledge()
      modifies this
      ensures State() == BaselineProgression.Acknowledge(old(State()))
    {
      if questionResult == Correct {
        CloseQuestion();
      } else {
        SetVerdict(Unanswered);
      }
    }

    /** The `elif` chain of `run`. */
    method HandleGlobalKey(ev: Event)
      modifies this
      ensures State() == GlobalKey(old(State()), ev)
    {
      match ev
      case KeyDown(LetterR, _) =>
        if gameWon {
          ResetGame();
        }
      case KeyDown(Space, _) =>
        if showQuestion && questionResult != Unanswered {
          Acknowledge();
        }
      case _ =>
    }

    /** `handle_question_input`. */
    method HandleQuestionInput(ev: Event)
      requires currentQuestion != null && currentDoor.Some? && currentDoor.value < |doors|
      modifies this
      ensures State() == QuestionInput(old(State()), ev)
    {
      var k := SelectedAnswer(ev);
      if k.Some? {
        CheckAnswer(k.value);
      }
    }

    /** One event of the loop in `run`. */
    method HandleEvent(ev: Event)
      requires Consistent(State())
      modifies this
      ensures State() == BaselineProgression.HandleEvent(old(State()), ev)
      ensures old(Valid()) ==> Valid()
    {
      HandleGlobalKey(ev);
      GlobalKeyConsistent(old(State()), ev);
      if showQuestion && questionResult == Unanswered {
        HandleQuestionInput(ev);
      }
      if old(Valid()) {
        HandleEventInv(old(State()), ev);
      }
    }

    // Field-framed helpers: each writes the fields in its frame, in the
    // order the source assigns them.

    /** The assignments of `reset_game`. */
    method ClearLayout()
      modifies this`doors, this`doorsOpened, this`gameWon, this`showQuestion, this`questionResult
      ensures doors == ClosedDoors() && doorsOpened == 0 && !gameWon
      ensures !showQuestion && questionResult == Unanswered
    {
      doors := ClosedDoors();
      doorsOpened := 0;
      gameWon := false;
      showQuestion := false;
      questionResult := Unanswered;
    }

    method ShowQuestion(q: MathQuestion, i: nat)
      modifies this`currentQuestion, this`showQuestion, this`currentDoor
      ensures currentQuestion == q && showQuestion && currentDoor == Some(i)
    {
      currentQuestion := q;
      showQuestion := true;
      currentDoor := Some(i);
    }

    /** The assignments of `check_answer` for the right answer. */
    method RecordCorrect()
      requires currentDoor.Some? && currentDoor.value < |doors|
      modifies this`questionResult, this`doors, this`doorsOpened, this`gameWon
      ensures questionResult == Correct && doors == old(doors)[old(currentDoor).value := true]
      ensures doorsOpened == old(doorsOpened) + 1
      ensures gameWon == (old(gameWon) || doorsOpened >= |doors|)
    {
      questionResult := Correct;
      doors := doors[currentDoor.value := true];
      doorsOpened := doorsOpened + 1;
      if doorsOpened >= |doors| {
        gameWon := true;
      }
    }

    method SetVerdict(v: Verdict)
      modifies this`questionResult
      ensures questionResult == v
    {
      questionResult := v;
    }

    /** SPACE after a right answer: the question goes away. */
    method CloseQuestion()
      modifies this`showQuestion, this`questionResult
      ensures !showQuestion && questionResult == Unanswered
    {
      showQuestion := false;
      questionResult := Unanswered;
    }
  }
}
