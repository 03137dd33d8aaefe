/**
 The enhanced `Game` as an object whose methods update its fields in place;
 the list of doors is a sequence of `opened` flags that each change of a
 door or of the level replaces. Every method is proved to leave the
 state the matching function of `Progression` computes, so the lemmas of
 `ProgressionLemmas` are facts about this class.
 */
module EnhancedGame {
  import opened Wrappers
  import opened Questions
  import opened Scores
  import opened Input
  import opened Doors
  import opened Progression
  import ProgressionLemmas

  /** `sum(1 for door in self.doors if door.opened)`. */
  method CountOpened(doors: seq<bool>) returns (n: nat)
    ensures n == OpenedCount(doors)
  {
    n := 0;
    var i := 0;
    while i < |doors|
      invariant 0 <= i <= |doors|
      invariant n == OpenedCount(doors[..i])
    {
      assert doors[..i + 1][..i] == doors[..i];
      if doors[i] {
        n := n + 1;
      }
      i := i + 1;
    }
    assert doors == doors[..|doors|];
  }

  class Game {
    var currentLevel: int
    var questionsAnswered: int
    var questionsCorrect: int
    var consecutiveCorrect: int
    var score: int
    var levelCompleted: bool
    var gameWon: bool
    var gameStarted: bool
    var showNameInputStart: bool
    var showLevelTransition: bool
    var showLeaderboard: bool
    var showNameInput: bool
    var playerName: string
    /** `doors[i]` is the `opened` flag of door number `i + 1`; the list is
        replaced by each new level layout. */
    var doors: seq<bool>
    var currentQuestion: MathQuestion?
    var showQuestion: bool
    var questionResult: Verdict
    /** The index of `current_door` in `doors`. */
    var currentDoor: Option<nat>
    const leaderboard: Leaderboard

    ghost function State(): GameState
      reads this, leaderboard, currentQuestion
    {
      GameState(currentLevel, questionsAnswered, questionsCorrect, consecutiveCorrect, score,
                levelCompleted, gameWon, gameStarted, showNameInputStart, showLevelTransition,
                showLeaderboard, showNameInput, playerName, doors,
                if currentQuestion == null then None else Some(currentQuestion.Value()),
                showQuestion, questionResult, currentDoor, leaderboard.scores)
    }

    ghost predicate Valid()
      reads this, leaderboard, currentQuestion
    {
      Inv(State())
    }

    /** `__init__`; the leaderboard starts from the entries it loaded. */
    constructor (loaded: seq<Entry>)
      ensures State() == NewGame(loaded) && Valid()
    {
      currentLevel, questionsAnswered, questionsCorrect, consecutiveCorrect, score := 1, 0, 0, 0, 0;
      levelCompleted, gameWon, gameStarted := false, false, false;
      showNameInputStart, showLevelTransition := true, false;
      showLeaderboard, showNameInput, playerName := false, false, [];
      doors := ClosedDoors();
      currentQuestion, showQuestion, questionResult, currentDoor := null, false, Unanswered, None;
      leaderboard := new Leaderboard(loaded);
      new;
      ProgressionLemmas.NewGameInv(loaded);
    }

    // The methods below that carry a contract in terms of `State()` change
    // the fields through at most one of the field-framed helpers at the end
    // of the class; a helper names in its frame only the fields it writes, so
    // the fields it leaves alone are known to keep their values. Several
    // operations therefore appear twice, once as a one-line method stating
    // the new `State()` and once as the helper doing the assignments: proving
    // the whole-state equation directly over the assignments, under
    // `modifies this`, costs the verifier many times more than the two steps.

    /** `reset_game`; `setup_level_layout` closes all five doors. */
    method ResetGame()
      modifies this
      ensures State() == Progression.ResetGame(old(State()))
    {
      ClearForNewGame();
    }

    /** The player runs into door `i`: `check_door_collision` builds a
        `MathQuestion(current_level, i + 1)` from the given draws. */
    method TouchDoor(i: int, d: Draws, draws: seq<nat>, perm: seq<nat>) returns (outcome: TouchOutcome)
      requires IsPermutation(perm, 4)
      modifies this
      ensures outcome == Ignored <==> !CanTouch(old(State()), i)
      ensures outcome == Exhausted <==>
        CanTouch(old(State()), i) && Generate(old(currentLevel), i + 1, d, draws, perm).None?
      ensures outcome == Raised ==>
        State() == Progression.TouchDoor(old(State()), i, Generate(old(currentLevel), i + 1, d, draws, perm).value)
      ensures outcome != Raised ==> State() == old(State())
      ensures old(Valid()) ==> Valid()
    {
      ghost var s0 := State();
      if !(gameStarted && !showQuestion && !gameWon && !showLeaderboard && !levelCompleted &&
           !showLevelTransition && 0 <= i < |doors| && !doors[i]) {
        return Ignored;
      }
      var q := new MathQuestion(currentLevel, i + 1);
      var ok := q.GenerateQuestion(d, draws, perm);
      if !ok {
        return Exhausted;
      }
      RaiseQuestion(q, i);
      outcome := Raised;
      if Inv(s0) {
        ProgressionLemmas.TouchDoorInv(s0, i, q.Value());
      }
    }

    /** The question goes on screen for door `i`. */
    method RaiseQuestion(q: MathQuestion, i: nat)
      modifies this
      ensures State() == Progression.RaiseQuestion(old(State()), i, q.Value())
    {
      ShowQuestion(q, i);
    }

    /** `check_answer(selected)`. */
    method CheckAnswer(selected: int)
      requires currentQuestion != null && currentDoor.Some? && currentDoor.value < |doors|
      modifies this
      ensures State() == Progression.CheckAnswer(old(State()), selected)
    {
      if selected == currentQuestion.correctIndex {
        AnswerRight();
      } else {
        RecordIncorrect();
      }
    }

    /** The right answer (the first branch of `check_answer`). */
    method AnswerRight()
      requires currentDoor.Some? && currentDoor.value < |doors|
      modifies this
      ensures State() == Progression.AnswerRight(old(State()))
    {
      RecordCorrect();
    }

    /** `advance_level`. */
    method AdvanceLevel()
      modifies this
      ensures State() == Progression.AdvanceLevel(old(State()))
    {
      if currentLevel < LastLevel {
        NextLevel();
      } else {
        WinGame();
      }
    }

    method NextLevel()
      modifies this
      ensures State() == Progression.NextLevel(old(State()))
    {
      EnterNextLevel();
    }

    method WinGame()
      modifies this
      ensures State() == Progression.WinGame(old(State()))
    {
      Win();
    }

    /** The SPACE branch of `run`. */
    method Acknowledge()
      modifies this
      ensures State() == Progression.Acknowledge(old(State()))
    {
      if showQuestion && questionResult != Unanswered {
        if questionResult == Correct {
          AcknowledgeCorrect();
        } else {
          Retry();
        }
      } else if levelCompleted && !gameWon && !showLevelTransition {
        AdvanceLevel();
      }
    }

    /** Space after a right answer. */
    method AcknowledgeCorrect()
      modifies this
      ensures State() == Progression.AcknowledgeCorrect(old(State()))
    {
      CloseQuestion();
      if levelCompleted {
        if currentLevel < LastLevel {
          AdvanceLevel();
        } else {
          WinGame();
        }
      }
    }

    /** `handle_name_input_start`. */
    method HandleNameInputStart(ev: Event)
      modifies this
      ensures State() == NameInputStart(old(State()), ev)
    {
      match ev
      case KeyDown(Return, _) =>
        if Strip(playerName) != [] {
          StartWithName();
        }
      case KeyDown(key, text) =>
        TypeName(key, text);
      case _ =>
    }

    /** One key press edits the name. */
    method TypeName(key: Key, text: string)
      modifies this
      ensures State() == Progression.TypeName(old(State()), key, text)
    {
      SetPlayerName(EditName(playerName, key, text));
    }

    /** Enter with a name on the first screen. */
    method StartWithName()
      modifies this
      ensures State() == Progression.StartWithName(old(State()))
    {
      StartPlaying();
    }

    /** `handle_name_input`: Enter records the stripped name on the
        leaderboard. */
    method HandleNameInput(ev: Event, date: string)
      modifies this, leaderboard
      ensures State() == NameInput(old(State()), ev, date)
    {
      match ev
      case KeyDown(Return, _) =>
        if Strip(playerName) != [] {
          SubmitName(date);
        }
      case KeyDown(key, text) =>
        TypeName(key, text);
      case _ =>
    }

    /** Enter with a name after winning. */
    method SubmitName(date: string)
      modifies this, leaderboard
      ensures State() == Progression.SubmitName(old(State()), date)
    {
      SubmitScore(date);
    }

    /** `handle_question_input`. */
    method HandleQuestionInput(ev: Event)
      requires currentQuestion != null && currentDoor.Some? && currentDoor.value < |doors|
      modifies this
      ensures State() == QuestionInput(old(State()), ev)
    {
      var k := SelectedAnswer(ev);
      if k.Some? {
        CheckAnswer(k.value);
      }
    }

    /** The R branch of `run`: `reset_game`, then the leaderboard screens
        close and the name is cleared. */
    method Restart()
      modifies this
      ensures State() == Progression.Restart(old(State()))
    {
      ResetGame();
      ClearNameScreens();
    }

    /** The `elif` chain of `run` for L, R and SPACE. */
    method HandleGlobalKey(ev: Event)
      modifies this
      ensures State() == GlobalKey(old(State()), ev)
    {
      match ev
      case KeyDown(LetterL, _) =>
        if gameStarted {
          ToggleLeaderboard();
        }
      case KeyDown(LetterR, _) =>
        if gameWon || showLeaderboard {
          Restart();
        }
      case KeyDown(Space, _) =>
        Acknowledge();
      case _ =>
    }

    /** The handler of the screen on show, after the `elif` chain. */
    method HandleScreen(ev: Event, date: string)
      requires Consistent(State())
      modifies this, leaderboard
      ensures State() == ScreenInput(old(State()), ev, date)
    {
      if showNameInputStart {
        HandleNameInputStart(ev);
      } else if showNameInput {
        HandleNameInput(ev, date);
      } else if showQuestion && questionResult == Unanswered && gameStarted {
        HandleQuestionInput(ev);
      }
    }

    /** One event of the loop in `run`. */
    method HandleEvent(ev: Event, date: string)
      requires Consistent(State())
      modifies this, leaderboard
      ensures State() == Progression.HandleEvent(old(State()), ev, date)
      ensures old(Valid()) ==> Valid()
    {
      HandleGlobalKey(ev);
      GlobalKeyConsistent(old(State()), ev);
      HandleScreen(ev, date);
      if old(Valid()) {
        ProgressionLemmas.HandleEventInv(old(State()), ev, date);
      }
    }

    /** The transition timer has run down to zero. */
    method EndLevelTransition()
      modifies this
      ensures State() == EndTransition(old(State()))
      ensures old(Valid()) ==> Valid()
    {
      HideTransition();
    }

    // Field-framed helpers: each writes the fields in its frame, in the
    // order the source assigns them.

    /** The assignments of `reset_game`. */
    method ClearForNewGame()
      modifies this`currentLevel, this`questionsAnswered, this`questionsCorrect, this`consecutiveCorrect, this`score,
        this`levelCompleted, this`gameWon, this`gameStarted, this`showNameInputStart, this`showLevelTransition,
        this`doors, this`currentQuestion, this`showQuestion, this`questionResult, this`currentDoor
      ensures currentLevel == 1 && questionsAnswered == 0 && questionsCorrect == 0
      ensures consecutiveCorrect == 0 && score == 0
      ensures !levelCompleted && !gameWon && !gameStarted && showNameInputStart && !showLevelTransition
      ensures doors == ClosedDoors()
      ensures currentQuestion == null && !showQuestion && questionResult == Unanswered && currentDoor == None
    {
      ResetCounters();
      ResetStage();
      doors := ClosedDoors();
      currentQuestion, showQuestion, questionResult, currentDoor := null, false, Unanswered, None;
    }

    method ResetCounters()
      modifies this`currentLevel, this`questionsAnswered, this`questionsCorrect, this`consecutiveCorrect, this`score
      ensures currentLevel == 1 && questionsAnswered == 0 && questionsCorrect == 0
      ensures consecutiveCorrect == 0 && score == 0
    {
      currentLevel := 1;
      questionsAnswered := 0;
      questionsCorrect := 0;
      consecutiveCorrect := 0;
      score := 0;
    }

    method ResetStage()
      modifies this`levelCompleted, this`gameWon, this`gameStarted, this`showNameInputStart, this`showLevelTransition
      ensures !levelCompleted && !gameWon && !gameStarted && showNameInputStart && !showLevelTransition
    {
      levelCompleted := false;
      gameWon := false;
      gameStarted := false;
      showNameInputStart := true;
      showLevelTransition := false;
    }

    /** The assignments of `check_door_collision` on a hit. */
    method ShowQuestion(q: MathQuestion, i: nat)
      modifies this`currentQuestion, this`showQuestion, this`currentDoor
      ensures currentQuestion == q && showQuestion && currentDoor == Some(i)
    {
      currentQuestion := q;
      showQuestion := true;
      currentDoor := Some(i);
    }

    /** The assignments of `check_answer` for the right answer: the current
        door opens, and the level is complete once all five doors are open. */
    method RecordCorrect()
      requires currentDoor.Some? && currentDoor.value < |doors|
      modifies this`questionResult, this`doors, this`questionsAnswered, this`questionsCorrect,
        this`consecutiveCorrect, this`score, this`levelCompleted
      ensures questionResult == Correct && doors == old(doors)[old(currentDoor).value := true]
      ensures questionsAnswered == old(questionsAnswered) + 1 && questionsCorrect == old(questionsCorrect) + 1
      ensures consecutiveCorrect == old(consecutiveCorrect) + 1
      ensures score == old(score) + Points(consecutiveCorrect) +
                       (if OpenedCount(doors) >= QuestionsPerLevel then LevelCompletionBonus else 0)
      ensures levelCompleted == (old(levelCompleted) || OpenedCount(doors) >= QuestionsPerLevel)
    {
      questionResult := Correct;
      doors := doors[currentDoor.value := true];
      questionsAnswered := questionsAnswered + 1;
      questionsCorrect := questionsCorrect + 1;
      consecutiveCorrect := consecutiveCorrect + 1;
      var points := PointsPerCorrect;
      if consecutiveCorrect >= 3 {
        points := points * BonusPointsMultiplier;
      }
      score := score + points;
      var doorsOpened := CountOpened(doors);
      if doorsOpened >= QuestionsPerLevel {
        levelCompleted := true;
        score := score + LevelCompletionBonus;
      }
    }

    /** The assignments of `check_answer` for a wrong answer. */
    method RecordIncorrect()
      modifies this`questionResult, this`consecutiveCorrect
      ensures questionResult == Incorrect && consecutiveCorrect == 0
    {
      questionResult := Incorrect;
      consecutiveCorrect := 0;
    }

    /** The assignments of `advance_level` below the last level. */
    method EnterNextLevel()
      modifies this`currentLevel, this`questionsAnswered, this`questionsCorrect, this`levelCompleted,
        this`showLevelTransition, this`doors
      ensures currentLevel == old(currentLevel) + 1 && questionsAnswered == 0 && questionsCorrect == 0
      ensures !levelCompleted && showLevelTransition && doors == ClosedDoors()
    {
      currentLevel := currentLevel + 1;
      questionsAnswered := 0;
      questionsCorrect := 0;
      levelCompleted := false;
      showLevelTransition := true;
      doors := ClosedDoors();
    }

    /** The game is won: the name-entry screen for the leaderboard opens. */
    method Win()
      modifies this`gameWon, this`showNameInput
      ensures gameWon && showNameInput
    {
      gameWon := true;
      showNameInput := true;
    }

    /** SPACE after a right answer: the question goes away. */
    method CloseQuestion()
      modifies this`showQuestion, this`questionResult
      ensures !showQuestion && questionResult == Unanswered
    {
      showQuestion := false;
      questionResult := Unanswered;
    }

    /** SPACE after a wrong answer: the same question waits again. */
    method Retry()
      modifies this`questionResult
      ensures questionResult == Unanswered
    {
      questionResult := Unanswered;
    }

    /** Enter on the start screen with a non-blank name. */
    method StartPlaying()
      modifies this`showNameInputStart, this`gameStarted
      ensures !showNameInputStart && gameStarted
    {
      showNameInputStart := false;
      gameStarted := true;
    }

    method SetPlayerName(name: string)
      modifies this`playerName
      ensures playerName == name
    {
      playerName := name;
    }

    /** Enter on the final name entry with a non-blank name: the stripped
        name goes on the leaderboard, which is shown. */
    method SubmitScore(date: string)
      modifies leaderboard, this`showNameInput, this`showLeaderboard
      ensures leaderboard.scores ==
        AddedScores(old(leaderboard.scores), Entry(Strip(playerName), score, currentLevel, date))
      ensures !showNameInput && showLeaderboard
    {
      leaderboard.AddScore(Strip(playerName), score, currentLevel, date);
      showNameInput := false;
      showLeaderboard := true;
    }

    method ClearNameScreens()
      modifies this`showLeaderboard, this`showNameInput, this`playerName
      ensures !showLeaderboard && !showNameInput && playerName == []
    {
      showLeaderboard := false;
      showNameInput := false;
      playerName := [];
    }

    method ToggleLeaderboard()
      modifies this`showLeaderboard
      ensures showLeaderboard == !old(showLeaderboard)
    {
      showLeaderboard := !showLeaderboard;
    }

    method HideTransition()
      modifies this`showLevelTransition
      ensures !showLevelTransition
    {
      showLevelTransition := false;
    }
  }
}
