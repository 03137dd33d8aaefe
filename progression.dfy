/**
 The progression state machine of the enhanced game as values: the `Game`
 fields that matter, one function per state change (`reset_game`,
 `setup_level_layout`, touching a door, `check_answer`, `advance_level`, the
 event handling of `run`, the two name-entry handlers) and the invariant the
 game keeps. The class in enhanced_game.dfy is proved against these.
 */
module Progression {
  import opened Wrappers
  import opened Questions
  import opened Scores
  import opened Input
  import opened Doors

  const PointsPerCorrect := 10
  const BonusPointsMultiplier := 2
  const QuestionsPerLevel := 5
  const LevelCompletionBonus := 50
  /** The level after which the game is won. */
  const LastLevel := 5

  /** The state of a `Game`. `doors` holds the `opened` flag of door number
      `i + 1` at index `i`; `currentDoor` is the index of `current_door`. */
  datatype GameState = GameState(
    currentLevel: int,
    questionsAnswered: int,
    questionsCorrect: int,
    consecutiveCorrect: int,
    score: int,
    levelCompleted: bool,
    gameWon: bool,
    gameStarted: bool,
    showNameInputStart: bool,
    showLevelTransition: bool,
    showLeaderboard: bool,
    showNameInput: bool,
    playerName: string,
    doors: seq<bool>,
    currentQuestion: Option<Question>,
    showQuestion: bool,
    questionResult: Verdict,
    currentDoor: Option<nat>,
    scores: seq<Entry>)

  /** The game as `__init__` leaves it, the leaderboard holding `scores`. */
  function NewGame(scores: seq<Entry>): GameState
  {
    GameState(1, 0, 0, 0, 0, false, false, false, true, false, false, false, [],
              ClosedDoors(), None, false, Unanswered, None, scores)
  }

  /** `reset_game`. The leaderboard screens and the player's name are left
      as they were. */
  function ResetGame(s: GameState): GameState
  {
    s.(currentLevel := 1, questionsAnswered := 0, questionsCorrect := 0,
       consecutiveCorrect := 0, score := 0, levelCompleted := false,
       gameWon := false, gameStarted := false, showNameInputStart := true,
       showLevelTransition := false, doors := ClosedDoors(),
       currentQuestion := None, showQuestion := false,
       questionResult := Unanswered, currentDoor := None)
  }

  /** The guard of the game-logic step of `run` together with the
      `not door.opened` test of `check_door_collision`. */
  predicate CanTouch(s: GameState, i: int)
  {
    s.gameStarted && !s.showQuestion && !s.gameWon && !s.showLeaderboard &&
    !s.levelCompleted && !s.showLevelTransition &&
    0 <= i < |s.doors| && !s.doors[i]
  }

  /** The player runs into door `i` and `q` is the question generated for
      it (level `current_level`, number `i + 1`). */
  function TouchDoor(s: GameState, i: int, q: Question): GameState
  {
    if CanTouch(s, i) then RaiseQuestion(s, i, q) else s
  }

  /** Question `q` about door `i` goes on screen. */
  function RaiseQuestion(s: GameState, i: nat, q: Question): GameState
  {
    s.(currentQuestion := Some(q), showQuestion := true, currentDoor := Some(i))
  }

  /** Points for a correct answer that makes the streak `streak` long. */
  function Points(streak: int): (p: int)
    ensures p == PointsPerCorrect || p == PointsPerCorrect * BonusPointsMultiplier
    ensures p == PointsPerCorrect * BonusPointsMultiplier <==> streak >= 3
  {
    if streak >= 3 then PointsPerCorrect * BonusPointsMultiplier else PointsPerCorrect
  }

  /** The right answer: the current door opens, the streak grows, and the
      level is complete once all five doors are open. */
  function AnswerRight(s: GameState): GameState
    requires s.currentDoor.Some? && s.currentDoor.value < |s.doors|
  {
    var doors := s.doors[s.currentDoor.value := true];
    var streak := s.consecutiveCorrect + 1;
    var completed := OpenedCount(doors) >= QuestionsPerLevel;
    s.(questionResult := Correct, doors := doors,
       questionsAnswered := s.questionsAnswered + 1,
       questionsCorrect := s.questionsCorrect + 1,
       consecutiveCorrect := streak,
       score := s.score + Points(streak) + (if completed then LevelCompletionBonus else 0),
       levelCompleted := s.levelCompleted || completed)
  }

  /** A wrong answer breaks the streak. */
  function AnswerWrong(s: GameState): GameState
  {
    s.(questionResult := Incorrect, consecutiveCorrect := 0)
  }

  /** `check_answer(selected)`; it dereferences `current_question` and
      `current_door`, so both must be present. */
  function CheckAnswer(s: GameState, selected: int): GameState
    requires s.currentQuestion.Some? && s.currentDoor.Some? && s.currentDoor.value < |s.doors|
  {
    if selected == s.currentQuestion.value.correctIndex then AnswerRight(s) else AnswerWrong(s)
  }

  /** `advance_level`. The player's position and the transition timer are
      not modelled. */
  function AdvanceLevel(s: GameState): GameState
  {
    if s.currentLevel < LastLevel then NextLevel(s) else WinGame(s)
  }

  /** The next level: counters cleared, five closed doors, and the level
      screen on show. */
  function NextLevel(s: GameState): GameState
  {
    s.(currentLevel := s.currentLevel + 1, questionsAnswered := 0,
       questionsCorrect := 0, levelCompleted := false,
       showLevelTransition := true, doors := ClosedDoors())
  }

  /** The game is won and asks for the player's name. */
  function WinGame(s: GameState): GameState
  {
    s.(gameWon := true, showNameInput := true)
  }

  /** Space after a right answer: the question closes, and a completed level
      advances, or wins the game on the last level. */
  function AcknowledgeCorrect(s: GameState): GameState
  {
    var t := s.(showQuestion := false, questionResult := Unanswered);
    if t.levelCompleted then
      if t.currentLevel < LastLevel then AdvanceLevel(t) else WinGame(t)
    else t
  }

  /** The SPACE branch of `run`. */
  function Acknowledge(s: GameState): GameState
  {
    if s.showQuestion && s.questionResult != Unanswered then
      if s.questionResult == Correct then AcknowledgeCorrect(s)
      else
        s.(questionResult := Unanswered)
    else if s.levelCompleted && !s.gameWon && !s.showLevelTransition then
      AdvanceLevel(s)
    else s
  }

  /** The R branch of `run`. */
  function Restart(s: GameState): GameState
  {
    ResetGame(s).(showLeaderboard := false, showNameInput := false, playerName := [])
  }

  /** The `elif` chain of `run` for one event, up to the screen handlers.
      ESCAPE stops the loop, which is not modelled: here it changes nothing. */
  function GlobalKey(s: GameState, ev: Event): GameState
  {
    match ev
    case KeyDown(LetterL, _) =>
      if s.gameStarted then s.(showLeaderboard := !s.showLeaderboard) else s
    case KeyDown(LetterR, _) =>
      if s.gameWon || s.showLeaderboard then Restart(s) else s
    case KeyDown(Space, _) => Acknowledge(s)
    case _ => s
  }

  /** `handle_name_input_start`. */
  function NameInputStart(s: GameState, ev: Event): GameState
  {
    match ev
    case KeyDown(Return, _) => if Strip(s.playerName) != [] then StartWithName(s) else s
    case KeyDown(key, text) => TypeName(s, key, text)
    case _ => s
  }

  /** A key press that edits the name (see `EditName`). */
  function TypeName(s: GameState, key: Key, text: string): GameState
  {
    s.(playerName := EditName(s.playerName, key, text))
  }

  /** Enter with a name: the game starts. */
  function StartWithName(s: GameState): GameState
  {
    s.(showNameInputStart := false, gameStarted := true)
  }

  /** `handle_name_input`; `date` stands for `datetime.now()`. */
  function NameInput(s: GameState, ev: Event, date: string): GameState
  {
    match ev
    case KeyDown(Return, _) => if Strip(s.playerName) != [] then SubmitName(s, date) else s
    case KeyDown(key, text) => TypeName(s, key, text)
    case _ => s
  }

  /** Enter with a name after winning: the stripped name, the score and the
      level go on the leaderboard, which is shown. */
  function SubmitName(s: GameState, date: string): GameState
  {
    s.(scores := AddedScores(s.scores, Entry(Strip(s.playerName), s.score, s.currentLevel, date)),
       showNameInput := false, showLeaderboard := true)
  }

  /** `handle_question_input`: keys 1 to 4 and a click on one of the four
      buttons choose an answer. */
  function QuestionInput(s: GameState, ev: Event): GameState
    requires s.currentQuestion.Some? && s.currentDoor.Some? && s.currentDoor.value < |s.doors|
  {
    match SelectedAnswer(ev)
    case Some(k) => CheckAnswer(s, k)
    case None => s
  }

  /** A question is on screen and waits for its answer (the guard of
      `handle_question_input` in `run`). */
  predicate Pending(s: GameState)
  {
    s.showQuestion && s.questionResult == Unanswered && s.gameStarted
  }

  /** What `run` needs to dereference the question and the door. */
  predicate Consistent(s: GameState)
  {
    |s.doors| == DoorCount &&
    (s.showQuestion ==> s.currentQuestion.Some? && s.currentDoor.Some? && s.currentDoor.value < |s.doors|)
  }

  /** The screen handlers of `run` after the `elif` chain. */
  function ScreenInput(s: GameState, ev: Event, date: string): GameState
    requires Consistent(s)
  {
    if s.showNameInputStart then NameInputStart(s, ev)
    else if s.showNameInput then NameInput(s, ev, date)
    else if Pending(s) then QuestionInput(s, ev)
    else s
  }

  /** One event of `run`'s event loop. */
  function HandleEvent(s: GameState, ev: Event, date: string): GameState
    requires Consistent(s)
  {
    GlobalKeyConsistent(s, ev);
    ScreenInput(GlobalKey(s, ev), ev, date)
  }

  // Every change of state keeps the question and the door that `run`
  // dereferences, so the handlers above are always defined.

  lemma AnswerRightConsistent(s: GameState)
    requires Consistent(s) && s.currentDoor.Some? && s.currentDoor.value < |s.doors|
    ensures Consistent(AnswerRight(s))
  {
  }

  lemma AnswerWrongConsistent(s: GameState)
    requires Consistent(s)
    ensures Consistent(AnswerWrong(s))
  {
  }

  lemma CheckAnswerConsistent(s: GameState, selected: int)
    requires Consistent(s)
    requires s.currentQuestion.Some? && s.currentDoor.Some? && s.currentDoor.value < |s.doors|
    ensures Consistent(CheckAnswer(s, selected))
  {
    if selected == s.currentQuestion.value.correctIndex {
      AnswerRightConsistent(s);
    } else {
      AnswerWrongConsistent(s);
    }
  }

  lemma TouchDoorConsistent(s: GameState, i: int, q: Question)
    requires Consistent(s)
    ensures Consistent(TouchDoor(s, i, q))
  {
  }

  lemma AdvanceLevelConsistent(s: GameState)
    requires Consistent(s)
    ensures Consistent(AdvanceLevel(s))
  {
  }

  lemma AcknowledgeCorrectConsistent(s: GameState)
    requires Consistent(s)
    ensures Consistent(AcknowledgeCorrect(s))
  {
    AdvanceLevelConsistent(s.(showQuestion := false, questionResult := Unanswered));
  }

  lemma AcknowledgeConsistent(s: GameState)
    requires Consistent(s)
    ensures Consistent(Acknowledge(s))
  {
    if s.showQuestion && s.questionResult != Unanswered {
      if s.questionResult == Correct {
        AcknowledgeCorrectConsistent(s);
      }
    } else if s.levelCompleted && !s.gameWon && !s.showLevelTransition {
      AdvanceLevelConsistent(s);
    }
  }

  lemma GlobalKeyConsistent(s: GameState, ev: Event)
    requires Consistent(s)
    ensures Consistent(GlobalKey(s, ev))
  {
    match ev
    case KeyDown(Space, _) =>
      AcknowledgeConsistent(s);
    case _ =>
  }

  /** The round as far as `run` dereferences it, and the score. */
  predicate SameRound(r: GameState, s: GameState)
  {
    r.doors == s.doors && r.showQuestion == s.showQuestion &&
    r.currentQuestion == s.currentQuestion && r.currentDoor == s.currentDoor &&
    r.score == s.score && r.currentLevel == s.currentLevel
  }

  lemma StartWithNameKeepsRound(s: GameState)
    ensures SameRound(StartWithName(s), s)
  {
  }

  lemma SubmitNameKeepsRound(s: GameState, date: string)
    ensures SameRound(SubmitName(s, date), s)
  {
  }

  lemma TypeNameKeepsRound(s: GameState, key: Key, text: string)
    ensures SameRound(TypeName(s, key, text), s)
  {
  }

  /** The name screens touch neither the round nor the score. */
  lemma NameInputStartKeepsRound(s: GameState, ev: Event)
    ensures SameRound(NameInputStart(s, ev), s)
  {
    if ev.KeyDown? {
      if ev.key == Return {
        StartWithNameKeepsRound(s);
      } else {
        TypeNameKeepsRound(s, ev.key, ev.text);
      }
    }
  }

  lemma NameInputKeepsRound(s: GameState, ev: Event, date: string)
    ensures SameRound(NameInput(s, ev, date), s)
  {
    if ev.KeyDown? {
      if ev.key == Return {
        SubmitNameKeepsRound(s, date);
      } else {
        TypeNameKeepsRound(s, ev.key, ev.text);
      }
    }
  }

  lemma QuestionInputConsistent(s: GameState, ev: Event)
    requires Consistent(s)
    requires s.currentQuestion.Some? && s.currentDoor.Some? && s.currentDoor.value < |s.doors|
    ensures Consistent(QuestionInput(s, ev))
  {
    if SelectedAnswer(ev).Some? {
      CheckAnswerConsistent(s, SelectedAnswer(ev).value);
    }
  }

  lemma ScreenInputConsistent(s: GameState, ev: Event, date: string)
    requires Consistent(s)
    ensures Consistent(ScreenInput(s, ev, date))
  {
    if s.showNameInputStart {
      NameInputStartKeepsRound(s, ev);
    } else if s.showNameInput {
      NameInputKeepsRound(s, ev, date);
    } else if Pending(s) {
      QuestionInputConsistent(s, ev);
    }
  }

  /** `run` can go on dereferencing after any event. */
  lemma HandleEventConsistent(s: GameState, ev: Event, date: string)
    requires Consistent(s)
    ensures Consistent(HandleEvent(s, ev, date))
  {
    GlobalKeyConsistent(s, ev);
    ScreenInputConsistent(GlobalKey(s, ev), ev, date);
  }

  /** The transition timer runs out: the level screen goes away. */
  function EndTransition(s: GameState): GameState
  {
    s.(showLevelTransition := false)
  }

  /** What the game keeps true between events. */
  predicate Inv(s: GameState)
  {
    |s.doors| == DoorCount &&
    1 <= s.currentLevel <= LastLevel &&
    s.score >= 0 && s.consecutiveCorrect >= 0 &&
    s.questionsAnswered == OpenedCount(s.doors) &&
    s.questionsCorrect == OpenedCount(s.doors) &&
    (s.levelCompleted <==> OpenedCount(s.doors) == QuestionsPerLevel) &&
    (s.gameStarted <==> !s.showNameInputStart) &&
    (s.gameWon ==> s.levelCompleted && s.currentLevel == LastLevel && !s.showQuestion) &&
    (s.showNameInput ==> s.gameWon) &&
    (s.questionResult != Unanswered ==> s.showQuestion) &&
    (s.showQuestion ==>
      s.gameStarted && s.currentQuestion.Some? && s.currentDoor.Some? &&
      s.currentDoor.value < DoorCount &&
      WellFormed(s.currentQuestion.value) &&
      s.currentQuestion.value.level == s.currentLevel &&
      s.currentQuestion.value.number == s.currentDoor.value + 1 &&
      (s.doors[s.currentDoor.value] <==> s.questionResult == Correct))
  }
}
