/**
 What the progression state machine promises: the invariant is kept by every
 change of state, the scoring rules of `check_answer`, the SPACE transition,
 `advance_level`, `reset_game`, and a whole level played without a mistake.
 */
module ProgressionLemmas {
  import opened Wrappers
  import opened Questions
  import opened Input
  import opened Doors
  import opened Progression

  /** A question fit for door `i` on the current level. */
  predicate FitsDoor(s: GameState, i: int, q: Question)
  {
    WellFormed(q) && q.level == s.currentLevel && q.number == i + 1
  }

  /** A pending question's door is closed, so the level is not complete. */
  lemma PendingLevelOpen(s: GameState)
    requires Inv(s) && s.showQuestion && s.questionResult != Correct
    ensures !s.levelCompleted
  {
    OpenedCountFull(s.doors);
  }

  lemma InvConsistent(s: GameState)
    requires Inv(s)
    ensures Consistent(s)
  {
  }

  lemma NewGameInv(scores: seq<Scores.Entry>)
    ensures Inv(NewGame(scores))
    ensures !NewGame(scores).gameStarted && NewGame(scores).showNameInputStart
  {
  }

  /** R from any state at all: a fresh first level and the name screen. */
  lemma RestartFromAnyState(s: GameState)
    ensures var r := Restart(s);
      Inv(r) && r.currentLevel == 1 && r.score == 0 && r.consecutiveCorrect == 0 &&
      !r.levelCompleted && !r.gameWon && r.currentQuestion.None? && !r.showQuestion &&
      r.questionResult == Unanswered && r.showNameInputStart &&
      |r.doors| == DoorCount && (forall i :: 0 <= i < |r.doors| ==> !r.doors[i]) &&
      r.scores == s.scores
  {
  }

  /** Touching a door raises its question exactly when the door may be
      touched, and the question then waits for an answer. */
  lemma TouchDoorInv(s: GameState, i: int, q: Question)
    requires Inv(s) && FitsDoor(s, i, q)
    ensures Inv(TouchDoor(s, i, q))
    ensures CanTouch(s, i) ==>
      (Pending(TouchDoor(s, i, q)) &&
       TouchDoor(s, i, q).currentQuestion == Some(q) && TouchDoor(s, i, q).currentDoor == Some(i))
    ensures !CanTouch(s, i) ==> TouchDoor(s, i, q) == s
    ensures TouchDoor(s, i, q).doors == s.doors
  {
  }

  /** The right answer opens the door, extends the streak, scores 10 or (from
      the third in a row) 20, and adds 50 when it opens the fifth door. */
  lemma CorrectChoice(s: GameState, k: int)
    requires Inv(s) && Pending(s) && k == s.currentQuestion.value.correctIndex
    ensures var r := CheckAnswer(s, k); var d := s.currentDoor.value;
      var last := OpenedCount(s.doors) + 1 == QuestionsPerLevel;
      r.questionResult == Correct && r.doors == s.doors[d := true] &&
      OpenedCount(r.doors) == OpenedCount(s.doors) + 1 &&
      r.questionsAnswered == s.questionsAnswered + 1 &&
      r.questionsCorrect == s.questionsCorrect + 1 &&
      r.consecutiveCorrect == s.consecutiveCorrect + 1 &&
      r.score == s.score + Points(s.consecutiveCorrect + 1) + (if last then LevelCompletionBonus else 0) &&
      (r.levelCompleted <==> last) &&
      r.currentLevel == s.currentLevel && r.currentQuestion == s.currentQuestion
  {
    PendingLevelOpen(s);
    OpenedCountOpen(s.doors, s.currentDoor.value);
  }

  /** A wrong answer only marks the result and breaks the streak. */
  lemma WrongChoice(s: GameState, k: int)
    requires Inv(s) && Pending(s) && k != s.currentQuestion.value.correctIndex
    ensures CheckAnswer(s, k) == s.(questionResult := Incorrect, consecutiveCorrect := 0)
  {
  }

  lemma CheckAnswerInv(s: GameState, k: int)
    requires Inv(s) && Pending(s)
    ensures Inv(CheckAnswer(s, k))
    ensures CheckAnswer(s, k).score >= s.score
  {
    if k == s.currentQuestion.value.correctIndex {
      CorrectChoice(s, k);
      var r := CheckAnswer(s, k);
      OpenedCountFull(r.doors);
    }
  }

  /** `advance_level` below the last level: the next level with five closed
      doors, score and streak carried over. At the last level: won. */
  lemma AdvanceLevelEffects(s: GameState)
    ensures var r := AdvanceLevel(s);
      if s.currentLevel < LastLevel then
        r.currentLevel == s.currentLevel + 1 && r.score == s.score &&
        r.consecutiveCorrect == s.consecutiveCorrect &&
        r.questionsAnswered == 0 && r.questionsCorrect == 0 && !r.levelCompleted &&
        OpenedCount(r.doors) == 0 && |r.doors| == DoorCount &&
        r.showLevelTransition && r.gameWon == s.gameWon
      else
        r == s.(gameWon := true, showNameInput := true)
  {
  }

  lemma AcknowledgeInv(s: GameState)
    requires Inv(s)
    ensures Inv(Acknowledge(s))
    ensures Acknowledge(s).score == s.score
  {
    if s.showQuestion && s.questionResult == Unanswered {
      PendingLevelOpen(s);
    }
  }

  /** SPACE after a wrong answer clears the verdict and asks the very same
      question about the very same door again. */
  lemma RetryAfterIncorrect(s: GameState, text: string, date: string)
    requires Inv(s) && s.showQuestion && s.questionResult == Incorrect
    ensures var r := HandleEvent(s, KeyDown(Space, text), date);
      Pending(r) && r.currentQuestion == s.currentQuestion && r.currentDoor == s.currentDoor &&
      r.doors == s.doors && r.score == s.score
  {
  }

  /** SPACE after a right answer hides the question; on a finished level it
      moves on, or wins the game on the last one. */
  lemma ContinueAfterCorrect(s: GameState)
    requires Inv(s) && s.showQuestion && s.questionResult == Correct
    ensures var r := Acknowledge(s);
      !r.showQuestion && r.questionResult == Unanswered &&
      (!s.levelCompleted ==> r.currentLevel == s.currentLevel && r.doors == s.doors && !r.gameWon) &&
      (s.levelCompleted && s.currentLevel < LastLevel ==>
        r.currentLevel == s.currentLevel + 1 && OpenedCount(r.doors) == 0 && !r.gameWon) &&
      (s.levelCompleted && s.currentLevel == LastLevel ==> r.gameWon && r.showNameInput)
  {
  }

  lemma GlobalKeyInv(s: GameState, ev: Event)
    requires Inv(s)
    ensures Inv(GlobalKey(s, ev))
  {
    match ev
    case KeyDown(LetterR, _) =>
      RestartFromAnyState(s);
    case KeyDown(Space, _) =>
      AcknowledgeInv(s);
    case _ =>
  }

  lemma NameInputStartInv(s: GameState, ev: Event)
    requires Inv(s)
    ensures Inv(NameInputStart(s, ev))
  {
    if ev.KeyDown? {
      if ev.key == Return {
        assert Inv(StartWithName(s));
      } else {
        assert Inv(TypeName(s, ev.key, ev.text));
      }
    }
  }

  lemma NameInputInv(s: GameState, ev: Event, date: string)
    requires Inv(s)
    ensures Inv(NameInput(s, ev, date))
  {
    if ev.KeyDown? {
      if ev.key == Return {
        assert Inv(SubmitName(s, date));
      } else {
        assert Inv(TypeName(s, ev.key, ev.text));
      }
    }
  }

  lemma ScreenInputInv(s: GameState, ev: Event, date: string)
    requires Inv(s)
    ensures Inv(ScreenInput(s, ev, date))
  {
    if s.showNameInputStart {
      NameInputStartInv(s, ev);
    } else if s.showNameInput {
      NameInputInv(s, ev, date);
    } else if Pending(s) && SelectedAnswer(ev).Some? {
      CheckAnswerInv(s, SelectedAnswer(ev).value);
    }
  }

  /** The screen handlers never lower the score. */
  lemma ScreenInputScore(s: GameState, ev: Event, date: string)
    requires Inv(s)
    ensures ScreenInput(s, ev, date).score >= s.score
  {
    if s.showNameInputStart {
      NameInputStartKeepsRound(s, ev);
    } else if s.showNameInput {
      NameInputKeepsRound(s, ev, date);
    } else if Pending(s) && SelectedAnswer(ev).Some? {
      CheckAnswerInv(s, SelectedAnswer(ev).value);
    }
  }

  /** Every event keeps the invariant. */
  lemma HandleEventInv(s: GameState, ev: Event, date: string)
    requires Inv(s)
    ensures Inv(HandleEvent(s, ev, date))
  {
    GlobalKeyInv(s, ev);
    ScreenInputInv(GlobalKey(s, ev), ev, date);
  }

  lemma EndTransitionInv(s: GameState)
    requires Inv(s)
    ensures Inv(EndTransition(s))
  {
  }

  /** R while the game is won or the leaderboard shows. */
  predicate IsRestart(s: GameState, ev: Event)
  {
    ev.KeyDown? && ev.key == LetterR && (s.gameWon || s.showLeaderboard)
  }

  /** The score never goes down, except when R starts a new game. */
  lemma ScoreMonotone(s: GameState, ev: Event, date: string)
    requires Inv(s) && !IsRestart(s, ev)
    ensures HandleEvent(s, ev, date).score >= s.score
  {
    var t := GlobalKey(s, ev);
    if ev.KeyDown? && ev.key == Space {
      AcknowledgeInv(s);
    }
    assert t.score == s.score;
    GlobalKeyInv(s, ev);
    ScreenInputScore(t, ev, date);
  }

  /** The doors of `s` grew into those of `r`, and any door that opened was
      the current one, answered right. */
  predicate DoorsGrew(s: GameState, r: GameState)
  {
    |r.doors| == |s.doors| &&
    (forall j :: 0 <= j < |s.doors| && s.doors[j] ==> r.doors[j]) &&
    (forall j :: 0 <= j < |s.doors| && !s.doors[j] && r.doors[j] ==>
       s.currentDoor == Some(j) && r.questionResult == Correct)
  }

  /** The L, R and SPACE branches leave the doors alone unless SPACE
      advances to a new level; no question then waits. */
  lemma GlobalKeyDoors(s: GameState, ev: Event)
    requires Inv(s) && !IsRestart(s, ev)
    ensures var t := GlobalKey(s, ev);
      (t.currentLevel == s.currentLevel && t.doors == s.doors && t.currentDoor == s.currentDoor) ||
      (t.currentLevel == s.currentLevel + 1 && t.doors == ClosedDoors() && !t.showQuestion)
  {
    if ev.KeyDown? && ev.key == Space && !(s.showQuestion && s.questionResult != Unanswered) &&
       s.levelCompleted && s.showQuestion {
      PendingLevelOpen(s);
    }
  }

  /** The screen handlers keep the level and only open doors, and only the
      question on screen opens one. */
  lemma ScreenInputDoors(t: GameState, ev: Event, date: string)
    requires Inv(t)
    ensures var r := ScreenInput(t, ev, date);
      r.currentLevel == t.currentLevel && DoorsGrew(t, r) && (!Pending(t) ==> r.doors == t.doors)
  {
    if t.showNameInputStart {
      NameInputStartKeepsRound(t, ev);
    } else if t.showNameInput {
      NameInputKeepsRound(t, ev, date);
    } else if Pending(t) && SelectedAnswer(ev).Some? {
      var k := SelectedAnswer(ev).value;
      if k == t.currentQuestion.value.correctIndex {
        CorrectChoice(t, k);
      } else {
        WrongChoice(t, k);
      }
    }
  }

  /** On a level, an open door never closes again, and a closed door opens
      only as the question about it is answered right. Only a new level
      (with five closed doors) or R, which starts over, lays out new doors. */
  lemma DoorsStayOpen(s: GameState, ev: Event, date: string)
    requires Inv(s) && !IsRestart(s, ev)
    ensures var r := HandleEvent(s, ev, date);
      if r.currentLevel == s.currentLevel then DoorsGrew(s, r)
      else r.currentLevel == s.currentLevel + 1 && r.doors == ClosedDoors()
  {
    var t := GlobalKey(s, ev);
    GlobalKeyInv(s, ev);
    GlobalKeyDoors(s, ev);
    ScreenInputDoors(t, ev, date);
  }

  /** SPACE never changes the score. */
  lemma SpaceKeepsScore(s: GameState, text: string, date: string)
    requires Inv(s)
    ensures HandleEvent(s, KeyDown(Space, text), date).score == s.score
  {
    AcknowledgeInv(s);
  }

  /** Answers are graded only while a question waits for one: a digit or a
      click at any other time leaves doors, score, streak and verdict alone. */
  lemma GradingOnlyWhilePending(s: GameState, ev: Event, date: string)
    requires Consistent(s) && !Pending(s)
    requires ev.Click? || (ev.KeyDown? && ev.key.Digit?)
    ensures var r := HandleEvent(s, ev, date);
      r.doors == s.doors && r.score == s.score &&
      r.consecutiveCorrect == s.consecutiveCorrect && r.questionResult == s.questionResult
  {
  }

  /** R leaves the game on the name screen with the letter itself typed
      in: the same key event reaches `handle_name_input_start`. */
  lemma RestartTypesR(s: GameState, date: string)
    requires Consistent(s) && (s.gameWon || s.showLeaderboard)
    ensures HandleEvent(s, KeyDown(LetterR, "r"), date).playerName == "r"
    ensures HandleEvent(s, KeyDown(LetterR, "r"), date).showNameInputStart
  {
    assert IsPrintable("r");
  }

  /** Ready for the player to walk into a door. */
  predicate Playing(s: GameState)
  {
    Inv(s) && s.gameStarted && !s.showQuestion && !s.gameWon && !s.showLeaderboard &&
    !s.levelCompleted && !s.showLevelTransition && !s.showNameInput
  }

  /** Touch door `i`, press the digit of the right answer, press SPACE. */
  function Round(s: GameState, i: int, q: Question, date: string): (r: GameState)
    requires Consistent(s)
    ensures Consistent(r)
  {
    TouchDoorConsistent(s, i, q);
    var touched := TouchDoor(s, i, q);
    HandleEventConsistent(touched, KeyDown(Digit(q.correctIndex + 1), []), date);
    var answered := HandleEvent(touched, KeyDown(Digit(q.correctIndex + 1), []), date);
    HandleEventConsistent(answered, KeyDown(Space, " "), date);
    HandleEvent(answered, KeyDown(Space, " "), date)
  }

  /** The answer step of a round: the question waits, the right digit is
      pressed. */
  lemma AnswerStep(t: GameState, date: string)
    requires Inv(t) && Pending(t) && !t.showNameInput
    ensures HandleEvent(t, KeyDown(Digit(t.currentQuestion.value.correctIndex + 1), []), date)
      == CheckAnswer(t, t.currentQuestion.value.correctIndex)
  {
    assert !t.showNameInputStart;
  }

  /** The acknowledge step of a round: SPACE after a right answer that does
      not win the game. */
  lemma SpaceAfterCorrect(u: GameState, date: string)
    requires Consistent(u) && u.showQuestion && u.questionResult == Correct
    requires !u.showNameInputStart && !u.showNameInput
    requires !u.levelCompleted || u.currentLevel < LastLevel
    ensures HandleEvent(u, KeyDown(Space, " "), date) == AcknowledgeCorrect(u)
  {
    var v := AcknowledgeCorrect(u);
    assert GlobalKey(u, KeyDown(Space, " ")) == v;
    assert !v.showNameInputStart && !v.showNameInput && !Pending(v);
  }

  /** A round that does not open the last door of the level. */
  lemma {:induction false} CorrectRound(s: GameState, i: int, q: Question, date: string)
    requires Playing(s) && FitsDoor(s, i, q) && 0 <= i < |s.doors| && !s.doors[i]
    requires OpenedCount(s.doors) + 1 < QuestionsPerLevel
    ensures var r := Round(s, i, q, date);
      Playing(r) && r.currentLevel == s.currentLevel && r.doors == s.doors[i := true] &&
      r.consecutiveCorrect == s.consecutiveCorrect + 1 &&
      r.score == s.score + Points(s.consecutiveCorrect + 1)
  {
    var t := TouchDoor(s, i, q);
    TouchDoorInv(s, i, q);
    AnswerStep(t, date);
    var u := CheckAnswer(t, q.correctIndex);
    CorrectChoice(t, q.correctIndex);
    CheckAnswerInv(t, q.correctIndex);
    InvConsistent(u);
    SpaceAfterCorrect(u, date);
    AcknowledgeInv(u);
    assert AcknowledgeCorrect(u) == u.(showQuestion := false, questionResult := Unanswered);
    assert Round(s, i, q, date) == AcknowledgeCorrect(u);
  }

  /** A round that opens the fifth door of a level below the last. */
  lemma {:induction false} LevelRound(s: GameState, i: int, q: Question, date: string)
    requires Playing(s) && FitsDoor(s, i, q) && 0 <= i < |s.doors| && !s.doors[i]
    requires OpenedCount(s.doors) + 1 == QuestionsPerLevel && s.currentLevel < LastLevel
    ensures var r := Round(s, i, q, date);
      Inv(r) && r.currentLevel == s.currentLevel + 1 && OpenedCount(r.doors) == 0 &&
      r.showLevelTransition && !r.gameWon &&
      r.consecutiveCorrect == s.consecutiveCorrect + 1 &&
      r.score == s.score + Points(s.consecutiveCorrect + 1) + LevelCompletionBonus
  {
    var t := TouchDoor(s, i, q);
    TouchDoorInv(s, i, q);
    AnswerStep(t, date);
    var u := CheckAnswer(t, q.correctIndex);
    CorrectChoice(t, q.correctIndex);
    CheckAnswerInv(t, q.correctIndex);
    InvConsistent(u);
    SpaceAfterCorrect(u, date);
    AcknowledgeInv(u);
    assert AcknowledgeCorrect(u) == NextLevel(u.(showQuestion := false, questionResult := Unanswered));
  }

  /** Type "P", press Enter: the game starts. */
  function Started(scores: seq<Scores.Entry>, date: string): (r: GameState)
    ensures Consistent(r)
  {
    HandleEventConsistent(NewGame(scores), KeyDown(OtherKey, "P"), date);
    var typed := HandleEvent(NewGame(scores), KeyDown(OtherKey, "P"), date);
    HandleEventConsistent(typed, KeyDown(Return, "\r"), date);
    HandleEvent(typed, KeyDown(Return, "\r"), date)
  }

  lemma StartedPlaying(scores: seq<Scores.Entry>, date: string)
    ensures Playing(Started(scores, date)) && Started(scores, date).playerName == "P"
    ensures Started(scores, date).score == 0 && Started(scores, date).consecutiveCorrect == 0
    ensures Started(scores, date).currentLevel == 1 && Started(scores, date).doors == ClosedDoors()
  {
    var s0 := NewGame(scores);
    TypeP(scores, date);
    EnterP(s0.(playerName := "P"), date);
  }

  lemma TypeP(scores: seq<Scores.Entry>, date: string)
    ensures HandleEvent(NewGame(scores), KeyDown(OtherKey, "P"), date) == NewGame(scores).(playerName := "P")
  {
    assert IsPrintable("P");
  }

  lemma EnterP(s: GameState, date: string)
    requires Inv(s) && s.showNameInputStart && s.playerName == "P"
    requires !s.gameWon && !s.showLeaderboard && !s.showQuestion
    ensures HandleEvent(s, KeyDown(Return, "\r"), date) == s.(showNameInputStart := false, gameStarted := true)
  {
    assert Strip("P") == "P";
  }

  /** Five right answers in a row from a new game (name "P"): 10 + 10 + 20 +
      20 + 20 points and the 50-point level bonus make 130, on level 2. */
  lemma FiveCorrectAnswersScore130(scores: seq<Scores.Entry>, qs: seq<Question>, date: string)
    requires |qs| == QuestionsPerLevel
    requires forall k :: 0 <= k < |qs| ==> WellFormed(qs[k]) && qs[k].level == 1 && qs[k].number == k + 1
    ensures var s0 := Started(scores, date);
      var s5 := Round(Round(Round(Round(Round(s0, 0, qs[0], date), 1, qs[1], date), 2, qs[2], date),
                            3, qs[3], date), 4, qs[4], date);
      s5.score == 130 && s5.currentLevel == 2 && s5.consecutiveCorrect == 5
  {
    var s0 := Started(scores, date);
    StartedPlaying(scores, date);
    var closed := ClosedDoors();
    var s1 := Round(s0, 0, qs[0], date);
    CorrectRound(s0, 0, qs[0], date);
    assert s1.doors == closed[0 := true];
    OpenedCountOpen(closed, 0);
    var s2 := Round(s1, 1, qs[1], date);
    CorrectRound(s1, 1, qs[1], date);
    OpenedCountOpen(s1.doors, 1);
    var s3 := Round(s2, 2, qs[2], date);
    CorrectRound(s2, 2, qs[2], date);
    OpenedCountOpen(s2.doors, 2);
    var s4 := Round(s3, 3, qs[3], date);
    CorrectRound(s3, 3, qs[3], date);
    OpenedCountOpen(s3.doors, 3);
    LevelRound(s4, 4, qs[4], date);
  }
}
