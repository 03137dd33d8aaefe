/**
 The baseline game of math_quiz_adventure.py as values: a single layout of
 five doors, door `i` (numbered `i + 1`) asking a question of level `i + 1`,
 the game won once `doors_opened` reaches the number of doors, and R starting
 over from the win screen. There are no levels, scores or name screens.
 */
module BaselineProgression {
  import opened Wrappers
  import opened Questions
  import opened Input
  import opened Doors

  /** The state of the baseline `Game`. `doors` holds the `opened` flag of
      door number `i + 1` at index `i`; `currentDoor` is the index of
      `current_door`. */
  datatype BaseState = BaseState(
    doors: seq<bool>,
    currentQuestion: Option<Question>,
    showQuestion: bool,
    questionResult: Verdict,
    doorsOpened: int,
    gameWon: bool,
    currentDoor: Option<nat>)

  /** The `question_level` of door `i`: the doors are built with levels 1
      to 5 in order. */
  function DoorLevel(i: nat): int
  {
    i + 1
  }

  /** The game as `__init__` leaves it; `current_door` is first set by a
      collision. */
  function NewGame(): BaseState
  {
    BaseState(ClosedDoors(), None, false, Unanswered, 0, false, None)
  }

  /** `reset_game`: new doors, nothing opened, not won, no question on
      screen. `current_question` and `current_door` keep their values. */
  function ResetGame(s: BaseState): BaseState
  {
    s.(doors := ClosedDoors(), doorsOpened := 0, gameWon := false,
       showQuestion := false, questionResult := Unanswered)
  }

  /** The guard of the game-logic step of `run` together with the
      `not door.opened` test of `check_door_collision`. */
  predicate CanTouch(s: BaseState, i: int)
  {
    !s.showQuestion && !s.gameWon && 0 <= i < |s.doors| && !s.doors[i]
  }

  /** The player runs into door `i` and `q` is the question generated for
      it. */
  function TouchDoor(s: BaseState, i: int, q: Question): BaseState
  {
    if CanTouch(s, i) then RaiseQuestion(s, i, q) else s
  }

  /** Question `q` about door `i` goes on screen. */
  function RaiseQuestion(s: BaseState, i: nat, q: Question): BaseState
  {
    s.(currentQuestion := Some(q), showQuestion := true, currentDoor := Some(i))
  }

  /** The right answer opens the current door and counts it; the game is won
      once the count reaches the number of doors. */
  function AnswerRight(s: BaseState): BaseState
    requires s.currentDoor.Some? && s.currentDoor.value < |s.doors|
  {
    var count := s.doorsOpened + 1;
    s.(questionResult := Correct, doors := s.doors[s.currentDoor.value := true],
       doorsOpened := count, gameWon := s.gameWon || count >= |s.doors|)
  }

  /** A wrong answer only records the verdict. */
  function AnswerWrong(s: BaseState): BaseState
  {
    s.(questionResult := Incorrect)
  }

  /** `check_answer(selected_index)`. */
  function CheckAnswer(s: BaseState, selected: int): BaseState
    requires s.currentQuestion.Some? && s.currentDoor.Some? && s.currentDoor.value < |s.doors|
  {
    if selected == s.currentQuestion.value.correctIndex then AnswerRight(s) else AnswerWrong(s)
  }

  /** SPACE after a right answer: the question goes away. */
  function CloseQuestion(s: BaseState): BaseState
  {
    s.(showQuestion := false, questionResult := Unanswered)
  }

  /** SPACE after a wrong answer: the verdict goes, the question stays. */
  function ClearVerdict(s: BaseState): BaseState
  {
    s.(questionResult := Unanswered)
  }

  /** The SPACE branch of `run`, taken while a verdict shows. */
  function Acknowledge(s: BaseState): BaseState
  {
    if s.questionResult == Correct then CloseQuestion(s) else ClearVerdict(s)
  }

  /** The `elif` chain of `run` for one event. ESCAPE stops the loop, which
      is not modelled: here it changes nothing. */
  function GlobalKey(s: BaseState, ev: Event): BaseState
  {
    match ev
    case KeyDown(LetterR, _) => if s.gameWon then ResetGame(s) else s
    case KeyDown(Space, _) =>
      if s.showQuestion && s.questionResult != Unanswered then Acknowledge(s) else s
    case _ => s
  }

  /** `handle_question_input`. */
  function QuestionInput(s: BaseState, ev: Event): BaseState
    requires s.currentQuestion.Some? && s.currentDoor.Some? && s.currentDoor.value < |s.doors|
  {
    match SelectedAnswer(ev)
    case Some(k) => CheckAnswer(s, k)
    case None => s
  }

  /** A question is on screen and waits for its answer. */
  predicate Pending(s: BaseState)
  {
    s.showQuestion && s.questionResult == Unanswered
  }

  /** What `run` needs to dereference the question and the door. */
  predicate Consistent(s: BaseState)
  {
    |s.doors| == DoorCount &&
    (s.showQuestion ==> s.currentQuestion.Some? && s.currentDoor.Some? && s.currentDoor.value < |s.doors|)
  }

  /** One event of `run`'s event loop: the `elif` chain, then the answer
      while a question waits for one. */
  function HandleEvent(s: BaseState, ev: Event): BaseState
    requires Consistent(s)
  {
    GlobalKeyConsistent(s, ev);
    var t := GlobalKey(s, ev);
    if Pending(t) then QuestionInput(t, ev) else t
  }

  lemma GlobalKeyConsistent(s: BaseState, ev: Event)
    requires Consistent(s)
    ensures Consistent(GlobalKey(s, ev))
  {
    match ev
    case KeyDown(LetterR, _) =>
      assert Consistent(ResetGame(s));
    case KeyDown(Space, _) =>
      assert Consistent(CloseQuestion(s)) && Consistent(ClearVerdict(s));
    case _ =>
  }

  /** What the baseline game keeps true between events. */
  predicate Inv(s: BaseState)
  {
    |s.doors| == DoorCount &&
    s.doorsOpened == OpenedCount(s.doors) &&
    (s.gameWon <==> s.doorsOpened == DoorCount) &&
    (s.questionResult != Unanswered ==> s.showQuestion) &&
    (s.showQuestion ==>
      s.currentQuestion.Some? && s.currentDoor.Some? && s.currentDoor.value < DoorCount &&
      WellFormed(s.currentQuestion.value) &&
      s.currentQuestion.value.level == DoorLevel(s.currentDoor.value) &&
      s.currentQuestion.value.number == s.currentDoor.value + 1 &&
      (s.doors[s.currentDoor.value] <==> s.questionResult == Correct))
  }

  /** A question fit for door `i`. */
  predicate FitsDoor(i: int, q: Question)
  {
    WellFormed(q) && q.level == i + 1 && q.number == i + 1
  }

  lemma InvConsistent(s: BaseState)
    requires Inv(s)
    ensures Consistent(s)
  {
  }

  lemma NewGameInv()
    ensures Inv(NewGame()) && !NewGame().gameWon && !NewGame().showQuestion
  {
  }

  /** The game is won exactly when every door is open. */
  lemma WonIffAllOpen(s: BaseState)
    requires Inv(s)
    ensures s.gameWon <==> forall i :: 0 <= i < |s.doors| ==> s.doors[i]
  {
    OpenedCountFull(s.doors);
  }

  /** `reset_game` from any state: five closed doors, nothing counted, not
      won, no question on screen, and the last question kept. */
  lemma ResetGameEffects(s: BaseState)
    ensures var r := ResetGame(s);
      Inv(r) && OpenedCount(r.doors) == 0 && r.doorsOpened == 0 && !r.gameWon &&
      !r.showQuestion && r.questionResult == Unanswered &&
      (forall i :: 0 <= i < |r.doors| ==> !r.doors[i]) &&
      r.currentQuestion == s.currentQuestion
  {
  }

  /** Touching a door raises its question exactly when the door may be
      touched, and the question then waits for an answer. */
  lemma TouchDoorInv(s: BaseState, i: int, q: Question)
    requires Inv(s) && FitsDoor(i, q)
    ensures Inv(TouchDoor(s, i, q))
    ensures CanTouch(s, i) ==>
      Pending(TouchDoor(s, i, q)) && TouchDoor(s, i, q).currentQuestion == Some(q) &&
      TouchDoor(s, i, q).currentDoor == Some(i)
    ensures !CanTouch(s, i) ==> TouchDoor(s, i, q) == s
    ensures TouchDoor(s, i, q).doors == s.doors
  {
    if CanTouch(s, i) {
      assert TouchDoor(s, i, q) == RaiseQuestion(s, i, q);
    }
  }

  /** The right answer opens the door and counts it, and wins the game
      exactly when it opens the last closed door. */
  lemma CorrectChoice(s: BaseState, k: int)
    requires Inv(s) && Pending(s) && k == s.currentQuestion.value.correctIndex
    ensures var r := CheckAnswer(s, k); var d := s.currentDoor.value;
      r.questionResult == Correct && r.doors == s.doors[d := true] &&
      r.doorsOpened == s.doorsOpened + 1 && OpenedCount(r.doors) == OpenedCount(s.doors) + 1 &&
      (r.gameWon <==> s.doorsOpened + 1 == DoorCount) &&
      r.currentQuestion == s.currentQuestion && r.showQuestion
  {
    OpenedCountOpen(s.doors, s.currentDoor.value);
  }

  /** A wrong answer only marks the result. */
  lemma WrongChoice(s: BaseState, k: int)
    requires Inv(s) && Pending(s) && k != s.currentQuestion.value.correctIndex
    ensures CheckAnswer(s, k) == s.(questionResult := Incorrect)
  {
  }

  lemma CheckAnswerInv(s: BaseState, k: int)
    requires Inv(s) && Pending(s)
    ensures Inv(CheckAnswer(s, k))
  {
    if k == s.currentQuestion.value.correctIndex {
      CorrectChoice(s, k);
    } else {
      WrongChoice(s, k);
    }
  }

  lemma GlobalKeyInv(s: BaseState, ev: Event)
    requires Inv(s)
    ensures Inv(GlobalKey(s, ev))
  {
    match ev
    case KeyDown(LetterR, _) =>
      ResetGameEffects(s);
    case KeyDown(Space, _) =>
      if s.showQuestion && s.questionResult == Correct {
        assert Inv(CloseQuestion(s));
      } else if s.showQuestion && s.questionResult == Incorrect {
        assert Inv(ClearVerdict(s));
      }
    case _ =>
  }

  /** Every event keeps the invariant. */
  lemma HandleEventInv(s: BaseState, ev: Event)
    requires Inv(s)
    ensures Inv(HandleEvent(s, ev))
  {
    var t := GlobalKey(s, ev);
    GlobalKeyInv(s, ev);
    if Pending(t) && SelectedAnswer(ev).Some? {
      CheckAnswerInv(t, SelectedAnswer(ev).value);
    }
  }

  /** After R, `run` goes on with a fresh layout only from the win screen:
      at any other time R changes nothing. */
  lemma RestartOnlyWhenWon(s: BaseState, text: string)
    requires Inv(s) && !s.gameWon
    ensures HandleEvent(s, KeyDown(LetterR, text)) == s
  {
  }

  /** Once won, the game stays won with every door open until R, and no door
      can be touched. */
  lemma WonStaysWon(s: BaseState, ev: Event, i: int, q: Question)
    requires Inv(s) && s.gameWon && !(ev.KeyDown? && ev.key == LetterR)
    ensures HandleEvent(s, ev).gameWon && HandleEvent(s, ev).doors == s.doors
    ensures TouchDoor(s, i, q) == s
  {
    var t := GlobalKey(s, ev);
    assert t.doors == s.doors && t.gameWon;
    if Pending(t) {
      WonIffAllOpen(s);
      assert false;
    }
  }

  /** Except for R on a won game, an open door never closes again, and a
      closed door opens only as the question about it is answered right. */
  lemma DoorsStayOpen(s: BaseState, ev: Event)
    requires Inv(s) && !(ev.KeyDown? && ev.key == LetterR && s.gameWon)
    ensures var r := HandleEvent(s, ev);
      |r.doors| == |s.doors| &&
      (forall j :: 0 <= j < |s.doors| && s.doors[j] ==> r.doors[j]) &&
      (forall j :: 0 <= j < |s.doors| && !s.doors[j] && r.doors[j] ==>
         s.currentDoor == Some(j) && r.questionResult == Correct)
  {
  }

  /** SPACE after a wrong answer asks the very same question about the very
      same door again. */
  lemma RetryAfterIncorrect(s: BaseState, text: string)
    requires Inv(s) && s.showQuestion && s.questionResult == Incorrect
    ensures var r := HandleEvent(s, KeyDown(Space, text));
      Pending(r) && r.currentQuestion == s.currentQuestion && r.currentDoor == s.currentDoor &&
      r.doors == s.doors && r.doorsOpened == s.doorsOpened
  {
    assert GlobalKey(s, KeyDown(Space, text)) == ClearVerdict(s);
  }

  /** Touch door `i`, press the digit of the right answer, press SPACE. */
  function Round(s: BaseState, i: int, q: Question): (r: BaseState)
    requires Consistent(s)
    ensures Consistent(r)
  {
    var touched := TouchDoor(s, i, q);
    assert Consistent(touched);
    var answer := KeyDown(Digit(q.correctIndex + 1), []);
    var answered := HandleEvent(touched, answer);
    HandleEventConsistent(touched, answer);
    HandleEventConsistent(answered, KeyDown(Space, " "));
    HandleEvent(answered, KeyDown(Space, " "))
  }

  lemma HandleEventConsistent(s: BaseState, ev: Event)
    requires Consistent(s)
    ensures Consistent(HandleEvent(s, ev))
  {
    GlobalKeyConsistent(s, ev);
    var t := GlobalKey(s, ev);
    if Pending(t) && SelectedAnswer(ev).Some? {
      var k := SelectedAnswer(ev).value;
      if k == t.currentQuestion.value.correctIndex {
        assert Consistent(AnswerRight(t));
      } else {
        assert Consistent(AnswerWrong(t));
      }
    }
  }

  /** A round opens the touched door, counts it, and leaves no question on
      screen; the game is won exactly when that was the last closed door. */
  lemma {:induction false} CorrectRound(s: BaseState, i: int, q: Question)
    requires Inv(s) && !s.gameWon && !s.showQuestion && FitsDoor(i, q)
    requires 0 <= i < |s.doors| && !s.doors[i]
    ensures var r := Round(s, i, q);
      Inv(r) && !r.showQuestion && r.doors == s.doors[i := true] &&
      r.doorsOpened == s.doorsOpened + 1 && (r.gameWon <==> s.doorsOpened + 1 == DoorCount)
  {
    var t := TouchDoor(s, i, q);
    TouchDoorInv(s, i, q);
    var answer := KeyDown(Digit(q.correctIndex + 1), []);
    assert GlobalKey(t, answer) == t;
    var u := CheckAnswer(t, q.correctIndex);
    assert HandleEvent(t, answer) == u;
    CorrectChoice(t, q.correctIndex);
    CheckAnswerInv(t, q.correctIndex);
    var v := CloseQuestion(u);
    assert GlobalKey(u, KeyDown(Space, " ")) == v;
    assert HandleEvent(u, KeyDown(Space, " ")) == v;
    assert Round(s, i, q) == v;
  }

  /** Five doors answered right, in order, from a new game: the game is won
      and every door is open. */
  lemma FiveRoundsWin(qs: seq<Question>)
    requires |qs| == DoorCount
    requires forall k :: 0 <= k < |qs| ==> FitsDoor(k, qs[k])
    ensures var s5 := Round(Round(Round(Round(Round(NewGame(), 0, qs[0]), 1, qs[1]), 2, qs[2]), 3, qs[3]), 4, qs[4]);
      s5.gameWon && s5.doorsOpened == DoorCount && (forall i :: 0 <= i < |s5.doors| ==> s5.doors[i])
  {
    var s0 := NewGame();
    NewGameInv();
    var s1 := Round(s0, 0, qs[0]);
    CorrectRound(s0, 0, qs[0]);
    var s2 := Round(s1, 1, qs[1]);
    CorrectRound(s1, 1, qs[1]);
    var s3 := Round(s2, 2, qs[2]);
    CorrectRound(s2, 2, qs[2]);
    var s4 := Round(s3, 3, qs[3]);
    CorrectRound(s3, 3, qs[3]);
    var s5 := Round(s4, 4, qs[4]);
    CorrectRound(s4, 4, qs[4]);
    WonIffAllOpen(s5);
  }
}
