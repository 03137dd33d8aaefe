# Math Quiz Adventure — a Dafny model of its game core

Math Quiz Adventure is a platform game for children. The player walks into
doors, and each door asks an arithmetic question with four answers; a right
answer opens the door. There are two variants of the program.

* `math_quiz_adventure_enhanced.py` has five levels of five doors each, with
  rules for scoring. A correct answer scores 10 points, or 20 from the third
  in a row. Opening the fifth door of a level adds 50 points. The player's
  name is typed in before the game starts. When the last level is won, the
  name and score go on a ten-entry leaderboard.
* `math_quiz_adventure.py` (the baseline) has one layout of five doors, and
  door *n* asks a question of level *n*. The game is won when all five doors
  are open, and R starts it over from the win screen.

This project models the core the two variants share, and proves properties
of it. That core is:

* the question generator;
* the leaderboard;
* name entry;
* the state machine that events drive in each variant.

## Modules

* `Questions` (questions.dfy) models `MathQuestion.generate_question`:
  * the difficulty table of operators and operand ranges per level;
  * rejection sampling of three wrong answers;
  * the shuffle, and the index of the correct answer.

  Every call into `random` becomes an explicit input:
  * a raw number that `RandInt`/`Choice` maps into the range the call asks for;
  * a finite sequence of perturbation draws. When it runs out before four
    answers exist, generation reports failure.
  * a permutation standing in for `random.shuffle`.

  `Generate` is the pure definition. The class `MathQuestion` has a method
  `GenerateQuestion` with the sampling `while` loop, proved against
  `Generate`.
* `Scores` (scores.dfy) models `Leaderboard.add_score` and `get_top_scores`:
  * append the entry;
  * sort descending by `(score, level)`, which is specified by insertion;
  * keep the first ten.

  The leaderboard is a class whose `scores` field its methods update.
* `Input` (input.dfy) holds:
  * key and mouse events;
  * `str.strip`;
  * `str.isprintable`;
  * `EditName`, the editing step the two name screens share.
* `Doors` (doors.dfy) holds what both variants share about doors:
  * the number of open doors;
  * a verdict;
  * which answer a key or a click chooses.
* `Progression` (progression.dfy) is the enhanced game as values:
  * a `GameState` holding the fields of `Game`;
  * one function per change of state;
  * the invariant `Inv`.

  `ProgressionLemmas` (progression_lemmas.dfy) proves what that machine
  promises:
  * every event keeps `Inv`;
  * the scoring rules;
  * retrying after a wrong answer;
  * advancing a level and winning;
  * the score never falls except on restart;
  * a whole first level played without a mistake scores 130.
* `EnhancedGame` (enhanced_game.dfy) is the enhanced `Game` as a class whose
  methods update its fields in place. Each method ensures that the new state
  is what the matching `Progression` function computes from the old one.
* `BaselineProgression` (baseline_progression.dfy) and `BaselineGame`
  (baseline_game.dfy) do the same for the baseline game. This includes the
  proof that five right answers in a row win it.

Both variants share one copy of the generator and the leaderboard, because
the two files contain the same code for them.

### Where the model follows intent rather than the text

The baseline file is damaged in two places. The model follows what the code
evidently means:

* The header of the baseline `Door` class is missing. Its constructor body
  sits at `math_quiz_adventure.py:150-156`, right after
  `Leaderboard.get_top_scores`, so no `Door` class is ever defined. The
  model takes the five doors it builds at 309-315 and 499-505 to be closed
  doors whose `question_level` is 1 to 5.
* `check_door_collision` calls `MathQuestion(door.question_level)` with one
  argument (`math_quiz_adventure.py:354`), but the constructor at 174 takes
  two. The model passes the door's level, and the door number as the
  question number.

Two behaviours of the enhanced game are modelled as written:

* R on the win or leaderboard screen resets the game. The same key event
  then reaches `handle_name_input_start`, so the new name box already holds
  "r" (`ProgressionLemmas.RestartTypesR`).
* The answers of the generator are "four distinct non-negative values" only
  for the wrong answers. The correct answer of a level-2 or level-3
  subtraction can be negative (10 - 15 = -5). The model keeps this, and
  proves that -5 is the lowest correct answer there is.

## Model

| member | source | states |
|---|---|---|
| Questions.RandInt | math_quiz_adventure_enhanced.py:150-151 | `random.randint(lo, hi)` on a given draw stays within `lo..hi` |
| Questions.LevelOne | math_quiz_adventure_enhanced.py:148-161 | level 1: `+`/`-` on operands 1..10, the subtraction ordered larger first |
| Questions.LevelTwo | math_quiz_adventure_enhanced.py:163-174 | level 2: `+`/`-` on 10..25 and 5..15 |
| Questions.LevelThree | math_quiz_adventure_enhanced.py:176-194 | level 3: `×` on 2..8, or `+`/`-` on 20..50 and 10..25 |
| Questions.LevelFour | math_quiz_adventure_enhanced.py:196-214 | level 4: `×` on 3..12, or `+`/`-` on 50..100 and 20..40 |
| Questions.TopLevel | math_quiz_adventure_enhanced.py:216-236 | level 5 and above: `×` on 5..15, `+` on 75..150 and 25..75, `-` on 100..200 and 25..75 |
| Questions.Operands | math_quiz_adventure_enhanced.py:148-236 | every choice of operator and operands lies in the difficulty table of its level |
| Questions.TableReachable | math_quiz_adventure_enhanced.py:148-236 | conversely, every entry of the table for a level comes out of some draws |
| Questions.HighLevelsUseLastRow | math_quiz_adventure_enhanced.py:216 | any level other than 1 to 4 behaves exactly like level 5 |
| Questions.LevelOneNeverNegative | math_quiz_adventure_enhanced.py:156-160 | the swap keeps every level-1 answer non-negative |
| Questions.LevelTwoSubtractionUnordered | math_quiz_adventure.py:204-207 | level 2 has no such swap: the question 10 - 15 is produced |
| Questions.LevelThreeSubtractionUnordered | math_quiz_adventure.py:224-227 | neither has level 3: 20 - 25 is produced |
| Questions.CorrectAnswerAtLeastMinusFive | math_quiz_adventure.py:181-269 | no correct answer at any level is below -5 |
| Questions.Offset | math_quiz_adventure_enhanced.py:241-244 | a perturbation is within ±15 for `×` and within ±10 otherwise |
| Questions.SampleWellFormed | math_quiz_adventure_enhanced.py:239-246 | rejection sampling keeps the answers it has, and ends with four distinct answers: the correct one first, the others non-negative and within the spread |
| Questions.ThreeDrawsSuffice | math_quiz_adventure.py:272-279 | the loop never has to get stuck: for every question, three perturbations exist that complete the answers |
| Questions.DrawAnswers | math_quiz_adventure_enhanced.py:239-246 | the `while len(answers) < 4` loop succeeds exactly when the sampling definition does, with the same answers |
| Questions.ShufflePermutes | math_quiz_adventure_enhanced.py:248 | the shuffle keeps the same multiset of answers, still without repetition |
| Questions.IndexOf | math_quiz_adventure_enhanced.py:249 | `list.index` returns the first position that holds the value |
| Questions.Generate | math_quiz_adventure_enhanced.py:146-249 | a generated question is well formed: right arithmetic, operands from the level's table, distinct choices with the correct answer at exactly `correct_index`; it fails only when the perturbation draws run out |
| Questions.MathQuestion.constructor | math_quiz_adventure_enhanced.py:141-143 | stores the level and question number |
| Questions.MathQuestion.GenerateQuestion | math_quiz_adventure.py:179-282 | fills the fields as `Generate` defines them, and leaves a valid question when it succeeds |
| Scores.SortDescendingSorts | math_quiz_adventure_enhanced.py:280 | sorting permutes the entries into non-increasing `(score, level)` order |
| Scores.Prefix | math_quiz_adventure_enhanced.py:282 | Python's `s[:k]`: a prefix of length `min(k, len)`, and counted from the end for negative `k` |
| Scores.AddedScoresSorted | math_quiz_adventure_enhanced.py:271-284 | after `add_score` the board is descending, holds `min(n + 1, 10)` entries, and holds only old entries and the new one |
| Scores.AddedScoresKeepsBest | math_quiz_adventure.py:134-147 | no dropped entry ranks above a kept one, and nothing is dropped while fewer than ten entries result |
| Scores.Leaderboard.constructor | math_quiz_adventure_enhanced.py:252-253 | the board starts from the entries it loaded |
| Scores.Leaderboard.AddScore | math_quiz_adventure_enhanced.py:271-284 | appends, sorts and cuts the `scores` field to the list `AddedScores` defines |
| Scores.Leaderboard.GetTopScores | math_quiz_adventure_enhanced.py:285-286 | returns the first `limit` entries |
| Input.TrimStartDropsLeading | math_quiz_adventure_enhanced.py:557 | the left strip removes exactly the leading whitespace |
| Input.TrimEndDropsTrailing | math_quiz_adventure_enhanced.py:557 | the right strip removes exactly the trailing whitespace |
| Input.StripEmptyIffBlank | math_quiz_adventure_enhanced.py:557 | Enter is accepted exactly when the name holds a non-whitespace character |
| Input.StripKeepsCore | math_quiz_adventure_enhanced.py:569-570 | the stored name is a contiguous part of the typed one, and begins and ends with a non-whitespace character |
| Input.StripIdempotent | math_quiz_adventure_enhanced.py:569 | stripping twice changes nothing more |
| Input.NameLengthBounded | math_quiz_adventure_enhanced.py:562-564 | typed one character at a time, a name never exceeds 15 characters |
| Input.BackspaceUndoesTyping | math_quiz_adventure_enhanced.py:560-564 | Backspace takes back an accepted character |
| Input.TypingAppends | math_quiz_adventure_enhanced.py:562-564 | an accepted key press appends its text and changes nothing else |
| Input.BackspaceDropsLast | math_quiz_adventure_enhanced.py:560-561 | Backspace removes exactly the last character, and does nothing to an empty name |
| Input.RefusedTypingKeepsName | math_quiz_adventure_enhanced.py:575-577 | a non-printable text, or a full name, leaves the name unchanged |
| Doors.OpenedCount | math_quiz_adventure_enhanced.py:522 | the number of open doors is at most the number of doors |
| Doors.OpenedCountOpen | math_quiz_adventure_enhanced.py:510-522 | opening a closed door raises the count by one |
| Doors.OpenedCountFull | math_quiz_adventure_enhanced.py:521-523 | the count equals the number of doors exactly when every door is open |
| Doors.ClosedDoors | math_quiz_adventure_enhanced.py:349-355 | a new layout has five doors and none is open |
| Doors.SelectedAnswer | math_quiz_adventure_enhanced.py:482-504 | key *n* (1 to 4) chooses answer *n* - 1 and a click on button *b* (0 to 3) chooses answer *b*; every other event chooses none |
| Progression.Points | math_quiz_adventure_enhanced.py:516-519 | 10 points, or 20 exactly when the streak is at least three |
| Progression.HandleEventConsistent | math_quiz_adventure_enhanced.py:1007-1046 | after any event, `run` can still dereference the question and the door on show |
| ProgressionLemmas.PendingLevelOpen | math_quiz_adventure_enhanced.py:521-524 | a level is not complete while its current question is unanswered |
| ProgressionLemmas.InvConsistent | math_quiz_adventure_enhanced.py:482-530 | the invariant guarantees what `check_answer` dereferences |
| ProgressionLemmas.NewGameInv | math_quiz_adventure_enhanced.py:289-314 | a new game satisfies the invariant, and starts on the name screen |
| ProgressionLemmas.RestartFromAnyState | math_quiz_adventure_enhanced.py:1015-1019 | R gives level 1, score 0, five closed doors, no question, the name screen and the same leaderboard, from any state |
| ProgressionLemmas.TouchDoorInv | math_quiz_adventure_enhanced.py:470-480 | touching a door raises its question exactly when the game loop's guard and the door allow it; the question then waits for an answer, no door changes, and the invariant holds |
| ProgressionLemmas.CorrectChoice | math_quiz_adventure_enhanced.py:507-525 | a right answer opens the door, counts it, extends the streak, scores `Points` and 50 more exactly when it opens the fifth door |
| ProgressionLemmas.WrongChoice | math_quiz_adventure_enhanced.py:527-530 | a wrong answer only sets the verdict and resets the streak |
| ProgressionLemmas.CheckAnswerInv | math_quiz_adventure_enhanced.py:506-530 | `check_answer` keeps the invariant and never lowers the score |
| ProgressionLemmas.AdvanceLevelEffects | math_quiz_adventure_enhanced.py:532-552 | below level 5: the next level with cleared counters and five closed doors, keeping score and streak; at level 5: won, with the name screen |
| ProgressionLemmas.AcknowledgeInv | math_quiz_adventure_enhanced.py:1021-1037 | SPACE keeps the invariant and the score |
| ProgressionLemmas.RetryAfterIncorrect | math_quiz_adventure_enhanced.py:1034-1035 | SPACE after a wrong answer asks the same question about the same door again |
| ProgressionLemmas.ContinueAfterCorrect | math_quiz_adventure_enhanced.py:1022-1033 | SPACE after a right answer closes the question, then stays on the level, advances, or wins on level 5 |
| ProgressionLemmas.GlobalKeyInv | math_quiz_adventure_enhanced.py:1011-1037 | the L, R and SPACE branches keep the invariant |
| ProgressionLemmas.NameInputStartInv | math_quiz_adventure_enhanced.py:554-565 | the start name screen keeps the invariant |
| ProgressionLemmas.NameInputInv | math_quiz_adventure_enhanced.py:566-577 | the win name screen keeps the invariant |
| ProgressionLemmas.ScreenInputInv | math_quiz_adventure_enhanced.py:1039-1046 | the screen handlers keep the invariant |
| ProgressionLemmas.ScreenInputScore | math_quiz_adventure_enhanced.py:1039-1046 | the screen handlers never lower the score |
| ProgressionLemmas.HandleEventInv | math_quiz_adventure_enhanced.py:1007-1046 | every event keeps the invariant |
| ProgressionLemmas.EndTransitionInv | math_quiz_adventure_enhanced.py:1047-1051 | the end of the level screen keeps the invariant |
| ProgressionLemmas.ScoreMonotone | math_quiz_adventure_enhanced.py:1007-1046 | every event except R, which starts over, leaves the score the same or higher |
| ProgressionLemmas.GlobalKeyDoors | math_quiz_adventure_enhanced.py:1011-1037 | L, R (outside a restart) and SPACE leave level, doors and current door alone, unless SPACE moves to the next level with five closed doors and no question on show |
| ProgressionLemmas.ScreenInputDoors | math_quiz_adventure_enhanced.py:1039-1046 | the screen handlers keep the level, never close a door, and open only the current door, when it is answered right |
| ProgressionLemmas.DoorsStayOpen | math_quiz_adventure_enhanced.py:507-510 | except for R, which starts over, an open door stays open on its level, and a closed door opens only by a right answer to its question; the level changes only to the next one, with five closed doors |
| ProgressionLemmas.SpaceKeepsScore | math_quiz_adventure_enhanced.py:1021-1037 | SPACE never changes the score |
| ProgressionLemmas.GradingOnlyWhilePending | math_quiz_adventure_enhanced.py:1043-1044 | a digit or a click while no question waits changes neither doors, score, streak nor verdict |
| ProgressionLemmas.RestartTypesR | math_quiz_adventure_enhanced.py:1015-1040 | R on the win or leaderboard screen leaves the name screen holding "r" |
| ProgressionLemmas.Round | math_quiz_adventure_enhanced.py:1007-1057 | one round (touch a door, press the right digit, press SPACE) keeps the question and the door dereferenceable |
| ProgressionLemmas.CorrectRound | math_quiz_adventure_enhanced.py:470-530 | a right round that does not finish the level opens that door, extends the streak, adds `Points`, and leaves the game ready for the next door |
| ProgressionLemmas.LevelRound | math_quiz_adventure_enhanced.py:532-547 | a right round that opens the fifth door below level 5 moves to the next level, with `Points` plus the 50-point bonus |
| ProgressionLemmas.StartedPlaying | math_quiz_adventure_enhanced.py:554-559 | typing "P" then Enter leaves a new game ready to play on level 1, with score 0 |
| ProgressionLemmas.FiveCorrectAnswersScore130 | math_quiz_adventure_enhanced.py:506-552 | five right answers from a new game score 10 + 10 + 20 + 20 + 20 + 50 = 130, and reach level 2 |
| EnhancedGame.CountOpened | math_quiz_adventure_enhanced.py:522 | the counting loop computes the number of open doors |
| EnhancedGame.Game.constructor | math_quiz_adventure_enhanced.py:289-314 | a new game is the state `NewGame` defines, and satisfies the invariant |
| EnhancedGame.Game.ResetGame | math_quiz_adventure_enhanced.py:315-336 | the fields become `Progression.ResetGame` of the old state |
| EnhancedGame.Game.TouchDoor | math_quiz_adventure_enhanced.py:470-480 | ignored when the guard fails; otherwise the state `TouchDoor` defines with the question `Generate` gives, or unchanged when generation fails; the invariant is kept |
| EnhancedGame.Game.RaiseQuestion | math_quiz_adventure_enhanced.py:476-478 | the question and door go on show |
| EnhancedGame.Game.CheckAnswer | math_quiz_adventure_enhanced.py:506-530 | the new state is `Progression.CheckAnswer` of the old one |
| EnhancedGame.Game.AnswerRight | math_quiz_adventure_enhanced.py:507-525 | the new state is `Progression.AnswerRight` of the old one |
| EnhancedGame.Game.AdvanceLevel | math_quiz_adventure_enhanced.py:532-552 | the new state is `Progression.AdvanceLevel` of the old one |
| EnhancedGame.Game.NextLevel | math_quiz_adventure_enhanced.py:533-547 | the next level, as `Progression.NextLevel` defines it |
| EnhancedGame.Game.WinGame | math_quiz_adventure_enhanced.py:549-551 | won, with the name screen shown |
| EnhancedGame.Game.Acknowledge | math_quiz_adventure_enhanced.py:1021-1037 | the SPACE branch, as `Progression.Acknowledge` defines it |
| EnhancedGame.Game.AcknowledgeCorrect | math_quiz_adventure_enhanced.py:1022-1033 | SPACE after a right answer, as `Progression.AcknowledgeCorrect` defines it |
| EnhancedGame.Game.HandleNameInputStart | math_quiz_adventure_enhanced.py:554-565 | the start name screen, as `NameInputStart` defines it |
| EnhancedGame.Game.TypeName | math_quiz_adventure_enhanced.py:560-564 | the name becomes `EditName` of the old name |
| EnhancedGame.Game.StartWithName | math_quiz_adventure_enhanced.py:557-559 | the name screen closes and the game starts |
| EnhancedGame.Game.HandleNameInput | math_quiz_adventure_enhanced.py:566-577 | the win name screen, as `NameInput` defines it |
| EnhancedGame.Game.SubmitName | math_quiz_adventure_enhanced.py:568-572 | the stripped name, score and level go on the leaderboard, which is then shown |
| EnhancedGame.Game.HandleQuestionInput | math_quiz_adventure_enhanced.py:482-504 | the chosen answer, if any, is checked |
| EnhancedGame.Game.Restart | math_quiz_adventure_enhanced.py:1015-1019 | `reset_game`, then the leaderboard screens close and the name is cleared |
| EnhancedGame.Game.HandleGlobalKey | math_quiz_adventure_enhanced.py:1011-1037 | the L, R and SPACE branches, as `GlobalKey` defines them |
| EnhancedGame.Game.HandleScreen | math_quiz_adventure_enhanced.py:1039-1046 | the handler of the screen on show, as `ScreenInput` defines it |
| EnhancedGame.Game.HandleEvent | math_quiz_adventure_enhanced.py:1007-1046 | one event, as `Progression.HandleEvent` defines it; the invariant is kept |
| EnhancedGame.Game.EndLevelTransition | math_quiz_adventure_enhanced.py:1047-1051 | the level screen goes away; the invariant is kept |
| BaselineProgression.InvConsistent | math_quiz_adventure.py:384-390 | the invariant guarantees what `check_answer` dereferences |
| BaselineProgression.NewGameInv | math_quiz_adventure.py:285-321 | a new game satisfies the invariant, is not won, and shows no question |
| BaselineProgression.WonIffAllOpen | math_quiz_adventure.py:388-391 | the game is won exactly when every door is open |
| BaselineProgression.ResetGameEffects | math_quiz_adventure.py:497-509 | `reset_game` gives five closed doors, a count of 0, not won, no question and no verdict, from any state |
| BaselineProgression.TouchDoorInv | math_quiz_adventure.py:348-358 | touching a door raises its question exactly when no question shows, the game is not won and the door is closed; no door changes, and the invariant holds |
| BaselineProgression.CorrectChoice | math_quiz_adventure.py:385-391 | a right answer opens and counts the door, and wins exactly when it was the fifth |
| BaselineProgression.WrongChoice | math_quiz_adventure.py:392-394 | a wrong answer only sets the verdict |
| BaselineProgression.CheckAnswerInv | math_quiz_adventure.py:384-394 | `check_answer` keeps the invariant |
| BaselineProgression.GlobalKeyInv | math_quiz_adventure.py:518-528 | the R and SPACE branches keep the invariant |
| BaselineProgression.HandleEventInv | math_quiz_adventure.py:515-531 | every event keeps the invariant |
| BaselineProgression.RestartOnlyWhenWon | math_quiz_adventure.py:521-522 | R changes nothing unless the game is won |
| BaselineProgression.WonStaysWon | math_quiz_adventure.py:530-535 | a won game stays won with its doors until R, and no door can be touched |
| BaselineProgression.DoorsStayOpen | math_quiz_adventure.py:385-388 | except for R on a won game, an open door stays open, and a closed door opens only by a right answer to its question |
| BaselineProgression.RetryAfterIncorrect | math_quiz_adventure.py:527-528 | SPACE after a wrong answer asks the same question again |
| BaselineProgression.Round | math_quiz_adventure.py:515-535 | one round keeps the question and the door dereferenceable |
| BaselineProgression.HandleEventConsistent | math_quiz_adventure.py:515-531 | after any event, `run` can still dereference the question and the door |
| BaselineProgression.CorrectRound | math_quiz_adventure.py:384-391 | a right round opens and counts the touched door, and wins exactly when that was the last closed one |
| BaselineProgression.FiveRoundsWin | math_quiz_adventure.py:388-391 | five right rounds from a new game win it, with every door open |
| BaselineGame.Game.constructor | math_quiz_adventure.py:285-321 | a new game is the state `NewGame` defines, and satisfies the invariant |
| BaselineGame.Game.ResetGame | math_quiz_adventure.py:497-509 | the fields become `BaselineProgression.ResetGame` of the old state |
| BaselineGame.Game.TouchDoor | math_quiz_adventure.py:348-358 | ignored when the guard fails; otherwise the state `TouchDoor` defines with the question `Generate` gives for the door's level, or unchanged when generation fails; the invariant is kept |
| BaselineGame.Game.RaiseQuestion | math_quiz_adventure.py:354-356 | the question and door go on show |
| BaselineGame.Game.CheckAnswer | math_quiz_adventure.py:384-394 | the new state is `BaselineProgression.CheckAnswer` of the old one |
| BaselineGame.Game.AnswerRight | math_quiz_adventure.py:385-391 | the new state is `BaselineProgression.AnswerRight` of the old one |
| BaselineGame.Game.Acknowledge | math_quiz_adventure.py:523-528 | the SPACE branch, as `BaselineProgression.Acknowledge` defines it |
| BaselineGame.Game.HandleGlobalKey | math_quiz_adventure.py:518-528 | the R and SPACE branches, as `GlobalKey` defines them |
| BaselineGame.Game.HandleQuestionInput | math_quiz_adventure.py:360-382 | the chosen answer, if any, is checked |
| BaselineGame.Game.HandleEvent | math_quiz_adventure.py:515-531 | one event, as `BaselineProgression.HandleEvent` defines it; the invariant is kept |

## Left out

- Player physics, platforms and the level layouts' coordinates. Platform games of this kind are not about arithmetic, and nothing in the scoring depends on them.
- Collision rectangles: a collision is the abstract event "the player touches door `i`". When several unopened doors overlap the player, the model does not capture that `check_door_collision` takes the first one in list order.
- Drawing, fonts, sounds and the question's display text (`question`). These are output only.
- Mouse hit-testing: a click arrives as the index of the answer button under the pointer.
- The leaderboard file: `load_scores` and `save_scores`, JSON, and their I/O errors. The leaderboard starts from the entries it loaded.
- `datetime.now()`: the date of an entry is an opaque string given as a parameter.
- The event loop itself, the frame clock, QUIT and ESCAPE, which only stop the loop. `EndTransition`/`EndLevelTransition` stands for the transition timer running out; the 180-frame count is not modelled.
- Questions.MathQuestion.constructor: it only stores the level and question number; `generate_question`, which `__init__` calls, is the separate method `GenerateQuestion`, and both `TouchDoor` methods call it right after construction.
- Randomness: every draw is an input. `random.shuffle` is any permutation of the four answers.
- Questions.MathQuestion.GenerateQuestion: the loop ends after the given perturbation draws, and reports failure when they run out. Python's loop instead keeps drawing forever. `ThreeDrawsSuffice` shows that completing draws always exist. `TouchDoor` then reports `Exhausted` and changes nothing, which the source never does.
- Input.IsPrintableChar: it approximates Python's `str.isprintable` with code-point ranges. It refuses:
  - the controls;
  - the separators other than the space;
  - the soft hyphen and a list of other format characters (U+0600-0605, U+061C, U+06DD, U+070F, U+180E, U+200B-200F, U+202A-202E, U+2060-206F, U+FEFF and U+FFF9-FFFB);
  - the private-use characters of the BMP block and of planes 15 and 16;
  - the noncharacters U+FFFE and U+FFFF.

  Other format characters, and other unassigned code points, which Python refuses, are taken as printable. Input.IsWhitespace lists exactly the code points for which `str.isspace` holds.
- Scores.SortDescending: it is an insertion sort. It is stable like Python's `list.sort`, but stability is not proved; the proofs cover order and permutation.
- The doors of a layout are a sequence of `opened` flags that methods reassign, not `Door` objects. Aliasing between `current_door` and the list is therefore modelled by an index.
- advance_level's reset of the player's position and velocity belongs to the physics left out above.
- The baseline `Door` class, whose header is missing from math_quiz_adventure.py. It is modelled by evident intent, as described above.
- The baseline call `MathQuestion(door.question_level)`, which passes one argument to a two-argument constructor. It is modelled as passing the door's number as the question number.
