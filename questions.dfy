/**
 The arithmetic question generator, `MathQuestion.generate_question`, which is
 the same code in both game variants. Every call into Python's `random`
 module is replaced by an explicit draw: a natural number that `RandInt` or
 `Choice` maps into the range the call asks for, a finite sequence of
 perturbation draws for the distractor loop, and a permutation standing in
 for `random.shuffle`.
 */
module Questions {
  import opened Wrappers

  /** The three operators, `"+"`, `"-"` and `"×"`. */
  datatype Op = Plus | Minus | Times

  function Apply(op: Op, a: int, b: int): int
  {
    match op
    case Plus => a + b
    case Minus => a - b
    case Times => a * b
  }

  /** `random.randint(lo, hi)` fed with the raw draw `d`. */
  function RandInt(lo: int, hi: int, d: nat): (r: int)
    requires lo <= hi
    ensures lo <= r <= hi
  {
    lo + d % (hi - lo + 1)
  }

  /** `random.choice(xs)` fed with the raw draw `d`. */
  function Choice<T>(xs: seq<T>, d: nat): T
    requires |xs| > 0
  {
    xs[d % |xs|]
  }

  /** The raw draws one question takes: `first` and `second` feed the two
      `randint` calls for the operands, `kind` the choice between
      multiplication and addition/subtraction (levels 3 and up), `sign` the
      choice between addition and subtraction. */
  datatype Draws = Draws(first: nat, second: nat, kind: nat, sign: nat)

  /** The operator and operands of a question: `operation`, `num1`, `num2`. */
  datatype Arith = Arith(op: Op, num1: int, num2: int)

  predicate InRange(x: int, lo: int, hi: int)
  {
    lo <= x <= hi
  }

  /** The difficulty table: the operators and operand ranges a level allows.
      Every level other than 1 to 4 falls in the last row. Only level 1 orders
      the operands of a subtraction. */
  predicate InTable(level: int, q: Arith)
  {
    if level == 1 then
      q.op != Times && InRange(q.num1, 1, 10) && InRange(q.num2, 1, 10) &&
      (q.op == Minus ==> q.num1 >= q.num2)
    else if level == 2 then
      q.op != Times && InRange(q.num1, 10, 25) && InRange(q.num2, 5, 15)
    else if level == 3 then
      if q.op == Times then InRange(q.num1, 2, 8) && InRange(q.num2, 2, 8)
      else InRange(q.num1, 20, 50) && InRange(q.num2, 10, 25)
    else if level == 4 then
      if q.op == Times then InRange(q.num1, 3, 12) && InRange(q.num2, 3, 12)
      else InRange(q.num1, 50, 100) && InRange(q.num2, 20, 40)
    else
      match q.op
      case Times => InRange(q.num1, 5, 15) && InRange(q.num2, 5, 15)
      case Plus => InRange(q.num1, 75, 150) && InRange(q.num2, 25, 75)
      case Minus => InRange(q.num1, 100, 200) && InRange(q.num2, 25, 75)
  }

  /** Level 1: two operands from 1 to 10 and `+` or `-`; a subtraction puts
      the larger operand first. */
  function LevelOne(d: Draws): (q: Arith)
    ensures InTable(1, q)
  {
    var n1, n2 := RandInt(1, 10, d.first), RandInt(1, 10, d.second);
    if Choice([true, false], d.sign) then Arith(Plus, n1, n2)
    else if n1 < n2 then Arith(Minus, n2, n1)
    else Arith(Minus, n1, n2)
  }

  /** Level 2: 10 to 25 and 5 to 15, `+` or `-`. */
  function LevelTwo(d: Draws): (q: Arith)
    ensures InTable(2, q)
  {
    var n1, n2 := RandInt(10, 25, d.first), RandInt(5, 15, d.second);
    Arith(if Choice([true, false], d.sign) then Plus else Minus, n1, n2)
  }

  /** Level 3: one time in three `×` on 2 to 8, else `+` or `-` on 20 to 50
      and 10 to 25. */
  function LevelThree(d: Draws): (q: Arith)
    ensures InTable(3, q)
  {
    if Choice([true, false, false], d.kind) then
      Arith(Times, RandInt(2, 8, d.first), RandInt(2, 8, d.second))
    else
      var n1, n2 := RandInt(20, 50, d.first), RandInt(10, 25, d.second);
      Arith(if Choice([true, false], d.sign) then Plus else Minus, n1, n2)
  }

  /** Level 4: half the time `×` on 3 to 12, else `+` or `-` on 50 to 100
      and 20 to 40. */
  function LevelFour(d: Draws): (q: Arith)
    ensures InTable(4, q)
  {
    if Choice([true, false], d.kind) then
      Arith(Times, RandInt(3, 12, d.first), RandInt(3, 12, d.second))
    else
      var n1, n2 := RandInt(50, 100, d.first), RandInt(20, 40, d.second);
      Arith(if Choice([true, false], d.sign) then Plus else Minus, n1, n2)
  }

  /** Level 5 and every other level: `random.choice(["add", "sub", "mult",
      "mult"])`, each with its own ranges. */
  function TopLevel(d: Draws): (q: Arith)
    ensures InTable(5, q)
  {
    match Choice([Plus, Minus, Times, Times], d.kind)
    case Times => Arith(Times, RandInt(5, 15, d.first), RandInt(5, 15, d.second))
    case Plus => Arith(Plus, RandInt(75, 150, d.first), RandInt(25, 75, d.second))
    case Minus => Arith(Minus, RandInt(100, 200, d.first), RandInt(25, 75, d.second))
  }

  /** The operator and operand choice at the top of `generate_question`. */
  function Operands(level: int, d: Draws): (q: Arith)
    ensures InTable(level, q)
  {
    if level == 1 then LevelOne(d)
    else if level == 2 then LevelTwo(d)
    else if level == 3 then LevelThree(d)
    else if level == 4 then LevelFour(d)
    else TopLevel(d)
  }

  /** Conversely, every entry of the difficulty table is produced by some draws. */
  lemma TableReachable(level: int, q: Arith)
    requires InTable(level, q)
    ensures exists d :: Operands(level, d) == q
  {
    if level == 1 {
      LevelOneReachable(q);
    } else if level == 2 {
      LevelTwoReachable(q);
    } else if level == 3 {
      LevelThreeReachable(q);
    } else if level == 4 {
      LevelFourReachable(q);
    } else {
      TopLevelReachable(level, q);
    }
  }

  lemma LevelOneReachable(q: Arith)
    requires InTable(1, q)
    ensures exists d :: Operands(1, d) == q
  {
    var d := Draws(q.num1 - 1, q.num2 - 1, 0, if q.op == Plus then 0 else 1);
    LevelOneWitness(q, d);
    assert Operands(1, d) == q;
  }

  lemma LevelTwoReachable(q: Arith)
    requires InTable(2, q)
    ensures exists d :: Operands(2, d) == q
  {
    var d := Draws(q.num1 - 10, q.num2 - 5, 0, if q.op == Plus then 0 else 1);
    LevelTwoWitness(q, d);
    assert Operands(2, d) == q;
  }

  lemma LevelThreeReachable(q: Arith)
    requires InTable(3, q)
    ensures exists d :: Operands(3, d) == q
  {
    if q.op == Times {
      var d := Draws(q.num1 - 2, q.num2 - 2, 0, 0);
      LevelThreeProductWitness(q.num1, q.num2);
      assert Operands(3, d) == q;
    } else {
      var d := Draws(q.num1 - 20, q.num2 - 10, 1, if q.op == Plus then 0 else 1);
      LevelThreeSumWitness(q.op, q.num1, q.num2);
      assert Operands(3, d) == q;
    }
  }

  lemma LevelFourReachable(q: Arith)
    requires InTable(4, q)
    ensures exists d :: Operands(4, d) == q
  {
    if q.op == Times {
      var d := Draws(q.num1 - 3, q.num2 - 3, 0, 0);
      LevelFourProductWitness(q.num1, q.num2);
      assert Operands(4, d) == q;
    } else {
      var d := Draws(q.num1 - 50, q.num2 - 20, 1, if q.op == Plus then 0 else 1);
      LevelFourSumWitness(q.op, q.num1, q.num2);
      assert Operands(4, d) == q;
    }
  }

  lemma TopLevelReachable(level: int, q: Arith)
    requires level < 1 || level > 4
    requires InTable(level, q)
    ensures exists d :: Operands(level, d) == q
  {
    var d := match q.op
      case Plus => Draws(q.num1 - 75, q.num2 - 25, 0, 0)
      case Minus => Draws(q.num1 - 100, q.num2 - 25, 1, 0)
      case Times => Draws(q.num1 - 5, q.num2 - 5, 2, 0);
    TopLevelWitness(q, d);
    assert Operands(level, d) == q;
  }

  /** The draw `x - lo` makes `randint(lo, hi)` return `x`. */
  lemma RandIntHits(lo: int, hi: int, x: int)
    requires lo <= x <= hi
    ensures RandInt(lo, hi, x - lo) == x
  {
  }

  lemma LevelOneWitness(q: Arith, d: Draws)
    requires InTable(1, q)
    requires d == Draws(q.num1 - 1, q.num2 - 1, 0, if q.op == Plus then 0 else 1)
    ensures LevelOne(d) == q
  {
    RandIntHits(1, 10, q.num1);
    RandIntHits(1, 10, q.num2);
    assert Choice([true, false], d.sign) == (q.op == Plus);
  }

  lemma LevelTwoWitness(q: Arith, d: Draws)
    requires InTable(2, q)
    requires d == Draws(q.num1 - 10, q.num2 - 5, 0, if q.op == Plus then 0 else 1)
    ensures LevelTwo(d) == q
  {
    RandIntHits(10, 25, q.num1);
    RandIntHits(5, 15, q.num2);
    assert Choice([true, false], d.sign) == (q.op == Plus);
  }

  lemma LevelThreeProductWitness(x: int, y: int)
    requires 2 <= x <= 8 && 2 <= y <= 8
    ensures LevelThree(Draws(x - 2, y - 2, 0, 0)) == Arith(Times, x, y)
  {
    RandIntHits(2, 8, x);
    RandIntHits(2, 8, y);
    assert Choice([true, false, false], 0) == true;
  }

  lemma LevelThreeSumWitness(op: Op, x: int, y: int)
    requires op != Times && 20 <= x <= 50 && 10 <= y <= 25
    ensures LevelThree(Draws(x - 20, y - 10, 1, if op == Plus then 0 else 1)) == Arith(op, x, y)
  {
    var sign := if op == Plus then 0 else 1;
    RandIntHits(20, 50, x);
    RandIntHits(10, 25, y);
    assert Choice([true, false, false], 1) == false;
    assert Choice([true, false], sign) == (op == Plus);
  }

  lemma LevelFourProductWitness(x: int, y: int)
    requires 3 <= x <= 12 && 3 <= y <= 12
    ensures LevelFour(Draws(x - 3, y - 3, 0, 0)) == Arith(Times, x, y)
  {
    RandIntHits(3, 12, x);
    RandIntHits(3, 12, y);
    assert Choice([true, false], 0) == true;
  }

  lemma LevelFourSumWitness(op: Op, x: int, y: int)
    requires op != Times && 50 <= x <= 100 && 20 <= y <= 40
    ensures LevelFour(Draws(x - 50, y - 20, 1, if op == Plus then 0 else 1)) == Arith(op, x, y)
  {
    var sign := if op == Plus then 0 else 1;
    RandIntHits(50, 100, x);
    RandIntHits(20, 40, y);
    assert Choice([true, false], 1) == false;
    assert Choice([true, false], sign) == (op == Plus);
  }

  lemma TopLevelWitness(q: Arith, d: Draws)
    requires InTable(5, q)
    requires d == match q.op
      case Plus => Draws(q.num1 - 75, q.num2 - 25, 0, 0)
      case Minus => Draws(q.num1 - 100, q.num2 - 25, 1, 0)
      case Times => Draws(q.num1 - 5, q.num2 - 5, 2, 0)
    ensures TopLevel(d) == q
  {
    assert Choice([Plus, Minus, Times, Times], d.kind) == q.op;
    match q.op
    case Plus =>
      RandIntHits(75, 150, q.num1);
      RandIntHits(25, 75, q.num2);
    case Minus =>
      RandIntHits(100, 200, q.num1);
      RandIntHits(25, 75, q.num2);
    case Times =>
      RandIntHits(5, 15, q.num1);
      RandIntHits(5, 15, q.num2);
  }

  /** Levels outside 1 to 4 all use the level-5 branch. */
  lemma HighLevelsUseLastRow(level: int, d: Draws)
    requires level < 1 || level > 4
    ensures Operands(level, d) == Operands(5, d)
  {
  }

  /** The swap on level 1 keeps its subtraction results non-negative. */
  lemma LevelOneNeverNegative(d: Draws)
    ensures var q := Operands(1, d); Apply(q.op, q.num1, q.num2) >= 0
  {
  }

  /** Level 2 does not order the operands of a subtraction: 10 - 15 happens. */
  lemma LevelTwoSubtractionUnordered()
    ensures Operands(2, Draws(0, 10, 0, 1)) == Arith(Minus, 10, 15)
  {
  }

  /** Neither does level 3: 20 - 25 happens. */
  lemma LevelThreeSubtractionUnordered()
    ensures Operands(3, Draws(0, 15, 1, 1)) == Arith(Minus, 20, 25)
  {
  }

  /** No correct answer is below -5 (10 - 15 and 20 - 25 are the worst cases). */
  lemma CorrectAnswerAtLeastMinusFive(level: int, d: Draws)
    ensures var q := Operands(level, d); Apply(q.op, q.num1, q.num2) >= -5
  {
    var q := Operands(level, d);
    if q.op == Times {
      assert q.num1 >= 0 && q.num2 >= 0;
      assert q.num1 * q.num2 >= 0;
    }
  }

  // ---------------------------------------------------------------------
  // Distractors

  /** Half the width of the `randint` range a perturbation is drawn from. */
  function Spread(op: Op): int
  {
    if op == Times then 15 else 10
  }

  /** `random.randint(-15, 15)` for multiplication, `random.randint(-10, 10)` otherwise. */
  function Offset(op: Op, d: nat): (r: int)
    ensures -Spread(op) <= r <= Spread(op)
  {
    if op == Times then RandInt(-15, 15, d) else RandInt(-10, 10, d)
  }

  predicate Distinct(s: seq<int>)
  {
    forall i, j :: 0 <= i < j < |s| ==> s[i] != s[j]
  }

  /** A wrong answer the loop accepts: non-negative and within the spread. */
  predicate Plausible(op: Op, correct: int, w: int)
  {
    w >= 0 && correct - Spread(op) <= w <= correct + Spread(op)
  }

  /** What the list `answers` satisfies while the loop grows it. */
  predicate Partial(op: Op, correct: int, answers: seq<int>)
  {
    1 <= |answers| <= 4 && answers[0] == correct && Distinct(answers) &&
    forall k :: 1 <= k < |answers| ==> Plausible(op, correct, answers[k])
  }

  /** Rejection sampling, as a definition: keep drawing until four answers
      exist; `None` when the draws run out first. */
  function Sample(op: Op, correct: int, answers: seq<int>, draws: seq<nat>): Option<seq<int>>
    decreases |draws|
  {
    if |answers| >= 4 then Some(answers)
    else if draws == [] then None
    else
      var wrong := correct + Offset(op, draws[0]);
      if wrong !in answers && wrong >= 0 then Sample(op, correct, answers + [wrong], draws[1..])
      else Sample(op, correct, answers, draws[1..])
  }

  /** Sampling keeps what it has and ends with four well-formed answers. */
  lemma {:induction false} SampleWellFormed(op: Op, correct: int, answers: seq<int>, draws: seq<nat>)
    requires Partial(op, correct, answers)
    ensures var r := Sample(op, correct, answers, draws);
      r.Some? ==> Partial(op, correct, r.value) && |r.value| == 4 && r.value[..|answers|] == answers
    decreases |draws|
  {
    if |answers| < 4 && draws != [] {
      var wrong := correct + Offset(op, draws[0]);
      if wrong !in answers && wrong >= 0 {
        var next := answers + [wrong];
        assert Partial(op, correct, next);
        SampleWellFormed(op, correct, next, draws[1..]);
        var r := Sample(op, correct, next, draws[1..]);
        if r.Some? {
          assert r.value[..|answers|] == r.value[..|next|][..|answers|];
        }
      } else {
        SampleWellFormed(op, correct, answers, draws[1..]);
      }
    }
  }

  /** Draws that perturb the correct answer by +8, +9 and +10. */
  function UpwardDraws(op: Op): (draws: seq<nat>)
    ensures |draws| == 3
    ensures Offset(op, draws[0]) == 8 && Offset(op, draws[1]) == 9 && Offset(op, draws[2]) == 10
  {
    if op == Times then [23, 24, 25] else [18, 19, 20]
  }

  /** From a correct answer of at least -8 those draws complete the answers. */
  lemma UpwardDrawsComplete(op: Op, c: int)
    requires c >= -8
    ensures Sample(op, c, [c], UpwardDraws(op)) == Some([c, c + 8, c + 9, c + 10])
  {
    var draws := UpwardDraws(op);
    var all := [c, c + 8, c + 9, c + 10];
    assert draws[1..][0] == draws[1] && draws[1..][1..] == draws[2..];
    assert draws[2..][0] == draws[2] && draws[2..][1..] == [];
    assert Sample(op, c, all, []) == Some(all);
    assert [c, c + 8, c + 9] + [c + 10] == all;
    assert Sample(op, c, [c, c + 8, c + 9], draws[2..]) == Some(all);
    assert [c, c + 8] + [c + 9] == [c, c + 8, c + 9];
    assert Sample(op, c, [c, c + 8], draws[1..]) == Some(all);
    assert [c] + [c + 8] == [c, c + 8];
  }

  /** Sampling never gets stuck: for every question the table allows, three
      draws exist that complete the answers. */
  lemma ThreeDrawsSuffice(level: int, d: Draws)
    ensures var q := Operands(level, d); var c := Apply(q.op, q.num1, q.num2);
      exists draws :: |draws| == 3 && Sample(q.op, c, [c], draws).Some?
  {
    var q := Operands(level, d);
    var c := Apply(q.op, q.num1, q.num2);
    CorrectAnswerAtLeastMinusFive(level, d);
    UpwardDrawsComplete(q.op, c);
  }

  /** The `while len(self.answers) < 4` loop of `generate_question`. */
  method DrawAnswers(op: Op, correct: int, draws: seq<nat>) returns (answers: seq<int>, ok: bool)
    ensures ok <==> Sample(op, correct, [correct], draws).Some?
    ensures ok ==> Sample(op, correct, [correct], draws) == Some(answers)
    ensures ok ==> |answers| == 4 && answers[0] == correct && Distinct(answers)
    ensures ok ==> forall k :: 1 <= k < 4 ==> Plausible(op, correct, answers[k])
  {
    answers := [correct];
    var i := 0;
    while |answers| < 4
      invariant 0 <= i <= |draws|
      invariant Partial(op, correct, answers)
      invariant Sample(op, correct, answers, draws[i..]) == Sample(op, correct, [correct], draws)
      decreases |draws| - i
    {
      if i == |draws| {
        ok := false;
        return;
      }
      assert draws[i..][0] == draws[i] && draws[i..][1..] == draws[i + 1..];
      var wrong := correct + Offset(op, draws[i]);
      if wrong !in answers && wrong >= 0 {
        answers := answers + [wrong];
      }
      i := i + 1;
    }
    ok := true;
  }

  // ---------------------------------------------------------------------
  // Shuffle and correct index

  /** A bijection of {0, ..., n-1}: what `random.shuffle` applies. */
  predicate IsPermutation(perm: seq<nat>, n: nat)
  {
    |perm| == n &&
    (forall i :: 0 <= i < n ==> perm[i] < n) &&
    (forall i, j :: 0 <= i < j < n ==> perm[i] != perm[j]) &&
    (forall v :: 0 <= v < n ==> v in perm)
  }

  /** `random.shuffle(s)` when it moves `s[perm[i]]` to position `i`. */
  function Shuffle(s: seq<int>, perm: seq<nat>): (r: seq<int>)
    requires IsPermutation(perm, |s|)
    ensures |r| == |s|
  {
    seq(|s|, i requires 0 <= i < |s| => s[perm[i]])
  }

  /** In a sequence without repetitions every element occurs once. */
  lemma {:induction false} DistinctOccursOnce(s: seq<int>, x: int)
    requires Distinct(s)
    ensures multiset(s)[x] == if x in s then 1 else 0
  {
    if s != [] {
      var init := s[..|s| - 1];
      assert s == init + [s[|s| - 1]];
      assert Distinct(init);
      DistinctOccursOnce(init, x);
      assert s[|s| - 1] !in init;
    }
  }

  /** Shuffling only reorders: same elements, still no repetitions. */
  lemma ShufflePermutes(s: seq<int>, perm: seq<nat>)
    requires IsPermutation(perm, |s|) && Distinct(s)
    ensures Distinct(Shuffle(s, perm))
    ensures multiset(Shuffle(s, perm)) == multiset(s)
  {
    var r := Shuffle(s, perm);
    forall x ensures multiset(r)[x] == multiset(s)[x] {
      DistinctOccursOnce(s, x);
      DistinctOccursOnce(r, x);
      if x in s {
        var j :| 0 <= j < |s| && s[j] == x;
        assert j in perm;
        var i :| 0 <= i < |perm| && perm[i] == j;
        assert r[i] == x;
      }
    }
    assert multiset(r) == multiset(s);
  }

  /** `list.index(x)`: the first position holding `x`. */
  function IndexOf(s: seq<int>, x: int): (i: nat)
    requires x in s
    ensures i < |s| && s[i] == x
    ensures forall j :: 0 <= j < i ==> s[j] != x
  {
    if s[0] == x then 0 else 1 + IndexOf(s[1..], x)
  }

  // ---------------------------------------------------------------------
  // The question

  /** The state `generate_question` leaves in a `MathQuestion`. */
  datatype Question = Question(
    level: int,
    number: int,
    arith: Arith,
    correctAnswer: int,
    answers: seq<int>,
    correctIndex: int)

  /** A complete question: the arithmetic is right, the operands fit the
      level, four distinct choices with the correct one at `correctIndex`,
      every other choice non-negative and within the spread. */
  predicate WellFormed(q: Question)
  {
    InTable(q.level, q.arith) &&
    q.correctAnswer == Apply(q.arith.op, q.arith.num1, q.arith.num2) &&
    |q.answers| == 4 && Distinct(q.answers) &&
    0 <= q.correctIndex < 4 && q.answers[q.correctIndex] == q.correctAnswer &&
    forall k :: 0 <= k < 4 && k != q.correctIndex ==> Plausible(q.arith.op, q.correctAnswer, q.answers[k])
  }

  /** The whole of `generate_question` on given draws; `None` when the
      perturbation draws run out before four answers exist. */
  function Generate(level: int, number: int, d: Draws, draws: seq<nat>, perm: seq<nat>): (r: Option<Question>)
    requires IsPermutation(perm, 4)
    ensures r.Some? ==> WellFormed(r.value) && r.value.level == level && r.value.number == number
    ensures r.Some? ==> r.value.arith == Operands(level, d)
    ensures r.Some? ==> forall k :: 0 <= k < 4 ==>
      (r.value.answers[k] == r.value.correctAnswer <==> k == r.value.correctIndex)
    ensures var q := Operands(level, d); var c := Apply(q.op, q.num1, q.num2);
      r.None? <==> Sample(q.op, c, [c], draws).None?
  {
    var q := Operands(level, d);
    var c := Apply(q.op, q.num1, q.num2);
    match Sample(q.op, c, [c], draws)
    case None => None
    case Some(drawn) =>
      SampleWellFormed(q.op, c, [c], draws);
      ShufflePermutes(drawn, perm);
      var answers := Shuffle(drawn, perm);
      assert c in multiset(drawn);
      var idx := IndexOf(answers, c);
      assert forall k :: 0 <= k < 4 && k != idx ==> Plausible(q.op, c, answers[k]) by {
        forall k | 0 <= k < 4 && k != idx ensures Plausible(q.op, c, answers[k]) {
          var j := perm[k];
          assert answers[k] == drawn[j];
          assert j != 0;
        }
      }
      Some(Question(level, number, q, c, answers, idx))
  }

  /** `MathQuestion`: `__init__` stores the level and question number, then
      `generate_question` fills in the rest. */
  class MathQuestion {
    const level: int
    const questionNumber: int
    var num1: int
    var num2: int
    var operation: Op
    var correctAnswer: int
    var answers: seq<int>
    var correctIndex: int

    ghost function Value(): Question
      reads this
    {
      Question(level, questionNumber, Arith(operation, num1, num2), correctAnswer, answers, correctIndex)
    }

    ghost predicate Valid()
      reads this
    {
      WellFormed(Value())
    }

    constructor (level: int, questionNumber: int)
      ensures this.level == level && this.questionNumber == questionNumber
      ensures answers == []
    {
      this.level := level;
      this.questionNumber := questionNumber;
      num1, num2, operation, correctAnswer := 0, 0, Plus, 0;
      answers, correctIndex := [], 0;
    }

    method GenerateQuestion(d: Draws, draws: seq<nat>, perm: seq<nat>) returns (ok: bool)
      requires IsPermutation(perm, 4)
      modifies this
      ensures Arith(operation, num1, num2) == Operands(level, d)
      ensures correctAnswer == Apply(operation, num1, num2)
      ensures ok <==> Generate(level, questionNumber, d, draws, perm).Some?
      ensures ok ==> Generate(level, questionNumber, d, draws, perm) == Some(Value()) && Valid()
    {
      var q := Operands(level, d);
      num1, num2, operation := q.num1, q.num2, q.op;
      correctAnswer := Apply(operation, num1, num2);
      var drawn;
      drawn, ok := DrawAnswers(operation, correctAnswer, draws);
      answers := drawn;
      if !ok {
        return;
      }
      answers := Shuffle(answers, perm);
      ShufflePermutes(drawn, perm);
      assert correctAnswer in multiset(drawn);
      correctIndex := IndexOf(answers, correctAnswer);
    }
  }
}
