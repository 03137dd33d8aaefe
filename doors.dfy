/**
 What the two games share about their doors: the `opened` flags of the five
 doors of a layout, how many are open, the verdict on the question of the
 door last touched, and which answer a key or a click chooses.
 */
module Doors {
  import opened Wrappers
  import opened Input

  /** Both games lay out five doors. */
  const DoorCount := 5

  /** `question_result`: `None`, `"correct"` or `"incorrect"`. */
  datatype Verdict = Unanswered | Correct | Incorrect

  /** `sum(1 for door in self.doors if door.opened)`. */
  function OpenedCount(doors: seq<bool>): (n: nat)
    ensures n <= |doors|
  {
    if doors == [] then 0
    else OpenedCount(doors[..|doors| - 1]) + if doors[|doors| - 1] then 1 else 0
  }

  /** Opening a closed door adds one to the count. */
  lemma {:induction false} OpenedCountOpen(doors: seq<bool>, i: int)
    requires 0 <= i < |doors| && !doors[i]
    ensures OpenedCount(doors[i := true]) == OpenedCount(doors) + 1
    decreases |doors|
  {
    var last := |doors| - 1;
    if i < last {
      assert doors[i := true][..last] == doors[..last][i := true];
      OpenedCountOpen(doors[..last], i);
    } else {
      assert doors[i := true][..last] == doors[..last];
    }
  }

  /** The count reaches the number of doors only when every door is open. */
  lemma {:induction false} OpenedCountFull(doors: seq<bool>)
    ensures OpenedCount(doors) == |doors| <==> forall i :: 0 <= i < |doors| ==> doors[i]
    decreases |doors|
  {
    if doors != [] {
      var init := doors[..|doors| - 1];
      OpenedCountFull(init);
      assert forall i :: 0 <= i < |init| ==> init[i] == doors[i];
    }
  }

  /** Nothing opened, nothing counted. */
  lemma {:induction false} OpenedCountClosed(n: nat)
    ensures OpenedCount(seq(n, _ => false)) == 0
  {
    if n > 0 {
      assert seq(n, _ => false)[..n - 1] == seq(n - 1, _ => false);
      OpenedCountClosed(n - 1);
    }
  }

  /** The doors a new layout builds: five unopened doors, numbered 1 to 5. */
  function ClosedDoors(): (doors: seq<bool>)
    ensures |doors| == DoorCount && OpenedCount(doors) == 0
    ensures forall i :: 0 <= i < |doors| ==> !doors[i]
  {
    OpenedCountClosed(DoorCount);
    seq(DoorCount, _ => false)
  }

  /** The answer an event chooses: keys 1 to 4 pick answers 0 to 3, and so
      does a click on one of the four buttons. */
  function SelectedAnswer(ev: Event): (k: Option<int>)
    ensures k.Some? ==> 0 <= k.value < 4
    ensures k.Some? <==> (ev.KeyDown? && ev.key.Digit? && 1 <= ev.key.n <= 4) || (ev.Click? && 0 <= ev.button < 4)
    ensures ev.KeyDown? && ev.key.Digit? && 1 <= ev.key.n <= 4 ==> k == Some(ev.key.n - 1)
    ensures ev.Click? && 0 <= ev.button < 4 ==> k == Some(ev.button)
  {
    match ev
    case KeyDown(Digit(n), _) => if 1 <= n <= 4 then Some(n - 1) else None
    case Click(b) => if 0 <= b < 4 then Some(b) else None
    case _ => None
  }

  /** What touching a door did: nothing (the guard failed), raised a
      question, or ran out of perturbation draws before it had four answers. */
  datatype TouchOutcome = Ignored | Raised | Exhausted

}
