/**
 The leaderboard, `Leaderboard.add_score` and `get_top_scores` (the same code
 in both game variants). The JSON file behind it is not modelled: the
 scores live in memory, and the date stamp of an entry is an opaque string.
 */
module Scores {

  datatype Entry = Entry(name: string, score: int, level: int, date: string)

  /** The most entries the leaderboard keeps. */
  const MaxEntries := 10

  /** The sort key `(score, level)` of `a` is at least that of `b`, compared
      as Python compares tuples. */
  predicate RanksAtLeast(a: Entry, b: Entry)
  {
    a.score > b.score || (a.score == b.score && a.level >= b.level)
  }

  /** Non-increasing by `(score, level)`. */
  predicate Descending(s: seq<Entry>)
  {
    forall i, j :: 0 <= i < j < |s| ==> RanksAtLeast(s[i], s[j])
  }

  /** Inserts `e` behind every entry that ranks at least as high. */
  function Insert(sorted: seq<Entry>, e: Entry): seq<Entry>
  {
    if sorted == [] then [e]
    else if RanksAtLeast(sorted[0], e) then [sorted[0]] + Insert(sorted[1..], e)
    else [e] + sorted
  }

  /** Insertion adds exactly the one entry. */
  lemma {:induction false} InsertAddsEntry(sorted: seq<Entry>, e: Entry)
    ensures multiset(Insert(sorted, e)) == multiset(sorted) + multiset{e}
    ensures |Insert(sorted, e)| == |sorted| + 1
  {
    if sorted != [] && RanksAtLeast(sorted[0], e) {
      InsertAddsEntry(sorted[1..], e);
      assert sorted == [sorted[0]] + sorted[1..];
    }
  }

  /** Inserting into a descending list keeps it descending. */
  lemma {:induction false} InsertDescending(sorted: seq<Entry>, e: Entry)
    requires Descending(sorted)
    ensures Descending(Insert(sorted, e))
  {
    if sorted != [] && RanksAtLeast(sorted[0], e) {
      var rest := Insert(sorted[1..], e);
      InsertDescending(sorted[1..], e);
      InsertAddsEntry(sorted[1..], e);
      var r := [sorted[0]] + rest;
      assert r == Insert(sorted, e);
      forall j | 1 <= j < |r| ensures RanksAtLeast(r[0], r[j]) {
        assert r[j] in multiset(rest);
        assert r[j] in multiset(sorted[1..]) || r[j] == e;
      }
    }
  }

  /** `list.sort(key=lambda x: (x['score'], x['level']), reverse=True)`,
      built by inserting the entries one at a time from the front. */
  function SortDescending(s: seq<Entry>): seq<Entry>
  {
    if s == [] then [] else Insert(SortDescending(s[..|s| - 1]), s[|s| - 1])
  }

  /** Sorting permutes the entries into descending order of their key. */
  lemma {:induction false} SortDescendingSorts(s: seq<Entry>)
    ensures multiset(SortDescending(s)) == multiset(s)
    ensures |SortDescending(s)| == |s|
    ensures Descending(SortDescending(s))
  {
    if s != [] {
      var init := s[..|s| - 1];
      SortDescendingSorts(init);
      InsertAddsEntry(SortDescending(init), s[|s| - 1]);
      InsertDescending(SortDescending(init), s[|s| - 1]);
      assert s == init + [s[|s| - 1]];
    }
  }

  /** Python's slice `s[:k]`; a negative `k` counts from the end. */
  function Prefix<T>(s: seq<T>, k: int): (r: seq<T>)
    ensures |r| <= |s| && r == s[..|r|]
    ensures 0 <= k ==> |r| == if k < |s| then k else |s|
    ensures k < 0 ==> |r| == if |s| + k > 0 then |s| + k else 0
  {
    if k >= 0 then
      if k < |s| then s[..k] else s
    else if |s| + k > 0 then s[..|s| + k]
    else []
  }

  /** The list `add_score` leaves: the new entry appended, sorted, cut to ten. */
  function AddedScores(scores: seq<Entry>, e: Entry): seq<Entry>
  {
    Prefix(SortDescending(scores + [e]), MaxEntries)
  }

  /** The board stays in descending order, holds at most ten entries, and
      only ever holds entries it had or was given. */
  lemma AddedScoresSorted(scores: seq<Entry>, e: Entry)
    ensures Descending(AddedScores(scores, e))
    ensures |AddedScores(scores, e)| == if |scores| + 1 < MaxEntries then |scores| + 1 else MaxEntries
    ensures multiset(AddedScores(scores, e)) <= multiset(scores) + multiset{e}
  {
    var sorted := SortDescending(scores + [e]);
    SortDescendingSorts(scores + [e]);
    var r := AddedScores(scores, e);
    assert sorted == r + sorted[|r|..];
    assert multiset(scores + [e]) == multiset(scores) + multiset{e};
  }

  /** Nothing `add_score` drops ranks above anything it keeps, and when
      fewer than ten entries result nothing is dropped. */
  lemma AddedScoresKeepsBest(scores: seq<Entry>, e: Entry)
    ensures var r := AddedScores(scores, e);
      forall x, y :: x in multiset(scores) + multiset{e} - multiset(r) && y in r ==> RanksAtLeast(y, x)
    ensures |scores| < MaxEntries ==> multiset(AddedScores(scores, e)) == multiset(scores) + multiset{e}
  {
    var sorted := SortDescending(scores + [e]);
    SortDescendingSorts(scores + [e]);
    var r := AddedScores(scores, e);
    var dropped := sorted[|r|..];
    assert sorted == r + dropped;
    assert multiset(scores + [e]) == multiset(scores) + multiset{e};
    assert multiset(sorted) == multiset(r) + multiset(dropped);
    forall x, y | x in multiset(scores) + multiset{e} - multiset(r) && y in r
      ensures RanksAtLeast(y, x)
    {
      assert x in multiset(dropped);
      var j :| 0 <= j < |dropped| && dropped[j] == x;
      var i :| 0 <= i < |r| && r[i] == y;
      assert sorted[i] == y && sorted[|r| + j] == x;
    }
  }

  /** `Leaderboard`, its file I/O left out. */
  class Leaderboard {
    var scores: seq<Entry>

    /** `load_scores` is not modelled: the board starts from what it read. */
    constructor (loaded: seq<Entry>)
      ensures scores == loaded
    {
      scores := loaded;
    }

    method AddScore(name: string, score: int, level: int, date: string)
      modifies this
      ensures scores == AddedScores(old(scores), Entry(name, score, level, date))
    {
      scores := scores + [Entry(name, score, level, date)];
      scores := SortDescending(scores);
      scores := Prefix(scores, MaxEntries);
    }

    /** The first `limit` entries (Python slice semantics). */
    function GetTopScores(limit: int): (r: seq<Entry>)
      reads this
      ensures |r| <= |scores| && r == scores[..|r|]
      ensures 0 <= limit ==> |r| == if limit < |scores| then limit else |scores|
    {
      Prefix(scores, limit)
    }
  }
}
