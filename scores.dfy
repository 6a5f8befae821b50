/** The leaderboard refresh: the row named "You" takes the live score, then the board is
    sorted by descending score with a stable sort (`Array.prototype.sort`), so rows with
    equal scores keep their previous relative order. */
module Scores {
  import opened Types

  const You: string := "You"

  /** The five rows the board starts with, in the order they are declared. */
  const InitialBoard: seq<ScoreEntry> := [
    ScoreEntry("Jongming", 1000),
    ScoreEntry("Kyle", 300),
    ScoreEntry("Mihir", 700),
    ScoreEntry("Yumeng", 100),
    ScoreEntry(You, 0)
  ]

  /** One row of the `map`: the user's row takes the live score, every other row is kept. */
  function Rescore(e: ScoreEntry, score: int): ScoreEntry
  {
    if e.name == You then ScoreEntry(You, score) else e
  }

  /** `leaderBoard.map(...)`: every row named "You" takes the live score. */
  function WithUserScore(board: seq<ScoreEntry>, score: int): (r: seq<ScoreEntry>)
    ensures |r| == |board|
  {
    if board == [] then [] else [Rescore(board[0], score)] + WithUserScore(board[1..], score)
  }

  /** Rows with a non-increasing score from top to bottom: each row scores at least as much
      as the row below it. */
  predicate SortedDesc(s: seq<ScoreEntry>)
  {
    |s| <= 1 || (s[0].score >= s[1].score && SortedDesc(s[1..]))
  }

  /** Adjacent order is the same as order between any two rows. */
  lemma {:induction false} SortedDescPairwise(s: seq<ScoreEntry>)
    ensures SortedDesc(s) <==> forall i, j :: 0 <= i < j < |s| ==> s[i].score >= s[j].score
  {
    if |s| > 1 {
      SortedDescPairwise(s[1..]);
      if SortedDesc(s) {
        forall i, j | 0 <= i < j < |s|
          ensures s[i].score >= s[j].score
        {
          assert s[j] == s[1..][j - 1];
          if i > 0 {
            assert s[i] == s[1..][i - 1];
          } else if j > 1 {
            assert s[1] == s[1..][0];
          }
        }
      } else if s[0].score >= s[1].score {
        var i, j :| 0 <= i < j < |s[1..]| && s[1..][i].score < s[1..][j].score;
        assert s[i + 1].score < s[j + 1].score;
      }
    }
  }

  /** Puts `e` in front of the first row whose score is at most its own. */
  function Insert(e: ScoreEntry, s: seq<ScoreEntry>): (r: seq<ScoreEntry>)
    ensures |r| == |s| + 1
    ensures r[0] == e || (s != [] && r[0] == s[0])
  {
    if s == [] || e.score >= s[0].score then [e] + s
    else [s[0]] + Insert(e, s[1..])
  }

  /** Inserting adds exactly the one row. */
  lemma {:induction false} InsertPermutes(e: ScoreEntry, s: seq<ScoreEntry>)
    ensures multiset(Insert(e, s)) == multiset(s) + multiset{e}
  {
    if s != [] && e.score < s[0].score {
      InsertPermutes(e, s[1..]);
      assert s == [s[0]] + s[1..];
    }
  }

  /** Inserting into a sorted board keeps it sorted. */
  lemma {:induction false} InsertKeepsSorted(e: ScoreEntry, s: seq<ScoreEntry>)
    requires SortedDesc(s)
    ensures SortedDesc(Insert(e, s))
  {
    if s == [] || e.score >= s[0].score {
      assert ([e] + s)[1..] == s;
    } else {
      var rest := Insert(e, s[1..]);
      InsertKeepsSorted(e, s[1..]);
      assert ([s[0]] + rest)[1..] == rest;
    }
  }

  /** The stable descending sort: insertion sort taking the rows from the last one up, so a
      row is placed above any later row of equal score. */
  function SortByScore(s: seq<ScoreEntry>): (r: seq<ScoreEntry>)
    ensures |r| == |s|
    ensures SortedDesc(r)
  {
    if s == [] then []
    else
      var sorted := SortByScore(s[1..]);
      InsertKeepsSorted(s[0], sorted);
      Insert(s[0], sorted)
  }

  /** The sort only reorders the rows. */
  lemma {:induction false} SortPermutes(s: seq<ScoreEntry>)
    ensures multiset(SortByScore(s)) == multiset(s)
  {
    if s != [] {
      SortPermutes(s[1..]);
      InsertPermutes(s[0], SortByScore(s[1..]));
      assert s == [s[0]] + s[1..];
    }
  }

  /** The board the leaderboard effect computes from the current board and the live score. */
  function RefreshedBoard(board: seq<ScoreEntry>, score: int): seq<ScoreEntry>
  {
    SortByScore(WithUserScore(board, score))
  }

  /** The rows that carry score `v`, in their order on the board. */
  function WithScore(s: seq<ScoreEntry>, v: int): seq<ScoreEntry>
  {
    if s == [] then []
    else (if s[0].score == v then [s[0]] else []) + WithScore(s[1..], v)
  }

  /** The names on the board, top to bottom. */
  function Names(s: seq<ScoreEntry>): seq<string>
  {
    if s == [] then [] else [s[0].name] + Names(s[1..])
  }

  lemma {:induction false} InsertWithScore(e: ScoreEntry, s: seq<ScoreEntry>, v: int)
    ensures WithScore(Insert(e, s), v) == (if e.score == v then [e] else []) + WithScore(s, v)
  {
    var mine: seq<ScoreEntry> := if e.score == v then [e] else [];
    if s == [] || e.score >= s[0].score {
      assert ([e] + s)[1..] == s;
    } else {
      var rest := Insert(e, s[1..]);
      var head: seq<ScoreEntry> := if s[0].score == v then [s[0]] else [];
      assert ([s[0]] + rest)[1..] == rest;
      assert WithScore(Insert(e, s), v) == head + WithScore(rest, v);
      InsertWithScore(e, s[1..], v);
      assert mine == [] || head == [];
      assert WithScore(s, v) == head + WithScore(s[1..], v);
    }
  }

  /** Stability: for every score, the rows carrying it appear in the same relative order
      before and after the sort. */
  lemma {:induction false} SortIsStable(s: seq<ScoreEntry>, v: int)
    ensures WithScore(SortByScore(s), v) == WithScore(s, v)
  {
    if s != [] {
      SortIsStable(s[1..], v);
      InsertWithScore(s[0], SortByScore(s[1..]), v);
    }
  }

  lemma {:induction false} NamesAppend(a: seq<ScoreEntry>, b: seq<ScoreEntry>)
    ensures Names(a + b) == Names(a) + Names(b)
  {
    if a != [] {
      NamesAppend(a[1..], b);
      assert (a + b)[1..] == a[1..] + b;
    } else {
      assert a + b == b;
    }
  }

  /** Inserting a row adds exactly its name to the names. */
  lemma {:induction false} InsertKeepsNames(e: ScoreEntry, s: seq<ScoreEntry>)
    ensures multiset(Names(Insert(e, s))) == multiset(Names(s)) + multiset{e.name}
  {
    if s == [] || e.score >= s[0].score {
      assert ([e] + s)[1..] == s;
    } else {
      var rest := Insert(e, s[1..]);
      assert ([s[0]] + rest)[1..] == rest;
      InsertKeepsNames(e, s[1..]);
    }
  }

  /** The sort keeps the names, each as often as before. */
  lemma {:induction false} SortKeepsNames(s: seq<ScoreEntry>)
    ensures multiset(Names(SortByScore(s))) == multiset(Names(s))
  {
    if s != [] {
      SortKeepsNames(s[1..]);
      InsertKeepsNames(s[0], SortByScore(s[1..]));
    }
  }

  lemma {:induction false} WithUserScoreKeepsNames(board: seq<ScoreEntry>, score: int)
    ensures Names(WithUserScore(board, score)) == Names(board)
  {
    if board != [] {
      WithUserScoreKeepsNames(board[1..], score);
      NamesAppend([Rescore(board[0], score)], WithUserScore(board[1..], score));
      NamesAppend([board[0]], board[1..]);
      assert board == [board[0]] + board[1..];
    }
  }

  /** The map touches only the user's rows: every other row occurs as often as before, and
      every user row carries the live score. */
  lemma {:induction false} WithUserScoreOnlyYou(board: seq<ScoreEntry>, score: int)
    ensures forall e: ScoreEntry :: e.name != You ==> multiset(WithUserScore(board, score))[e] == multiset(board)[e]
    ensures forall e :: e in WithUserScore(board, score) && e.name == You ==> e.score == score
  {
    if board != [] {
      WithUserScoreOnlyYou(board[1..], score);
      assert board == [board[0]] + board[1..];
    }
  }

  /** After the refresh every row named "You" shows the live score. */
  lemma RefreshShowsScore(board: seq<ScoreEntry>, score: int)
    ensures forall i :: 0 <= i < |RefreshedBoard(board, score)| && RefreshedBoard(board, score)[i].name == You ==>
      RefreshedBoard(board, score)[i].score == score
  {
    var updated := WithUserScore(board, score);
    var r := RefreshedBoard(board, score);
    SortPermutes(updated);
    WithUserScoreOnlyYou(board, score);
    forall i | 0 <= i < |r| && r[i].name == You
      ensures r[i].score == score
    {
      assert r[i] in multiset(updated);
    }
  }

  /** What the leaderboard effect promises: the board keeps its length and its names, every
      row other than the user's is kept, the user's row shows the live score, the board is
      sorted by descending score, and rows with equal scores keep their relative order. */
  lemma RefreshOnlyYouChanges(board: seq<ScoreEntry>, score: int)
    ensures |RefreshedBoard(board, score)| == |board|
    ensures multiset(Names(RefreshedBoard(board, score))) == multiset(Names(board))
    ensures forall e: ScoreEntry :: e.name != You ==> multiset(RefreshedBoard(board, score))[e] == multiset(board)[e]
    ensures forall i :: 0 <= i < |RefreshedBoard(board, score)| && RefreshedBoard(board, score)[i].name == You ==>
      RefreshedBoard(board, score)[i].score == score
    ensures SortedDesc(RefreshedBoard(board, score))
    ensures forall v :: WithScore(RefreshedBoard(board, score), v) == WithScore(WithUserScore(board, score), v)
  {
    var updated := WithUserScore(board, score);
    var r := RefreshedBoard(board, score);
    SortPermutes(updated);
    SortKeepsNames(updated);
    WithUserScoreKeepsNames(board, score);
    WithUserScoreOnlyYou(board, score);
    RefreshShowsScore(board, score);
    forall v
      ensures WithScore(r, v) == WithScore(updated, v)
    {
      SortIsStable(updated, v);
    }
  }

  /** A board that is already sorted is left as it is by the sort. */
  lemma {:induction false} SortKeepsSorted(s: seq<ScoreEntry>)
    requires SortedDesc(s)
    ensures SortByScore(s) == s
  {
    if s != [] {
      SortKeepsSorted(s[1..]);
      assert s == [s[0]] + s[1..];
    }
  }

  /** Row `i` of the mapped board is row `i` of the old board, rescored. */
  lemma {:induction false} WithUserScoreAt(board: seq<ScoreEntry>, score: int, i: nat)
    requires i < |board|
    ensures WithUserScore(board, score)[i] == Rescore(board[i], score)
  {
    if i > 0 {
      WithUserScoreAt(board[1..], score, i - 1);
    }
  }

  /** The board after mount: the opponents in descending order, the user last. */
  const MountedBoard: seq<ScoreEntry> := [
    ScoreEntry("Jongming", 1000), ScoreEntry("Mihir", 700), ScoreEntry("Kyle", 300),
    ScoreEntry("Yumeng", 100), ScoreEntry(You, 0)]

  lemma SortCons(e: ScoreEntry, s: seq<ScoreEntry>)
    ensures SortByScore([e] + s) == Insert(e, SortByScore(s))
  {
    assert ([e] + s)[1..] == s;
  }

  lemma InsertFront(e: ScoreEntry, s: seq<ScoreEntry>)
    requires s == [] || e.score >= s[0].score
    ensures Insert(e, s) == [e] + s
  {
  }

  lemma InsertPast(e: ScoreEntry, h: ScoreEntry, s: seq<ScoreEntry>)
    requires e.score < h.score
    ensures Insert(e, [h] + s) == [h] + Insert(e, s)
  {
    assert ([h] + s)[1..] == s;
  }

  /** Sorting five rows whose scores are in the declared board's order (the third row
      above the second, the rest in order) moves only the third row up one place. */
  lemma SortFive(j: ScoreEntry, k: ScoreEntry, m: ScoreEntry, y: ScoreEntry, u: ScoreEntry)
    requires j.score >= m.score > k.score >= y.score >= u.score
    ensures SortByScore([j, k, m, y, u]) == [j, m, k, y, u]
  {
    var yu := [y] + [u];
    assert [j, k, m, y, u] == [j] + ([k] + ([m] + yu));
    assert [j, m, k, y, u] == [j] + ([m] + ([k] + yu));
    assert SortByScore([u]) == [u] by {
      SortCons(u, []);
      InsertFront(u, []);
    }
    assert SortByScore(yu) == yu by {
      SortCons(y, [u]);
      InsertFront(y, [u]);
    }
    assert SortByScore([m] + yu) == [m] + yu by {
      SortCons(m, yu);
      InsertFront(m, yu);
    }
    assert SortByScore([k] + ([m] + yu)) == [m] + ([k] + yu) by {
      SortCons(k, [m] + yu);
      InsertPast(k, m, yu);
      InsertFront(k, yu);
    }
    SortCons(j, [k] + ([m] + yu));
    InsertFront(j, [m] + ([k] + yu));
  }

  /** The leaderboard effect that runs on mount sorts the declared board. */
  lemma MountSortsBoard()
    ensures RefreshedBoard(InitialBoard, 0) == MountedBoard
  {
    assert WithUserScore(InitialBoard, 0) == InitialBoard by {
      forall i | 0 <= i < 5 ensures WithUserScore(InitialBoard, 0)[i] == InitialBoard[i] {
        WithUserScoreAt(InitialBoard, 0, i);
      }
    }
    var j, k, m, y, u := InitialBoard[0], InitialBoard[1], InitialBoard[2], InitialBoard[3], InitialBoard[4];
    SortFive(j, k, m, y, u);
  }

  /** When the user's score rises to 100 it ties with Yumeng, and the stable sort keeps the
      user below Yumeng. */
  lemma RewardTieKeepsYouBelowYumeng()
    ensures RefreshedBoard(MountedBoard, 100) == MountedBoard[4 := ScoreEntry(You, 100)]
  {
    var raised := MountedBoard[4 := ScoreEntry(You, 100)];
    forall i | 0 <= i < 5 ensures WithUserScore(MountedBoard, 100)[i] == raised[i] {
      WithUserScoreAt(MountedBoard, 100, i);
    }
    assert WithUserScore(MountedBoard, 100) == raised;
    SortedDescPairwise(raised);
    SortKeepsSorted(raised);
  }

  /** Losing the reward again (a removal) puts the board back as it was after mount. */
  lemma PenaltyRestoresMountedBoard()
    ensures RefreshedBoard(MountedBoard[4 := ScoreEntry(You, 100)], 0) == MountedBoard
  {
    var raised := MountedBoard[4 := ScoreEntry(You, 100)];
    forall i | 0 <= i < 5 ensures WithUserScore(raised, 0)[i] == MountedBoard[i] {
      WithUserScoreAt(raised, 0, i);
    }
    assert WithUserScore(raised, 0) == MountedBoard;
    SortedDescPairwise(MountedBoard);
    SortKeepsSorted(MountedBoard);
  }
}
