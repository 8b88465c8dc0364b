/**
 * The in-memory part of the leaderboard: the all-time board kept sorted by
 * score and cut to `max_scores` entries, the session list, rank lookup and
 * the high-score test. Entries are values: Python compares the score
 * dictionaries by content, and so does `Entry`'s equality.
 */
module Leaderboard {
  import opened Seqs

  /** A score dictionary: `name`, `score`, `passengers`, `date`, `session_id`. */
  datatype Entry = Entry(name: string, score: int, passengers: int, date: string, sessionId: string)

  /** The dictionary `add_score` returns. */
  datatype Ranking = Ranking(
    entry: Entry,
    allTimeRank: int,
    sessionRank: int,
    isAllTimeHigh: bool,
    isSessionHigh: bool,
    madeAllTimeBoard: bool)

  /** Scores never increase along the list. */
  predicate SortedByScore(s: seq<Entry>) {
    forall i, j :: 0 <= i < j < |s| ==> s[i].score >= s[j].score
  }

  /** `str.upper` on one character: ASCII letters only. */
  function Upper(c: char): char {
    if 'a' <= c <= 'z' then (c as int - 32) as char else c
  }

  /** `name.upper()[:3]`: the first three characters, upper-cased. */
  function Initials(name: string): (r: string)
    ensures |r| == if |name| < 3 then |name| else 3
    ensures forall i :: 0 <= i < |r| ==> r[i] == Upper(name[i])
    ensures forall i :: 0 <= i < |r| ==> !('a' <= r[i] <= 'z')
  {
    var n := if |name| < 3 then |name| else 3;
    seq(n, i requires 0 <= i < n => Upper(name[i]))
  }

  /** How many leading entries score at least `score`: where a new entry of that score goes. */
  function InsertPos(s: seq<Entry>, score: int): (k: nat)
    ensures k <= |s|
    ensures forall i :: 0 <= i < k ==> s[i].score >= score
    ensures k < |s| ==> s[k].score < score
  {
    if s == [] || s[0].score < score then 0 else 1 + InsertPos(s[1..], score)
  }

  /** In a sorted list everything from the insertion point on scores less. */
  lemma InsertPosSplits(s: seq<Entry>, score: int)
    requires SortedByScore(s)
    ensures forall i :: InsertPos(s, score) <= i < |s| ==> s[i].score < score
  {
  }

  /** A stable descending sort's placement of one new entry: after every entry scoring at least as much. */
  function InsertByScore(s: seq<Entry>, e: Entry): seq<Entry> {
    var k := InsertPos(s, e.score);
    s[..k] + [e] + s[k..]
  }

  /** Inserting keeps the list sorted. */
  lemma InsertByScoreSorted(s: seq<Entry>, e: Entry)
    requires SortedByScore(s)
    ensures SortedByScore(InsertByScore(s, e))
  {
    var r, k := InsertByScore(s, e), InsertPos(s, e.score);
    InsertPosSplits(s, e.score);
    forall i, j | 0 <= i < j < |r| ensures r[i].score >= r[j].score {
      if j < k || k < i {
      } else if i == k {
        assert r[j] == s[j - 1];
      } else {
        assert r[i] == s[i];
      }
    }
  }

  /** When every entry scores at least `score`, the insertion point is the end. */
  lemma {:induction false} InsertPosAtEnd(s: seq<Entry>, score: int)
    requires forall i :: 0 <= i < |s| ==> s[i].score >= score
    ensures InsertPos(s, score) == |s|
    decreases |s|
  {
    if s != [] {
      InsertPosAtEnd(s[1..], score);
    }
  }

  /** An entry scoring no more than any entry of the list goes at its end. */
  lemma InsertAtEnd(s: seq<Entry>, e: Entry)
    requires forall i :: 0 <= i < |s| ==> s[i].score >= e.score
    ensures InsertByScore(s, e) == s + [e]
  {
    InsertPosAtEnd(s, e.score);
    assert s[..|s|] == s;
  }

  /** Inserting adds exactly the new entry and leaves the others in their order. */
  lemma InsertByScoreAdds(s: seq<Entry>, e: Entry)
    ensures var r, k := InsertByScore(s, e), InsertPos(s, e.score);
      && |r| == |s| + 1 && multiset(r) == multiset(s) + multiset{e}
      && r[k] == e && r[..k] + r[k + 1..] == s
  {
    var r, k := InsertByScore(s, e), InsertPos(s, e.score);
    assert r[..k] == s[..k] && r[k + 1..] == s[k..];
    assert s == s[..k] + s[k..];
  }

  /** The new entry comes after every entry it ties with and before every entry it beats. */
  lemma InsertByScoreSplitsTies(s: seq<Entry>, e: Entry)
    requires SortedByScore(s)
    ensures var r, k := InsertByScore(s, e), InsertPos(s, e.score);
      && (forall i :: 0 <= i < k ==> r[i].score >= e.score)
      && (forall i :: k < i < |r| ==> r[i].score < e.score)
  {
    var r, k := InsertByScore(s, e), InsertPos(s, e.score);
    InsertPosSplits(s, e.score);
    assert forall i :: k < i < |r| ==> r[i] == s[i - 1];
  }

  /**
   * `list.sort(key=score, reverse=True)`: Python's sort is stable, so it
   * is the insertion sort that puts each entry after all earlier entries
   * scoring at least as much.
   */
  function SortByScore(s: seq<Entry>): seq<Entry>
    decreases |s|
  {
    if s == [] then [] else InsertByScore(SortByScore(s[..|s| - 1]), s[|s| - 1])
  }

  /** Sorting sorts. */
  lemma {:induction false} SortByScoreSorts(s: seq<Entry>)
    ensures SortedByScore(SortByScore(s))
    decreases |s|
  {
    if s != [] {
      SortByScoreSorts(s[..|s| - 1]);
      InsertByScoreSorted(SortByScore(s[..|s| - 1]), s[|s| - 1]);
    }
  }

  /** Sorting keeps exactly the same entries. */
  lemma {:induction false} SortByScorePermutes(s: seq<Entry>)
    ensures multiset(SortByScore(s)) == multiset(s)
    decreases |s|
  {
    if s != [] {
      var init, last := s[..|s| - 1], s[|s| - 1];
      SortByScorePermutes(init);
      InsertByScoreAdds(SortByScore(init), last);
      assert s == init + [last];
    }
  }

  /** A list already sorted by score is left as it is. */
  lemma {:induction false} SortedIsFixed(s: seq<Entry>)
    requires SortedByScore(s)
    ensures SortByScore(s) == s
    decreases |s|
  {
    if s != [] {
      var init, last := s[..|s| - 1], s[|s| - 1];
      assert SortedByScore(init);
      SortedIsFixed(init);
      InsertAtEnd(init, last);
      assert s == init + [last];
    }
  }

  /** `append` then `sort` on a sorted list is one stable insertion. */
  lemma {:induction false} SortAfterAppend(s: seq<Entry>, e: Entry)
    requires SortedByScore(s)
    ensures SortByScore(s + [e]) == InsertByScore(s, e)
  {
    assert (s + [e])[..|s|] == s;
    SortedIsFixed(s);
  }

  /** Appending one entry to a sorted list and sorting again, then cutting it, leaves it sorted. */
  lemma AppendSortCut(s: seq<Entry>, e: Entry, n: int)
    requires SortedByScore(s)
    ensures SortByScore(s + [e]) == InsertByScore(s, e)
    ensures SortedByScore(InsertByScore(s, e)) && SortedByScore(Prefix(InsertByScore(s, e), n))
  {
    SortAfterAppend(s, e);
    InsertByScoreSorted(s, e);
  }

  /** `_get_rank`: one more than the index of the first equal entry, or -1 when there is none. */
  function Rank(s: seq<Entry>, e: Entry): (r: int)
    ensures r == -1 <==> e !in s
    ensures r != -1 ==> 1 <= r <= |s| && s[r - 1] == e && forall j :: 0 <= j < r - 1 ==> s[j] != e
  {
    if e in s then IndexOf(s, e) + 1 else -1
  }

  /** `made_all_time_board` as written: any rank up to `max_scores`, which includes -1. */
  function MadeBoardAsWritten(rank: int, maxScores: int): bool {
    rank <= maxScores
  }

  /** The evidently intended `made_all_time_board`: a real rank within the board's size. */
  function MadeBoard(rank: int, maxScores: int): bool {
    1 <= rank <= maxScores
  }

  /** The corrected flag holds exactly when the entry is on a board of at most `max_scores` entries. */
  lemma MadeBoardMeansOnBoard(board: seq<Entry>, e: Entry, maxScores: int)
    requires |board| <= maxScores
    ensures MadeBoard(Rank(board, e), maxScores) <==> e in board
  {
  }

  /**
   * The flag as written claims a place on the board for an entry the
   * truncation dropped: ten entries of 100 and a new 5 leave the 5 off the
   * board with rank -1, and -1 <= 10.
   */
  lemma MadeBoardAsWrittenMisfires()
    ensures var board := seq(10, _ => Entry("AAA", 100, 0, "", ""));
      var e := Entry("BOB", 5, 0, "", "");
      var after := Prefix(InsertByScore(board, e), 10);
      e !in after && Rank(after, e) == -1 && MadeBoardAsWritten(Rank(after, e), 10) && !MadeBoard(Rank(after, e), 10)
  {
    var board := seq(10, _ => Entry("AAA", 100, 0, "", ""));
    var e := Entry("BOB", 5, 0, "", "");
    InsertPosAtEnd(board, 5);
    assert Prefix(InsertByScore(board, e), 10) == board;
  }

  /**
   * The dictionary `add_score` builds from the two ranks, with the
   * corrected `made_all_time_board`.
   */
  function RankingOf(e: Entry, allTime: seq<Entry>, session: seq<Entry>, maxScores: int): (r: Ranking)
    ensures r.isAllTimeHigh <==> |allTime| > 0 && allTime[0] == e
    ensures r.isSessionHigh <==> |session| > 0 && session[0] == e
    ensures r.madeAllTimeBoard <==> exists i :: 0 <= i < |allTime| && i < maxScores && allTime[i] == e
  {
    var a, s := Rank(allTime, e), Rank(session, e);
    Ranking(e, a, s, a == 1, s == 1, MadeBoard(a, maxScores))
  }

  /**
   * `is_high_score`: with room on the board any score qualifies, else it
   * must beat the last entry. Python raises `IndexError` for a full board
   * with no entries, which only a `max_scores` of zero or less allows; the
   * precondition excludes that crash.
   */
  function IsHighScore(board: seq<Entry>, maxScores: int, score: int): bool
    requires |board| >= maxScores ==> |board| > 0
  {
    if |board| < maxScores then true else score > board[|board| - 1].score
  }

  /**
   * `is_high_score` predicts `add_score`: on a sorted board within its size
   * the new entry survives the cut exactly when the score is a high score.
   */
  lemma HighScoreIffKept(board: seq<Entry>, maxScores: int, e: Entry)
    requires SortedByScore(board) && |board| <= maxScores && 0 < maxScores && e !in board
    ensures e in Prefix(InsertByScore(board, e), maxScores) <==> IsHighScore(board, maxScores, e.score)
  {
    var k := InsertPos(board, e.score);
    var r := InsertByScore(board, e);
    InsertByScoreAdds(board, e);
    InsertPosSplits(board, e.score);
    assert r[k] == e;
    if k < maxScores {
      assert Prefix(r, maxScores)[k] == e;
    } else {
      assert Prefix(r, maxScores) == board[..maxScores];
    }
    if |board| == maxScores && e.score > board[|board| - 1].score {
      assert k < |board|;
    }
  }

  /** The first `n` entries of a sorted board score at least as much as every entry after them. */
  lemma TopScoresAreTheBest(board: seq<Entry>, n: int)
    requires SortedByScore(board) && 0 <= n
    ensures var top := Prefix(board, n);
      forall i, j :: 0 <= i < |top| <= j < |board| ==> top[i].score >= board[j].score
  {
  }

  /** `get_high_score` on a list: the first score, or 0 for an empty one. */
  function HighScore(s: seq<Entry>): int {
    if |s| > 0 then s[0].score else 0
  }

  /** On a sorted non-empty list the high score is some entry's score and no entry beats it. */
  lemma HighScoreIsTheMaximum(s: seq<Entry>)
    requires SortedByScore(s) && |s| > 0
    ensures exists i :: 0 <= i < |s| && s[i].score == HighScore(s)
    ensures forall i :: 0 <= i < |s| ==> s[i].score <= HighScore(s)
  {
    assert s[0].score == HighScore(s);
  }

  class LeaderboardManager {
    const maxScores: int
    var allTimeScores: seq<Entry>
    var sessionScores: seq<Entry>
    var sessionId: string

    predicate Valid()
      reads this
    {
      SortedByScore(allTimeScores) && SortedByScore(sessionScores)
    }

    /**
     * `__init__` with `load_scores`: `stored` is the `all_time` list the
     * score file held (empty when there is no file or it cannot be read),
     * and it is sorted by score as it is loaded.
     */
    constructor (maxScores: int, sessionId: string, stored: seq<Entry>)
      ensures Valid()
      ensures this.maxScores == maxScores && this.sessionId == sessionId
      ensures allTimeScores == SortByScore(stored) && multiset(allTimeScores) == multiset(stored)
      ensures sessionScores == []
    {
      this.maxScores := maxScores;
      this.sessionId := sessionId;
      SortByScoreSorts(stored);
      SortByScorePermutes(stored);
      allTimeScores := SortByScore(stored);
      sessionScores := [];
    }

    /**
     * `add_score`: the entry joins the session list and the all-time
     * board, each sorted by score with ties in arrival order, and the board
     * is cut to `max_scores`; the ranks are looked up afterwards.
     */
    method AddScore(name: string, score: int, passengers: int, date: string) returns (r: Ranking)
      requires Valid()
      modifies this`allTimeScores, this`sessionScores
      ensures Valid()
      ensures r.entry == Entry(Initials(name), score, passengers, date, sessionId)
      ensures sessionScores == InsertByScore(old(sessionScores), r.entry)
      ensures allTimeScores == Prefix(InsertByScore(old(allTimeScores), r.entry), maxScores)
      ensures 0 <= maxScores ==> |allTimeScores| <= maxScores
      ensures r == RankingOf(r.entry, allTimeScores, sessionScores, maxScores)
      ensures r.entry !in old(allTimeScores) && 0 < maxScores && |old(allTimeScores)| <= maxScores ==>
        (r.madeAllTimeBoard <==> IsHighScore(old(allTimeScores), maxScores, score))
    {
      var entry := Entry(Initials(name), score, passengers, date, sessionId);
      var session, allTime := sessionScores, allTimeScores;
      AppendSortCut(session, entry, maxScores);
      AppendSortCut(allTime, entry, maxScores);
      sessionScores := SortByScore(session + [entry]);
      allTimeScores := Prefix(SortByScore(allTime + [entry]), maxScores);
      r := RankingOf(entry, allTimeScores, sessionScores, maxScores);
      if entry !in allTime && 0 < maxScores && |allTime| <= maxScores {
        HighScoreIffKept(allTime, maxScores, entry);
      }
    }

    /** `is_high_score`. */
    function IsHighScoreNow(score: int): (r: bool)
      reads this
      requires |allTimeScores| >= maxScores ==> |allTimeScores| > 0
      ensures r == IsHighScore(allTimeScores, maxScores, score)
    {
      if |allTimeScores| < maxScores then true else score > allTimeScores[|allTimeScores| - 1].score
    }

    /**
     * `get_top_scores`: the first `n` entries of the board, which on a
     * valid manager are sorted and outscore every entry left out.
     */
    function GetTopScores(n: int): (r: seq<Entry>)
      reads this
      ensures r <= allTimeScores
      ensures 0 <= n ==> |r| == if n < |allTimeScores| then n else |allTimeScores|
      ensures Valid() ==> SortedByScore(r)
      ensures Valid() ==> forall i, j :: 0 <= i < |r| <= j < |allTimeScores| ==> r[i].score >= allTimeScores[j].score
    {
      Prefix(allTimeScores, n)
    }

    /** `get_session_scores`: the first `n` entries of the session list, the session's best. */
    function GetSessionScores(n: int): (r: seq<Entry>)
      reads this
      ensures r <= sessionScores
      ensures 0 <= n ==> |r| == if n < |sessionScores| then n else |sessionScores|
      ensures Valid() ==> SortedByScore(r)
      ensures Valid() ==> forall i, j :: 0 <= i < |r| <= j < |sessionScores| ==> r[i].score >= sessionScores[j].score
    {
      Prefix(sessionScores, n)
    }

    /** `clear_session`: an empty session list under a new session id. */
    method ClearSession(newSessionId: string)
      requires Valid()
      modifies this`sessionScores, this`sessionId
      ensures Valid() && sessionScores == [] && sessionId == newSessionId
    {
      sessionScores := [];
      sessionId := newSessionId;
    }

    /** `get_high_score`: 0 for an empty board, otherwise the best score on it. */
    function GetHighScore(): (r: int)
      reads this
      ensures |allTimeScores| == 0 ==> r == 0
      ensures |allTimeScores| > 0 ==> exists i :: 0 <= i < |allTimeScores| && allTimeScores[i].score == r
      ensures Valid() ==> forall i :: 0 <= i < |allTimeScores| ==> allTimeScores[i].score <= r
    {
      HighScore(allTimeScores)
    }

    /** `get_session_high_score`: 0 for an empty session, otherwise its best score. */
    function GetSessionHighScore(): (r: int)
      reads this
      ensures |sessionScores| == 0 ==> r == 0
      ensures |sessionScores| > 0 ==> exists i :: 0 <= i < |sessionScores| && sessionScores[i].score == r
      ensures Valid() ==> forall i :: 0 <= i < |sessionScores| ==> sessionScores[i].score <= r
    {
      HighScore(sessionScores)
    }
  }
}
