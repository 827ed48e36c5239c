/** The tables of high scores, and the report on where a new score ranks. */
module HighScores {
  import opened Definitions

  /** The time is when the game ended; scores are kept by player name. */
  datatype HighScore = HighScore(time: int, total: int, playerScores: map<string, int>)

  /** Tables are kept apart by number of players and by settings. */
  datatype GameType = GameType(players: nat, settings: GameSettings)

  datatype Ranked = Ranked(rank: nat, score: HighScore)

  /** All ranks up to this one are reported. */
  const TOP: nat := 10

  /** A lower total is worse, and of equal totals the later one. */
  predicate Below(l: HighScore, r: HighScore) {
    l.total < r.total || (l.total == r.total && l.time > r.time)
  }

  predicate Equivalent(l: HighScore, r: HighScore) {
    !Below(l, r) && !Below(r, l)
  }

  /** An ordered set: worst first, and no two equivalent entries. */
  predicate Ascending(table: seq<HighScore>) {
    forall i, j :: 0 <= i < j < |table| ==> Below(table[i], table[j])
  }

  /** How many entries of a table are strictly better. */
  function CountBetter(table: seq<HighScore>, x: HighScore): nat {
    if table == [] then 0 else (if Below(x, table[0]) then 1 else 0) + CountBetter(table[1..], x)
  }

  /** How many entries at the front of a table are strictly worse. */
  function CountWorse(table: seq<HighScore>, x: HighScore): (k: nat)
    ensures k <= |table|
    ensures forall i :: 0 <= i < k ==> Below(table[i], x)
    ensures k < |table| ==> !Below(table[k], x)
  {
    if table == [] || !Below(table[0], x) then 0 else 1 + CountWorse(table[1..], x)
  }

  predicate Known(table: seq<HighScore>, x: HighScore) {
    var k := CountWorse(table, x);
    k < |table| && !Below(x, table[k])
  }

  /** The set with an element added. An equivalent element that is already there stays. */
  function Inserted(table: seq<HighScore>, x: HighScore): seq<HighScore> {
    var k := CountWorse(table, x);
    if Known(table, x) then table else table[..k] + [x] + table[k..]
  }

  lemma {:induction false} InsertedIsAscending(table: seq<HighScore>, x: HighScore)
    requires Ascending(table)
    ensures Ascending(Inserted(table, x))
  {
    hide CountWorse;
    var k, t := CountWorse(table, x), Inserted(table, x);
    forall i | k <= i < |table|
      ensures Known(table, x) || Below(x, table[i])
    {
      assert i > k ==> Below(table[k], table[i]);
    }
    forall i, j | 0 <= i < j < |t|
      ensures Below(t[i], t[j])
    {
      var a, b := if i <= k then i else i - 1, if j <= k then j else j - 1;
      assert !Known(table, x) ==>
        t[i] == (if i == k then x else table[a]) && t[j] == (if j == k then x else table[b]);
    }
  }

  /** The new entry, or the one that was there already, stands above the worse ones. */
  lemma {:induction false} InsertedStands(table: seq<HighScore>, x: HighScore)
    requires Ascending(table)
    ensures
      var t, k := Inserted(table, x), CountWorse(table, x);
      && k < |t|
      && (forall i :: 0 <= i < |t| ==> (Equivalent(t[i], x) <==> i == k))
      && t[k] == (if Known(table, x) then table[k] else x)
      && multiset(t) == multiset(table) + if Known(table, x) then multiset{} else multiset{x}
  {
    hide CountWorse, Ascending;
    InsertedIsAscending(table, x);
    var t, k := Inserted(table, x), CountWorse(table, x);
    assert Equivalent(t[k], x);
    forall i | 0 <= i < |t|
      ensures Equivalent(t[i], x) <==> i == k
    {
      OnlyOneEquivalent(t, i, k, x);
    }
    assert table == table[..k] + table[k..];
  }

  lemma {:induction false} OnlyOneEquivalent(table: seq<HighScore>, i: nat, k: nat, x: HighScore)
    requires Ascending(table) && i < |table| && k < |table| && Equivalent(table[k], x)
    ensures Equivalent(table[i], x) <==> i == k
  {
  }

  lemma {:induction false} BetterAreAbove(table: seq<HighScore>, i: nat)
    requires Ascending(table) && i < |table|
    ensures CountBetter(table, table[i]) == |table| - 1 - i
  {
    if i == 0 {
      AllBetter(table[1..], table[0]);
    } else {
      BetterAreAbove(table[1..], i - 1);
    }
  }

  lemma {:induction false} AllBetter(table: seq<HighScore>, x: HighScore)
    requires forall i :: 0 <= i < |table| ==> Below(x, table[i])
    ensures CountBetter(table, x) == |table|
  {
    if table != [] {
      AllBetter(table[1..], x);
    }
  }

  // ---------------------------------------------------------------- the report

  /** The entries among the n best ones that are reported: the top ranks and the one at a place. */
  function Listed(table: seq<HighScore>, place: nat, n: nat): seq<Ranked>
    requires n <= |table|
  {
    if n == 0 then []
    else
      var i := |table| - n;
      Listed(table, place, n - 1) + if n <= TOP || i == place then [Ranked(n, table[i])] else []
  }

  lemma {:induction false} NothingMoreListed(table: seq<HighScore>, place: nat, m: nat, n: nat)
    requires TOP <= m <= n <= |table| && |table| - m <= place
    ensures Listed(table, place, n) == Listed(table, place, m)
    decreases n
  {
    if m < n {
      NothingMoreListed(table, place, m, n - 1);
    }
  }

  /** An entry is reported exactly if it is among the top ranks or stands at the place. */
  lemma {:induction false} WhatIsListed(table: seq<HighScore>, place: nat, n: nat, entry: Ranked)
    requires n <= |table|
    ensures entry in Listed(table, place, n) <==>
      && 1 <= entry.rank <= n && entry.score == table[|table| - entry.rank]
      && (entry.rank <= TOP || |table| - entry.rank == place)
  {
    if n > 0 {
      WhatIsListed(table, place, n - 1, entry);
    }
  }

  /** Ranks increase, up to n. */
  predicate InOrder(report: seq<Ranked>, n: nat) {
    && (forall k :: 0 <= k < |report| ==> report[k].rank <= n)
    && (forall k, l :: 0 <= k < l < |report| ==> report[k].rank < report[l].rank)
  }

  lemma {:induction false} ListedInOrder(table: seq<HighScore>, place: nat, n: nat)
    requires n <= |table|
    ensures InOrder(Listed(table, place, n), n)
  {
    if n > 0 {
      ListedInOrder(table, place, n - 1);
      StaysInOrder(Listed(table, place, n - 1), n, table[|table| - n]);
    }
  }

  lemma {:induction false} StaysInOrder(report: seq<Ranked>, n: nat, e: HighScore)
    requires n > 0 && InOrder(report, n - 1)
    ensures InOrder(report, n) && InOrder(report + [Ranked(n, e)], n) && InOrder(report + [], n)
  {
  }

  lemma {:induction false} AtMostOneMore(table: seq<HighScore>, place: nat, n: nat)
    requires n <= |table|
    ensures |Listed(table, place, n)|
         == (if n <= TOP then n else TOP) + if TOP < |table| - place <= n then 1 else 0
  {
    if n > 0 {
      AtMostOneMore(table, place, n - 1);
    }
  }

  // ---------------------------------------------------------------- all tables

  type Tables = map<GameType, seq<HighScore>>

  function TableOf(tables: Tables, t: GameType): seq<HighScore> {
    if t in tables then tables[t] else []
  }

  ghost predicate Ordered(tables: Tables) {
    forall t :: t in tables ==> Ascending(tables[t])
  }

  function TypeOf(settings: GameSettings, score: HighScore): GameType {
    GameType(|score.playerScores|, settings)
  }

  /** The tables with a new score. */
  function WithScore(tables: Tables, settings: GameSettings, score: HighScore): Tables {
    var t := TypeOf(settings, score);
    tables[t := Inserted(TableOf(tables, t), score)]
  }

  /** The report on a new score. */
  function ReportOn(tables: Tables, settings: GameSettings, score: HighScore): seq<Ranked> {
    var table := TableOf(tables, TypeOf(settings, score));
    Listed(Inserted(table, score), CountWorse(table, score), |Inserted(table, score)|)
  }

  lemma {:induction false} StillOrdered(tables: Tables, settings: GameSettings, score: HighScore)
    requires Ordered(tables)
    ensures Ordered(WithScore(tables, settings, score))
  {
    hide Inserted, Ascending;
    EmptyIsAscending();
    InsertedIsAscending(TableOf(tables, TypeOf(settings, score)), score);
  }

  class HighScoreManager {
    var scores: Tables

    ghost predicate Valid()
      reads this
    {
      Ordered(scores)
    }

    constructor ()
      ensures Valid() && scores == map[]
    {
      scores := map[];
    }

    /** Add a score to the table of its type and report the top ranks and the score's own. The scan goes
        from the best entry downwards and stops once nothing more can be reported. */
    method Insert(settings: GameSettings, score: HighScore) returns (report: seq<Ranked>)
      requires Valid()
      modifies this
      ensures Valid()
      ensures scores == WithScore(old(scores), settings, score)
      ensures report == ReportOn(old(scores), settings, score)
    {
      hide Listed, CountWorse, Inserted, Ascending;
      StillOrdered(scores, settings, score);
      var gameType := TypeOf(settings, score);
      var scoreSet := TableOf(scores, gameType);
      var inserted := CountWorse(scoreSet, score);
      EmptyIsAscending();
      InsertedStands(scoreSet, score);
      scoreSet := Inserted(scoreSet, score);
      scores := scores[gameType := scoreSet];

      report := [];
      var rank := 1;
      var gotNew := false;
      var s := |scoreSet|;
      NothingListed(scoreSet, inserted);
      while s > 0
        invariant 0 <= s <= |scoreSet| && rank == |scoreSet| - s + 1
        invariant report == Listed(scoreSet, inserted, rank - 1)
        invariant gotNew <==> inserted >= s
        invariant scores == WithScore(old(scores), settings, score)
      {
        s := s - 1;
        OneMoreListed(scoreSet, inserted, rank);
        if rank <= TOP || s == inserted {
          report := report + [Ranked(rank, scoreSet[s])];
          if s == inserted {
            gotNew := true;
          }
        }
        if rank > TOP && gotNew {
          NothingMoreListed(scoreSet, inserted, rank, |scoreSet|);
          break;
        }
        rank := rank + 1;
      }
    }
  }

  lemma {:induction false} EmptyIsAscending()
    ensures Ascending([])
  {
  }

  lemma {:induction false} NothingListed(table: seq<HighScore>, place: nat)
    ensures Listed(table, place, 0) == []
  {
  }

  lemma {:induction false} OneMoreListed(table: seq<HighScore>, place: nat, n: nat)
    requires 0 < n <= |table|
    ensures Listed(table, place, n)
         == Listed(table, place, n - 1)
            + if n <= TOP || |table| - n == place then [Ranked(n, table[|table| - n])] else []
  {
  }

  lemma {:induction false} ReportedRank(table: seq<HighScore>, place: nat, k: nat)
    requires Ascending(table) && k < |Listed(table, place, |table|)|
    ensures
      var entry := Listed(table, place, |table|)[k];
      entry.score in table && entry.rank == 1 + CountBetter(table, entry.score)
  {
    hide Listed, Ascending, CountBetter;
    var entry := Listed(table, place, |table|)[k];
    WhatIsListed(table, place, |table|, entry);
    BetterAreAbove(table, |table| - entry.rank);
  }

  lemma {:induction false} ReportedEntry(table: seq<HighScore>, place: nat, e: HighScore)
    requires Ascending(table) && place < |table| && e in table
    ensures Ranked(1 + CountBetter(table, e), e) in Listed(table, place, |table|) <==>
      CountBetter(table, e) < TOP || e == table[place]
  {
    hide Listed, CountBetter;
    var i :| 0 <= i < |table| && table[i] == e;
    BetterAreAbove(table, i);
    WhatIsListed(table, place, |table|, Ranked(|table| - i, e));
  }

  lemma {:induction false} ListingMeaning(before: seq<HighScore>, score: HighScore)
    requires Ascending(before)
    ensures
      var table := Inserted(before, score);
      var report := Listed(table, CountWorse(before, score), |table|);
      && |report| <= TOP + 1
      && InOrder(report, |table|)
      && (forall k :: 0 <= k < |report| ==>
            report[k].score in table && report[k].rank == 1 + CountBetter(table, report[k].score))
      && (forall e :: e in table ==>
            (Ranked(1 + CountBetter(table, e), e) in report <==>
              CountBetter(table, e) < TOP || Equivalent(e, score)))
      && (exists e :: e in table && Equivalent(e, score))
  {
    hide Listed, CountWorse, Inserted, Ascending, CountBetter, Equivalent, Known, InOrder;
    InsertedIsAscending(before, score);
    InsertedStands(before, score);
    var table, place := Inserted(before, score), CountWorse(before, score);
    ListedInOrder(table, place, |table|);
    AtMostOneMore(table, place, |table|);
    forall k | 0 <= k < |Listed(table, place, |table|)| {
      ReportedRank(table, place, k);
    }
    forall e | e in table
      ensures Ranked(1 + CountBetter(table, e), e) in Listed(table, place, |table|) <==>
        CountBetter(table, e) < TOP || Equivalent(e, score)
    {
      ReportedEntry(table, place, e);
    }
    assert table[place] in table;
  }

  /** What a report means: it holds an entry exactly if the entry is among the ten best or is the new
      one, or the one equivalent to it that was there before; each with one more than the number of
      strictly better entries as its rank; best first, and at most eleven of them. The tables of all other
      types of game stay as they were. */
  lemma {:induction false} ReportMeaning(tables: Tables, settings: GameSettings, score: HighScore)
    requires Ordered(tables)
    ensures
      var t := TypeOf(settings, score);
      var table := TableOf(WithScore(tables, settings, score), t);
      var report := ReportOn(tables, settings, score);
      && |report| <= TOP + 1
      && InOrder(report, |table|)
      && (forall k :: 0 <= k < |report| ==>
            report[k].score in table && report[k].rank == 1 + CountBetter(table, report[k].score))
      && (forall e :: e in table ==>
            (Ranked(1 + CountBetter(table, e), e) in report <==>
              CountBetter(table, e) < TOP || Equivalent(e, score)))
      && (exists e :: e in table && Equivalent(e, score))
      && (forall u :: u != t ==> TableOf(WithScore(tables, settings, score), u) == TableOf(tables, u))
  {
    hide Listed, CountWorse, Inserted, Ascending, CountBetter, Equivalent, InOrder;
    EmptyIsAscending();
    ListingMeaning(TableOf(tables, TypeOf(settings, score)), score);
  }

  // ---------------------------------------------------------------- totals and times

  /** A higher total, or the same total at an earlier time. */
  predicate Better(a: HighScore, b: HighScore) {
    a.total > b.total || (a.total == b.total && a.time < b.time)
  }

  /** The entries of a table that are better than one. */
  function BetterOnes(table: seq<HighScore>, x: HighScore): set<HighScore> {
    set i | 0 <= i < |table| && Better(table[i], x) :: table[i]
  }

  lemma {:induction false} CountedOnes(table: seq<HighScore>, x: HighScore)
    requires Ascending(table)
    ensures CountBetter(table, x) == |BetterOnes(table, x)|
  {
    if table != [] {
      var rest := table[1..];
      CountedOnes(rest, x);
      assert table == [table[0]] + rest;
      assert table[0] !in rest;
      assert BetterOnes(table, x) == BetterOnes(rest, x) + if Better(table[0], x) then {table[0]} else {};
    }
  }

  lemma {:induction false} ReportIsSorted(table: seq<HighScore>, place: nat, k: nat, m: nat)
    requires Ascending(table) && k < m < |Listed(table, place, |table|)|
    ensures Better(Listed(table, place, |table|)[k].score, Listed(table, place, |table|)[m].score)
  {
    hide Listed, Ascending;
    var report := Listed(table, place, |table|);
    ListedInOrder(table, place, |table|);
    WhatIsListed(table, place, |table|, report[k]);
    WhatIsListed(table, place, |table|, report[m]);
    HigherUpIsBetter(table, |table| - report[m].rank, |table| - report[k].rank);
  }

  lemma {:induction false} HigherUpIsBetter(table: seq<HighScore>, i: nat, j: nat)
    requires Ascending(table) && i < j < |table|
    ensures Better(table[j], table[i])
  {
  }

  lemma {:induction false} FirstIsReported(table: seq<HighScore>, place: nat)
    requires table != []
    ensures Ranked(1, table[|table| - 1]) in Listed(table, place, |table|)
  {
    WhatIsListed(table, place, |table|, Ranked(1, table[|table| - 1]));
  }

  /** A report in totals and times alone. Each entry is better than the next one. The rank of an entry is one
      more than the number of better entries in the table. What is reported is exactly what fewer than ten
      entries are better than, and the entry with the total and time of the new score, which is there. The
      first entry has rank 1, and no entry of the table has a greater total. */
  lemma {:induction false} ReportByTotalsAndTimes(tables: Tables, settings: GameSettings, score: HighScore)
    requires Ordered(tables)
    ensures
      var table := TableOf(WithScore(tables, settings, score), TypeOf(settings, score));
      var report := ReportOn(tables, settings, score);
      && (forall k, m :: 0 <= k < m < |report| ==> Better(report[k].score, report[m].score))
      && (forall k :: 0 <= k < |report| ==>
            report[k].score in table && report[k].rank == 1 + |BetterOnes(table, report[k].score)|)
      && (forall e :: e in table ==>
            (Ranked(1 + |BetterOnes(table, e)|, e) in report <==>
              |BetterOnes(table, e)| < 10 || (e.total == score.total && e.time == score.time)))
      && (exists e :: e in table && e.total == score.total && e.time == score.time)
      && 1 <= |report| <= 11 && report[0].rank == 1
      && forall e :: e in table ==> e.total <= report[0].score.total
  {
    var before := TableOf(tables, TypeOf(settings, score));
    assert Ascending(before) by { EmptyIsAscending(); }
    var table, place := Inserted(before, score), CountWorse(before, score);
    hide Listed, CountWorse, Inserted, Ascending, CountBetter, InOrder, BetterOnes;
    InsertedIsAscending(before, score);
    ListingMeaning(before, score);
    var report := Listed(table, place, |table|);
    hide Below, Equivalent, Better;
    forall e: HighScore
      ensures CountBetter(table, e) == |BetterOnes(table, e)|
      ensures Equivalent(e, score) <==> e.total == score.total && e.time == score.time
    {
      CountedOnes(table, e);
      EquivalentMeans(e, score);
    }
    forall k, m | 0 <= k < m < |report|
      ensures Better(report[k].score, report[m].score)
    {
      ReportIsSorted(table, place, k, m);
    }
    BestComesFirst(table, place);
  }

  lemma {:induction false} EquivalentMeans(a: HighScore, b: HighScore)
    ensures Equivalent(a, b) <==> a.total == b.total && a.time == b.time
  {
  }

  lemma {:induction false} BestComesFirst(table: seq<HighScore>, place: nat)
    requires Ascending(table) && table != []
    ensures
      var report := Listed(table, place, |table|);
      report != [] && report[0].rank == 1 && forall e :: e in table ==> e.total <= report[0].score.total
  {
    hide Listed;
    var report := Listed(table, place, |table|);
    FirstIsReported(table, place);
    ListedInOrder(table, place, |table|);
    var k :| 0 <= k < |report| && report[k] == Ranked(1, table[|table| - 1]);
    WhatIsListed(table, place, |table|, report[0]);
  }
}
