/** The end-of-episode bookkeeping of Environment.run (src/main.py): the score
    history, its rolling average, the best-average watermark that decides when
    the policy is saved, and the periodic flush of the history. */
module Bookkeeping {

  /** The rolling average covers at most this many of the latest scores. */
  const WINDOW: nat := 50

  /** The score history is written out and emptied after every episode whose
      index is a multiple of this. */
  const FLUSH_EVERY: nat := 100

  /** The episode budget, EPISODES, also written into every save record. */
  const EPISODES: int := 20000

  /** The watermark Environment.run starts from. */
  const INITIAL_BEST: real := 84403.71148195057

  /** The save index Environment.run starts from (save_net_indicator). */
  const FIRST_SAVE_INDEX: int := 1

  /** s[0] + ... + s[n - 1]. */
  function SumFirst(s: seq<real>, n: nat): real
    requires n <= |s|
  {
    if n == 0 then 0.0 else SumFirst(s, n - 1) + s[n - 1]
  }

  function Sum(s: seq<real>): real {
    SumFirst(s, |s|)
  }

  /** numpy.mean of a non-empty list. */
  function Mean(s: seq<real>): real
    requires |s| > 0
  {
    Sum(s) / (|s| as real)
  }

  /** Python's s[-n:] for n > 0: the last n entries, or all of s if it is shorter. */
  function LastN(s: seq<real>, n: nat): (r: seq<real>)
    ensures |r| == if |s| <= n then |s| else n
    ensures forall i :: 0 <= i < |r| ==> r[i] == s[|s| - |r| + i]
  {
    if |s| <= n then s else s[|s| - n..]
  }

  /** np.mean(record_scores[-50:]). */
  function RollingAverage(history: seq<real>): (r: real)
    requires |history| > 0
    ensures |history| <= WINDOW ==> r == Mean(history)
  {
    Mean(LastN(history, WINDOW))
  }

  lemma {:induction false} SumFirstBounds(s: seq<real>, n: nat, lo: real, hi: real)
    requires n <= |s|
    requires forall i :: 0 <= i < |s| ==> lo <= s[i] <= hi
    ensures (n as real) * lo <= SumFirst(s, n) <= (n as real) * hi
  {
    if n > 0 {
      SumFirstBounds(s, n - 1, lo, hi);
      assert (n as real) * lo == ((n - 1) as real) * lo + lo;
      assert (n as real) * hi == ((n - 1) as real) * hi + hi;
    }
  }

  /** A mean lies between the smallest and the largest value averaged. */
  lemma MeanBounds(s: seq<real>, lo: real, hi: real)
    requires |s| > 0
    requires forall i :: 0 <= i < |s| ==> lo <= s[i] <= hi
    ensures lo <= Mean(s) <= hi
  {
    SumFirstBounds(s, |s|, lo, hi);
    var n := |s| as real;
    assert Sum(s) / n >= lo by {
      assert Sum(s) >= n * lo;
    }
    assert Sum(s) / n <= hi by {
      assert Sum(s) <= n * hi;
    }
  }

  /** One line of ../records/save_network.txt, written when the policy is saved
      under `index`. */
  datatype SaveEvent = SaveEvent(
    index: int, episode: int, episodes: int, bestScore: real, playTime: int, spawnDistance: real)

  /** What the bookkeeping carries from one episode to the next: the in-memory
      score history, the watermark, the next save index, the save records and
      the score lists written to ../records/save_records.txt. */
  datatype Books = Books(
    recordScores: seq<real>, bestScores: real, saveNetIndicator: int,
    saves: seq<SaveEvent>, flushes: seq<seq<real>>)

  /** The bookkeeping after episode `epis` ends with `score`, having left
      run_time at `runTime`. */
  function EndEpisode(b: Books, epis: int, score: real, runTime: int, spawnDistance: real): (r: Books)
    ensures var avg := RollingAverage(b.recordScores + [score]);
      (r.bestScores > b.bestScores <==> avg > b.bestScores) &&
      (avg > b.bestScores ==>
         r.bestScores == avg && r.saveNetIndicator == b.saveNetIndicator + 1 &&
         r.saves == b.saves + [SaveEvent(b.saveNetIndicator, epis, EPISODES, avg, runTime, spawnDistance)]) &&
      (avg <= b.bestScores ==>
         r.bestScores == b.bestScores && r.saveNetIndicator == b.saveNetIndicator && r.saves == b.saves)
    ensures r.bestScores >= b.bestScores
    ensures epis % FLUSH_EVERY == 0 ==>
      r.recordScores == [] && r.flushes == b.flushes + [b.recordScores + [score]]
    ensures epis % FLUSH_EVERY != 0 ==>
      r.recordScores == b.recordScores + [score] && r.flushes == b.flushes
  {
    var history := b.recordScores + [score];
    var avg := RollingAverage(history);
    var saved :=
      if avg > b.bestScores then
        b.(bestScores := avg, saveNetIndicator := b.saveNetIndicator + 1,
           saves := b.saves + [SaveEvent(b.saveNetIndicator, epis, EPISODES, avg, runTime, spawnDistance)])
      else b;
    if epis % FLUSH_EVERY == 0 then saved.(recordScores := [], flushes := b.flushes + [history])
    else saved.(recordScores := history)
  }

  /** The save records agree with the watermark: they are numbered consecutively
      from index0, their best scores strictly increase from above best0, and the
      watermark is the last of them (best0 while there is none). */
  ghost predicate SavesConsistent(b: Books, best0: real, index0: int) {
    b.saveNetIndicator == index0 + |b.saves| &&
    (forall j :: 0 <= j < |b.saves| ==> b.saves[j].index == index0 + j) &&
    (forall j :: 0 <= j < |b.saves| ==> best0 < b.saves[j].bestScore) &&
    (forall i, j :: 0 <= i < j < |b.saves| ==> b.saves[i].bestScore < b.saves[j].bestScore) &&
    b.bestScores == (if b.saves == [] then best0 else b.saves[|b.saves| - 1].bestScore)
  }

  /** Every episode's bookkeeping keeps the save records consistent. */
  lemma EndEpisodeKeepsSaves(b: Books, best0: real, index0: int,
                             epis: int, score: real, runTime: int, spawnDistance: real)
    requires SavesConsistent(b, best0, index0)
    ensures SavesConsistent(EndEpisode(b, epis, score, runTime, spawnDistance), best0, index0)
  {
    var r := EndEpisode(b, epis, score, runTime, spawnDistance);
    if r.saves != b.saves {
      forall i | 0 <= i < |b.saves| ensures b.saves[i].bestScore <= b.bestScores {
        if i < |b.saves| - 1 {
          assert b.saves[i].bestScore < b.saves[|b.saves| - 1].bestScore;
        }
      }
    }
  }

  /** When the history holds as many scores as episodes went by since the last
      flush, it still does after the next episode; so it never holds more than
      FLUSH_EVERY - 1 scores between episodes. */
  lemma EndEpisodeHistoryLength(b: Books, epis: int, score: real, runTime: int, spawnDistance: real)
    requires |b.recordScores| == (epis - 1) % FLUSH_EVERY
    ensures |EndEpisode(b, epis, score, runTime, spawnDistance).recordScores| == epis % FLUSH_EVERY
  {
    var r := EndEpisode(b, epis, score, runTime, spawnDistance);
    if epis % FLUSH_EVERY != 0 {
      assert |r.recordScores| == |b.recordScores| + 1;
      ModPredecessor(epis);
    }
  }

  lemma ModPredecessor(x: int)
    requires x % FLUSH_EVERY != 0
    ensures (x - 1) % FLUSH_EVERY == x % FLUSH_EVERY - 1
  {
    var q, m := x / FLUSH_EVERY, x % FLUSH_EVERY;
    assert x - 1 == FLUSH_EVERY * q + (m - 1) && 0 <= m - 1 < FLUSH_EVERY;
  }

  /** A history of three scores averages all three. */
  lemma ShortHistoryAverage()
    ensures RollingAverage([10.0, 20.0, 30.0]) == 20.0
  {
    assert LastN([10.0, 20.0, 30.0], WINDOW) == [10.0, 20.0, 30.0];
    assert SumFirst([10.0, 20.0, 30.0], 1) == 10.0;
    assert SumFirst([10.0, 20.0, 30.0], 2) == 30.0;
    assert Sum([10.0, 20.0, 30.0]) == 60.0;
  }

  /** A history [10, 20, 30] against a watermark of 15 saves, and the watermark
      becomes 20. */
  lemma SaveScenario(epis: int, runTime: int, spawnDistance: real)
    requires epis % FLUSH_EVERY != 0
    ensures var r := EndEpisode(Books([10.0, 20.0], 15.0, 1, [], []), epis, 30.0, runTime, spawnDistance);
      r.bestScores == 20.0 && r.saveNetIndicator == 2 && |r.saves| == 1 &&
      r.recordScores == [10.0, 20.0, 30.0]
  {
    assert [10.0, 20.0] + [30.0] == [10.0, 20.0, 30.0];
    ShortHistoryAverage();
  }
}
