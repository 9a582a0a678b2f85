/** What one episode of the pursuer's simulation does, as functions of the
    collaborators' answers (src/main.py, Environment.run and Environment.test):
    how many steps it lasts, which rewards it sums, which steps it trains after
    and which transitions it stores. */
module Episodes {
  import opened ReplayMemory
  import Bookkeeping

  /** The loop guard run_time <= 452: the largest number of steps per episode. */
  const MAX_RUN_TIME: nat := 452

  /** N: training runs after a step whose global step count is a multiple of it. */
  const TRAIN_EVERY: nat := 64

  /** An index into the nine-entry ACTIONS table of Environment.__init__: the
      policy's answer is looked up there, and any other value would raise. */
  type ActionIndex = a: int | 0 <= a < 9

  /** What the collaborators answer during one step: the capture and the lidar
      reading taken before acting, the policy's choice for that reading, and the
      reward and end flag computed after acting. */
  datatype StepOutcome = StepOutcome(
    frame: RawFrame, lidar: seq<real>, action: ActionIndex, prob: real, val: real,
    reward: real, done: bool)

  /** The collaborators seen from the orchestrator: step(epis, t) is what the t-th
      step (1-based run_time) of episode epis observes; spawnDistance(epis) is the
      distance between the two agents where they were spawned. */
  datatype World = World(step: (int, int) -> StepOutcome, spawnDistance: int -> real)

  /** What step t of episode epis observes and produces. */
  function Outcome(w: World, epis: int, t: int): StepOutcome
  {
    w.step(epis, t)
  }

  /** The step at which an episode that has reached step t stops: the first step
      from t on whose done flag is set, or the step bound. */
  function StepsFrom(w: World, epis: int, t: nat): (k: nat)
    requires 1 <= t <= MAX_RUN_TIME
    ensures t <= k <= MAX_RUN_TIME
    decreases MAX_RUN_TIME - t
  {
    if t == MAX_RUN_TIME || Outcome(w, epis, t).done then t else StepsFrom(w, epis, t + 1)
  }

  /** StepsFrom skips only steps that are not terminal, and stops on a terminal
      step unless it reached the bound. */
  lemma {:induction false} StepsFromStops(w: World, epis: int, t: nat)
    requires 1 <= t <= MAX_RUN_TIME
    ensures forall u :: t <= u < StepsFrom(w, epis, t) ==> !Outcome(w, epis, u).done
    ensures StepsFrom(w, epis, t) < MAX_RUN_TIME ==> Outcome(w, epis, StepsFrom(w, epis, t)).done
    decreases MAX_RUN_TIME - t
  {
    if t < MAX_RUN_TIME && !Outcome(w, epis, t).done {
      StepsFromStops(w, epis, t + 1);
    }
  }

  /** The number of steps episode epis performs. */
  function EpisodeLength(w: World, epis: int): (k: nat)
    ensures 1 <= k <= MAX_RUN_TIME
  {
    StepsFrom(w, epis, 1)
  }

  /** EpisodeLength is the first step that is terminal or hits the bound, and
      nothing else: the episode stops exactly there. */
  lemma EpisodeLengthIff(w: World, epis: int, m: int)
    ensures EpisodeLength(w, epis) == m <==>
      1 <= m <= MAX_RUN_TIME &&
      (forall u :: 1 <= u < m ==> !Outcome(w, epis, u).done) &&
      (Outcome(w, epis, m).done || m == MAX_RUN_TIME)
  {
    StepsFromStops(w, epis, 1);
  }

  /** Whether the episode ended on its done flag (rather than only on the bound). */
  function Terminal(w: World, epis: int): bool
  {
    Outcome(w, epis, EpisodeLength(w, epis)).done
  }

  /** The sum of the rewards of steps 1 .. t-1 of episode epis. */
  function RewardsBefore(w: World, epis: int, t: int): real
    decreases t
  {
    if t <= 1 then 0.0 else RewardsBefore(w, epis, t - 1) + Outcome(w, epis, t - 1).reward
  }

  /** One more step adds its reward. */
  lemma RewardsBeforeNext(w: World, epis: int, t: int)
    requires 1 <= t
    ensures RewardsBefore(w, epis, t + 1) == RewardsBefore(w, epis, t) + Outcome(w, epis, t).reward
  {
  }

  /** The rewards of the episode's possible steps 1 .. 452, in order. */
  function StepRewards(w: World, epis: int): seq<real>
  {
    seq(MAX_RUN_TIME, i requires 0 <= i < MAX_RUN_TIME => Outcome(w, epis, i + 1).reward)
  }

  /** RewardsBefore is the sum of the first t - 1 step rewards. */
  lemma {:induction false} RewardsBeforeSum(w: World, epis: int, t: int)
    requires 1 <= t <= MAX_RUN_TIME + 1
    ensures RewardsBefore(w, epis, t) == Bookkeeping.SumFirst(StepRewards(w, epis), t - 1)
    decreases t
  {
    if t > 1 {
      RewardsBeforeSum(w, epis, t - 1);
    }
  }

  /** The score Environment.run records: the reward of step t reaches the score
      only when step t + 1 begins, so the last step's reward is never added. */
  function RunScore(w: World, epis: int): (r: real)
    ensures r == Bookkeeping.SumFirst(StepRewards(w, epis), EpisodeLength(w, epis) - 1)
  {
    RewardsBeforeSum(w, epis, EpisodeLength(w, epis));
    RewardsBefore(w, epis, EpisodeLength(w, epis))
  }

  /** The score Environment.test records: every step's reward. */
  function TestScore(w: World, epis: int): (r: real)
    ensures r == Bookkeeping.SumFirst(StepRewards(w, epis), EpisodeLength(w, epis))
  {
    RewardsBeforeSum(w, epis, EpisodeLength(w, epis) + 1);
    RewardsBefore(w, epis, EpisodeLength(w, epis) + 1)
  }

  /** At the guard of Environment.test's step loop, before step t: no earlier
      step but the last was terminal, the end flag is the last step's, and
      the score holds every reward so far. */
  ghost predicate Testing(w: World, epis: int, t: int, done: bool, scores: real) {
    1 <= t <= MAX_RUN_TIME + 1 &&
    (forall u :: 1 <= u < t - 1 ==> !Outcome(w, epis, u).done) &&
    done == (t > 1 && Outcome(w, epis, t - 1).done) &&
    scores == RewardsBefore(w, epis, t)
  }

  /** One step of a live evaluation episode keeps Testing. */
  lemma TestingNext(w: World, epis: int, t: int, done: bool, scores: real)
    requires Testing(w, epis, t, done, scores) && !done && t <= MAX_RUN_TIME
    ensures Testing(w, epis, t + 1, Outcome(w, epis, t).done, scores + Outcome(w, epis, t).reward)
  {
    RewardsBeforeNext(w, epis, t);
  }

  /** When the step loop of Environment.test ends, the episode is over and its
      score is TestScore. */
  lemma TestingExit(w: World, epis: int, t: int, done: bool, scores: real)
    requires Testing(w, epis, t, done, scores) && !(!done && t <= MAX_RUN_TIME)
    ensures t == EpisodeLength(w, epis) + 1 && done == Terminal(w, epis)
    ensures scores == TestScore(w, epis)
  {
    EpisodeLengthIff(w, epis, t - 1);
  }

  /** The two scores differ by exactly the reward of the episode's last step. */
  lemma RunScoreMissesLastReward(w: World, epis: int)
    ensures TestScore(w, epis) == RunScore(w, epis) + Outcome(w, epis, EpisodeLength(w, epis)).reward
  {
  }

  /** The global step counts, among n0 + 1 .. n0 + m, at which training runs. */
  function TrainGates(n0: nat, m: nat): seq<nat>
    decreases m
  {
    if m == 0 then []
    else TrainGates(n0, m - 1) + (if (n0 + m) % TRAIN_EVERY == 0 then [n0 + m] else [])
  }

  /** The gates are multiples of N within n0 + 1 .. n0 + m, in increasing order. */
  lemma {:induction false} TrainGatesSound(n0: nat, m: nat)
    ensures forall i :: 0 <= i < |TrainGates(n0, m)| ==>
      TrainGates(n0, m)[i] % TRAIN_EVERY == 0 && n0 < TrainGates(n0, m)[i] <= n0 + m
    ensures forall i, j :: 0 <= i < j < |TrainGates(n0, m)| ==> TrainGates(n0, m)[i] < TrainGates(n0, m)[j]
  {
    if m > 0 {
      TrainGatesSound(n0, m - 1);
      var prev := TrainGates(n0, m - 1);
      var last: seq<nat> := if (n0 + m) % TRAIN_EVERY == 0 then [n0 + m] else [];
      var gates := prev + last;
      assert TrainGates(n0, m) == gates;
      forall i | 0 <= i < |gates|
        ensures gates[i] % TRAIN_EVERY == 0 && n0 < gates[i] <= n0 + m
      {
        if i < |prev| {
          assert gates[i] == prev[i];
        }
      }
      forall i, j | 0 <= i < j < |gates|
        ensures gates[i] < gates[j]
      {
        if j < |prev| {
          assert gates[i] == prev[i] && gates[j] == prev[j];
        } else {
          assert gates[i] == prev[i] && gates[j] == n0 + m;
        }
      }
    }
  }

  /** One more step adds its gate, if any, at the end. */
  lemma TrainGatesNext(n0: nat, m: nat)
    ensures TrainGates(n0, m + 1) ==
      TrainGates(n0, m) + (if (n0 + m + 1) % TRAIN_EVERY == 0 then [n0 + m + 1] else [])
  {
  }

  /** Membership in TrainGates, both ways. */
  lemma {:induction false} TrainGatesMember(n0: nat, m: nat, v: int)
    ensures v in TrainGates(n0, m) <==> n0 < v <= n0 + m && v % TRAIN_EVERY == 0
  {
    if m > 0 {
      TrainGatesMember(n0, m - 1, v);
    }
  }

  /** Training runs once per N global steps: over n0 + 1 .. n0 + m as many times
      as there are multiples of N in that range. */
  lemma {:induction false} TrainCadence(n0: nat, m: nat)
    ensures |TrainGates(n0, m)| == (n0 + m) / TRAIN_EVERY - n0 / TRAIN_EVERY
  {
    if m > 0 {
      TrainCadence(n0, m - 1);
    }
  }

  /** The global step counts at which an episode that begins after n0 global steps
      trains: after each of its steps, except a last step that set done. */
  function EpisodeGates(w: World, epis: int, n0: nat): (r: seq<nat>)
    ensures forall i :: 0 <= i < |r| ==> r[i] % TRAIN_EVERY == 0 && n0 < r[i] <= n0 + EpisodeLength(w, epis)
    ensures Terminal(w, epis) ==> forall i :: 0 <= i < |r| ==> r[i] < n0 + EpisodeLength(w, epis)
  {
    var k := EpisodeLength(w, epis);
    TrainGatesSound(n0, if Terminal(w, epis) then k - 1 else k);
    TrainGates(n0, if Terminal(w, epis) then k - 1 else k)
  }

  /** Training runs after step t of the episode if and only if the global step
      count is then a multiple of N and step t is not the step that set done. */
  lemma TrainedAfterStep(w: World, epis: int, n0: nat, t: int)
    requires 1 <= t <= EpisodeLength(w, epis)
    ensures n0 + t in EpisodeGates(w, epis, n0) <==>
      (n0 + t) % TRAIN_EVERY == 0 && !(t == EpisodeLength(w, epis) && Terminal(w, epis))
  {
    var k := EpisodeLength(w, epis);
    TrainGatesMember(n0, if Terminal(w, epis) then k - 1 else k, n0 + t);
  }

  lemma AppendAssoc<T>(a: seq<T>, b: seq<T>, c: seq<T>)
    ensures (a + b) + c == a + (b + c)
  {
  }

  /** The transition step t of episode epis stores. */
  function StoredAt(preprocess: RawFrame -> GrayImage, w: World, epis: int, t: int): Transition
  {
    var o := Outcome(w, epis, t);
    Stored(preprocess, o.frame, o.lidar, o.action, o.prob, o.val, o.reward, o.done)
  }

  /** The transitions episode epis stores, one per step, in step order. */
  function EpisodeTransitions(preprocess: RawFrame -> GrayImage, w: World, epis: int, m: nat): (ts: seq<Transition>)
    ensures |ts| == m
  {
    if m == 0 then [] else EpisodeTransitions(preprocess, w, epis, m - 1) + [StoredAt(preprocess, w, epis, m)]
  }

  /** The i-th transition stored carries the done flag of step i + 1. */
  lemma {:induction false} EpisodeTransitionsDone(preprocess: RawFrame -> GrayImage, w: World, epis: int, m: nat)
    ensures forall i :: 0 <= i < m ==> EpisodeTransitions(preprocess, w, epis, m)[i].done == Outcome(w, epis, i + 1).done
  {
    if m > 0 {
      EpisodeTransitionsDone(preprocess, w, epis, m - 1);
      var prev := EpisodeTransitions(preprocess, w, epis, m - 1);
      var ts := EpisodeTransitions(preprocess, w, epis, m);
      assert ts == prev + [StoredAt(preprocess, w, epis, m)];
      forall i | 0 <= i < m
        ensures ts[i].done == Outcome(w, epis, i + 1).done
      {
        if i < m - 1 {
          assert ts[i] == prev[i];
        }
      }
    }
  }

  /** Of the transitions an episode stores, only the last can carry done, and it
      does exactly when the episode ended on its done flag. */
  lemma EpisodeDones(preprocess: RawFrame -> GrayImage, w: World, epis: int)
    ensures var ts := EpisodeTransitions(preprocess, w, epis, EpisodeLength(w, epis));
      |ts| > 0 && ts[|ts| - 1].done == Terminal(w, epis) &&
      forall i :: 0 <= i < |ts| - 1 ==> !ts[i].done
  {
    EpisodeTransitionsDone(preprocess, w, epis, EpisodeLength(w, epis));
    EpisodeLengthIff(w, epis, EpisodeLength(w, epis));
  }
}
