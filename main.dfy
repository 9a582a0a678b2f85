/** The orchestration of src/main.py: the Environment object, its trigger-flag
    step loop (Environment.run), the evaluation loop (Environment.test), and what
    a whole training run adds up to. */
module Main {
  import opened ReplayMemory
  import opened Episodes
  import opened Bookkeeping
  import opened TriggerLoop

  /** Environment.run plays episodes FIRST_EPISODE .. EPISODES. */
  const FIRST_EPISODE: int := 1701

  /** Environment.test plays episodes 0 .. TEST_EPISODES - 1. */
  const TEST_EPISODES: int := 100

  /** Memory(batch_size=32) in Environment.__init__. */
  const BATCH_SIZE: int := 32

  // ---------------------------------------------------------------------
  // What episodes e0 .. e-1 of a run add up to
  // ---------------------------------------------------------------------

  /** The steps of episodes e0 .. e-1 together: the final value of n_steps. */
  function RunSteps(w: World, e0: int, e: int): nat
    decreases e - e0
  {
    if e <= e0 then 0 else RunSteps(w, e0, e - 1) + EpisodeLength(w, e - 1)
  }

  /** The transitions episodes e0 .. e-1 store, in order. */
  function RunTransitions(preprocess: RawFrame -> GrayImage, w: World, e0: int, e: int): seq<Transition>
    decreases e - e0
  {
    if e <= e0 then []
    else RunTransitions(preprocess, w, e0, e - 1) + EpisodeTransitions(preprocess, w, e - 1, EpisodeLength(w, e - 1))
  }

  /** The global step counts at which episodes e0 .. e-1 train. */
  function RunGates(w: World, e0: int, e: int): seq<nat>
    decreases e - e0
  {
    if e <= e0 then [] else RunGates(w, e0, e - 1) + EpisodeGates(w, e - 1, RunSteps(w, e0, e - 1))
  }

  /** The bookkeeping after episodes e0 .. e-1, starting from b0. */
  function RunBooks(w: World, e0: int, e: int, b0: Books): Books
    decreases e - e0
  {
    if e <= e0 then b0
    else
      EndEpisode(RunBooks(w, e0, e - 1, b0), e - 1, RunScore(w, e - 1),
                 EpisodeLength(w, e - 1) + 1, w.spawnDistance(e - 1))
  }

  /** What the episodes of a run accumulate: n_steps, learn_iters, the replay
      buffer's contents and the training calls. */
  datatype Progress = Progress(nSteps: nat, learnIters: nat, stored: seq<Transition>, calls: seq<nat>)

  /** The accumulators after episode epis, from p before it. */
  function NextProgress(preprocess: RawFrame -> GrayImage, w: World, epis: int, p: Progress): Progress
  {
    var end := EpisodeEnd(preprocess, w, epis, p.nSteps, p.learnIters, p.stored, p.calls);
    Progress(end.nSteps, end.learnIters, end.stored, end.calls)
  }

  /** The accumulators after episodes e0 .. e-1, starting from p0: each
      episode picks up where the previous one left them. */
  function RunProgress(preprocess: RawFrame -> GrayImage, w: World, e0: int, e: int, p0: Progress): Progress
    decreases e - e0
  {
    if e <= e0 then p0
    else NextProgress(preprocess, w, e - 1, RunProgress(preprocess, w, e0, e - 1, p0))
  }

  /** From zero steps and zero training calls, the accumulators are the step
      total, the stored transitions and the training gates of the run. */
  lemma {:induction false} RunProgressParts(preprocess: RawFrame -> GrayImage, w: World, e0: int, e: int,
                                            stored0: seq<Transition>, calls0: seq<nat>)
    ensures RunProgress(preprocess, w, e0, e, Progress(0, 0, stored0, calls0)) ==
      Progress(RunSteps(w, e0, e), |RunGates(w, e0, e)|,
               stored0 + RunTransitions(preprocess, w, e0, e), calls0 + RunGates(w, e0, e))
    decreases e - e0
  {
    if e0 < e {
      RunProgressParts(preprocess, w, e0, e - 1, stored0, calls0);
      var k := EpisodeLength(w, e - 1);
      AppendAssoc(stored0, RunTransitions(preprocess, w, e0, e - 1), EpisodeTransitions(preprocess, w, e - 1, k));
      AppendAssoc(calls0, RunGates(w, e0, e - 1), EpisodeGates(w, e - 1, RunSteps(w, e0, e - 1)));
    } else {
      assert stored0 + [] == stored0 && calls0 + [] == calls0;
    }
  }

  /** Every episode performs at most 452 steps. */
  lemma {:induction false} RunStepsBound(w: World, e0: int, e: int)
    requires e0 <= e
    ensures e - e0 <= RunSteps(w, e0, e) <= MAX_RUN_TIME * (e - e0)
    decreases e - e0
  {
    if e0 < e {
      RunStepsBound(w, e0, e - 1);
    }
  }

  /** One stored transition per step: the buffer grows by exactly n_steps, and
      each episode's transitions follow the previous episode's. */
  lemma {:induction false} RunTransitionsCount(preprocess: RawFrame -> GrayImage, w: World, e0: int, e: int)
    ensures |RunTransitions(preprocess, w, e0, e)| == RunSteps(w, e0, e)
    decreases e - e0
  {
    if e0 < e {
      RunTransitionsCount(preprocess, w, e0, e - 1);
    }
  }

  /** Training happens at multiples of N only, each global step count at most
      once, in increasing order, within the steps taken. */
  lemma {:induction false} RunGatesSound(w: World, e0: int, e: int)
    ensures forall i :: 0 <= i < |RunGates(w, e0, e)| ==>
      RunGates(w, e0, e)[i] % TRAIN_EVERY == 0 && 0 < RunGates(w, e0, e)[i] <= RunSteps(w, e0, e)
    ensures forall i, j :: 0 <= i < j < |RunGates(w, e0, e)| ==> RunGates(w, e0, e)[i] < RunGates(w, e0, e)[j]
    decreases e - e0
  {
    if e0 < e {
      RunGatesSound(w, e0, e - 1);
      var g, h := RunGates(w, e0, e - 1), EpisodeGates(w, e - 1, RunSteps(w, e0, e - 1));
      var k := EpisodeLength(w, e - 1);
      TrainGatesSound(RunSteps(w, e0, e - 1), if Terminal(w, e - 1) then k - 1 else k);
      assert RunGates(w, e0, e) == g + h;
      forall i, j | 0 <= i < |g| && 0 <= j < |h| ensures g[i] < h[j] {
        assert g[i] <= RunSteps(w, e0, e - 1) < h[j];
      }
    }
  }

  /** An episode's gates added to the earlier ones stay within one per N steps. */
  lemma GateCountStep(before: nat, s: nat, m: nat, k: nat, added: nat)
    requires before <= s / TRAIN_EVERY && added == (s + m) / TRAIN_EVERY - s / TRAIN_EVERY && m <= k
    ensures before + added <= (s + k) / TRAIN_EVERY
  {
  }

  /** Over a run, training is invoked no more than once per N global steps. */
  lemma {:induction false} RunTrainCount(w: World, e0: int, e: int)
    ensures |RunGates(w, e0, e)| <= RunSteps(w, e0, e) / TRAIN_EVERY
    decreases e - e0
  {
    if e0 < e {
      RunTrainCount(w, e0, e - 1);
      var s, k := RunSteps(w, e0, e - 1), EpisodeLength(w, e - 1);
      var m := if Terminal(w, e - 1) then k - 1 else k;
      var g := EpisodeGates(w, e - 1, s);
      assert g == TrainGates(s, m);
      assert RunGates(w, e0, e) == RunGates(w, e0, e - 1) + g && RunSteps(w, e0, e) == s + k;
      TrainCadence(s, m);
      GateCountStep(|RunGates(w, e0, e - 1)|, s, m, k, |g|);
    }
  }

  /** The watermark never decreases from one episode to a later one. */
  lemma {:induction false} BestNonDecreasing(w: World, e0: int, e1: int, e2: int, b0: Books)
    requires e0 <= e1 <= e2
    ensures RunBooks(w, e0, e1, b0).bestScores <= RunBooks(w, e0, e2, b0).bestScores
    decreases e2 - e1
  {
    if e1 < e2 {
      BestNonDecreasing(w, e0, e1, e2 - 1, b0);
      var prev := RunBooks(w, e0, e2 - 1, b0);
      var score, runTime, spawnDistance := RunScore(w, e2 - 1), EpisodeLength(w, e2 - 1) + 1, w.spawnDistance(e2 - 1);
      assert RunBooks(w, e0, e2, b0) == EndEpisode(prev, e2 - 1, score, runTime, spawnDistance);
    }
  }

  /** Over a run, the save records stay numbered consecutively with strictly
      increasing best scores, and the watermark is the last of them. */
  lemma {:induction false} RunSavesConsistent(w: World, e0: int, e: int, b0: Books)
    requires SavesConsistent(b0, b0.bestScores, b0.saveNetIndicator - |b0.saves|)
    ensures SavesConsistent(RunBooks(w, e0, e, b0), b0.bestScores, b0.saveNetIndicator - |b0.saves|)
    decreases e - e0
  {
    if e0 < e {
      RunSavesConsistent(w, e0, e - 1, b0);
      var prev := RunBooks(w, e0, e - 1, b0);
      var score, runTime, spawnDistance := RunScore(w, e - 1), EpisodeLength(w, e - 1) + 1, w.spawnDistance(e - 1);
      assert RunBooks(w, e0, e, b0) == EndEpisode(prev, e - 1, score, runTime, spawnDistance);
      EndEpisodeKeepsSaves(prev, b0.bestScores, b0.saveNetIndicator - |b0.saves|, e - 1, score, runTime, spawnDistance);
    }
  }

  /** Starting at episode 1701 with an empty history, the history after episode
      e - 1 holds the scores of the episodes since the last multiple of 100. */
  lemma {:induction false} RunHistoryLength(w: World, e: int, b0: Books)
    requires FIRST_EPISODE <= e && b0.recordScores == []
    ensures |RunBooks(w, FIRST_EPISODE, e, b0).recordScores| == (e - 1) % FLUSH_EVERY
    decreases e - FIRST_EPISODE
  {
    if FIRST_EPISODE < e {
      RunHistoryLength(w, e - 1, b0);
      EndEpisodeHistoryLength(RunBooks(w, FIRST_EPISODE, e - 1, b0), e - 1, RunScore(w, e - 1),
                              EpisodeLength(w, e - 1) + 1, w.spawnDistance(e - 1));
    }
  }

  // ---------------------------------------------------------------------
  // The Environment object
  // ---------------------------------------------------------------------

  class Environment {
    const memory: Memory
    var currentState: RawFrame
    var done: bool
    var recordScores: seq<real>
    var restartParamsTrigger: bool
    var startNewCycleTrigger: bool
    var saveExpTrigger: bool
    var trainingTrigger: bool
    var runTime: int

    /** The global step count at each call of drl_algorithm.train(). */
    ghost var trainCalls: seq<nat>
    /** The lines appended to ../records/save_network.txt, one per saved policy. */
    ghost var saveLog: seq<SaveEvent>
    /** The score lists appended to ../records/save_records.txt. */
    ghost var scoresLog: seq<seq<real>>
    /** The score lists appended to ../records/save_record_test.txt. */
    ghost var testLog: seq<seq<real>>

    ghost predicate Valid()
      reads this, memory
    {
      memory.Valid()
    }

    constructor (preprocess: RawFrame -> GrayImage)
      ensures Valid() && fresh(memory)
      ensures memory.Transitions() == [] && memory.batchSize == BATCH_SIZE && memory.preprocess == preprocess
      ensures currentState == [] && !done && recordScores == [] && runTime == 1
      ensures !restartParamsTrigger && startNewCycleTrigger && !saveExpTrigger && !trainingTrigger
      ensures trainCalls == [] && saveLog == [] && scoresLog == [] && testLog == []
    {
      memory := new Memory(BATCH_SIZE, preprocess);
      currentState := [];
      done := false;
      recordScores := [];
      restartParamsTrigger := false;
      startNewCycleTrigger := true;
      saveExpTrigger := false;
      trainingTrigger := false;
      runTime := 1;
      trainCalls, saveLog, scoresLog, testLog := [], [], [], [];
    }

    /** The state the trigger loop of Environment.run works on, with run's
        local accumulators scores, reward, n_steps and learn_iters. */
    ghost function Snapshot(scores: real, reward: real, nSteps: nat, learnIters: nat): (s: Loop)
      reads this, memory
      requires Valid()
      ensures s.runTime == runTime && s.done == done && s.stored == memory.Transitions()
    {
      Loop(runTime, done, restartParamsTrigger, startNewCycleTrigger, saveExpTrigger, trainingTrigger,
           currentState, scores, reward, nSteps, learnIters, memory.Transitions(), trainCalls)
    }

    /** The restart block of Environment.run. */
    method RestartParams(scoresBefore: real, reward: real, ghost nSteps: nat, ghost learnIters: nat)
      returns (scores: real)
      requires Valid()
      modifies this`restartParamsTrigger, this`startNewCycleTrigger
      ensures Valid()
      ensures Snapshot(scores, reward, nSteps, learnIters) ==
        RestartStep(old(Snapshot(scoresBefore, reward, nSteps, learnIters)))
    {
      scores := scoresBefore + reward;
      if done {
        return;
      }
      restartParamsTrigger := false;
      startNewCycleTrigger := true;
    }

    /** The start-new-cycle block of Environment.run, at step runTime: capture
        the screen and the lidar, let the policy act, observe the reward and the
        end flag, and save the experience. */
    method StartNewCycle(w: World, epis: int, ghost scores: real, rewardBefore: real, nStepsBefore: nat,
                         ghost learnIters: nat)
      returns (reward: real, nSteps: nat)
      requires Valid()
      modifies this`currentState, this`done, this`startNewCycleTrigger, this`saveExpTrigger,
               this`trainingTrigger, this`runTime, memory
      ensures Valid() && memory.batchSize == old(memory.batchSize)
      ensures Snapshot(scores, reward, nSteps, learnIters) ==
        CycleStep(memory.preprocess, w, epis, old(Snapshot(scores, rewardBefore, nStepsBefore, learnIters)))
    {
      nSteps := nStepsBefore;
      var o := Outcome(w, epis, runTime);
      currentState := o.frame;
      var lidarCurrentState := o.lidar;
      var action, prob, val := o.action, o.prob, o.val;
      reward, done := o.reward, o.done;
      saveExpTrigger := true;
      if saveExpTrigger {
        nSteps := SaveExperience(lidarCurrentState, action, prob, val, scores, reward, nSteps, learnIters);
        if done {
          return;
        }
      }
      startNewCycleTrigger := false;
      trainingTrigger := true;
    }

    /** The save block of Environment.run: store the experience, count the
        step and advance the run time. */
    method SaveExperience(lidarCurrentState: seq<real>, action: int, prob: real, val: real,
                          ghost scores: real, reward: real, nStepsBefore: nat, ghost learnIters: nat)
      returns (nSteps: nat)
      requires Valid()
      modifies this`saveExpTrigger, this`runTime, memory
      ensures Valid() && memory.batchSize == old(memory.batchSize)
      ensures Snapshot(scores, reward, nSteps, learnIters) ==
        SaveStep(memory.preprocess, old(Snapshot(scores, reward, nStepsBefore, learnIters)),
                 lidarCurrentState, action, prob, val)
    {
      memory.StoreMemory(currentState, lidarCurrentState, action, prob, val, reward, done);
      nSteps := nStepsBefore + 1;
      saveExpTrigger := false;
      runTime := runTime + 1;
    }

    /** The training gate of Environment.run: drl_algorithm.train() runs when
        the global step count is a multiple of N. */
    method TrainingGate(ghost scores: real, ghost reward: real, nSteps: nat, learnItersBefore: nat)
      returns (learnIters: nat)
      requires Valid()
      modifies this`trainCalls, this`restartParamsTrigger
      ensures Valid()
      ensures Snapshot(scores, reward, nSteps, learnIters) ==
        TrainStep(old(Snapshot(scores, reward, nSteps, learnItersBefore)))
    {
      learnIters := learnItersBefore;
      if nSteps % TRAIN_EVERY == 0 {
        // drl_algorithm.train(), then the wait for training_finished.
        trainCalls := trainCalls + [nSteps];
        learnIters := learnIters + 1;
      }
      restartParamsTrigger := true;
    }

    /** One episode of Environment.run, from the reset of the per-episode state
        to the end of the trigger-flag loop, after nStepsBefore global steps and
        learnItersBefore training calls. */
    method PlayEpisode(w: World, epis: int, nStepsBefore: nat, learnItersBefore: nat)
      returns (scores: real, nSteps: nat, learnIters: nat)
      requires Valid()
      modifies this`currentState, this`done, this`restartParamsTrigger, this`startNewCycleTrigger,
               this`saveExpTrigger, this`trainingTrigger, this`runTime, this`trainCalls, memory
      ensures Valid() && memory.batchSize == old(memory.batchSize)
      ensures Progress(nSteps, learnIters, memory.Transitions(), trainCalls) ==
        NextProgress(memory.preprocess, w, epis, Progress(nStepsBefore, learnItersBefore, old(memory.Transitions()), old(trainCalls)))
      ensures scores == RunScore(w, epis)
      ensures runTime == EpisodeLength(w, epis) + 1 && done == Terminal(w, epis)
      ensures currentState == Outcome(w, epis, EpisodeLength(w, epis)).frame
      ensures restartParamsTrigger == !Terminal(w, epis) && startNewCycleTrigger == Terminal(w, epis) &&
        !saveExpTrigger && trainingTrigger == (!Terminal(w, epis) || EpisodeLength(w, epis) > 1)
    {
      done := false;
      var reward: real := 0.0;
      scores := 0.0;
      runTime := 1;
      restartParamsTrigger := false;
      startNewCycleTrigger := true;
      saveExpTrigger := false;
      trainingTrigger := false;
      nSteps, learnIters := nStepsBefore, learnItersBefore;
      ghost var s0 := Snapshot(scores, reward, nSteps, learnIters);
      ResetPlaying(memory.preprocess, w, epis, s0);
      assert Reset(s0) == s0;
      while runTime <= MAX_RUN_TIME && !done
        invariant Valid() && memory.batchSize == old(memory.batchSize)
        invariant Playing(memory.preprocess, w, epis, s0, Snapshot(scores, reward, nSteps, learnIters))
        decreases MAX_RUN_TIME + 1 - runTime
      {
        ghost var s := Snapshot(scores, reward, nSteps, learnIters);
        PassPlaying(memory.preprocess, w, epis, s0, s);
        if restartParamsTrigger {
          scores := RestartParams(scores, reward, nSteps, learnIters);
          // The loop guard excludes done, and the restart block leaves it: this break cannot fire.
          assert !done;
          if done {
            break;
          }
        }
        if startNewCycleTrigger {
          reward, nSteps := StartNewCycle(w, epis, scores, reward, nSteps, learnIters);
          if done {
            break;
          }
        }
        if trainingTrigger {
          learnIters := TrainingGate(scores, reward, nSteps, learnIters);
        }
      }
      PlayingExit(memory.preprocess, w, epis, s0, Snapshot(scores, reward, nSteps, learnIters));
    }

    /** The bookkeeping state of Environment.run between episodes, with run's
        locals best_scores and save_net_indicator. */
    ghost function Ledger(bestScores: real, saveNetIndicator: int): (b: Books)
      reads this`recordScores, this`saveLog, this`scoresLog
      ensures b.recordScores == recordScores && b.saves == saveLog && b.flushes == scoresLog
    {
      Books(recordScores, bestScores, saveNetIndicator, saveLog, scoresLog)
    }

    /** The end-of-episode part of Environment.run: record the score, save the
        policy when the rolling average beats the watermark, and flush the
        history every 100 episodes. */
    method EndOfEpisode(w: World, epis: int, scores: real, bestBefore: real, indicatorBefore: int)
      returns (bestScores: real, saveNetIndicator: int)
      modifies this`recordScores, this`saveLog, this`scoresLog
      ensures Ledger(bestScores, saveNetIndicator) ==
        EndEpisode(old(Ledger(bestBefore, indicatorBefore)), epis, scores, runTime, w.spawnDistance(epis))
    {
      bestScores, saveNetIndicator := bestBefore, indicatorBefore;
      recordScores := recordScores + [scores];
      var avgScore := RollingAverage(recordScores);
      if avgScore > bestScores {
        bestScores := avgScore;
        // drl_algorithm.save_model(save_net_indicator), and one line of the save log.
        saveLog := saveLog + [SaveEvent(saveNetIndicator, epis, EPISODES, bestScores, runTime, w.spawnDistance(epis))];
        saveNetIndicator := saveNetIndicator + 1;
      }
      if epis % FLUSH_EVERY == 0 {
        scoresLog := scoresLog + [recordScores];
        recordScores := [];
      }
    }

    /** One iteration of the episode loop of Environment.run. */
    method Episode(w: World, epis: int, nStepsBefore: nat, learnItersBefore: nat, bestBefore: real, indicatorBefore: int)
      returns (nSteps: nat, learnIters: nat, bestScores: real, saveNetIndicator: int)
      requires Valid()
      modifies this`currentState, this`done, this`recordScores, this`restartParamsTrigger,
               this`startNewCycleTrigger, this`saveExpTrigger, this`trainingTrigger, this`runTime,
               this`trainCalls, this`saveLog, this`scoresLog, memory
      ensures Valid() && memory.batchSize == old(memory.batchSize)
      ensures Progress(nSteps, learnIters, memory.Transitions(), trainCalls) ==
        NextProgress(memory.preprocess, w, epis, Progress(nStepsBefore, learnItersBefore, old(memory.Transitions()), old(trainCalls)))
      ensures Ledger(bestScores, saveNetIndicator) ==
        EndEpisode(old(Ledger(bestBefore, indicatorBefore)), epis, RunScore(w, epis), EpisodeLength(w, epis) + 1, w.spawnDistance(epis))
      ensures runTime == EpisodeLength(w, epis) + 1 && done == Terminal(w, epis)
    {
      ghost var books := Ledger(bestBefore, indicatorBefore);
      var scores: real;
      scores, nSteps, learnIters := PlayEpisode(w, epis, nStepsBefore, learnItersBefore);
      assert Ledger(bestBefore, indicatorBefore) == books;
      ghost var progress := Progress(nSteps, learnIters, memory.Transitions(), trainCalls);
      bestScores, saveNetIndicator := EndOfEpisode(w, epis, scores, bestBefore, indicatorBefore);
      assert Progress(nSteps, learnIters, memory.Transitions(), trainCalls) == progress;
    }

    /** Environment.run: episodes 1701 .. 20000, each followed by the
        bookkeeping. Returns the final values of its local counters and
        accumulators. */
    method Run(w: World) returns (nSteps: nat, learnIters: nat, bestScores: real, saveNetIndicator: int)
      requires Valid()
      modifies this`currentState, this`done, this`recordScores, this`restartParamsTrigger,
               this`startNewCycleTrigger, this`saveExpTrigger, this`trainingTrigger, this`runTime,
               this`trainCalls, this`saveLog, this`scoresLog, memory
      ensures Valid() && memory.batchSize == old(memory.batchSize)
      ensures Progress(nSteps, learnIters, memory.Transitions(), trainCalls) ==
        RunProgress(memory.preprocess, w, FIRST_EPISODE, EPISODES + 1,
                    Progress(0, 0, old(memory.Transitions()), old(trainCalls)))
      ensures Ledger(bestScores, saveNetIndicator) ==
        RunBooks(w, FIRST_EPISODE, EPISODES + 1,
                 Books(old(recordScores), INITIAL_BEST, FIRST_SAVE_INDEX, old(saveLog), old(scoresLog)))
      ensures runTime == EpisodeLength(w, EPISODES) + 1 && done == Terminal(w, EPISODES)
    {
      saveNetIndicator := FIRST_SAVE_INDEX;
      nSteps := 0;
      bestScores := INITIAL_BEST;
      learnIters := 0;
      ghost var p0 := Progress(nSteps, learnIters, memory.Transitions(), trainCalls);
      ghost var b0 := Ledger(bestScores, saveNetIndicator);
      ghost var last := FIRST_EPISODE - 1;
      for epis := FIRST_EPISODE to EPISODES + 1
        invariant Valid() && memory.batchSize == old(memory.batchSize)
        invariant Progress(nSteps, learnIters, memory.Transitions(), trainCalls) ==
          RunProgress(memory.preprocess, w, FIRST_EPISODE, epis, p0)
        invariant Ledger(bestScores, saveNetIndicator) == RunBooks(w, FIRST_EPISODE, epis, b0)
        invariant last == epis - 1
        invariant epis > FIRST_EPISODE ==> runTime == EpisodeLength(w, last) + 1 && done == Terminal(w, last)
      {
        ghost var progress := RunProgress(memory.preprocess, w, FIRST_EPISODE, epis, p0);
        ghost var books := RunBooks(w, FIRST_EPISODE, epis, b0);
        nSteps, learnIters, bestScores, saveNetIndicator := Episode(w, epis, nSteps, learnIters, bestScores, saveNetIndicator);
        assert RunProgress(memory.preprocess, w, FIRST_EPISODE, epis + 1, p0) == NextProgress(memory.preprocess, w, epis, progress);
        assert RunBooks(w, FIRST_EPISODE, epis + 1, b0) ==
          EndEpisode(books, epis, RunScore(w, epis), EpisodeLength(w, epis) + 1, w.spawnDistance(epis));
        last := epis;
      }
    }

    /** One evaluation episode of Environment.test: the loop of capture, policy
        and reward until the end flag or the step bound; returns its score. */
    method TestEpisode(w: World, epis: int) returns (scores: real)
      modifies this`currentState, this`done, this`runTime, this`restartParamsTrigger, this`startNewCycleTrigger
      ensures scores == TestScore(w, epis)
      ensures runTime == EpisodeLength(w, epis) + 1 && done == Terminal(w, epis)
      ensures currentState == Outcome(w, epis, EpisodeLength(w, epis)).frame
      ensures !restartParamsTrigger && startNewCycleTrigger
    {
      done := false;
      var reward: real := 0.0;
      scores := 0.0;
      runTime := 1;
      restartParamsTrigger := false;
      startNewCycleTrigger := true;
      while !done && runTime <= MAX_RUN_TIME
        invariant Testing(w, epis, runTime, done, scores)
        invariant runTime > 1 ==> currentState == Outcome(w, epis, runTime - 1).frame
        invariant !restartParamsTrigger && startNewCycleTrigger
        decreases MAX_RUN_TIME + 1 - runTime
      {
        // The loop guard excludes done: this break cannot fire.
        assert !done;
        if done {
          break;
        }
        TestingNext(w, epis, runTime, done, scores);
        var o := Outcome(w, epis, runTime);
        currentState := o.frame;
        reward, done := o.reward, o.done;
        runTime := runTime + 1;
        scores := scores + reward;
      }
      TestingExit(w, epis, runTime, done, scores);
    }

    /** Environment.test: 100 evaluation episodes without storing or training;
        returns the per-episode scores it writes to the test log. */
    method Test(w: World) returns (testScores: seq<real>)
      modifies this`currentState, this`done, this`runTime, this`restartParamsTrigger,
               this`startNewCycleTrigger, this`testLog
      ensures |testScores| == TEST_EPISODES
      ensures forall e :: 0 <= e < TEST_EPISODES ==> testScores[e] == TestScore(w, e)
      ensures testLog == old(testLog) + [testScores]
      ensures runTime == EpisodeLength(w, TEST_EPISODES - 1) + 1 && done == Terminal(w, TEST_EPISODES - 1)
      ensures currentState == Outcome(w, TEST_EPISODES - 1, EpisodeLength(w, TEST_EPISODES - 1)).frame
      ensures !restartParamsTrigger && startNewCycleTrigger
    {
      var scores: real := 0.0;
      testScores := [];
      for epis := 0 to TEST_EPISODES
        invariant |testScores| == epis
        invariant forall e :: 0 <= e < epis ==> testScores[e] == TestScore(w, e)
        invariant epis > 0 ==> runTime == EpisodeLength(w, epis - 1) + 1 && done == Terminal(w, epis - 1)
        invariant epis > 0 ==> currentState == Outcome(w, epis - 1, EpisodeLength(w, epis - 1)).frame
        invariant epis > 0 ==> !restartParamsTrigger && startNewCycleTrigger
        invariant testLog == old(testLog)
      {
        ghost var before := testScores;
        scores := TestEpisode(w, epis);
        testScores := testScores + [scores];
        assert forall e :: 0 <= e < epis ==> testScores[e] == before[e];
      }
      testLog := testLog + [testScores];
    }
  }
}
