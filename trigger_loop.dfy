/** The trigger-flag loop of Environment.run (src/main.py) as a function on the
    state it updates: the Environment's run time, end flag, four trigger flags
    and current capture, run's local accumulators, the replay buffer's contents
    and the training calls so far. One pass of the loop is the composition of
    its three blocks, each a function of that state. */
module TriggerLoop {
  import opened ReplayMemory
  import opened Episodes

  /** What one pass of `while (self.run_time <= 452) and (not self.done)` reads
      and writes. */
  datatype Loop = Loop(
    runTime: int, done: bool,
    restart: bool, start: bool, save: bool, training: bool,
    frame: RawFrame, scores: real, reward: real, nSteps: nat, learnIters: nat,
    stored: seq<Transition>, calls: seq<nat>)

  /** The reset at the top of each episode of Environment.run. */
  function Reset(s: Loop): (r: Loop)
    ensures r.runTime == 1 && !r.done && !r.restart && r.start && !r.save && !r.training
    ensures r.scores == 0.0 && r.reward == 0.0
    ensures r.frame == s.frame && r.nSteps == s.nSteps && r.learnIters == s.learnIters
    ensures r.stored == s.stored && r.calls == s.calls
  {
    s.(done := false, reward := 0.0, scores := 0.0, runTime := 1,
       restart := false, start := true, save := false, training := false)
  }

  /** The restart block: the previous step's reward joins the score; unless
      the episode is over, the next cycle is armed. */
  function RestartStep(s: Loop): (r: Loop)
    ensures r.scores == s.scores + s.reward
    ensures s.done ==> r.restart == s.restart && r.start == s.start
    ensures !s.done ==> !r.restart && r.start
    ensures r.runTime == s.runTime && r.done == s.done && r.save == s.save && r.training == s.training
    ensures r.frame == s.frame && r.reward == s.reward && r.nSteps == s.nSteps && r.learnIters == s.learnIters
    ensures r.stored == s.stored && r.calls == s.calls
  {
    var t := s.(scores := s.scores + s.reward);
    if t.done then t else t.(restart := false, start := true)
  }

  /** The save block: the transition made of the current capture, the given
      lidar reading and policy output, and the current reward and end flag is
      stored, the step counted and the run time advanced. */
  function SaveStep(preprocess: RawFrame -> GrayImage, s: Loop,
                    lidar: seq<real>, action: int, prob: real, val: real): (r: Loop)
    ensures r.stored == s.stored + [Stored(preprocess, s.frame, lidar, action, prob, val, s.reward, s.done)]
    ensures r.nSteps == s.nSteps + 1 && r.runTime == s.runTime + 1 && !r.save
    ensures r.done == s.done && r.restart == s.restart && r.start == s.start && r.training == s.training
    ensures r.frame == s.frame && r.scores == s.scores && r.reward == s.reward
    ensures r.learnIters == s.learnIters && r.calls == s.calls
  {
    s.(stored := s.stored + [Stored(preprocess, s.frame, lidar, action, prob, val, s.reward, s.done)],
       nSteps := s.nSteps + 1, save := false, runTime := s.runTime + 1)
  }

  /** The start-new-cycle block with its save block, at step s.runTime: the
      capture, the lidar reading and the policy's choice are taken, the reward
      and the end flag observed and the step saved; unless the step was
      terminal, the training gate is armed. */
  function CycleStep(preprocess: RawFrame -> GrayImage, w: World, epis: int, s: Loop): (r: Loop)
    ensures r.stored == s.stored + [StoredAt(preprocess, w, epis, s.runTime)]
    ensures r.nSteps == s.nSteps + 1 && r.runTime == s.runTime + 1 && !r.save
    ensures r.frame == Outcome(w, epis, s.runTime).frame && r.reward == Outcome(w, epis, s.runTime).reward
    ensures r.done == Outcome(w, epis, s.runTime).done
    ensures r.done ==> r.start == s.start && r.training == s.training
    ensures !r.done ==> !r.start && r.training
    ensures r.restart == s.restart && r.scores == s.scores && r.learnIters == s.learnIters && r.calls == s.calls
  {
    var o := Outcome(w, epis, s.runTime);
    var t := s.(frame := o.frame, reward := o.reward, done := o.done, save := true);
    var u := if t.save then SaveStep(preprocess, t, o.lidar, o.action, o.prob, o.val) else t;
    if t.save && u.done then u else u.(start := false, training := true)
  }

  /** The training gate: drl_algorithm.train() runs when the global step count
      is a multiple of N; the restart block is armed. */
  function TrainStep(s: Loop): (r: Loop)
    ensures s.nSteps % TRAIN_EVERY == 0 ==> r.calls == s.calls + [s.nSteps] && r.learnIters == s.learnIters + 1
    ensures s.nSteps % TRAIN_EVERY != 0 ==> r.calls == s.calls && r.learnIters == s.learnIters
    ensures r.restart
    ensures r.runTime == s.runTime && r.done == s.done && r.start == s.start && r.save == s.save
    ensures r.training == s.training && r.frame == s.frame && r.scores == s.scores && r.reward == s.reward
    ensures r.nSteps == s.nSteps && r.stored == s.stored
  {
    var trains := s.nSteps % TRAIN_EVERY == 0;
    s.(calls := if trains then s.calls + [s.nSteps] else s.calls,
       learnIters := if trains then s.learnIters + 1 else s.learnIters,
       restart := true)
  }

  /** One pass of the loop body; a `break` leaves the state as it was there. */
  function Pass(preprocess: RawFrame -> GrayImage, w: World, epis: int, s: Loop): (r: Loop)
    ensures r.runTime == s.runTime || r.runTime == s.runTime + 1
    ensures r.nSteps - s.nSteps == r.runTime - s.runTime
    ensures |r.stored| - |s.stored| == r.runTime - s.runTime
    ensures s.restart || s.start ==> r.scores == (if s.restart then s.scores + s.reward else s.scores)
    ensures |r.calls| - |s.calls| == r.learnIters - s.learnIters <= 1
  {
    var a := if s.restart then RestartStep(s) else s;
    if s.restart && a.done then a
    else
      var b := if a.start then CycleStep(preprocess, w, epis, a) else a;
      if a.start && b.done then b
      else if b.training then TrainStep(b) else b
  }

  /** What holds in every phase of episode epis after s.runTime - 1 steps, for
      an episode that began in state s0: the steps are counted, stored and
      observed, and none before the last was terminal. */
  ghost predicate StepsTaken(preprocess: RawFrame -> GrayImage, w: World, epis: int, s0: Loop, s: Loop)
  {
    1 <= s.runTime <= MAX_RUN_TIME + 1 && !s.save &&
    s.nSteps == s0.nSteps + s.runTime - 1 &&
    s.stored == s0.stored + EpisodeTransitions(preprocess, w, epis, s.runTime - 1) &&
    (s.runTime > 1 ==> s.frame == Outcome(w, epis, s.runTime - 1).frame &&
                       s.reward == Outcome(w, epis, s.runTime - 1).reward) &&
    (forall u :: 1 <= u < s.runTime - 1 ==> !Outcome(w, epis, u).done)
  }

  /** At the loop guard: the end flag is the last step's, the flags are those
      the last block left, the score holds every reward but the last step's,
      and the training gate has run after every step but a terminal one. */
  ghost predicate Playing(preprocess: RawFrame -> GrayImage, w: World, epis: int, s0: Loop, s: Loop)
  {
    StepsTaken(preprocess, w, epis, s0, s) &&
    s.done == (s.runTime > 1 && Outcome(w, epis, s.runTime - 1).done) &&
    (!s.done && s.runTime == 1 ==> !s.restart && s.start && !s.training) &&
    (!s.done && s.runTime > 1 ==> s.restart && !s.start && s.training) &&
    (s.done ==> !s.restart && s.start && s.training == (s.runTime > 2)) &&
    s.scores == RewardsBefore(w, epis, s.runTime - 1) &&
    s.calls == s0.calls + TrainGates(s0.nSteps, if s.done then s.runTime - 2 else s.runTime - 1) &&
    s.learnIters == s0.learnIters + |TrainGates(s0.nSteps, if s.done then s.runTime - 2 else s.runTime - 1)|
  }

  /** After the restart block: ready to start step s.runTime, and the score
      holds every reward so far. */
  ghost predicate Restarted(preprocess: RawFrame -> GrayImage, w: World, epis: int, s0: Loop, s: Loop)
  {
    StepsTaken(preprocess, w, epis, s0, s) && s.runTime <= MAX_RUN_TIME && !s.done &&
    (s.runTime > 1 ==> !Outcome(w, epis, s.runTime - 1).done) &&
    !s.restart && s.start && s.training == (s.runTime > 1) &&
    s.scores == RewardsBefore(w, epis, s.runTime) &&
    s.calls == s0.calls + TrainGates(s0.nSteps, s.runTime - 1) &&
    s.learnIters == s0.learnIters + |TrainGates(s0.nSteps, s.runTime - 1)|
  }

  /** After a non-terminal cycle: step s.runTime - 1 is stored and its training
      gate is next. */
  ghost predicate Cycled(preprocess: RawFrame -> GrayImage, w: World, epis: int, s0: Loop, s: Loop)
  {
    StepsTaken(preprocess, w, epis, s0, s) && 1 < s.runTime && !s.done &&
    !Outcome(w, epis, s.runTime - 1).done &&
    !s.restart && !s.start && s.training &&
    s.scores == RewardsBefore(w, epis, s.runTime - 1) &&
    s.calls == s0.calls + TrainGates(s0.nSteps, s.runTime - 2) &&
    s.learnIters == s0.learnIters + |TrainGates(s0.nSteps, s.runTime - 2)|
  }

  /** The reset state is where every episode's loop begins. */
  lemma ResetPlaying(preprocess: RawFrame -> GrayImage, w: World, epis: int, s: Loop)
    ensures Playing(preprocess, w, epis, Reset(s), Reset(s))
  {
    assert Reset(s).stored + EpisodeTransitions(preprocess, w, epis, 0) == Reset(s).stored;
    assert Reset(s).calls + TrainGates(Reset(s).nSteps, 0) == Reset(s).calls;
  }

  /** The restart block, from the loop guard of a live episode that has taken
      a step, adds that step's reward and leads to the next cycle. */
  lemma RestartRestarted(preprocess: RawFrame -> GrayImage, w: World, epis: int, s0: Loop, s: Loop)
    requires Playing(preprocess, w, epis, s0, s) && s.runTime <= MAX_RUN_TIME && !s.done && s.restart
    ensures Restarted(preprocess, w, epis, s0, RestartStep(s))
  {
    RewardsBeforeNext(w, epis, s.runTime - 1);
  }

  /** A cycle from a live state either ends the episode at the loop guard or
      hands over to the training gate. */
  lemma CycleNext(preprocess: RawFrame -> GrayImage, w: World, epis: int, s0: Loop, s: Loop)
    requires Restarted(preprocess, w, epis, s0, s)
    ensures var c := CycleStep(preprocess, w, epis, s);
      c.runTime == s.runTime + 1 &&
      (c.done ==> Playing(preprocess, w, epis, s0, c)) &&
      (!c.done ==> Cycled(preprocess, w, epis, s0, c))
  {
    var c := CycleStep(preprocess, w, epis, s);
    assert c.stored == s0.stored + EpisodeTransitions(preprocess, w, epis, c.runTime - 1) by {
      AppendAssoc(s0.stored, EpisodeTransitions(preprocess, w, epis, s.runTime - 1),
                  [StoredAt(preprocess, w, epis, s.runTime)]);
    }
  }

  /** The training gate after a non-terminal step brings the loop guard back. */
  lemma TrainPlaying(preprocess: RawFrame -> GrayImage, w: World, epis: int, s0: Loop, s: Loop)
    requires Cycled(preprocess, w, epis, s0, s)
    ensures Playing(preprocess, w, epis, s0, TrainStep(s))
  {
    TrainGatesNext(s0.nSteps, s.runTime - 2);
    if s.nSteps % TRAIN_EVERY == 0 {
      AppendAssoc(s0.calls, TrainGates(s0.nSteps, s.runTime - 2), [s.nSteps]);
    }
  }

  /** Every pass of a live episode performs exactly one step and keeps Playing. */
  lemma PassPlaying(preprocess: RawFrame -> GrayImage, w: World, epis: int, s0: Loop, s: Loop)
    requires Playing(preprocess, w, epis, s0, s) && s.runTime <= MAX_RUN_TIME && !s.done
    ensures Playing(preprocess, w, epis, s0, Pass(preprocess, w, epis, s))
    ensures Pass(preprocess, w, epis, s).runTime == s.runTime + 1
  {
    var a := if s.restart then RestartStep(s) else s;
    if s.restart {
      RestartRestarted(preprocess, w, epis, s0, s);
    } else {
      assert s.runTime == 1;
    }
    CycleNext(preprocess, w, epis, s0, a);
    var b := CycleStep(preprocess, w, epis, a);
    if !b.done {
      TrainPlaying(preprocess, w, epis, s0, b);
    }
  }

  /** The state an episode of Environment.run leaves when its loop ends, for
      an episode that began after nSteps0 global steps and learnIters0 training
      calls, with the buffer holding stored0 and the training calls calls0:
      EpisodeLength steps were performed and stored, the end flag is the last
      step's, the score misses the last step's reward, and training ran at the
      episode's gates. After a terminal step the restart block is not armed
      and the cycle block is; after the bound the training gate has just armed
      the restart block. */
  function EpisodeEnd(preprocess: RawFrame -> GrayImage, w: World, epis: int,
                      nSteps0: nat, learnIters0: nat, stored0: seq<Transition>, calls0: seq<nat>): (r: Loop)
    ensures r.runTime == EpisodeLength(w, epis) + 1 && r.done == Terminal(w, epis)
    ensures r.nSteps == nSteps0 + EpisodeLength(w, epis) && |r.stored| == |stored0| + EpisodeLength(w, epis)
    ensures r.restart != r.start && !r.save
    ensures r.learnIters - learnIters0 == |r.calls| - |calls0|
  {
    var k := EpisodeLength(w, epis);
    var terminal := Terminal(w, epis);
    var gates := EpisodeGates(w, epis, nSteps0);
    Loop(k + 1, terminal, !terminal, terminal, false, !terminal || k > 1,
         Outcome(w, epis, k).frame, RunScore(w, epis), Outcome(w, epis, k).reward,
         nSteps0 + k, learnIters0 + |gates|, stored0 + EpisodeTransitions(preprocess, w, epis, k), calls0 + gates)
  }

  /** When the loop guard fails, the state is EpisodeEnd. */
  lemma PlayingExit(preprocess: RawFrame -> GrayImage, w: World, epis: int, s0: Loop, s: Loop)
    requires Playing(preprocess, w, epis, s0, s) && !(s.runTime <= MAX_RUN_TIME && !s.done)
    ensures s == EpisodeEnd(preprocess, w, epis, s0.nSteps, s0.learnIters, s0.stored, s0.calls)
  {
    EpisodeLengthIff(w, epis, s.runTime - 1);
  }
}
