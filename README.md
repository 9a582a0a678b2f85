# smart-disks-PPO: the experience buffer and the episode loop, in Dafny

This project models the core of a pursuit-evasion reinforcement-learning
trainer. Two parts are modelled:

- **The experience buffer `Memory`** (`src/memory.py`). It holds seven
  parallel lists, one entry per simulated step:
  - image states, lidar states, probabilities, values, actions, rewards and
    done flags.

  Storing a step preprocesses the image and divides the lidar reading by
  200. `generate_batches` cuts a shuffled ordering of the indices into
  consecutive mini-batches. `clear_memory` empties the lists.
- **The orchestration of `Environment`** (`src/main.py`):
  - `run` is a state machine driven by trigger flags. Each pass of its step
    loop restarts, captures, acts, stores and trains. Training runs every 64
    global steps. Each episode ends with bookkeeping: the score history,
    a rolling average over 50 scores, a best-score watermark that decides
    when the policy is saved, and a flush of the history every 100 episodes.
  - `test` is the evaluation loop. It plays 100 episodes and keeps one
    score per episode.

Files and modules:

- `memory.dfy`, module `ReplayMemory`:
  - the class `Memory`, with the seven lists as `seq` fields;
  - the stored-image and lidar normalisation;
  - `numpy.arange`, Python slicing and the batch comprehension, with the
    partition proofs.
- `episode.dfy`, module `Episodes`: what an episode does, as functions of
  the collaborators' answers. A `World` value gives, for each episode and
  step, the capture, the lidar reading, the policy's choice, and the reward
  and end flag. From it the module defines:
  - the episode length under the 452-step bound;
  - the two scores, in training and in evaluation;
  - the training gates at multiples of 64;
  - the stored transitions.
- `trigger_loop.dfy`, module `TriggerLoop`:
  - the four blocks of `run`'s step loop, as functions on the state they
    update;
  - the invariant `Playing` that one pass of the loop preserves;
  - `EpisodeEnd`, the state in which the loop leaves every episode.
- `bookkeeping.dfy`, module `Bookkeeping`: the end-of-episode bookkeeping
  (`EndEpisode`) and the save-record invariant it keeps.
- `main.dfy`, module `Main`:
  - the class `Environment`. Its methods are the blocks of `run`, one
    episode of `run`, `run` itself, one evaluation episode, and `test`.
    Each method is proved against the functions above;
  - the folds (`RunSteps`, `RunTransitions`, `RunGates`, `RunBooks`) that
    say what a whole run adds up to, with the lemmas about them.

Behaviour of the source that the model keeps, and proves:

- **The last step's reward is never part of a training episode's score.**
  In `run`, a step's reward is added to `scores` in the restart block
  (`src/main.py:186`), at the start of the next pass. An episode that ends
  on its done flag leaves the loop from the save block
  (`src/main.py:264-265`). An episode that reaches 452 steps fails the
  guard before another restart block runs. Either way the last step's
  reward is lost. `test` adds every reward (`src/main.py:455`).
  `Episodes.RunScoreMissesLastReward` relates the two scores.
- **The terminal step skips the training gate.** `TrainedAfterStep` states
  this.
- **The save record writes `run_time` as it is after the loop.** That is
  the number of steps plus one (`src/main.py:300`), not the number of
  steps taken.
- **Two `break`s are dead code.** The checks `if self.done: break` at
  `src/main.py:189-190` and `src/main.py:404-405` never fire, because the
  loop guard already excludes `done`. The model keeps both. Before each
  one, `PlayEpisode` and `TestEpisode` assert `!done`, and the verifier
  proves that assertion.
- **`src/main.py` itself never calls `clear_memory`.** `Run` proves that
  the buffer ends as its old contents followed by every transition of
  the run, in order. This relies on `train()` leaving the shared buffer
  alone (see "Left out").

## Model

| member | source | states |
|---|---|---|
| ReplayMemory.Memory.constructor | src/memory.py:5-14 | The seven lists start empty, and the batch size and preprocessing are the ones given. |
| ReplayMemory.Memory.StoreMemory | src/memory.py:32-50 | Each of the seven lists gets exactly one new last entry: the preprocessed image, the lidar vector divided by 200, and the action, probability, value, reward and done flag unchanged. Earlier entries are untouched and the lists stay equally long, so the buffer read as rows gains exactly the stored transition at its end. |
| ReplayMemory.Normalize | src/memory.py:34-39 | The stored image is 84x84, and every pixel is the grey level divided by 255, so it lies in [0, 1]. |
| ReplayMemory.NormalizeLidar | src/memory.py:42 | The stored lidar vector has the raw vector's length, and each component times 200 is the raw component. If every raw reading is in [0, 200], every stored component is in [0, 1]. |
| ReplayMemory.Memory.GenerateBatches | src/memory.py:16-30 | Returns the seven lists in insertion order without changing the buffer. The batches are the comprehension over np.arange starts on the given permutation. There are ceil(n / batch_size) of them, none for an empty buffer. All but the last hold batch_size indices. Their concatenation is the permutation, and they partition 0 .. n-1. |
| ReplayMemory.Arange | src/memory.py:18 | np.arange(start, stop, step) is empty exactly when start >= stop. Its entries lie in [start, stop), the first is start, and one more step from the last reaches stop. |
| ReplayMemory.ArangeAt | src/memory.py:18 | The k-th entry of np.arange is start + k * step. |
| ReplayMemory.ArangeNext | src/memory.py:18 | Consecutive entries of np.arange are one step apart. |
| ReplayMemory.ArangeBounds | src/memory.py:18 | The last of the n starts lies below stop, and n steps reach stop: n = ceil((stop - start) / step). |
| ReplayMemory.Slice | src/memory.py:21 | Python's s[i:j] clamps j to the length: within bounds it is s[i..j], past the end it is s[i..], and empty once i reaches the clamped end. |
| ReplayMemory.Batches | src/memory.py:21 | The comprehension yields one batch per np.arange start. Every batch is non-empty and holds at most batch_size indices. |
| ReplayMemory.BatchCount | src/memory.py:17-21 | There are (n + batch_size - 1) / batch_size batches, and none exactly when the buffer is empty. |
| ReplayMemory.BatchAt | src/memory.py:18-21 | Batch k starts below n and is indices[k*bs .. min(k*bs + bs, n)]. |
| ReplayMemory.BatchSizes | src/memory.py:18-21 | Every batch but the last holds batch_size indices, and the last holds n - batch_size * (count - 1). |
| ReplayMemory.FlattenBatches | src/memory.py:19-21 | Concatenating the batches in order gives back the shuffled indices. |
| ReplayMemory.BatchesPartition | src/memory.py:19-21 | For a permutation of 0 .. n-1, every batch entry is in 0 .. n-1, every index is in some batch, no index is in two batches, and no batch repeats an index. |
| ReplayMemory.Memory.ClearMemory | src/memory.py:52-59 | All seven lists become empty, and the batch size is unchanged. |
| Episodes.StepsFrom | src/main.py:173 | An episode that has reached step t stops at a step between t and 452. |
| Episodes.StepsFromStops | src/main.py:173 | Every step skipped on the way was not terminal, and the step stopped at is terminal unless it is the 452nd. |
| Episodes.EpisodeLength | src/main.py:128-262 | An episode performs between 1 and 452 steps. |
| Episodes.EpisodeLengthIff | src/main.py:173 | The episode length is m if and only if m is within 1 .. 452, no step before m was terminal, and step m is terminal or the 452nd. |
| Episodes.RunScore | src/main.py:183-190 | The score run records is the sum of the rewards of the episode's steps 1 .. length - 1, without the last step's reward. |
| Episodes.TestScore | src/main.py:453-455 | The score test records is the sum of the rewards of all the episode's steps 1 .. length. |
| Episodes.TestingNext | src/main.py:392-455 | One pass of test's step loop on a live episode advances run_time by one, takes that step's end flag and adds its reward to the score. |
| Episodes.TestingExit | src/main.py:392-455 | When test's step loop ends, run_time is the episode length plus one, done tells whether the last step was terminal, and the score is the sum of all the episode's rewards. |
| Episodes.RunScoreMissesLastReward | src/main.py:183-190 | The evaluation score is the training score plus the reward of the episode's last step, so run's score misses exactly that reward. |
| Episodes.TrainGatesSound | src/main.py:272-279 | The global step counts at which an episode trains are multiples of 64, within the episode's steps, and strictly increasing. |
| Episodes.TrainGatesMember | src/main.py:274 | A count is a training gate of a step range if and only if it lies in that range and is a multiple of 64. |
| Episodes.TrainCadence | src/main.py:274-279 | Over global steps n0 + 1 .. n0 + m, train() runs (n0 + m) / 64 - n0 / 64 times. |
| Episodes.EpisodeGates | src/main.py:264-279 | The global step counts an episode trains at are multiples of 64 within the episode's own steps. After a terminal last step, none is at that step. |
| Episodes.TrainedAfterStep | src/main.py:264-279 | Training runs after step t if and only if the global step count is then a multiple of 64 and step t is not a terminal last step. |
| Episodes.EpisodeTransitions | src/main.py:258 | An episode of m steps stores exactly m transitions. |
| Episodes.EpisodeTransitionsDone | src/main.py:247-258 | The i-th transition an episode stores carries the done flag of step i + 1. |
| Episodes.EpisodeDones | src/main.py:247-265 | Of one episode's transitions, only the last can carry done, and it does exactly when the episode ended on its done flag. |
| TriggerLoop.Reset | src/main.py:123-138 | The per-episode reset sets run_time to 1, clears done, zeroes the score and the reward, and arms only the start-new-cycle trigger. The global counters, the buffer and the captured frame are kept. |
| TriggerLoop.RestartStep | src/main.py:183-202 | The restart block adds the pending reward to the score. Unless done, it disarms itself and arms the cycle; on done (the `break`) the flags stay. Nothing else changes. |
| TriggerLoop.SaveStep | src/main.py:256-262 | The save block appends the transition of the current capture, lidar reading, policy output, reward and end flag. It adds one to n_steps and run_time and disarms itself. Nothing else changes. |
| TriggerLoop.CycleStep | src/main.py:206-270 | The cycle at step t stores step t's transition, takes its capture, reward and end flag, and adds one to n_steps and run_time. On done (the `break`) the cycle and training flags stay; otherwise the cycle disarms itself and the training gate is armed. |
| TriggerLoop.TrainStep | src/main.py:272-281 | The training gate records a train() call at n_steps and counts it exactly when n_steps is a multiple of 64, and arms the restart block. Nothing else changes. |
| TriggerLoop.Pass | src/main.py:173-284 | One pass advances run_time by at most one. n_steps and the buffer advance with it, so one step means one stored transition. A pass that runs the restart block adds the pending reward. At most one train() call is recorded, and learn_iters counts it. |
| TriggerLoop.EpisodeEnd | src/main.py:173-284 | At the end of an episode run_time is the length plus one and done is the last step's flag. n_steps and the buffer have grown by the length. Exactly one of the restart and cycle flags is armed. learn_iters grew by the number of recorded train() calls. |
| TriggerLoop.ResetPlaying | src/main.py:123-138 | The reset state satisfies the step-loop invariant with no step taken. |
| TriggerLoop.RestartRestarted | src/main.py:183-202 | From the guard of a live episode that has taken a step, the restart block adds that step's reward and arms the next cycle. |
| TriggerLoop.CycleNext | src/main.py:206-270 | The capture/act/store block performs one step: the transition is stored, n_steps and run_time go up by one, and it either ends the episode at the guard or arms the training gate. |
| TriggerLoop.TrainPlaying | src/main.py:272-281 | After a non-terminal step, the training gate calls train() exactly when n_steps is a multiple of 64, counts that call, and restores the loop invariant. |
| TriggerLoop.PassPlaying | src/main.py:173-284 | Each pass of run's step loop on a live episode performs exactly one step and keeps the invariant. The invariant covers steps counted and stored, the score equal to the rewards of all steps but the last, the training gates so far, and the trigger flags. |
| TriggerLoop.PlayingExit | src/main.py:173 | When the guard fails, the state is EpisodeEnd: the episode's steps were performed and stored, done is the last step's flag, the score misses the last reward, training ran at the episode's gates, and the flags are those the last block left. |
| Bookkeeping.LastN | src/main.py:289 | s[-50:] has min(len(s), 50) entries: the last ones of s, in order. |
| Bookkeeping.RollingAverage | src/main.py:289 | When the history holds at most 50 scores, np.mean(record_scores[-50:]) is the mean (sum over count) of the whole history. |
| Bookkeeping.MeanBounds | src/main.py:289 | The rolling average lies between the smallest and the largest score averaged. |
| Bookkeeping.EndEpisode | src/main.py:288-312 | The new score is appended and the average of the last 50 is taken. The policy is saved if and only if that average strictly exceeds the watermark; then the watermark becomes the average, the save index goes up by one, and one save record is written. Otherwise all three are unchanged. The watermark never decreases. On multiples of 100 the history (with the new score) is flushed and emptied; otherwise it is kept. |
| Bookkeeping.EndEpisodeKeepsSaves | src/main.py:294-301 | The save records stay numbered consecutively, their best scores strictly increase from above the initial watermark, and the watermark is the last of them. |
| Bookkeeping.EndEpisodeHistoryLength | src/main.py:303-312 | If the history holds one score per episode since the last flush, it still does after the next episode. |
| Bookkeeping.ShortHistoryAverage | src/main.py:289 | A history [10, 20, 30] averages to 20. |
| Bookkeeping.SaveScenario | src/main.py:288-301 | History [10, 20] plus a score of 30, against watermark 15, saves: the watermark becomes 20, the save index goes from 1 to 2, and one record is written. |
| Main.RunProgressParts | src/main.py:115-121 | Starting from zero steps and zero training calls, a run's n_steps is its total step count, learn_iters is its number of training gates, the buffer gains the run's transitions in order, and the train calls are the run's gates. |
| Main.RunStepsBound | src/main.py:121-173 | Over a run of E episodes, n_steps lies between E and 452 * E. |
| Main.RunTransitionsCount | src/main.py:258-259 | A run stores exactly one transition per global step: the buffer grows by n_steps. |
| Main.RunGatesSound | src/main.py:272-279 | The train calls of a run happen at multiples of 64, within the steps taken, at strictly increasing counts, so never twice at the same count. |
| Main.RunTrainCount | src/main.py:274-279 | A run calls train() at most n_steps / 64 times. |
| Main.BestNonDecreasing | src/main.py:294-296 | The watermark after an episode is never above its value after a later episode. |
| Main.RunSavesConsistent | src/main.py:294-301 | Throughout a run, the save records are numbered consecutively with strictly increasing best scores, and the watermark is the last of them. |
| Main.RunHistoryLength | src/main.py:303-312 | Starting at episode 1701 with an empty history, after episode e - 1 the history holds (e - 1) % 100 scores, which is fewer than 100. |
| Main.Environment.constructor | src/main.py:42-101 | The buffer is a fresh empty Memory(batch_size=32), done is false, the history is empty, run_time is 1, and only the start-new-cycle trigger is armed. |
| Main.Environment.RestartParams | src/main.py:183-202 | The restart block adds the reward to the score and, unless done, re-arms the cycle. The new state is RestartStep of the old. |
| Main.Environment.StartNewCycle | src/main.py:206-270 | The capture/act block takes the step's outcome, saves it and, unless done, arms the training gate. The new state is CycleStep of the old. |
| Main.Environment.SaveExperience | src/main.py:256-262 | The save block stores one transition, counts the step and advances run_time. The new state is SaveStep of the old. |
| Main.Environment.TrainingGate | src/main.py:272-281 | train() is recorded and learn_iters counted exactly when n_steps is a multiple of 64, and the restart block is armed. The new state is TrainStep of the old. |
| Main.Environment.PlayEpisode | src/main.py:122-284 | One episode leaves the accumulators, buffer and train calls at NextProgress of the old. The score is the sum of every reward but the last. run_time is the episode length plus one, done is the last step's flag, and the trigger flags are those EpisodeEnd gives. |
| Main.Environment.EndOfEpisode | src/main.py:288-312 | The history, watermark, save index, save log and score log become EndEpisode of their old values. |
| Main.Environment.Episode | src/main.py:121-317 | One iteration of run's episode loop: the progress is NextProgress and the bookkeeping is EndEpisode, with the episode's training score and its final run_time. |
| Main.Environment.Run | src/main.py:103-319 | Episodes 1701 .. 20000 in order, from n_steps = 0, learn_iters = 0, watermark 84403.71148195057 and save index 1. The counters, buffer and train calls end at RunProgress, and the bookkeeping at RunBooks. |
| Main.Environment.TestEpisode | src/main.py:345-457 | One evaluation episode's score is the sum of all its rewards, the terminal one included. run_time ends at the episode length plus one, and done is the last step's flag. |
| Main.Environment.Test | src/main.py:337-464 | Exactly 100 scores, the e-th being episode e's evaluation score, are returned and appended as one record to the test log. |

## Left out

- Rendering: pygame's window, drawing, display updates, `get_capture`, the
  QUIT event (`sys.exit`) and `pygame.quit`. These are user interface and
  I/O. A screen capture is an input value (`RawFrame`).
- The PIL image pipeline: grayscale, rotate, mirror and resize. It is one
  opaque 84x84-valued function `preprocess`, fixed when the buffer is
  built. Only the division by 255 that follows it is modelled.
- The DRL collaborator: `policy`, `train`, `load_models` and `save_model`.
  - The policy's answers are part of the `World` input.
  - `train` is a ghost log of the global step counts at which it is called.
  - `save_model` is represented by the save-record log.
  - `load_models` has no effect in the model.
- `Bookkeeping.RollingAverage`: its contract covers only histories of at
  most 50 scores. For longer histories the window is the one `LastN`
  states: the last 50 scores, in order. The long case is left to `LastN` so
  the proofs about whole runs stay small.
- `Main.Environment.TrainingGate`: `train()` is assumed to leave the
  buffer unchanged. The learner receives that same buffer at
  `src/main.py:81`, and its code is not part of this model. `Run`'s
  statement about the buffer and `RunTransitionsCount` hold only under
  this assumption. A learner that calls `generate_batches` and then
  `clear_memory` inside `train()` would empty the buffer at every gate.
- `Main.Environment.TrainingGate`: the busy wait on `training_finished` is
  not modelled (`src/main.py:277-278`). Training is treated as
  synchronous, so the wait ends.
- Resetting `training_finished` in the restart block is not modelled,
  because it belongs to the collaborator.
- The environment collaborators (Utils, Sensor, Obstacles, Pursuiter,
  Evasor) are not modelled: `random_spawn`, `lidar_observations`,
  `get_reward`, `controls` and `lidar`. The `World` parameter supplies
  their results: capture, lidar reading, action, reward, done flag and
  spawn distance for each episode and step. The `ACTIONS` lookup needs
  only that the policy returns an index in 0 .. 8.
- Appends to `../records/save_network.txt`, `save_records.txt` and
  `save_record_test.txt` are ghost sequences of the records written. The
  text formatting is not modelled.
- `gc.collect`, `time.sleep`, `print` and the `np.empty` resets of
  `current_state` and `next_state` are left out. The resets are
  overwritten before being read. `next_state` is never read.
- `Main.Environment.constructor`: `current_state` starts as an empty
  capture rather than an uninitialised 200x200x3 array. Its contents are
  never read before the first capture.
- `ReplayMemory.Memory.GenerateBatches` takes the shuffled ordering as a
  permutation parameter instead of calling `np.random.shuffle`. The numpy
  array conversions are the lists themselves.
- `ReplayMemory.Memory.GenerateBatches` requires `batch_size > 0`. With a
  step of 0, `np.arange` raises, and the only buffer built
  (`src/main.py:78`) uses 32.
- Floating point: scores, rewards, the mean and the divisions use `real`,
  not IEEE doubles.
- `Main.Environment.PlayEpisode`, `Main.Environment.Episode`,
  `Main.Environment.EndOfEpisode`, `Main.Environment.TestEpisode` and the
  block methods are the parts of `run` and `test` split into methods. A
  `break` out of the step loop is a return from the block method followed
  by a `break` in `PlayEpisode`.
- `Main.Environment.Run` does not touch the test log, and `Test` touches
  only the evaluation state, the flags it resets, and the test log.
