# Random-walk TD(0) and Monte Carlo value estimation

This project models `main.py`, a small experiment that estimates state values
of the nine-state random walk. The states are 0..8. Every episode starts in
the middle state 4 and moves one state left or right at random until it first
reaches an end. Entering state 8 gives reward 1 and anything else gives 0, so
the true value of state s is s/8.

Two estimators update a value table in place:

- `td_method` is one-step temporal difference learning, TD(0). After every
  move, the estimate of the state just left moves toward the reward plus the
  current estimate of the state just entered.
- `mc_method` is every-visit Monte Carlo. It walks the whole episode, takes
  its return (1 at the right end, 0 at the left end), then moves the estimate
  of every recorded non-terminal state toward that return, once per visit.

Two drivers use them:

- `calculate_state_values` runs 201 episodes from the initial table (0.5
  inside, 0 at both ends). It shows the interior estimates as they stand
  before episodes 0, 3, 30 and 200.
- `calculate_mean_abs_error` draws six error curves: TD(0) with step sizes
  0.15, 0.1 and 0.05, then Monte Carlo with 0.02, 0.03 and 0.04. Each curve
  averages 200 runs of 201 episodes, and every run starts from a fresh
  initial table. Before each episode, a run records the mean absolute error
  of the interior estimates against the true values.

The random moves become an explicit stream of directions (`-1` or `1`). Each
episode consumes a prefix of the stream and hands the rest on, in the order
in which the program draws them. When the stream runs out before an episode
ends, the model returns `None`. Floating-point numbers are modelled as reals.

The modules are:

- `RandomWalk` (walk.dfy): the chain and the walk itself.
- `ValueTable` (values.dfy): tables, true values and the error measure.
- `TemporalDifference` (td.dfy): the TD(0) estimator.
- `MonteCarlo` (mc.dfy): the Monte Carlo estimator.
- `Episodes` (episodes.dfy): runs of consecutive episodes of either estimator.
- `StateValueExperiment` (statevalues.dfy): the snapshot experiment.
- `ErrorExperiment` (errors.dfy): the error-curve experiment.

## Model

| member | source | states |
|---|---|---|
| RandomWalk.Reward | main.py:18 | The reward of a move is 1 when it enters state 8 and 0 otherwise. |
| RandomWalk.Walk | main.py:14-25 | A completed walk starts at the given state and moves one state per direction. It passes only through interior states and stops at the first end it enters. Every visited state lies in 0..8. |
| RandomWalk.WalkIsTheEpisode | main.py:28-41 | `Walk` returns a trace exactly when that trace is an episode of the directions, in both directions of the equivalence. The directions therefore determine the episode uniquely. |
| RandomWalk.EpisodeIsWalk | main.py:31-41 | Any trace that obeys the episode rules (moves as directed, stops at the first end) is the one the walk computes. |
| ValueTable.TrueValuesAreEighths | main.py:10 | The true value table has nine entries, and entry s is s/8. |
| ValueTable.MeanAbsError | main.py:76 | The per-episode error of a table is never negative. |
| ValueTable.MeanAbsErrorZero | main.py:76 | The error is zero exactly when all seven interior estimates equal their true values. |
| ValueTable.SumAbsDiffZero | main.py:76 | The summed absolute difference of two sequences is zero exactly when the sequences are equal. |
| ValueTable.InitialError | main.py:11 | The error of the initial table (0.5 inside, true values s/8) is 3/14. |
| ValueTable.InitialValuesShape | main.py:11 | The initial table has nine entries, 0 at both ends and 0.5 in each interior state. |
| TemporalDifference.BoundaryTargets | main.py:18-21 | When both ends of the table hold 0, the TD target of entering state 8 is exactly 1 and that of entering state 0 is exactly 0. |
| TemporalDifference.TdStep | main.py:16-22 | One update changes only the entry of the state just left. It moves that entry by alpha times the reward plus the estimate of the new state, as the table holds it at that moment, minus the old estimate. |
| TemporalDifference.TdAlong | main.py:15-25 | Replaying the updates along a path keeps the table's shape and changes no state that the path never leaves. |
| TemporalDifference.TdAlongLast | main.py:21-25 | The replay of a path ends with the TD(0) update of its last move, the one into the terminal state, applied to the table the earlier moves left. The move that stops the episode is updated like every other. |
| TemporalDifference.TdFrom | main.py:15-25 | The interleaved episode loop completes exactly when the walk does. It consumes exactly the walk's directions and leaves every state it never left unchanged. |
| TemporalDifference.TdMethod | main.py:13-25 | A TD(0) episode from state 4 completes exactly when the walk does. It leaves the unused directions behind and never changes either end of the table. |
| TemporalDifference.TdMethodIsTheLoop | main.py:13-25 | For every table and direction stream, the episode equals the interleaved update-then-move loop from state 4: same completion, same table, same leftover directions. |
| TemporalDifference.TdFromReplaysWalk | main.py:15-25 | Updating while walking gives the same table as walking first and then applying one update per move, in order, each update reading the table its predecessor left. |
| TemporalDifference.TdKeepsEndsZero | main.py:11-25 | A TD(0) episode starting with both ends at 0 leaves them at 0. |
| TemporalDifference.StraightRightReplay | main.py:15-25 | Replaying the walk 4, 5, 6, 7, 8 moves each of 4..6 toward its right neighbour's estimate as it stood before the episode, and 7 toward the reward 1 plus the right end's estimate. No other entry changes. |
| TemporalDifference.StraightRightEpisode | main.py:13-25 | Four right moves make a TD(0) episode that leaves the rest of the stream unused. It gives states 4..7 exactly those four updates, only the last of which sees the reward 1, and keeps every other entry. |
| MonteCarlo.Return | main.py:36-41 | The return is 1 exactly when the episode ended at state 8, and 0 exactly when it ended at state 0. |
| MonteCarlo.McStep | main.py:44 | One Monte Carlo update moves the visited state's estimate by alpha times the return minus that estimate, and changes no other entry. |
| MonteCarlo.McUpdates | main.py:43-44 | The batch update keeps the table's shape and leaves every state that does not occur in the batch unchanged. |
| MonteCarlo.McUpdatesClosedForm | main.py:43-44 | A state that occurs c times in the batch, repeats included, ends with its distance to the return scaled by (1 - alpha)^c. |
| MonteCarlo.McMethod | main.py:27-44 | A Monte Carlo episode completes exactly when the walk does. It consumes the walk's directions and changes only states on the path other than the final end, so both ends stay untouched. |
| MonteCarlo.McMethodClosedForm | main.py:27-44 | After an episode, every state's estimate has moved toward the episode's return once per visit to that state before the final move. |
| MonteCarlo.McKeepsEndsZero | main.py:27-44 | A Monte Carlo episode starting with both ends at 0 leaves them at 0. |
| MonteCarlo.StraightRightEpisode | main.py:27-44 | Four right moves form the walk 4, 5, 6, 7, 8 and leave the rest of the stream unused. Each of 4..7 moves once toward the return 1, and states 0..3 and 8 keep their estimates. |
| MonteCarlo.VisitedOnce | main.py:43-44 | In the batch of the walk 4, 5, 6, 7 with return 1, each of those states receives exactly one update toward 1. |
| Episodes.Episode | main.py:56 | The estimator TD runs the TD(0) episode and MC the Monte Carlo episode. Either completes exactly when the walk from state 4 does, consumes that walk's directions and leaves both ends of the table as they were. |
| Episodes.DefaultAlpha | main.py:13-27 | An estimator called without a step size uses 0.05 for TD(0) and 0.02 for Monte Carlo. |
| Episodes.EpisodeStep | main.py:56 | The selected estimator, viewed as a step function, is that estimator's episode on every table. It meets the guarantees the drivers rely on. |
| Episodes.RunEpisodes | main.py:52-56 | Running n consecutive episodes on one table consumes at least n directions. It leaves an unused suffix of the stream and keeps both ends of the table. |
| Episodes.RunEpisodesExhausted | main.py:74-77 | A stream too short for n episodes is too short for any larger number. |
| Episodes.EndsStayZero | main.py:11-25 | From any table whose ends are 0, the ends stay 0 through any number of episodes, so every TD target on entering an end is that end's return. |
| Episodes.InitialEndsStayZero | main.py:51-56 | Runs start from the initial table, so its ends stay 0 after any number of episodes of either estimator. |
| StateValueExperiment.CollectCheckpoints | main.py:51-56 | The collection loop completes exactly when all its episodes complete. It records one snapshot per checkpoint below the episode count, and the snapshot for i is the interior left by exactly i episodes. |
| StateValueExperiment.FirstSnapshotIsInitial | main.py:51-55 | The snapshot taken before the first episode is seven estimates of 0.5. |
| StateValueExperiment.AllCheckpointsBelowEpisodeCount | main.py:50-52 | All four checkpoints 0, 3, 30 and 200 fall within `range(201)`, so each one is shown. |
| StateValueExperiment.StateValues | main.py:46-56 | The experiment shows snapshots at exactly 0, 3, 30 and 200. Each is the interior left by that many episodes, and the one at 0 is seven estimates of 0.5. |
| ErrorExperiment.ErrorsBefore | main.py:74-77 | A run's error curve has one non-negative entry per episode. Entry i is the error of the table left by exactly i episodes, so it is measured before episode i. |
| ErrorExperiment.CurveStartsAtInitialError | main.py:73-76 | Every run from a fresh initial table records 3/14 as its first error, measured before the first episode. |
| ErrorExperiment.ErrorCurveUnique | main.py:74-77 | Any curve whose entry i is the error before episode i, for every i, is the run's error curve. |
| ErrorExperiment.ErrorsBeforeSnoc | main.py:74-76 | The curve of i + 1 episodes is the curve of i episodes followed by the error of the table those i episodes left. |
| ErrorExperiment.RunErrors | main.py:72-77 | The run loop completes exactly when n episodes do. It returns the run's error curve together with the table and directions that its episodes left. |
| ErrorExperiment.FreshRun | main.py:72-77 | A run starts from a fresh initial table and completes exactly when its n episodes do. Its curve is the error curve of those episodes. |
| ErrorExperiment.RunAll | main.py:70-79 | The runs of one configuration yield one error curve per run, each with n non-negative entries. |
| ErrorExperiment.RunAllEachRun | main.py:70-79 | Run k's curve is that of a run of its own on the directions that the first k runs left. |
| ErrorExperiment.RunAllFreshStart | main.py:70-79 | Each averaged run starts from a fresh initial table. Run k's curve is the error curve of n episodes from that table on the directions the earlier runs left. |
| ErrorExperiment.RunAllExhausted | main.py:70 | Once a run cannot complete, no larger number of runs completes. |
| ErrorExperiment.ColumnSumPermutation | main.py:79 | A column sum does not depend on the order of the runs. |
| ErrorExperiment.MeanCurveIsErrorCurve | main.py:79-80 | Averaging error curves gives a curve of the same length with no negative entry. |
| ErrorExperiment.MeanCurveRunOrder | main.py:69-80 | The averaged curve is the same for any permutation of the runs. |
| ErrorExperiment.AggregateErrors | main.py:69-80 | The aggregation completes exactly when all runs do. At every episode index it returns the sum of the runs' errors divided by the number of runs, along with the unused directions. |
| ErrorExperiment.MeanCurves | main.py:67-98 | Each configuration's averaged curve is an error curve, in the order of the configurations. |
| ErrorExperiment.MeanAbsErrorsFor | main.py:67-98 | One aggregation per configuration, in order, threading the direction stream, yields exactly the reference list of averaged curves. |
| ErrorExperiment.MeanAbsErrors | main.py:61-98 | There are six averaged curves (TD 0.15, 0.1, 0.05, then MC 0.02, 0.03, 0.04). Each has 201 non-negative entries and averages 200 runs. |

## Left out

- Plotting: `plt.plot`, the labels and legends, `plot_figures` and `savefig` are output only. `StateValues` returns the snapshots it would plot, and `MeanAbsErrors` returns the curves.
- The random number generator and its seed (lines 6-7): `np.random.choice([-1, 1])` is replaced by an explicit direction stream. The stream is one sequence shared by every episode in the order the program draws moves. Running out of directions gives `None`, where the program would draw more.
- Termination: an episode ends with probability 1 but has no bound on its length. The model only covers episodes that end within the given directions; convergence of the estimates is not modelled.
- Floating point: tables and errors are reals. Rounding in the updates, in `/ 7.0` and in `/= runs` is not modelled.
- Estimator selection: the string test `method == 'TD'` is the two-valued `Estimator`. Anything other than `'TD'` selects Monte Carlo, so the default argument `method = 1` of `calculate_state_values` means Monte Carlo.
- AggregateErrors: requires at least one run. The program always uses 200; with 0 runs, numpy would divide by zero.
- TemporalDifference.TdMethod: written as the walk followed by the replay of its updates, so that the drivers do not unfold the loop. Its contract gives completion, the unused directions and the ends; `TdMethodIsTheLoop` proves it equal to the interleaved loop `TdFrom`, and `TdAlongLast` and `StraightRightEpisode` state the values the updates write.
- TemporalDifference.TdFrom: its contract gives completion, the directions consumed and the frame; the value each move writes is stated by TdFromReplaysWalk, TdAlongLast and StraightRightEpisode, not by TdFrom itself.
- In-place mutation and aliasing: each episode returns a new table rather than mutating the caller's list or array.
