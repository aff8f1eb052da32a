/** The state-value experiment (`calculate_state_values`): one long run of
    episodes from the initial table, showing the interior estimates as they
    stand before chosen episodes. */
module StateValueExperiment {
  import opened Wrappers
  import opened RandomWalk
  import opened ValueTable
  import opened Episodes

  /** `snapshot` holds the interior estimates left by exactly `i` episodes
      from the initial table. */
  ghost predicate IsSnapshot(step: Step, dirs: seq<Direction>, i: int, snapshot: seq<real>)
    requires IsStep(step)
  {
    && 0 <= i
    && RunEpisodes(step, InitialValues, dirs, i).Some?
    && snapshot == Interior(RunEpisodes(step, InitialValues, dirs, i).value.table)
  }

  /** The checkpoints at which a run of `total` episodes takes a snapshot. */
  function CheckpointsBelow(checkpoints: set<int>, total: int): set<int> {
    set i | i in checkpoints && 0 <= i < total
  }

  lemma CheckpointsBelowStep(checkpoints: set<int>, i: int)
    requires 0 <= i
    ensures CheckpointsBelow(checkpoints, i + 1)
            == CheckpointsBelow(checkpoints, i) + (if i in checkpoints then {i} else {})
  {
  }

  /** What the collector knows before episode i: `current` is what i episodes
      left, and `snapshots` holds one snapshot per checkpoint below i. */
  ghost predicate CollectedBefore(step: Step, checkpoints: set<int>, dirs: seq<Direction>,
                                  i: nat, current: Outcome, snapshots: map<int, seq<real>>)
    requires IsStep(step)
  {
    && RunEpisodes(step, InitialValues, dirs, i) == Some(current)
    && snapshots.Keys == CheckpointsBelow(checkpoints, i)
    && forall j :: j in snapshots ==> IsSnapshot(step, dirs, j, snapshots[j])
  }

  /** Taking the snapshot for i (when i is a checkpoint) and then running
      episode i establishes what the collector knows before episode i + 1. */
  lemma CollectStep(step: Step, checkpoints: set<int>, dirs: seq<Direction>,
                    i: nat, current: Outcome, snapshots: map<int, seq<real>>)
    requires IsStep(step)
    requires CollectedBefore(step, checkpoints, dirs, i, current, snapshots)
    requires step(current.table, current.rest).Some?
    ensures var s' := if i in checkpoints then snapshots[i := Interior(current.table)] else snapshots;
            CollectedBefore(step, checkpoints, dirs, i + 1, step(current.table, current.rest).value, s')
  {
    RunEpisodesStep(step, InitialValues, dirs, i);
    CheckpointsBelowStep(checkpoints, i);
  }

  /** Runs `total` episodes from the initial table, snapshotting the interior
      estimates before episode i for every checkpoint i below `total`. The
      snapshot for i is taken before episode i runs, so it is the table left
      by exactly i episodes. */
  method CollectCheckpoints(step: Step, checkpoints: set<int>, total: nat, dirs: seq<Direction>)
    returns (r: Option<map<int, seq<real>>>)
    requires IsStep(step)
    ensures r.Some? <==> RunEpisodes(step, InitialValues, dirs, total).Some?
    ensures r.Some? ==> r.value.Keys == CheckpointsBelow(checkpoints, total)
    ensures r.Some? ==> forall i :: i in r.value ==> IsSnapshot(step, dirs, i, r.value[i])
  {
    var current := Outcome(InitialValues, dirs);
    var snapshots: map<int, seq<real>> := map[];
    var i := 0;
    while i < total
      invariant i <= total
      invariant CollectedBefore(step, checkpoints, dirs, i, current, snapshots)
    {
      ghost var before := snapshots;
      if i in checkpoints {
        snapshots := snapshots[i := Interior(current.table)];
      }
      var next := step(current.table, current.rest);
      if next.None? {
        RunEpisodesStep(step, InitialValues, dirs, i);
        RunEpisodesExhausted(step, InitialValues, dirs, i + 1, total);
        return None;
      }
      CollectStep(step, checkpoints, dirs, i, current, before);
      current := next.value;
      i := i + 1;
    }
    return Some(snapshots);
  }

  /** The episode counts at which the state values are shown. */
  const Checkpoints: set<int> := {0, 3, 30, 200}

  /** The number of episodes of the experiment, `range(201)`. */
  const EpisodeCount: nat := 201

  lemma AllCheckpointsBelowEpisodeCount()
    ensures CheckpointsBelow(Checkpoints, EpisodeCount) == Checkpoints
  {
  }

  /** The snapshot before the first episode is the initial interior: seven
      estimates of 0.5. */
  lemma FirstSnapshotIsInitial(step: Step, dirs: seq<Direction>, snapshot: seq<real>)
    requires IsStep(step)
    requires IsSnapshot(step, dirs, 0, snapshot)
    ensures snapshot == [0.5, 0.5, 0.5, 0.5, 0.5, 0.5, 0.5]
  {
  }

  /** The experiment as it runs: 201 episodes of estimator `e` with its
      default step size, snapshots before episodes 0, 3, 30 and 200. The
      episode-0 snapshot is seven estimates of 0.5. */
  method StateValues(e: Estimator, dirs: seq<Direction>) returns (r: Option<map<int, seq<real>>>)
    ensures r.Some? <==> RunEpisodes(EpisodeStep(e, DefaultAlpha(e)), InitialValues, dirs, EpisodeCount).Some?
    ensures r.Some? ==> r.value.Keys == Checkpoints
    ensures r.Some? ==> r.value[0] == [0.5, 0.5, 0.5, 0.5, 0.5, 0.5, 0.5]
    ensures r.Some? ==> forall i :: i in r.value ==> IsSnapshot(EpisodeStep(e, DefaultAlpha(e)), dirs, i, r.value[i])
  {
    var step := EpisodeStep(e, DefaultAlpha(e));
    r := CollectCheckpoints(step, Checkpoints, EpisodeCount, dirs);
    AllCheckpointsBelowEpisodeCount();
    if r.Some? {
      FirstSnapshotIsInitial(step, dirs, r.value[0]);
    }
  }
}
