/** Episodes as the experiment drivers see them. A driver runs one estimator
    again and again on one table, every episode drawing its moves from where
    the previous one stopped in a shared stream of directions. The drivers
    only rely on what every episode guarantees (`IsStep`), so they are
    written once for any estimator and instantiated with `EpisodeStep`. */
module Episodes {
  import opened Wrappers
  import opened RandomWalk
  import opened ValueTable
  import TD = TemporalDifference
  import MC = MonteCarlo

  /** Which estimator a driver runs: `'TD'` selects TD(0), anything else
      every-visit Monte Carlo. */
  datatype Estimator = TD | MC

  /** The step size an estimator uses when its caller gives none. */
  function DefaultAlpha(e: Estimator): (alpha: real)
    ensures e == TD ==> alpha == 0.05
    ensures e == MC ==> alpha == 0.02
  {
    match e
    case TD => TD.DefaultAlpha
    case MC => MC.DefaultAlpha
  }

  /** One episode of the chosen estimator. It consumes the directions of one
      walk from the start state and never changes either end of the table. */
  function Episode(e: Estimator, alpha: real, V: seq<real>, dirs: seq<Direction>): (r: Option<Outcome>)
    requires IsTable(V)
    ensures e == TD ==> r == TD.TdMethod(V, dirs, alpha)
    ensures e == MC ==> r == MC.McMethod(V, dirs, alpha)
    ensures r.Some? <==> Walk(Start, dirs).Some?
    ensures r.Some? ==>
              && IsTable(r.value.table)
              && r.value.rest == dirs[Walk(Start, dirs).value.used..]
              && r.value.table[0] == V[0] && r.value.table[8] == V[8]
  {
    match e
    case TD => TD.TdMethod(V, dirs, alpha)
    case MC => MC.McMethod(V, dirs, alpha)
  }

  /** An episode as a value: a table and a direction stream in, the updated
      table and the unused directions out, `None` if the stream runs dry. */
  type Step = (seq<real>, seq<Direction>) -> Option<Outcome>

  /** `o` is a possible result of one episode on `V` and `dirs`: a table of
      the same shape with the same ends, and a proper suffix of `dirs` left. */
  predicate IsEpisodeResult(V: seq<real>, dirs: seq<Direction>, o: Outcome) {
    && IsTable(V)
    && IsTable(o.table)
    && |o.rest| < |dirs|
    && o.rest == dirs[|dirs| - |o.rest|..]
    && o.table[0] == V[0] && o.table[8] == V[8]
  }

  /** What the drivers rely on of an episode. */
  ghost predicate IsStep(step: Step) {
    forall V: seq<real>, dirs: seq<Direction> ::
      IsTable(V) && step(V, dirs).Some? ==> IsEpisodeResult(V, dirs, step(V, dirs).value)
  }

  /** The episode of estimator `e` with step size `alpha`, as a step. */
  function EpisodeStep(e: Estimator, alpha: real): (step: Step)
    ensures IsStep(step)
    ensures forall V: seq<real>, dirs: seq<Direction> :: IsTable(V) ==> step(V, dirs) == Episode(e, alpha, V, dirs)
  {
    (V: seq<real>, dirs: seq<Direction>) => if IsTable(V) then Episode(e, alpha, V, dirs) else None
  }

  /** The table and the unused directions after `n` consecutive episodes from
      `V`; `None` when the directions run out within them. Every episode
      consumes at least one direction and none touches either end. */
  function RunEpisodes(step: Step, V: seq<real>, dirs: seq<Direction>, n: nat): (r: Option<Outcome>)
    requires IsStep(step) && IsTable(V)
    ensures r.Some? ==>
              && IsTable(r.value.table)
              && |r.value.rest| + n <= |dirs|
              && r.value.rest == dirs[|dirs| - |r.value.rest|..]
              && r.value.table[0] == V[0] && r.value.table[8] == V[8]
  {
    if n == 0 then Some(Outcome(V, dirs))
    else
      match RunEpisodes(step, V, dirs, n - 1)
      case None => None
      case Some(o) =>
        var r := step(o.table, o.rest);
        assert r.Some? ==> IsEpisodeResult(o.table, o.rest, r.value);
        r
  }

  /** Episode n + 1 starts from the table and the directions left by the first n. */
  lemma RunEpisodesStep(step: Step, V: seq<real>, dirs: seq<Direction>, n: nat)
    requires IsStep(step) && IsTable(V)
    requires RunEpisodes(step, V, dirs, n).Some?
    ensures var o := RunEpisodes(step, V, dirs, n).value;
            RunEpisodes(step, V, dirs, n + 1) == step(o.table, o.rest)
  {
  }

  /** A stream too short for `n` episodes is too short for any more. */
  lemma {:induction false} RunEpisodesExhausted(step: Step, V: seq<real>, dirs: seq<Direction>, n: nat, m: nat)
    requires IsStep(step) && IsTable(V) && n <= m
    requires RunEpisodes(step, V, dirs, n).None?
    ensures RunEpisodes(step, V, dirs, m).None?
    decreases m - n
  {
    if n < m {
      RunEpisodesExhausted(step, V, dirs, n + 1, m);
    }
  }

  /** A stream that carries `n` episodes carries every shorter run of them. */
  lemma RunEpisodesCompleted(step: Step, V: seq<real>, dirs: seq<Direction>, n: nat)
    requires IsStep(step) && IsTable(V) && RunEpisodes(step, V, dirs, n).Some?
    ensures forall i :: 0 <= i <= n ==> RunEpisodes(step, V, dirs, i).Some?
  {
    forall i | 0 <= i <= n
      ensures RunEpisodes(step, V, dirs, i).Some?
    {
      if RunEpisodes(step, V, dirs, i).None? {
        RunEpisodesExhausted(step, V, dirs, i, n);
      }
    }
  }

  /** Starting from a table whose ends hold 0, they hold 0 after any number of
      episodes, so every TD target on entering an end is that end's return. */
  lemma EndsStayZero(step: Step, V: seq<real>, dirs: seq<Direction>, n: nat)
    requires IsStep(step) && IsTable(V) && EndsAreZero(V)
    requires RunEpisodes(step, V, dirs, n).Some?
    ensures EndsAreZero(RunEpisodes(step, V, dirs, n).value.table)
    ensures TD.Target(RunEpisodes(step, V, dirs, n).value.table, 8) == 1.0
    ensures TD.Target(RunEpisodes(step, V, dirs, n).value.table, 0) == 0.0
  {
    TD.BoundaryTargets(RunEpisodes(step, V, dirs, n).value.table);
  }

  /** Every run starts from the initial table, whose ends are 0, so they
      stay 0 after any number of episodes of any estimator. */
  lemma InitialEndsStayZero(step: Step, dirs: seq<Direction>, n: nat)
    requires IsStep(step)
    requires RunEpisodes(step, InitialValues, dirs, n).Some?
    ensures EndsAreZero(RunEpisodes(step, InitialValues, dirs, n).value.table)
  {
    InitialValuesShape();
    EndsStayZero(step, InitialValues, dirs, n);
  }
}
