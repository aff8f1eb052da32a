/** The error experiment (`calculate_mean_abs_error`): for each estimator and
    step size, `runs` independent runs of `n` episodes from the initial
    table, recording before every episode the mean absolute error of the
    interior estimates, then averaging the curves over the runs. */
module ErrorExperiment {
  import opened Wrappers
  import opened RandomWalk
  import opened ValueTable
  import opened Episodes

  /** `err` is the mean absolute error of the table left by exactly `i`
      episodes from `V`, that is, measured before episode i runs. */
  ghost predicate IsErrorBefore(step: Step, V: seq<real>, dirs: seq<Direction>, i: nat, err: real)
    requires IsStep(step) && IsTable(V)
  {
    && RunEpisodes(step, V, dirs, i).Some?
    && err == MeanAbsError(RunEpisodes(step, V, dirs, i).value.table)
  }

  /** A curve of `n` errors, none negative. */
  predicate IsErrorCurve(curve: seq<real>, n: nat) {
    |curve| == n && forall i :: 0 <= i < n ==> curve[i] >= 0.0
  }

  /** The error curve of one run of `n` episodes from `V`: entry i is the
      mean absolute error of the table left by exactly i episodes, that is,
      measured before episode i changes it. */
  function ErrorsBefore(step: Step, V: seq<real>, dirs: seq<Direction>, n: nat): (errors: seq<real>)
    requires IsStep(step) && IsTable(V) && RunEpisodes(step, V, dirs, n).Some?
    ensures IsErrorCurve(errors, n)
    ensures forall i :: 0 <= i < n ==> IsErrorBefore(step, V, dirs, i, errors[i])
  {
    RunEpisodesCompleted(step, V, dirs, n);
    seq(n, i requires 0 <= i < n => MeanAbsError(RunEpisodes(step, V, dirs, i).value.table))
  }

  /** Every run from the initial table starts its curve at the initial
      error 3/14, measured before the first episode. */
  lemma CurveStartsAtInitialError(step: Step, dirs: seq<Direction>, n: nat)
    requires IsStep(step) && 0 < n
    requires RunEpisodes(step, InitialValues, dirs, n).Some?
    ensures ErrorsBefore(step, InitialValues, dirs, n)[0] == 3.0 / 14.0
  {
    InitialError();
    assert IsErrorBefore(step, InitialValues, dirs, 0, ErrorsBefore(step, InitialValues, dirs, n)[0]);
  }

  /** A curve whose every entry is the error before the episode of the same
      index is the run's error curve: the errors determine it entirely. */
  lemma ErrorCurveUnique(step: Step, V: seq<real>, dirs: seq<Direction>, n: nat, errors: seq<real>)
    requires IsStep(step) && IsTable(V) && RunEpisodes(step, V, dirs, n).Some?
    requires |errors| == n
    requires forall i :: 0 <= i < n ==> IsErrorBefore(step, V, dirs, i, errors[i])
    ensures errors == ErrorsBefore(step, V, dirs, n)
  {
    var curve := ErrorsBefore(step, V, dirs, n);
    forall i | 0 <= i < n
      ensures errors[i] == curve[i]
    {
      assert IsErrorBefore(step, V, dirs, i, curve[i]);
    }
  }

  /** The first i entries of the curve of i + 1 episodes are the curve of i
      episodes: a later episode does not change an earlier measurement. */
  lemma ErrorsBeforePrefix(step: Step, V: seq<real>, dirs: seq<Direction>, i: nat)
    requires IsStep(step) && IsTable(V) && RunEpisodes(step, V, dirs, i + 1).Some?
    ensures RunEpisodes(step, V, dirs, i).Some?
    ensures ErrorsBefore(step, V, dirs, i + 1)[..i] == ErrorsBefore(step, V, dirs, i)
  {
    RunEpisodesCompleted(step, V, dirs, i + 1);
    var longer := ErrorsBefore(step, V, dirs, i + 1);
    var shorter := ErrorsBefore(step, V, dirs, i);
    forall k | 0 <= k < i
      ensures longer[k] == shorter[k]
    {
      assert IsErrorBefore(step, V, dirs, k, longer[k]);
      assert IsErrorBefore(step, V, dirs, k, shorter[k]);
    }
  }

  /** The curve of i + 1 episodes is the curve of i episodes followed by the
      error of the table the first i of them left. */
  lemma ErrorsBeforeSnoc(step: Step, V: seq<real>, dirs: seq<Direction>, i: nat)
    requires IsStep(step) && IsTable(V) && RunEpisodes(step, V, dirs, i + 1).Some?
    ensures RunEpisodes(step, V, dirs, i).Some?
    ensures ErrorsBefore(step, V, dirs, i + 1)
            == ErrorsBefore(step, V, dirs, i) + [MeanAbsError(RunEpisodes(step, V, dirs, i).value.table)]
  {
    ErrorsBeforePrefix(step, V, dirs, i);
    var longer := ErrorsBefore(step, V, dirs, i + 1);
    assert |longer| == i + 1;
    assert IsErrorBefore(step, V, dirs, i, longer[i]);
    assert longer[i..] == [longer[i]];
    assert longer == longer[..i] + longer[i..];
  }

  /** What the run loop knows before episode i: `current` is what i episodes
      left, and `errors` holds the i errors measured before each of them. */
  ghost predicate MeasuredBefore(step: Step, V: seq<real>, dirs: seq<Direction>,
                                 i: nat, current: Outcome, errors: seq<real>)
    requires IsStep(step) && IsTable(V)
  {
    && RunEpisodes(step, V, dirs, i) == Some(current)
    && errors == ErrorsBefore(step, V, dirs, i)
  }

  /** Recording the error of the current table and then running episode i
      establishes what the run loop knows before episode i + 1. */
  lemma MeasureStep(step: Step, V: seq<real>, dirs: seq<Direction>,
                    i: nat, current: Outcome, errors: seq<real>)
    requires IsStep(step) && IsTable(V)
    requires MeasuredBefore(step, V, dirs, i, current, errors)
    requires step(current.table, current.rest).Some?
    ensures IsTable(current.table)
    ensures MeasuredBefore(step, V, dirs, i + 1, step(current.table, current.rest).value,
                           errors + [MeanAbsError(current.table)])
  {
    RunEpisodesStep(step, V, dirs, i);
    ErrorsBeforeSnoc(step, V, dirs, i);
  }

  /** An episode that cannot complete ends the run: n episodes do not. */
  lemma MeasureExhausted(step: Step, V: seq<real>, dirs: seq<Direction>,
                         i: nat, n: nat, current: Outcome, errors: seq<real>)
    requires IsStep(step) && IsTable(V) && i < n
    requires MeasuredBefore(step, V, dirs, i, current, errors)
    requires step(current.table, current.rest).None?
    ensures RunEpisodes(step, V, dirs, n).None?
  {
    RunEpisodesStep(step, V, dirs, i);
    RunEpisodesExhausted(step, V, dirs, i + 1, n);
  }

  /** The run loop of the error experiment on table `V`: before each of `n`
      episodes, record the mean absolute error, then run the episode. Each
      error is measured before the episode with the same index changes the
      table, and the run completes exactly when its n episodes do. */
  method RunErrors(step: Step, V: seq<real>, dirs: seq<Direction>, n: nat)
    returns (r: Option<(seq<real>, Outcome)>)
    requires IsStep(step) && IsTable(V)
    ensures r.Some? <==> RunEpisodes(step, V, dirs, n).Some?
    ensures r.Some? ==> RunEpisodes(step, V, dirs, n) == Some(r.value.1) && r.value.0 == ErrorsBefore(step, V, dirs, n)
  {
    var errors: seq<real> := [];
    var current := Outcome(V, dirs);
    var i := 0;
    while i < n
      invariant i <= n
      invariant MeasuredBefore(step, V, dirs, i, current, errors)
    {
      assert IsTable(current.table);
      var error := MeanAbsError(current.table);
      var next := step(current.table, current.rest);
      if next.None? {
        MeasureExhausted(step, V, dirs, i, n, current, errors);
        return None;
      }
      MeasureStep(step, V, dirs, i, current, errors);
      errors := errors + [error];
      current := next.value;
      i := i + 1;
    }
    return Some((errors, current));
  }

  /** The error curve of one run and the directions it left unused. */
  datatype Measured = Measured(curve: seq<real>, rest: seq<Direction>)

  /** One run of the error experiment as a value: a direction stream in, the
      run's error curve and the unused directions out. */
  type Run = seq<Direction> -> Option<Measured>

  /** Every completed run of `run` yields a curve of `n` errors. */
  ghost predicate IsRun(run: Run, n: nat) {
    forall dirs: seq<Direction> :: run(dirs).Some? ==> IsErrorCurve(run(dirs).value.curve, n)
  }

  /** One run of `n` episodes of `step` from a fresh copy of the initial
      table, measuring the error before every episode. */
  function FreshRun(step: Step, n: nat): (run: Run)
    requires IsStep(step)
    ensures IsRun(run, n)
    ensures forall dirs: seq<Direction> ::
              run(dirs).Some? <==> RunEpisodes(step, InitialValues, dirs, n).Some?
    ensures forall dirs: seq<Direction> :: run(dirs).Some? ==>
              && run(dirs).value.curve == ErrorsBefore(step, InitialValues, dirs, n)
              && run(dirs).value.rest == RunEpisodes(step, InitialValues, dirs, n).value.rest
  {
    (dirs: seq<Direction>) =>
      match RunEpisodes(step, InitialValues, dirs, n)
      case None => None
      case Some(o) => Some(Measured(ErrorsBefore(step, InitialValues, dirs, n), o.rest))
  }

  /** A sequence of curves, in order, with the directions left after them. */
  datatype Curves = Curves(curves: seq<seq<real>>, rest: seq<Direction>)

  /** The curves of `runs` runs in order, each drawing its moves from where
      the previous run stopped. */
  function RunAll(run: Run, n: nat, runs: nat, dirs: seq<Direction>): (r: Option<Curves>)
    requires IsRun(run, n)
    ensures r.Some? ==>
              && |r.value.curves| == runs
              && forall k :: 0 <= k < runs ==> IsErrorCurve(r.value.curves[k], n)
  {
    if runs == 0 then Some(Curves([], dirs))
    else
      match RunAll(run, n, runs - 1, dirs)
      case None => None
      case Some(done) =>
        match run(done.rest)
        case None => None
        case Some(m) => Some(Curves(done.curves + [m.curve], m.rest))
  }

  /** Run k of `RunAll` is a run of its own on the directions the first k
      runs left, whatever the other runs did. */
  lemma {:induction false} RunAllEachRun(run: Run, n: nat, runs: nat, dirs: seq<Direction>, k: nat)
    requires IsRun(run, n)
    requires RunAll(run, n, runs, dirs).Some? && k < runs
    ensures RunAll(run, n, k, dirs).Some?
    ensures var stream := RunAll(run, n, k, dirs).value.rest;
            && run(stream).Some?
            && RunAll(run, n, runs, dirs).value.curves[k] == run(stream).value.curve
    decreases runs
  {
    if k < runs - 1 {
      RunAllEachRun(run, n, runs - 1, dirs, k);
    }
  }

  /** Each of the runs the experiment averages starts from a fresh copy of
      the initial table: run k's curve is the error curve of n episodes from
      the initial table on the directions the first k runs left. */
  lemma RunAllFreshStart(step: Step, n: nat, runs: nat, dirs: seq<Direction>, k: nat)
    requires IsStep(step)
    requires RunAll(FreshRun(step, n), n, runs, dirs).Some? && k < runs
    ensures RunAll(FreshRun(step, n), n, k, dirs).Some?
    ensures var stream := RunAll(FreshRun(step, n), n, k, dirs).value.rest;
            && RunEpisodes(step, InitialValues, stream, n).Some?
            && RunAll(FreshRun(step, n), n, runs, dirs).value.curves[k] == ErrorsBefore(step, InitialValues, stream, n)
  {
    RunAllEachRun(FreshRun(step, n), n, runs, dirs, k);
  }

  /** Once the directions run out, no further run completes. */
  lemma {:induction false} RunAllExhausted(run: Run, n: nat, k: nat, runs: nat, dirs: seq<Direction>)
    requires IsRun(run, n)
    requires k <= runs && RunAll(run, n, k, dirs).None?
    ensures RunAll(run, n, runs, dirs).None?
    decreases runs - k
  {
    if k < runs {
      RunAllExhausted(run, n, k + 1, runs, dirs);
    }
  }

  /** Every curve in `curves` has an entry at index i. */
  predicate HasColumn(curves: seq<seq<real>>, i: nat) {
    forall k :: 0 <= k < |curves| ==> i < |curves[k]|
  }

  /** Sum over all curves of their entry at index i, accumulated in run order. */
  function ColumnSum(curves: seq<seq<real>>, i: nat): real
    requires HasColumn(curves, i)
    decreases |curves|
  {
    if |curves| == 0 then 0.0
    else ColumnSum(curves[..|curves| - 1], i) + curves[|curves| - 1][i]
  }

  /** Adding one more curve adds its entry to the column sum. */
  lemma ColumnSumAppend(curves: seq<seq<real>>, c: seq<real>, i: nat)
    requires HasColumn(curves, i) && i < |c|
    ensures HasColumn(curves + [c], i)
    ensures ColumnSum(curves + [c], i) == ColumnSum(curves, i) + c[i]
  {
    assert (curves + [c])[..|curves|] == curves;
  }

  /** The column sum of two blocks of curves is the sum of their column sums. */
  lemma {:induction false} ColumnSumConcat(p: seq<seq<real>>, q: seq<seq<real>>, i: nat)
    requires HasColumn(p, i) && HasColumn(q, i)
    ensures HasColumn(p + q, i)
    ensures ColumnSum(p + q, i) == ColumnSum(p, i) + ColumnSum(q, i)
    decreases |q|
  {
    if |q| == 0 {
      assert p + q == p;
    } else {
      var q' := q[..|q| - 1];
      ColumnSumConcat(p, q', i);
      assert (p + q)[..|p + q| - 1] == p + q';
    }
  }

  /** Removing the curve at index j leaves the others, as a multiset. */
  lemma RemoveAt(b: seq<seq<real>>, j: nat)
    requires j < |b|
    ensures multiset(b[..j] + b[j + 1..]) == multiset(b) - multiset{b[j]}
  {
    assert b == b[..j] + [b[j]] + b[j + 1..];
    assert multiset(b) == multiset(b[..j]) + multiset{b[j]} + multiset(b[j + 1..]);
  }

  /** The column sum with the curve at index j taken out, plus its entry. */
  lemma ColumnSumRemove(b: seq<seq<real>>, j: nat, i: nat)
    requires HasColumn(b, i) && j < |b|
    ensures HasColumn(b[..j] + b[j + 1..], i)
    ensures ColumnSum(b, i) == ColumnSum(b[..j] + b[j + 1..], i) + b[j][i]
  {
    var x := b[j];
    assert b == b[..j] + [x] + b[j + 1..];
    ColumnSumConcat(b[..j], [x], i);
    ColumnSumConcat(b[..j] + [x], b[j + 1..], i);
    ColumnSumConcat(b[..j], b[j + 1..], i);
    assert [x][..0] == [];
  }

  /** Column sums do not depend on the order of the curves. */
  lemma {:induction false} ColumnSumPermutation(a: seq<seq<real>>, b: seq<seq<real>>, i: nat)
    requires HasColumn(a, i) && HasColumn(b, i)
    requires multiset(a) == multiset(b)
    ensures ColumnSum(a, i) == ColumnSum(b, i)
    decreases |a|
  {
    if |a| == 0 {
      assert |b| == |multiset(b)| == 0;
    } else {
      var x := a[|a| - 1];
      var a' := a[..|a| - 1];
      assert a == a' + [x];
      assert multiset(a') == multiset(a) - multiset{x};
      assert x in multiset(b);
      var j :| 0 <= j < |b| && b[j] == x;
      RemoveAt(b, j);
      ColumnSumRemove(b, j, i);
      ColumnSumPermutation(a', b[..j] + b[j + 1..], i);
    }
  }

  /** A column of non-negative errors has a non-negative sum. */
  lemma {:induction false} ColumnSumNonNegative(curves: seq<seq<real>>, n: nat, i: nat)
    requires forall k :: 0 <= k < |curves| ==> IsErrorCurve(curves[k], n)
    requires i < n
    ensures HasColumn(curves, i)
    ensures ColumnSum(curves, i) >= 0.0
    decreases |curves|
  {
    if |curves| > 0 {
      ColumnSumNonNegative(curves[..|curves| - 1], n, i);
    }
  }

  /** The averaged error curve: at each index, the sum over runs divided by
      the number of runs. */
  function MeanCurve(curves: seq<seq<real>>, n: nat, runs: nat): (m: seq<real>)
    requires runs > 0
    requires forall i :: 0 <= i < n ==> HasColumn(curves, i)
    ensures |m| == n
  {
    seq(n, i requires 0 <= i < n => ColumnSum(curves, i) / runs as real)
  }

  /** Averaging error curves gives an error curve. */
  lemma MeanCurveIsErrorCurve(curves: seq<seq<real>>, n: nat, runs: nat)
    requires runs > 0
    requires forall k :: 0 <= k < |curves| ==> IsErrorCurve(curves[k], n)
    ensures forall i :: 0 <= i < n ==> HasColumn(curves, i)
    ensures IsErrorCurve(MeanCurve(curves, n, runs), n)
  {
    forall i | 0 <= i < n
      ensures HasColumn(curves, i) && ColumnSum(curves, i) >= 0.0
    {
      ColumnSumNonNegative(curves, n, i);
    }
  }

  /** The averaged curve does not depend on the order in which the runs were
      made: any permutation of the curves averages to the same curve. */
  lemma MeanCurveRunOrder(a: seq<seq<real>>, b: seq<seq<real>>, n: nat, runs: nat)
    requires runs > 0
    requires forall i :: 0 <= i < n ==> HasColumn(a, i) && HasColumn(b, i)
    requires multiset(a) == multiset(b)
    ensures MeanCurve(a, n, runs) == MeanCurve(b, n, runs)
  {
    forall i | 0 <= i < n
      ensures MeanCurve(a, n, runs)[i] == MeanCurve(b, n, runs)[i]
    {
      ColumnSumPermutation(a, b, i);
    }
  }

  /** Entry-wise sum of two curves of the same length. */
  function AddCurves(a: seq<real>, b: seq<real>): (c: seq<real>)
    requires |a| == |b|
    ensures |c| == |a| && forall i :: 0 <= i < |c| ==> c[i] == a[i] + b[i]
  {
    seq(|a|, i requires 0 <= i < |a| => a[i] + b[i])
  }

  /** What the aggregation loop knows after k runs: they completed, leaving
      `stream`, and `total` holds the column sums of their curves. */
  ghost predicate Accumulated(run: Run, n: nat, k: nat, dirs: seq<Direction>,
                              curves: seq<seq<real>>, stream: seq<Direction>, total: seq<real>)
    requires IsRun(run, n)
  {
    && RunAll(run, n, k, dirs) == Some(Curves(curves, stream))
    && |total| == n
    && (forall i :: 0 <= i < n ==> HasColumn(curves, i))
    && forall i :: 0 <= i < n ==> total[i] == ColumnSum(curves, i)
  }

  /** Adding the curve of the next run to the running total. */
  lemma AccumulateStep(run: Run, n: nat, k: nat, dirs: seq<Direction>,
                       curves: seq<seq<real>>, stream: seq<Direction>, total: seq<real>, m: Measured)
    requires IsRun(run, n)
    requires Accumulated(run, n, k, dirs, curves, stream, total)
    requires run(stream) == Some(m)
    ensures |m.curve| == n
    ensures Accumulated(run, n, k + 1, dirs, curves + [m.curve], m.rest, AddCurves(total, m.curve))
  {
    forall i | 0 <= i < n
      ensures HasColumn(curves + [m.curve], i)
      ensures AddCurves(total, m.curve)[i] == ColumnSum(curves + [m.curve], i)
    {
      ColumnSumAppend(curves, m.curve, i);
    }
  }

  /** The aggregation loop of the error experiment for one estimator: start
      from a total of zeros, run `runs` times, add each run's curve to the
      total, then divide the total by the number of runs. */
  method AggregateErrors(run: Run, n: nat, runs: nat, dirs: seq<Direction>)
    returns (r: Option<(seq<real>, seq<Direction>)>)
    requires IsRun(run, n) && runs > 0
    ensures r.Some? <==> RunAll(run, n, runs, dirs).Some?
    ensures r.Some? ==>
              && (forall i :: 0 <= i < n ==> HasColumn(RunAll(run, n, runs, dirs).value.curves, i))
              && r.value.0 == MeanCurve(RunAll(run, n, runs, dirs).value.curves, n, runs)
              && r.value.1 == RunAll(run, n, runs, dirs).value.rest
  {
    var total := seq(n, i => 0.0);
    var stream := dirs;
    ghost var curves: seq<seq<real>> := [];
    var k := 0;
    while k < runs
      invariant k <= runs
      invariant Accumulated(run, n, k, dirs, curves, stream, total)
    {
      var m := run(stream);
      if m.None? {
        RunAllExhausted(run, n, k + 1, runs, dirs);
        return None;
      }
      AccumulateStep(run, n, k, dirs, curves, stream, total, m.value);
      total := AddCurves(total, m.value.curve);
      curves := curves + [m.value.curve];
      stream := m.value.rest;
      k := k + 1;
    }
    var mean := seq(n, i requires 0 <= i < n => total[i] / runs as real);
    assert mean == MeanCurve(curves, n, runs);
    return Some((mean, stream));
  }

  /** An estimator with the step size its error curve is drawn for. */
  datatype Configuration = Configuration(estimator: Estimator, alpha: real)

  /** The curves the experiment draws, in order: TD(0) with step sizes 0.15,
      0.1 and 0.05, then Monte Carlo with 0.02, 0.03 and 0.04. */
  const Configurations: seq<Configuration> := [
    Configuration(TD, 0.15), Configuration(TD, 0.1), Configuration(TD, 0.05),
    Configuration(MC, 0.02), Configuration(MC, 0.03), Configuration(MC, 0.04)
  ]

  /** Episodes per run (`n_episodes`) and runs per curve (`runs`). */
  const EpisodesPerRun: nat := 201
  const RunCount: nat := 200

  /** The run of configuration `c`: n episodes of its estimator from a fresh
      initial table. */
  function RunOf(c: Configuration, n: nat): (run: Run)
    ensures IsRun(run, n)
  {
    FreshRun(EpisodeStep(c.estimator, c.alpha), n)
  }

  /** The averaged curves of a list of configurations, in order, each drawn
      from the directions the previous ones left. */
  function MeanCurves(configs: seq<Configuration>, n: nat, runs: nat, dirs: seq<Direction>): (r: Option<Curves>)
    requires runs > 0
    ensures r.Some? ==>
              && |r.value.curves| == |configs|
              && forall j :: 0 <= j < |configs| ==> IsErrorCurve(r.value.curves[j], n)
    decreases |configs|
  {
    if |configs| == 0 then Some(Curves([], dirs))
    else
      match MeanCurves(configs[..|configs| - 1], n, runs, dirs)
      case None => None
      case Some(done) =>
        var run := RunOf(configs[|configs| - 1], n);
        match RunAll(run, n, runs, done.rest)
        case None => None
        case Some(all) =>
          MeanCurveIsErrorCurve(all.curves, n, runs);
          Some(Curves(done.curves + [MeanCurve(all.curves, n, runs)], all.rest))
  }

  /** Once the directions run out, no later configuration completes. */
  lemma {:induction false} MeanCurvesExhausted(configs: seq<Configuration>, n: nat, runs: nat, dirs: seq<Direction>, j: nat)
    requires runs > 0 && j <= |configs|
    requires MeanCurves(configs[..j], n, runs, dirs).None?
    ensures MeanCurves(configs, n, runs, dirs).None?
    decreases |configs| - j
  {
    if j < |configs| {
      assert configs[..j + 1][..j] == configs[..j];
      MeanCurvesExhausted(configs, n, runs, dirs, j + 1);
    } else {
      assert configs[..j] == configs;
    }
  }

  /** One more configuration: its averaged curve is appended, drawn from the
      directions the earlier ones left; `None` if its runs cannot complete. */
  lemma MeanCurvesStep(configs: seq<Configuration>, n: nat, runs: nat, dirs: seq<Direction>, j: nat,
                       curves: seq<seq<real>>, stream: seq<Direction>)
    requires runs > 0 && j < |configs|
    requires MeanCurves(configs[..j], n, runs, dirs) == Some(Curves(curves, stream))
    ensures var all := RunAll(RunOf(configs[j], n), n, runs, stream);
            MeanCurves(configs[..j + 1], n, runs, dirs)
            == if all.None? then None
               else Some(Curves(curves + [MeanCurve(all.value.curves, n, runs)], all.value.rest))
  {
    assert configs[..j + 1][..j] == configs[..j];
  }

  /** The error experiment for any list of configurations: one aggregation
      per configuration, in order, threading the direction stream. */
  method MeanAbsErrorsFor(configs: seq<Configuration>, n: nat, runs: nat, dirs: seq<Direction>)
    returns (r: Option<seq<seq<real>>>)
    requires runs > 0
    ensures r.Some? <==> MeanCurves(configs, n, runs, dirs).Some?
    ensures r.Some? ==> r.value == MeanCurves(configs, n, runs, dirs).value.curves
  {
    var curves: seq<seq<real>> := [];
    var stream := dirs;
    var j := 0;
    while j < |configs|
      invariant j <= |configs|
      invariant MeanCurves(configs[..j], n, runs, dirs) == Some(Curves(curves, stream))
    {
      var mean := AggregateErrors(RunOf(configs[j], n), n, runs, stream);
      MeanCurvesStep(configs, n, runs, dirs, j, curves, stream);
      if mean.None? {
        MeanCurvesExhausted(configs, n, runs, dirs, j + 1);
        return None;
      }
      curves := curves + [mean.value.0];
      stream := mean.value.1;
      j := j + 1;
    }
    assert configs[..j] == configs;
    return Some(curves);
  }

  /** `calculate_mean_abs_error`: the six averaged error curves, each over 200
      runs of 201 episodes, drawn in order from one direction stream. Every
      curve has 201 entries, none negative. */
  method MeanAbsErrors(dirs: seq<Direction>) returns (r: Option<seq<seq<real>>>)
    ensures r.Some? <==> MeanCurves(Configurations, EpisodesPerRun, RunCount, dirs).Some?
    ensures r.Some? ==> r.value == MeanCurves(Configurations, EpisodesPerRun, RunCount, dirs).value.curves
    ensures r.Some? ==> |r.value| == 6 && forall j :: 0 <= j < 6 ==> IsErrorCurve(r.value[j], EpisodesPerRun)
  {
    r := MeanAbsErrorsFor(Configurations, EpisodesPerRun, RunCount, dirs);
  }
}
