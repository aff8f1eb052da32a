/** Value tables: one estimate per state of the walk, the true values every
    estimate is compared with, and the per-episode error measure. */
module ValueTable {
  import opened RandomWalk

  /** A value table holds exactly one estimate per state. */
  predicate IsTable(V: seq<real>) {
    |V| == StateCount
  }

  /** The true value of state s is s/8, the probability of ending at the right end. */
  const TrueValues: seq<real> :=
    [0.0 / 8.0, 1.0 / 8.0, 2.0 / 8.0, 3.0 / 8.0, 4.0 / 8.0, 5.0 / 8.0, 6.0 / 8.0, 7.0 / 8.0, 8.0 / 8.0]

  /** Every run starts from this table: 0.5 inside, 0 at both ends. */
  const InitialValues: seq<real> := [0.0, 0.5, 0.5, 0.5, 0.5, 0.5, 0.5, 0.5, 0.0]

  /** The initial table has one entry per state, 0 at both ends and 0.5 in
      each of the seven interior states. */
  lemma InitialValuesShape()
    ensures IsTable(InitialValues) && EndsAreZero(InitialValues)
    ensures forall s :: 1 <= s <= 7 ==> InitialValues[s] == 0.5
  {
  }

  lemma TrueValuesAreEighths()
    ensures IsTable(TrueValues)
    ensures forall s :: 0 <= s < StateCount ==> TrueValues[s] == s as real / 8.0
  {
  }

  /** Both ends hold 0, which makes them neutral bootstrap targets. */
  predicate EndsAreZero(V: seq<real>)
    requires IsTable(V)
  {
    V[0] == 0.0 && V[8] == 0.0
  }

  /** The estimates of the seven interior states 1..7, in state order. */
  function Interior(V: seq<real>): (r: seq<real>)
    requires IsTable(V)
    ensures |r| == 7
    ensures forall k :: 0 <= k < 7 ==> r[k] == V[k + 1]
  {
    V[1..8]
  }

  /** A table after an episode, together with the directions the episode left unused. */
  datatype Outcome = Outcome(table: seq<real>, rest: seq<Direction>)

  function Abs(x: real): (r: real)
    ensures r >= 0.0 && (r == x || r == -x)
  {
    if x < 0.0 then -x else x
  }

  /** The sum of |a[k] - b[k]| over all positions, accumulated from the front. */
  function SumAbsDiff(a: seq<real>, b: seq<real>): (r: real)
    requires |a| == |b|
    ensures r >= 0.0
    decreases |a|
  {
    if |a| == 0 then 0.0 else Abs(a[0] - b[0]) + SumAbsDiff(a[1..], b[1..])
  }

  /** The summed distance is zero exactly when the two sequences agree. */
  lemma {:induction false} SumAbsDiffZero(a: seq<real>, b: seq<real>)
    requires |a| == |b|
    ensures SumAbsDiff(a, b) == 0.0 <==> a == b
    decreases |a|
  {
    if |a| > 0 {
      SumAbsDiffZero(a[1..], b[1..]);
      assert a == [a[0]] + a[1..];
      assert b == [b[0]] + b[1..];
      if a == b {
        assert a[1..] == b[1..];
      }
    }
  }

  /** Mean absolute error of the interior estimates against the true values,
      averaged over the seven interior states; never negative. */
  function MeanAbsError(V: seq<real>): (e: real)
    requires IsTable(V)
    ensures e >= 0.0
  {
    SumAbsDiff(Interior(TrueValues), Interior(V)) / 7.0
  }

  /** The error is zero exactly when every interior estimate is the true value. */
  lemma MeanAbsErrorZero(V: seq<real>)
    requires IsTable(V)
    ensures MeanAbsError(V) == 0.0 <==> forall s :: 1 <= s <= 7 ==> V[s] == TrueValues[s]
  {
    SumAbsDiffZero(Interior(TrueValues), Interior(V));
    if forall s :: 1 <= s <= 7 ==> V[s] == TrueValues[s] {
      assert Interior(V) == Interior(TrueValues);
    }
  }

  /** The first error of every run: the interior estimates 0.5 are 3/8, 2/8,
      1/8, 0, 1/8, 2/8 and 3/8 away from the true values, 12/8 in all. */
  lemma InitialError()
    ensures MeanAbsError(InitialValues) == 3.0 / 14.0
  {
    var a := Interior(TrueValues);
    var b := Interior(InitialValues);
    assert SumAbsDiff(a[6..], b[6..]) == 3.0 / 8.0;
    assert SumAbsDiff(a[5..], b[5..]) == 5.0 / 8.0;
    assert SumAbsDiff(a[4..], b[4..]) == 6.0 / 8.0;
    assert SumAbsDiff(a[3..], b[3..]) == 6.0 / 8.0;
    assert SumAbsDiff(a[2..], b[2..]) == 7.0 / 8.0;
    assert SumAbsDiff(a[1..], b[1..]) == 9.0 / 8.0;
    assert SumAbsDiff(a, b) == 12.0 / 8.0;
  }
}
