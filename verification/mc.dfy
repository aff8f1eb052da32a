/** Every-visit Monte Carlo: walk a whole episode, take its return (1 when it
    ended at the right end, 0 at the left end), then move the estimate of
    every visited non-terminal state toward that return, once per visit. */
module MonteCarlo {
  import opened Wrappers
  import opened RandomWalk
  import opened ValueTable

  /** Step size `mc_method` uses when its caller gives none. */
  const DefaultAlpha: real := 0.02

  /** The return of an episode that stopped at terminal state `last`. */
  function Return(last: int): (g: real)
    requires IsTerminal(last)
    ensures g == 1.0 <==> last == 8
    ensures g == 0.0 <==> last == 0
  {
    if last == 0 then 0.0 else 1.0
  }

  /** One every-visit update of state `s` toward the return `g`. */
  function McStep(V: seq<real>, s: int, g: real, alpha: real): (V': seq<real>)
    requires IsTable(V) && IsInterior(s)
    ensures IsTable(V')
    ensures V'[s] == V[s] + alpha * (g - V[s])
    ensures forall u :: 0 <= u < StateCount && u != s ==> V'[u] == V[u]
  {
    V[s := V[s] + alpha * (g - V[s])]
  }

  /** The batch update at the end of an episode: one update per recorded
      state, in path order, repeats included, all toward the same return.
      States that do not occur keep their estimate. */
  function McUpdates(V: seq<real>, states: seq<int>, g: real, alpha: real): (V': seq<real>)
    requires IsTable(V)
    requires forall i :: 0 <= i < |states| ==> IsInterior(states[i])
    ensures IsTable(V')
    ensures forall u :: 0 <= u < StateCount && u !in states ==> V'[u] == V[u]
    decreases |states|
  {
    if |states| == 0 then V
    else McUpdates(McStep(V, states[0], g, alpha), states[1..], g, alpha)
  }

  function Pow(x: real, n: nat): real {
    if n == 0 then 1.0 else x * Pow(x, n - 1)
  }

  /** The estimate v after c updates toward g: its distance to g scaled by (1 - alpha)^c. */
  function Contracted(v: real, g: real, alpha: real, c: nat): real {
    g + Pow(1.0 - alpha, c) * (v - g)
  }

  /** A state recorded c times ends the batch with its distance to the return
      scaled by (1 - alpha)^c: each visit applies the same contraction. */
  lemma {:induction false} McUpdatesClosedForm(V: seq<real>, states: seq<int>, g: real, alpha: real, u: int)
    requires IsTable(V)
    requires forall i :: 0 <= i < |states| ==> IsInterior(states[i])
    requires 0 <= u < StateCount
    ensures McUpdates(V, states, g, alpha)[u] == Contracted(V[u], g, alpha, multiset(states)[u])
    decreases |states|
  {
    if |states| > 0 {
      var V1 := McStep(V, states[0], g, alpha);
      var rest := states[1..];
      McUpdatesClosedForm(V1, rest, g, alpha, u);
      var x := McUpdates(V, states, g, alpha)[u];
      assert x == McUpdates(V1, rest, g, alpha)[u];
      CountFirst(states, u);
      if states[0] == u {
        StepContracts(V[u], g, alpha, multiset(rest)[u], V1[u], x);
      } else {
        assert V1[u] == V[u];
      }
    }
  }

  /** The first recorded state adds one to its own count and nothing to the others. */
  lemma CountFirst(states: seq<int>, u: int)
    requires |states| > 0
    ensures multiset(states)[u] == multiset(states[1..])[u] + (if states[0] == u then 1 else 0)
  {
    assert states == [states[0]] + states[1..];
  }

  /** The algebra of one visit: moving v by alpha toward g and then applying
      c more visits is the same as c + 1 visits from v. */
  lemma StepContracts(v: real, g: real, alpha: real, c: nat, v1: real, x: real)
    requires v1 == v + alpha * (g - v)
    requires x == Contracted(v1, g, alpha, c)
    ensures x == Contracted(v, g, alpha, c + 1)
  {
    var y := 1.0 - alpha;
    var p := Pow(y, c);
    assert v1 - g == y * (v - g);
    assert p * (y * (v - g)) == (y * p) * (v - g);
  }

  /** `mc_method`: walk one episode from the start state, then apply the
      batch update to every state of its path but the terminal one. `None`
      when the directions run out before a terminal state. */
  function McMethod(V: seq<real>, dirs: seq<Direction>, alpha: real): (r: Option<Outcome>)
    requires IsTable(V)
    ensures r.Some? <==> Walk(Start, dirs).Some?
    ensures r.Some? ==>
              var t := Walk(Start, dirs).value;
              && IsTable(r.value.table)
              && r.value.rest == dirs[t.used..]
              && (forall u :: 0 <= u < StateCount && u !in t.path[..t.used] ==> r.value.table[u] == V[u])
              && r.value.table[0] == V[0] && r.value.table[8] == V[8]
  {
    match Walk(Start, dirs)
    case None => None
    case Some(t) =>
      var visited := t.path[..t.used];
      assert 0 !in visited && 8 !in visited;
      Some(Outcome(McUpdates(V, visited, Return(t.path[t.used]), alpha), dirs[t.used..]))
  }

  /** Every interior state's estimate after an episode: its distance to the
      episode's return shrinks by (1 - alpha) once per visit. */
  lemma McMethodClosedForm(V: seq<real>, dirs: seq<Direction>, alpha: real, u: int)
    requires IsTable(V) && 0 <= u < StateCount
    requires Walk(Start, dirs).Some?
    ensures var t := Walk(Start, dirs).value;
            McMethod(V, dirs, alpha).value.table[u]
            == Contracted(V[u], Return(t.path[t.used]), alpha, multiset(t.path[..t.used])[u])
  {
    var t := Walk(Start, dirs).value;
    var g := Return(t.path[t.used]);
    var visited := t.path[..t.used];
    assert McMethod(V, dirs, alpha).value.table == McUpdates(V, visited, g, alpha);
    McUpdatesClosedForm(V, visited, g, alpha, u);
  }

  /** An episode started from a table whose ends hold 0 leaves them at 0. */
  lemma McKeepsEndsZero(V: seq<real>, dirs: seq<Direction>, alpha: real)
    requires IsTable(V) && EndsAreZero(V)
    requires McMethod(V, dirs, alpha).Some?
    ensures EndsAreZero(McMethod(V, dirs, alpha).value.table)
  {
  }

  /** Four right moves give the walk 4, 5, 6, 7, 8: its return is 1 and each
      of 4..7 moves once toward it, whatever directions follow; the other
      states, the right end included, keep their estimates. */
  lemma StraightRightEpisode(V: seq<real>, dirs: seq<Direction>, alpha: real)
    requires IsTable(V)
    requires |dirs| >= 4 && dirs[0] == 1 && dirs[1] == 1 && dirs[2] == 1 && dirs[3] == 1
    ensures McMethod(V, dirs, alpha).Some?
    ensures var r := McMethod(V, dirs, alpha).value;
            && r.rest == dirs[4..]
            && (forall s :: 4 <= s <= 7 ==> r.table[s] == V[s] + alpha * (1.0 - V[s]))
            && (forall s :: 0 <= s < 4 || s == 8 ==> r.table[s] == V[s])
  {
    FourRightMoves(dirs);
    var t := Walk(Start, dirs).value;
    assert t.path[..t.used] == [4, 5, 6, 7];
    var updated := McUpdates(V, [4, 5, 6, 7], 1.0, alpha);
    assert McMethod(V, dirs, alpha).value.table == updated;
    forall s | 4 <= s <= 7
      ensures updated[s] == V[s] + alpha * (1.0 - V[s])
    {
      VisitedOnce(V, alpha, s);
    }
  }

  /** Each of 4..7 moves once toward 1 in the batch of a straight right walk. */
  lemma VisitedOnce(V: seq<real>, alpha: real, s: int)
    requires IsTable(V) && 4 <= s <= 7
    ensures McUpdates(V, [4, 5, 6, 7], 1.0, alpha)[s] == V[s] + alpha * (1.0 - V[s])
  {
    CountedOnce(s);
    McUpdatesClosedForm(V, [4, 5, 6, 7], 1.0, alpha, s);
    OneVisitTowardOne(V[s], alpha, McUpdates(V, [4, 5, 6, 7], 1.0, alpha)[s]);
  }

  /** Each of 4..7 occurs once in the states a straight right walk records. */
  lemma CountedOnce(s: int)
    requires 4 <= s <= 7
    ensures multiset([4, 5, 6, 7])[s] == 1
  {
    assert multiset([4, 5, 6, 7]) == multiset{4, 5, 6, 7};
  }

  /** A single visit toward the return 1 is exactly one update v + alpha * (1 - v). */
  lemma OneVisitTowardOne(v: real, alpha: real, x: real)
    requires x == Contracted(v, 1.0, alpha, 1)
    ensures x == v + alpha * (1.0 - v)
  {
    assert Pow(1.0 - alpha, 1) == (1.0 - alpha) * 1.0;
  }
}
