/** One-step temporal-difference learning, TD(0): after every transition of an
    episode the estimate of the state just left moves toward the reward plus
    the current estimate of the state just entered. */
module TemporalDifference {
  import opened Wrappers
  import opened RandomWalk
  import opened ValueTable

  /** Step size `td_method` uses when its caller gives none. */
  const DefaultAlpha: real := 0.05

  /** The bootstrap target of a transition into `next`: the reward observed
      plus the estimate of `next` as the table holds it at that moment. */
  function Target(V: seq<real>, next: int): real
    requires IsTable(V) && 0 <= next < StateCount
  {
    Reward(next) + V[next]
  }

  /** When both ends hold 0 the target of entering the right end is exactly 1
      and the target of entering the left end exactly 0: the episode's return. */
  lemma BoundaryTargets(V: seq<real>)
    requires IsTable(V) && EndsAreZero(V)
    ensures Target(V, 8) == 1.0 && Target(V, 0) == 0.0
  {
  }

  /** The TD(0) update of one transition `state` -> `next`: only the entry of
      `state` changes, moving by `alpha` times the temporal-difference error. */
  function TdStep(V: seq<real>, state: int, next: int, alpha: real): (V': seq<real>)
    requires IsTable(V) && IsInterior(state) && 0 <= next < StateCount
    ensures IsTable(V')
    ensures V'[state] == V[state] + alpha * (Target(V, next) - V[state])
    ensures forall s :: 0 <= s < StateCount && s != state ==> V'[s] == V[s]
  {
    V[state := V[state] + alpha * (Reward(next) + V[next] - V[state])]
  }

  /** Replays TD(0) along a recorded path: one update per consecutive pair of
      states, in path order, each reading the table left by the one before. */
  function TdAlong(V: seq<real>, path: seq<int>, alpha: real): (V': seq<real>)
    requires IsTable(V) && |path| >= 1
    requires forall i :: 0 <= i < |path| - 1 ==> IsInterior(path[i])
    requires forall i :: 0 <= i < |path| ==> 0 <= path[i] < StateCount
    ensures IsTable(V')
    ensures forall s :: 0 <= s < StateCount && s !in path[..|path| - 1] ==> V'[s] == V[s]
    decreases |path|
  {
    if |path| == 1 then V
    else
      assert path[..|path| - 1] == [path[0]] + path[1..][..|path| - 2];
      TdAlong(TdStep(V, path[0], path[1], alpha), path[1..], alpha)
  }

  /** The episode loop of `td_method` from `state`: draw a direction, update
      the table for that transition, and stop once a terminal state is
      entered. `None` when the directions run out first. The episode
      consumes exactly the directions of its walk and changes no entry of a
      state it never left, the two ends in particular. */
  function TdFrom(V: seq<real>, state: int, dirs: seq<Direction>, alpha: real): (r: Option<Outcome>)
    requires IsTable(V) && IsInterior(state)
    ensures r.Some? <==> Walk(state, dirs).Some?
    ensures r.Some? ==>
              var t := Walk(state, dirs).value;
              && IsTable(r.value.table)
              && r.value.rest == dirs[t.used..]
              && forall s :: 0 <= s < StateCount && s !in t.path[..t.used] ==> r.value.table[s] == V[s]
    decreases |dirs|
  {
    if |dirs| == 0 then None
    else
      var next := state + dirs[0];
      var V1 := TdStep(V, state, next, alpha);
      if IsTerminal(next) then Some(Outcome(V1, dirs[1..]))
      else
        var r := TdFrom(V1, next, dirs[1..], alpha);
        assert r.Some? ==> Walk(state, dirs).value.path[..Walk(state, dirs).value.used]
                           == [state] + Walk(next, dirs[1..]).value.path[..Walk(next, dirs[1..]).value.used];
        r
  }

  /** `td_method`: one TD(0) episode from the start state, written as the
      walk followed by the replay of its updates; `TdMethodIsTheLoop` shows
      it is the interleaved episode loop. */
  function TdMethod(V: seq<real>, dirs: seq<Direction>, alpha: real): (r: Option<Outcome>)
    requires IsTable(V)
    ensures r.Some? <==> Walk(Start, dirs).Some?
    ensures r.Some? ==>
              var t := Walk(Start, dirs).value;
              && IsTable(r.value.table)
              && r.value.rest == dirs[t.used..]
              && r.value.table[0] == V[0] && r.value.table[8] == V[8]
  {
    match Walk(Start, dirs)
    case None => None
    case Some(t) =>
      assert 0 !in t.path[..t.used] && 8 !in t.path[..t.used];
      Some(Outcome(TdAlong(V, t.path, alpha), dirs[t.used..]))
  }

  /** The episode `td_method` runs is the interleaved loop from the start
      state: same completion, same table, same unused directions. */
  lemma TdMethodIsTheLoop(V: seq<real>, dirs: seq<Direction>, alpha: real)
    requires IsTable(V)
    ensures TdMethod(V, dirs, alpha) == TdFrom(V, Start, dirs, alpha)
  {
    if Walk(Start, dirs).Some? {
      TdFromReplaysWalk(V, Start, dirs, alpha);
    }
  }

  /** Interleaving the updates with the moves, as the episode loop does, is
      the same as walking first and then replaying one update per transition
      along the walk's path, in order. */
  lemma {:induction false} TdFromReplaysWalk(V: seq<real>, state: int, dirs: seq<Direction>, alpha: real)
    requires IsTable(V) && IsInterior(state)
    requires Walk(state, dirs).Some?
    ensures TdFrom(V, state, dirs, alpha).value.table == TdAlong(V, Walk(state, dirs).value.path, alpha)
    decreases |dirs|
  {
    var next := state + dirs[0];
    var V1 := TdStep(V, state, next, alpha);
    if !IsTerminal(next) {
      TdFromReplaysWalk(V1, next, dirs[1..], alpha);
    }
  }

  /** A TD(0) episode started from a table whose ends hold 0 leaves them at 0,
      so every later episode bootstraps from the same boundary targets. */
  lemma TdKeepsEndsZero(V: seq<real>, dirs: seq<Direction>, alpha: real)
    requires IsTable(V) && EndsAreZero(V)
    requires TdMethod(V, dirs, alpha).Some?
    ensures EndsAreZero(TdMethod(V, dirs, alpha).value.table)
  {
  }

  /** The replay ends with the update of the last move, the one into the
      terminal state: the path but its last state is replayed first, then
      one more TD(0) update for the final transition. */
  lemma {:induction false} TdAlongLast(V: seq<real>, path: seq<int>, alpha: real)
    requires IsTable(V) && |path| >= 2
    requires forall i :: 0 <= i < |path| - 1 ==> IsInterior(path[i])
    requires forall i :: 0 <= i < |path| ==> 0 <= path[i] < StateCount
    ensures TdAlong(V, path, alpha)
            == TdStep(TdAlong(V, path[..|path| - 1], alpha), path[|path| - 2], path[|path| - 1], alpha)
    decreases |path|
  {
    var V1 := TdStep(V, path[0], path[1], alpha);
    var front := path[..|path| - 1];
    if |path| == 2 {
      assert TdAlong(V1, path[1..], alpha) == V1;
      assert TdAlong(V, front, alpha) == V;
    } else {
      TdAlongLast(V1, path[1..], alpha);
      assert path[1..][..|path| - 2] == front[1..];
      assert TdAlong(V, front, alpha) == TdAlong(V1, front[1..], alpha);
    }
  }

  /** The TD(0) replay of the straight right walk 4, 5, 6, 7, 8: each of 4..7
      moves toward the estimate of its right neighbour as it stood before
      the episode, and state 7 toward the reward 1 plus the right end's
      estimate. Nothing else changes. */
  lemma StraightRightReplay(V: seq<real>, alpha: real)
    requires IsTable(V)
    ensures var W := TdAlong(V, [4, 5, 6, 7, 8], alpha);
            && W[4] == V[4] + alpha * (V[5] - V[4])
            && W[5] == V[5] + alpha * (V[6] - V[5])
            && W[6] == V[6] + alpha * (V[7] - V[6])
            && W[7] == V[7] + alpha * (1.0 + V[8] - V[7])
            && (forall s :: 0 <= s < 4 || s == 8 ==> W[s] == V[s])
  {
    StraightRightUnrolled(V, alpha);
    var W1 := TdStep(V, 4, 5, alpha);
    var W2 := TdStep(W1, 5, 6, alpha);
    var W3 := TdStep(W2, 6, 7, alpha);
    var W4 := TdStep(W3, 7, 8, alpha);
    assert Target(V, 5) == V[5] && Target(W1, 6) == V[6] && Target(W2, 7) == V[7];
    assert Target(W3, 8) == 1.0 + V[8];
    assert W4[4] == W1[4] && W4[5] == W2[5] && W4[6] == W3[6];
  }

  /** The replay of the straight right walk is its four updates in order. */
  lemma StraightRightUnrolled(V: seq<real>, alpha: real)
    requires IsTable(V)
    ensures TdAlong(V, [4, 5, 6, 7, 8], alpha)
            == TdStep(TdStep(TdStep(TdStep(V, 4, 5, alpha), 5, 6, alpha), 6, 7, alpha), 7, 8, alpha)
  {
    var W1 := TdStep(V, 4, 5, alpha);
    var W2 := TdStep(W1, 5, 6, alpha);
    var W3 := TdStep(W2, 6, 7, alpha);
    assert [4, 5, 6, 7, 8][1..] == [5, 6, 7, 8];
    assert [5, 6, 7, 8][1..] == [6, 7, 8];
    assert [6, 7, 8][1..] == [7, 8];
    assert [7, 8][1..] == [8];
    assert TdAlong(W3, [7, 8], alpha) == TdStep(W3, 7, 8, alpha);
    assert TdAlong(W2, [6, 7, 8], alpha) == TdAlong(W3, [7, 8], alpha);
    assert TdAlong(W1, [5, 6, 7, 8], alpha) == TdAlong(W2, [6, 7, 8], alpha);
  }

  /** Four right moves make a TD(0) episode whose last update, into the right
      end, is the only one that sees the reward 1; the directions after the
      four are left unused. */
  lemma StraightRightEpisode(V: seq<real>, dirs: seq<Direction>, alpha: real)
    requires IsTable(V)
    requires |dirs| >= 4 && dirs[0] == 1 && dirs[1] == 1 && dirs[2] == 1 && dirs[3] == 1
    ensures TdMethod(V, dirs, alpha).Some?
    ensures var r := TdMethod(V, dirs, alpha).value;
            && r.rest == dirs[4..]
            && r.table[4] == V[4] + alpha * (V[5] - V[4])
            && r.table[5] == V[5] + alpha * (V[6] - V[5])
            && r.table[6] == V[6] + alpha * (V[7] - V[6])
            && r.table[7] == V[7] + alpha * (1.0 + V[8] - V[7])
            && (forall s :: 0 <= s < 4 || s == 8 ==> r.table[s] == V[s])
  {
    FourRightMoves(dirs);
    assert TdMethod(V, dirs, alpha).value.table == TdAlong(V, [4, 5, 6, 7, 8], alpha);
    StraightRightReplay(V, alpha);
  }
}
