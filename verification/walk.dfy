/** The nine-state random walk: states 0..8, every episode starting in the
    middle state 4 and ending at its first visit to either end. Each move is
    drawn at random in the program; here the moves are an explicit stream of
    directions that an episode consumes from the front. */
module RandomWalk {
  import opened Wrappers

  /** Number of states; they are indexed 0..8. */
  const StateCount: int := 9

  /** Every episode starts in the middle state. */
  const Start: int := 4

  /** One move of the walk: one state to the left or one to the right. */
  type Direction = d: int | d == -1 || d == 1 witness 1

  /** The two absorbing ends of the chain. */
  predicate IsTerminal(s: int) {
    s == 0 || s == 8
  }

  /** The seven states an episode can pass through. */
  predicate IsInterior(s: int) {
    1 <= s <= 7
  }

  /** Reward observed on entering `next`: 1 on entering the right end, 0 otherwise. */
  function Reward(next: int): (r: real)
    ensures r == 1.0 <==> next == 8
    ensures r == 0.0 <==> next != 8
  {
    if next == 8 then 1.0 else 0.0
  }

  /** What one episode did: every state it visited, from its first one through
      the terminal one it stopped at, and how many directions it consumed. */
  datatype Trace = Trace(path: seq<int>, used: nat)

  /** `t` is an episode driven by `dirs` from `start`: it moves exactly as the
      directions say, one state per direction, passes only through interior
      states and stops at the first terminal one. */
  predicate IsEpisodeOf(start: int, dirs: seq<Direction>, t: Trace) {
    && 1 <= t.used <= |dirs|
    && |t.path| == t.used + 1
    && t.path[0] == start
    && (forall i :: 0 <= i < t.used ==> t.path[i + 1] == t.path[i] + dirs[i])
    && (forall i :: 0 <= i < t.used ==> IsInterior(t.path[i]))
    && IsTerminal(t.path[t.used])
  }

  /** Runs the walk from `state`, consuming directions until a terminal state is
      entered; `None` when the directions run out first. */
  function Walk(state: int, dirs: seq<Direction>): (r: Option<Trace>)
    requires IsInterior(state)
    ensures r.Some? ==> IsEpisodeOf(state, dirs, r.value)
    ensures r.Some? ==> forall i :: 0 <= i < |r.value.path| ==> 0 <= r.value.path[i] < StateCount
    decreases |dirs|
  {
    if |dirs| == 0 then None
    else
      var next := state + dirs[0];
      if IsTerminal(next) then Some(Trace([state, next], 1))
      else
        match Walk(next, dirs[1..])
        case None => None
        case Some(t) => Some(Trace([state] + t.path, t.used + 1))
  }

  /** The walk is the one and only episode the directions determine: it returns
      `t` exactly when `t` is an episode of `dirs`, and so returns `None`
      exactly when no prefix of `dirs` leads to a terminal state. */
  lemma WalkIsTheEpisode(state: int, dirs: seq<Direction>, t: Trace)
    requires IsInterior(state)
    ensures Walk(state, dirs) == Some(t) <==> IsEpisodeOf(state, dirs, t)
  {
    if IsEpisodeOf(state, dirs, t) {
      EpisodeIsWalk(state, dirs, t);
    }
  }

  /** Any episode of `dirs` is the one `Walk` finds. */
  lemma {:induction false} EpisodeIsWalk(state: int, dirs: seq<Direction>, t: Trace)
    requires IsInterior(state)
    requires IsEpisodeOf(state, dirs, t)
    ensures Walk(state, dirs) == Some(t)
    decreases |dirs|
  {
    var next := state + dirs[0];
    assert t.path[1] == next;
    if IsTerminal(next) {
      assert t.used == 1;
      assert t.path == [state, next];
    } else {
      var t' := Tail(state, dirs, t);
      EpisodeIsWalk(next, dirs[1..], t');
      assert t.path == [state] + t'.path;
    }
  }

  /** An episode that does not stop after its first move continues as an
      episode of the remaining directions from its second state. */
  function Tail(state: int, dirs: seq<Direction>, t: Trace): (t': Trace)
    requires IsEpisodeOf(state, dirs, t)
    requires !IsTerminal(t.path[1])
    ensures IsEpisodeOf(t.path[1], dirs[1..], t')
    ensures t.path == [state] + t'.path && t.used == t'.used + 1
  {
    assert t.used >= 2;
    var t' := Trace(t.path[1..], t.used - 1);
    assert forall i :: 0 <= i < t'.used ==> t'.path[i + 1] == t'.path[i] + dirs[1..][i] by {
      forall i | 0 <= i < t'.used
        ensures t'.path[i + 1] == t'.path[i] + dirs[1..][i]
      {
        assert t.path[i + 2] == t.path[i + 1] + dirs[i + 1];
      }
    }
    assert forall i :: 0 <= i < t'.used ==> IsInterior(t'.path[i]) by {
      forall i | 0 <= i < t'.used
        ensures IsInterior(t'.path[i])
      {
        assert IsInterior(t.path[i + 1]);
      }
    }
    t'
  }

  /** Four right moves from the start state reach the right end. */
  lemma FourRightMoves(dirs: seq<Direction>)
    requires |dirs| >= 4 && dirs[0] == 1 && dirs[1] == 1 && dirs[2] == 1 && dirs[3] == 1
    ensures Walk(Start, dirs) == Some(Trace([4, 5, 6, 7, 8], 4))
  {
    EpisodeIsWalk(Start, dirs, Trace([4, 5, 6, 7, 8], 4));
  }
}
