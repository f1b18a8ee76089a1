/** Whole segment lists, where the segment `**` spans zero or more segments (`_segments_match`).

    The code keeps one backtrack point, the most recent `**`, and forgets the earlier ones. The
    proofs below use nothing about how one segment matches another, only that the relation is fixed.
  */
module PathGlob {
  import opened SegmentGlob

  const ANY_DEPTH := "**"

  /** What a list of pattern segments means. */
  ghost predicate PathMatches(p: seq<string>, t: seq<string>)
    decreases |p| + |t|
  {
    if p == [] then t == []
    else if p[0] == ANY_DEPTH then PathMatches(p[1..], t) || (t != [] && PathMatches(p, t[1..]))
    else t != [] && Glob(p[0], t[0]) && PathMatches(p[1..], t[1..])
  }

  // ---- forgetting earlier `**` positions is safe ------------------------------------------------

  /** A `**` that can match a suffix can match anything longer. */
  lemma {:induction false} LaterSuffices(p: seq<string>, t: seq<string>, s: nat)
    requires p != [] && p[0] == ANY_DEPTH && s <= |t|
    requires PathMatches(p, t[s..]) || PathMatches(p[1..], t[s..])
    ensures PathMatches(p, t)
    decreases s
  {
    if s == 0 {
      assert t[0..] == t;
    } else {
      assert t[1..][s - 1..] == t[s..];
      LaterSuffices(p, t[1..], s - 1);
    }
  }

  lemma {:induction false} SomeSuffix(p: seq<string>, t: seq<string>) returns (s: nat)
    requires p != [] && p[0] == ANY_DEPTH && PathMatches(p, t)
    ensures s <= |t| && PathMatches(p[1..], t[s..])
    decreases |t|
  {
    if PathMatches(p[1..], t) {
      s := 0;
      assert t[0..] == t;
    } else {
      var s' := SomeSuffix(p, t[1..]);
      s := s' + 1;
      assert t[1..][s'..] == t[s..];
    }
  }

  /** The first `n` segments are ordinary ones, and match pairwise. */
  ghost predicate RunFits(p: seq<string>, t: seq<string>, n: nat) {
    n <= |p| && n <= |t| && forall j :: 0 <= j < n ==> p[j] != ANY_DEPTH && Glob(p[j], t[j])
  }

  /** `n` pattern segments without `**` consume exactly `n` text segments. */
  lemma {:induction false} FixedRun(p: seq<string>, n: nat, t: seq<string>)
    requires n <= |p| && forall j :: 0 <= j < n ==> p[j] != ANY_DEPTH
    requires PathMatches(p, t)
    ensures n <= |t| && PathMatches(p[n..], t[n..])
    decreases n
  {
    if n == 0 {
      assert p[0..] == p && t[0..] == t;
    } else {
      FixedRun(p[1..], n - 1, t[1..]);
      assert p[1..][n - 1..] == p[n..] && t[1..][n - 1..] == t[n..];
    }
  }

  lemma {:induction false} FixedRunBack(p: seq<string>, n: nat, t: seq<string>)
    requires RunFits(p, t, n)
    ensures PathMatches(p, t) <==> PathMatches(p[n..], t[n..])
    decreases n
  {
    if n == 0 {
      assert p[0..] == p && t[0..] == t;
    } else {
      FixedRunBack(p[1..], n - 1, t[1..]);
      assert p[1..][n - 1..] == p[n..] && t[1..][n - 1..] == t[n..];
    }
  }

  /** With a `**` in front, `n` fixed segments matched right after it, and another `**` next, the
      later `**` alone decides. */
  lemma NewestStarDecides(p: seq<string>, n: nat, t: seq<string>)
    requires |p| > n + 1 && p[0] == ANY_DEPTH && p[n + 1] == ANY_DEPTH && RunFits(p[1..], t, n)
    ensures PathMatches(p, t) <==> PathMatches(p[n + 1..], t[n..])
  {
    var fixed := p[1..];
    assert fixed[n..] == p[n + 1..];
    if PathMatches(p, t) {
      var s := SomeSuffix(p, t);
      FixedRun(fixed, n, t[s..]);
      assert t[s..][n..] == t[n..][s..];
      LaterSuffices(fixed[n..], t[n..], s);
    }
    if PathMatches(p[n + 1..], t[n..]) {
      FixedRunBack(fixed, n, t);
      assert t[0..] == t;
    }
  }

  /** If the `**` in front does not match here, it can only match one segment further on. */
  lemma OneFurther(p: seq<string>, n: nat, t: seq<string>)
    requires |p| > n && p[0] == ANY_DEPTH && n < |t| && RunFits(p[1..], t, n)
    requires n + 1 == |p| || (p[n + 1] != ANY_DEPTH && !Glob(p[n + 1], t[n]))
    ensures PathMatches(p, t) <==> PathMatches(p, t[1..])
  {
    FixedRunBack(p[1..], n, t);
    if n + 1 < |p| {
      assert p[1..][n..][0] == p[n + 1] && t[n..][0] == t[n];
    }
  }

  /** At the end of the text only a rest of `**` can still match, and no earlier `**` can help. */
  lemma TextExhausted(p: seq<string>, n: nat, t: seq<string>)
    requires |p| > n && p[0] == ANY_DEPTH && n == |t| && RunFits(p[1..], t, n)
    ensures PathMatches(p, t) <==> PathMatches(p[n + 1..], [])
  {
    assert p[1..][n..] == p[n + 1..] && t[n..] == [];
    FixedRunBack(p[1..], n, t);
    if PathMatches(p, t) {
      var s := SomeSuffix(p, t);
      FixedRun(p[1..], n, t[s..]);
      assert s == 0 && t[0..] == t;
    }
  }

  // ---- the loop's states ------------------------------------------------------------------------

  /** The last `**` before position `pi`, or -1. */
  function LastStar(p: seq<string>, pi: nat): (star: int)
    requires pi <= |p|
    ensures -1 <= star < pi
    ensures star >= 0 ==> p[star] == ANY_DEPTH
    ensures forall j :: star < j < pi ==> p[j] != ANY_DEPTH
  {
    if pi == 0 then -1 else if p[pi - 1] == ANY_DEPTH then pi - 1 else LastStar(p, pi - 1)
  }

  /** Where the segments after the last `**` started: the loop's `mark`, as a function of its
      state. */
  function MarkOf(p: seq<string>, pi: nat, ti: nat): int
    requires pi <= |p|
  {
    var star := LastStar(p, pi);
    if star == -1 then 0 else ti - (pi - star - 1)
  }

  /** `rounds` times `each`, unfolded one round at a time. */
  function Rounds(rounds: int, each: nat): nat {
    if rounds <= 0 then 0 else each + Rounds(rounds - 1, each)
  }

  lemma {:induction false} RoundsProduct(rounds: nat, each: nat)
    ensures Rounds(rounds, each) == rounds * each
  {
    if rounds > 0 {
      RoundsProduct(rounds - 1, each);
    }
  }

  lemma {:induction false} RoundsMonotone(a: int, b: int, each: nat)
    requires a <= b
    ensures Rounds(a, each) <= Rounds(b, each)
    decreases b
  {
    if b > a && b > 0 {
      RoundsMonotone(a, b - 1, each);
    }
  }

  /** The potential of the source's own argument for termination: the rounds the mark has left, of
      `|p| + 1` steps each, and the pattern left to walk. */
  function Potential(p: seq<string>, len: nat, pi: nat, ti: nat): int
    requires pi <= |p|
  {
    Rounds(len - MarkOf(p, pi, ti), |p| + 1) + (|p| - pi)
  }

  /** What the four loop variables mean. */
  ghost predicate Tracks(p: seq<string>, t: seq<string>, pi: int, ti: int, star: int, mark: int) {
    && 0 <= pi <= |p| && 0 <= mark <= ti <= |t|
    && star == LastStar(p, pi) && mark == MarkOf(p, pi, ti)
    && (star == -1 ==> pi == ti && (PathMatches(p, t) <==> PathMatches(p[pi..], t[ti..])))
    && (star != -1 ==>
          RunFits(p[star + 1..], t[mark..], pi - star - 1) &&
          (PathMatches(p, t) <==> PathMatches(p[star..], t[mark..])))
  }

  lemma StarAnswer(p: seq<string>, t: seq<string>, pi: int, ti: int, star: int, mark: int)
    requires Tracks(p, t, pi, ti, star, mark) && pi < |p| && p[pi] == ANY_DEPTH
    ensures PathMatches(p, t) <==> PathMatches(p[pi..], t[ti..])
  {
    if star != -1 {
      var run := pi - star - 1;
      assert p[star..][1..] == p[star + 1..];
      assert p[star..][run + 1..] == p[pi..] && t[mark..][run..] == t[ti..];
      assert p[star..][run + 1] == p[pi];
      NewestStarDecides(p[star..], run, t[mark..]);
    }
  }

  lemma StarStep(p: seq<string>, t: seq<string>, pi: int, ti: int, star: int, mark: int)
    requires Tracks(p, t, pi, ti, star, mark) && pi < |p| && p[pi] == ANY_DEPTH
    ensures Tracks(p, t, pi + 1, ti, pi, ti)
    ensures Potential(p, |t|, pi + 1, ti) < Potential(p, |t|, pi, ti)
  {
    StarAnswer(p, t, pi, ti, star, mark);
    RoundsMonotone(|t| - ti, |t| - mark, |p| + 1);
  }

  lemma MatchStep(p: seq<string>, t: seq<string>, pi: int, ti: int, star: int, mark: int)
    requires Tracks(p, t, pi, ti, star, mark) && pi < |p| && p[pi] != ANY_DEPTH
    requires ti < |t| && Glob(p[pi], t[ti])
    ensures Tracks(p, t, pi + 1, ti + 1, star, mark)
    ensures Potential(p, |t|, pi + 1, ti + 1) < Potential(p, |t|, pi, ti)
  {
    if star == -1 {
      assert p[pi..][1..] == p[pi + 1..] && t[ti..][1..] == t[ti + 1..];
    } else {
      var run := pi - star - 1;
      assert p[star + 1..][run] == p[pi] && t[mark..][run] == t[ti];
    }
  }

  lemma BacktrackStep(p: seq<string>, t: seq<string>, pi: int, ti: int, star: int, mark: int)
    requires Tracks(p, t, pi, ti, star, mark) && star != -1 && ti < |t|
    requires pi == |p| || (p[pi] != ANY_DEPTH && !Glob(p[pi], t[ti]))
    ensures Tracks(p, t, star + 1, mark + 1, star, mark + 1)
    ensures Potential(p, |t|, star + 1, mark + 1) < Potential(p, |t|, pi, ti)
  {
    var run := pi - star - 1;
    assert p[star..][1..] == p[star + 1..];
    OneFurther(p[star..], run, t[mark..]);
    assert t[mark..][1..] == t[mark + 1..];
  }

  lemma NoMatchStep(p: seq<string>, t: seq<string>, pi: int, ti: int, mark: int)
    requires Tracks(p, t, pi, ti, -1, mark) && ti < |t|
    requires pi == |p| || (p[pi] != ANY_DEPTH && !Glob(p[pi], t[ti]))
    ensures !PathMatches(p, t)
  {
  }

  lemma EndStep(p: seq<string>, t: seq<string>, pi: int, ti: int, star: int, mark: int)
    requires Tracks(p, t, pi, ti, star, mark) && ti == |t|
    ensures PathMatches(p, t) <==> PathMatches(p[pi..], [])
  {
    assert t[ti..] == [];
    if star != -1 {
      var run := pi - star - 1;
      assert p[star..][1..] == p[star + 1..];
      TextExhausted(p[star..], run, t[mark..]);
      assert p[star..][run + 1..] == p[pi..];
    }
  }

  /** The states visited so far differ pairwise, and their number is paid for by the potential. */
  ghost predicate Descending(p: seq<string>, len: nat, visited: seq<(nat, nat)>, now: int) {
    && (forall v :: v in visited ==> v.0 <= |p| && Potential(p, len, v.0, v.1) > now)
    && (forall i, j :: 0 <= i < j < |visited| ==> visited[i] != visited[j])
    && |visited| + now <= Rounds(len, |p| + 1) + |p|
  }

  lemma VisitStep(p: seq<string>, len: nat, visited: seq<(nat, nat)>, pi: nat, ti: nat, next: int)
    requires pi <= |p| && Descending(p, len, visited, Potential(p, len, pi, ti))
    requires next < Potential(p, len, pi, ti)
    ensures Descending(p, len, visited + [(pi, ti)], next)
  {
    assert (pi, ti) !in visited;
  }

  /** One turn of the loop, whichever of its three moves it takes. */
  lemma Turn(p: seq<string>, t: seq<string>, visited: seq<(nat, nat)>,
             pi: int, ti: int, star: int, mark: int, pi': int, ti': int, star': int, mark': int)
    requires Tracks(p, t, pi, ti, star, mark) && ti < |t|
    requires Descending(p, |t|, visited, Potential(p, |t|, pi, ti))
    requires
      || (pi < |p| && p[pi] == ANY_DEPTH && pi' == pi + 1 && ti' == ti && star' == pi && mark' == ti)
      || (pi < |p| && p[pi] != ANY_DEPTH && Glob(p[pi], t[ti]) &&
          pi' == pi + 1 && ti' == ti + 1 && star' == star && mark' == mark)
      || ((pi == |p| || (p[pi] != ANY_DEPTH && !Glob(p[pi], t[ti]))) && star != -1 &&
          pi' == star + 1 && ti' == mark + 1 && star' == star && mark' == mark + 1)
    ensures Tracks(p, t, pi', ti', star', mark')
    ensures Potential(p, |t|, pi', ti') < Potential(p, |t|, pi, ti)
    ensures Descending(p, |t|, visited + [(pi, ti)], Potential(p, |t|, pi', ti'))
  {
    assert 0 <= pi <= |p| && 0 <= ti;
    hide *;
    if pi < |p| && p[pi] == ANY_DEPTH {
      StarStep(p, t, pi, ti, star, mark);
      VisitStep(p, |t|, visited, pi, ti, Potential(p, |t|, pi + 1, ti));
    } else if pi < |p| && Glob(p[pi], t[ti]) {
      MatchStep(p, t, pi, ti, star, mark);
      VisitStep(p, |t|, visited, pi, ti, Potential(p, |t|, pi + 1, ti + 1));
    } else {
      BacktrackStep(p, t, pi, ti, star, mark);
      VisitStep(p, |t|, visited, pi, ti, Potential(p, |t|, star + 1, mark + 1));
    }
  }

  lemma FirstState(p: seq<string>, t: seq<string>)
    ensures Tracks(p, t, 0, 0, -1, 0) && Descending(p, |t|, [], Potential(p, |t|, 0, 0))
  {
    assert p[0..] == p && t[0..] == t;
  }

  lemma NoRepeats(p: seq<string>, len: nat, visited: seq<(nat, nat)>, now: int)
    requires Descending(p, len, visited, now)
    ensures forall i, j :: 0 <= i < j < |visited| ==> visited[i] != visited[j]
  {
  }

  /** `_segments_match`. `visited` lists the states at the top of the loop, in order. */
  method SegmentsMatch(pattern: seq<string>, text: seq<string>)
    returns (ok: bool, ghost visited: seq<(nat, nat)>)
    ensures ok <==> PathMatches(pattern, text)
    ensures |visited| <= (|pattern| + 1) * (|text| + 1)
    ensures forall i, j :: 0 <= i < j < |visited| ==> visited[i] != visited[j]
  {
    hide Glob, PathMatches, RunFits, Descending, Rounds;
    var pi, ti := 0, 0;
    var star, mark := -1, 0;
    visited := [];
    FirstState(pattern, text);
    while ti < |text|
      invariant Tracks(pattern, text, pi, ti, star, mark)
      invariant Descending(pattern, |text|, visited, Potential(pattern, |text|, pi, ti))
      decreases Potential(pattern, |text|, pi, ti)
    {
      ghost var pi0, ti0, star0, mark0 := pi, ti, star, mark;
      var fits := false;
      if pi < |pattern| && pattern[pi] != ANY_DEPTH {
        fits := SegmentMatches(pattern[pi], text[ti]);
      }
      if pi < |pattern| && pattern[pi] == ANY_DEPTH {
        star := pi;
        mark := ti;
        pi := pi + 1;
      } else if fits {
        pi := pi + 1;
        ti := ti + 1;
      } else if star != -1 {
        pi := star + 1;
        mark := mark + 1;
        ti := mark;
      } else {
        ok := false;
        NoMatchStep(pattern, text, pi, ti, mark);
        CountBound(pattern, text, visited, pi, ti);
        NoRepeats(pattern, |text|, visited, Potential(pattern, |text|, pi, ti));
        visited := visited + [(pi, ti)];
        return;
      }
      Turn(pattern, text, visited, pi0, ti0, star0, mark0, pi, ti, star, mark);
      visited := visited + [(pi0, ti0)];
    }
    EndStep(pattern, text, pi, ti, star, mark);
    NoRepeats(pattern, |text|, visited, Potential(pattern, |text|, pi, ti));
    CountBound(pattern, text, visited, pi, ti);
    ok := OnlyStarsLeft(pattern, pi);
  }

  /** The closing loop of `_segments_match`: the text is used up, so only `**` may be left. */
  method OnlyStarsLeft(pattern: seq<string>, from: nat) returns (ok: bool)
    requires from <= |pattern|
    ensures ok <==> PathMatches(pattern[from..], [])
  {
    var pi := from;
    while pi < |pattern| && pattern[pi] == ANY_DEPTH
      invariant from <= pi <= |pattern|
      invariant PathMatches(pattern[from..], []) <==> PathMatches(pattern[pi..], [])
    {
      assert pattern[pi..][1..] == pattern[pi + 1..];
      pi := pi + 1;
    }
    ok := pi == |pattern|;
  }

  /** The source's bound on the number of states, one to spare for the state in hand. */
  lemma CountBound(p: seq<string>, t: seq<string>, visited: seq<(nat, nat)>, pi: nat, ti: nat)
    requires pi <= |p| && Descending(p, |t|, visited, Potential(p, |t|, pi, ti))
    ensures |visited| + 1 <= (|p| + 1) * (|t| + 1) && (pi, ti) !in visited
  {
    RoundsProduct(|t|, |p| + 1);
    assert |t| * (|p| + 1) + |p| + 1 == (|p| + 1) * (|t| + 1);
  }
}
