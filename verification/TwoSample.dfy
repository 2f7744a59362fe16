/** The exact two-sample Kolmogorov-Smirnov test for two samples of one size, as
    a drift window of an even number of readings needs it. */
module TwoSample {
  import opened Arithmetic
  import Drift

  /** How many readings are at most `x`. */
  function AtMost(xs: seq<real>, x: real): nat {
    if xs == [] then 0 else AtMost(xs[..|xs| - 1], x) + (if xs[|xs| - 1] <= x then 1 else 0)
  }

  function Gap(early: seq<real>, late: seq<real>, x: real): nat {
    var a, b := AtMost(early, x), AtMost(late, x);
    if a >= b then a - b else b - a
  }

  /** The statistic, times the common size. */
  ghost predicate IsDistance(early: seq<real>, late: seq<real>, d: nat) {
    (forall x :: Gap(early, late, x) <= d) && (exists x :: Gap(early, late, x) == d)
  }

  /** Monotone lattice paths from the origin to (i, j) that stay less than `d`
      away from the diagonal: orders of the joint sample with a smaller statistic. */
  function Paths(i: nat, j: nat, d: nat): nat {
    if i >= j + d || j >= i + d then 0
    else if i == 0 && j == 0 then 1
    else (if i == 0 then 0 else Paths(i - 1, j, d)) + (if j == 0 then 0 else Paths(i, j - 1, d))
  }

  /** All paths but those, out of all paths, are less than five in a hundred. */
  predicate Significant(n: nat, d: nat) {
    20 * (Paths(n, n, n + 1) - Paths(n, n, d)) < Paths(n, n, n + 1)
  }

  /** The test's verdict on the two halves of the recent window, where they are of
      one size. */
  ghost predicate Rejects(window: seq<real>)
    requires |LastN(window, Drift.WINDOW)| % 2 == 0
  {
    var recent := LastN(window, Drift.WINDOW);
    var n := |recent| / 2;
    exists d: nat :: IsDistance(recent[..n], recent[n..], d) && Significant(n, d)
  }

  /** A table of path counts, checked cell by cell. */
  predicate Tabulates(t: seq<seq<nat>>, d: nat) {
    && |t| == 7 && (forall i :: 0 <= i < 7 ==> |t[i]| == 7)
    && forall i, j :: 0 <= i < 7 && 0 <= j < 7 ==> CellAdds(t, d, i, j)
  }

  predicate CellAdds(t: seq<seq<nat>>, d: nat, i: nat, j: nat)
    requires |t| == 7 && (forall k :: 0 <= k < 7 ==> |t[k]| == 7) && i < 7 && j < 7
  {
    t[i][j] == if i >= j + d || j >= i + d then 0
               else if i == 0 && j == 0 then 1
               else (if i == 0 then 0 else t[i - 1][j]) + (if j == 0 then 0 else t[i][j - 1])
  }

  lemma {:induction false} TableOfPaths(t: seq<seq<nat>>, d: nat, i: nat, j: nat)
    requires Tabulates(t, d) && i < 7 && j < 7
    ensures Paths(i, j, d) == t[i][j]
    decreases i + j
  {
    assert CellAdds(t, d, i, j);
    if i > 0 {
      TableOfPaths(t, d, i - 1, j);
    }
    if j > 0 {
      TableOfPaths(t, d, i, j - 1);
    }
  }

  lemma AllPaths()
    ensures Paths(6, 6, 7) == 924
  {
    hide Paths;
    var t :=
    [ [1, 1, 1, 1, 1, 1, 1],
      [1, 2, 3, 4, 5, 6, 7],
      [1, 3, 6, 10, 15, 21, 28],
      [1, 4, 10, 20, 35, 56, 84],
      [1, 5, 15, 35, 70, 126, 210],
      [1, 6, 21, 56, 126, 252, 462],
      [1, 7, 28, 84, 210, 462, 924] ];
    TableOfPaths(t, 7, 6, 6);
  }

  lemma PathsWithinFour()
    ensures Paths(6, 6, 5) == 900
  {
    hide Paths;
    var t :=
    [ [1, 1, 1, 1, 1, 0, 0],
      [1, 2, 3, 4, 5, 5, 0],
      [1, 3, 6, 10, 15, 20, 20],
      [1, 4, 10, 20, 35, 55, 75],
      [1, 5, 15, 35, 70, 125, 200],
      [0, 5, 20, 55, 125, 250, 450],
      [0, 0, 20, 75, 200, 450, 900] ];
    TableOfPaths(t, 5, 6, 6);
  }

  lemma PathsWithinThree()
    ensures Paths(6, 6, 4) == 792
  {
    hide Paths;
    var t :=
    [ [1, 1, 1, 1, 0, 0, 0],
      [1, 2, 3, 4, 4, 0, 0],
      [1, 3, 6, 10, 14, 14, 0],
      [1, 4, 10, 20, 34, 48, 48],
      [0, 4, 14, 34, 68, 116, 164],
      [0, 0, 14, 48, 116, 232, 396],
      [0, 0, 0, 48, 164, 396, 792] ];
    TableOfPaths(t, 4, 6, 6);
  }

  /** A statistic of 5/6 is significant, with p = 24/924; one of 4/6 is not, with
      p = 132/924. */
  lemma SixAgainstSix()
    ensures Significant(6, 5) && !Significant(6, 4)
  {
    hide Paths;
    AllPaths();
    PathsWithinFour();
    PathsWithinThree();
  }

  lemma AllPathsOfFive()
    ensures Paths(5, 5, 6) == 252
  {
    hide Paths;
    var t :=
    [ [1, 1, 1, 1, 1, 1, 0],
      [1, 2, 3, 4, 5, 6, 6],
      [1, 3, 6, 10, 15, 21, 27],
      [1, 4, 10, 20, 35, 56, 83],
      [1, 5, 15, 35, 70, 126, 209],
      [1, 6, 21, 56, 126, 252, 461],
      [0, 6, 27, 83, 209, 461, 922] ];
    TableOfPaths(t, 6, 5, 5);
  }

  lemma PathsOfFiveWithinFour()
    ensures Paths(5, 5, 5) == 250
  {
    hide Paths;
    var t :=
    [ [1, 1, 1, 1, 1, 0, 0],
      [1, 2, 3, 4, 5, 5, 0],
      [1, 3, 6, 10, 15, 20, 20],
      [1, 4, 10, 20, 35, 55, 75],
      [1, 5, 15, 35, 70, 125, 200],
      [0, 5, 20, 55, 125, 250, 450],
      [0, 0, 20, 75, 200, 450, 900] ];
    TableOfPaths(t, 5, 5, 5);
  }

  /** Five against five, all in order, has p = 2/252. */
  lemma FiveAgainstFive()
    ensures Significant(5, 5)
  {
    hide Paths;
    AllPathsOfFive();
    PathsOfFiveWithinFour();
  }

  lemma {:induction false} AtMostOfAll(xs: seq<real>, x: real)
    ensures AtMost(xs, x) <= |xs|
  {
    if xs != [] {
      AtMostOfAll(xs[..|xs| - 1], x);
    }
  }

  lemma {:induction false} AtMostOfLevel(xs: seq<real>, level: real, x: real)
    requires forall i :: 0 <= i < |xs| ==> xs[i] == level
    ensures AtMost(xs, x) == if level <= x then |xs| else 0
  {
    if xs != [] {
      AtMostOfLevel(xs[..|xs| - 1], level, x);
    }
  }

  lemma OneDistance(early: seq<real>, late: seq<real>, d: nat, d': nat)
    requires IsDistance(early, late, d) && IsDistance(early, late, d')
    ensures d == d'
  {
    var x :| Gap(early, late, x) == d;
    var x' :| Gap(early, late, x') == d';
    assert Gap(early, late, x) <= d' && Gap(early, late, x') <= d;
  }

  lemma AtMostByOne(xs: seq<real>, v: real, x: real)
    ensures AtMost(xs + [v], x) == AtMost(xs, x) + (if v <= x then 1 else 0)
  {
    assert (xs + [v])[..|xs|] == xs;
  }

  lemma AtMostOfSix(xs: seq<real>, x: real)
    requires |xs| == 6
    ensures AtMost(xs, x)
            == (if xs[0] <= x then 1 else 0) + (if xs[1] <= x then 1 else 0) + (if xs[2] <= x then 1 else 0)
               + (if xs[3] <= x then 1 else 0) + (if xs[4] <= x then 1 else 0) + (if xs[5] <= x then 1 else 0)
  {
    assert AtMost(xs[..0], x) == 0;
    assert xs[..6] == xs;
    hide AtMost;
    forall i: nat | i < 6 ensures AtMost(xs[..i + 1], x) == AtMost(xs[..i], x) + (if xs[i] <= x then 1 else 0) {
      assert xs[..i + 1] == xs[..i] + [xs[i]];
      AtMostByOne(xs[..i], xs[i], x);
    }
    assert AtMost(xs[..1], x) == AtMost(xs[..0 + 1], x) && AtMost(xs[..2], x) == AtMost(xs[..1 + 1], x);
    assert AtMost(xs[..3], x) == AtMost(xs[..2 + 1], x) && AtMost(xs[..4], x) == AtMost(xs[..3 + 1], x);
    assert AtMost(xs[..5], x) == AtMost(xs[..4 + 1], x) && AtMost(xs[..6], x) == AtMost(xs[..5 + 1], x);
  }

  const EARLY: seq<real> := [0.17, 0.17, 0.17, 0.17, 0.17, 0.17]

  /** A spike, four readings of 0.16, and `last`. */
  function Late(last: real): seq<real> { [0.72, 0.16, 0.16, 0.16, 0.16, last] }

  lemma SpikeDistance(last: real)
    requires last == 0.16 || last == 0.175
    ensures IsDistance(EARLY, Late(last), if last == 0.16 then 5 else 4)
  {
    hide AtMost;
    forall x ensures Gap(EARLY, Late(last), x) <= if last == 0.16 then 5 else 4 {
      AtMostOfSix(EARLY, x);
      AtMostOfSix(Late(last), x);
    }
    AtMostOfSix(EARLY, 0.16);
    AtMostOfSix(Late(last), 0.16);
    assert Gap(EARLY, Late(last), 0.16) == if last == 0.16 then 5 else 4;
  }

  /** The lower last reading alarms the test and the higher one does not. */
  lemma SpikeVerdicts(window: seq<real>, last: real)
    requires last == 0.16 || last == 0.175
    requires |window| >= 12 && LastN(window, 12) == EARLY + Late(last)
    ensures Rejects(window) <==> last == 0.16
  {
    hide IsDistance, Significant, Paths;
    SpikeHalves(window, last);
    SixAgainstSix();
    SpikeDistance(last);
    forall d: nat | IsDistance(EARLY, Late(last), d) ensures d == if last == 0.16 then 5 else 4 {
      OneDistance(EARLY, Late(last), d, if last == 0.16 then 5 else 4);
    }
  }

  lemma SpikeHalves(window: seq<real>, last: real)
    requires |window| >= 12 && LastN(window, 12) == EARLY + Late(last)
    ensures var recent := LastN(window, Drift.WINDOW);
            |recent| / 2 == 6 && recent[..6] == EARLY && recent[6..] == Late(last)
  {
  }
}
