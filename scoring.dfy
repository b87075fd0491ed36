/** Tool profiles and `compute_score`: the mean of a tool's four attribute
    scores, rounded to two decimal places. */
module Scoring {

  /** The attribute map of one catalog entry:
      {"Cost", "EaseOfUse", "Integration", "Scalability"}. */
  datatype Profile = Profile(cost: int, easeOfUse: int, integration: int, scalability: int)

  /** `metrics.values()`, in the dictionary's key order. */
  function Values(p: Profile): (vs: seq<int>)
    ensures |vs| == 4
  {
    [p.cost, p.easeOfUse, p.integration, p.scalability]
  }

  /** `sum(...)` of a sequence of integers. */
  function Sum(s: seq<int>): int {
    if s == [] then 0 else s[0] + Sum(s[1..])
  }

  /** Python's `round(x, 2)` on the exact value `x`: the nearest multiple of
      1/100, a tie going to the even multiple. The result is a multiple of
      1/100 no further than 1/200 from `x`, and at a tie it is the even one. */
  function Round2(x: real): (r: real)
    ensures (r * 100.0).Floor as real == r * 100.0
    ensures -0.005 <= r - x <= 0.005
    ensures x * 100.0 - (x * 100.0).Floor as real == 0.5 ==> (r * 100.0).Floor % 2 == 0
  {
    var y := x * 100.0;
    var f := y.Floor;
    var frac := y - f as real;
    var n := if frac < 0.5 then f
             else if frac > 0.5 then f + 1
             else if f % 2 == 0 then f else f + 1;
    assert (n as real / 100.0) * 100.0 == n as real;
    n as real / 100.0
  }

  /** `compute_score(metrics)`: `round(sum(metrics.values()) / len(metrics), 2)`.
      Rounding loses nothing: the score times the number of attributes gives
      back their total. */
  function ComputeScore(p: Profile): (score: real)
    ensures score * |Values(p)| as real == Sum(Values(p)) as real
  {
    var total := Sum(Values(p));
    var mean := total as real / |Values(p)| as real;
    assert mean == total as real / 4.0 && mean * 4.0 == total as real;
    Round2Quarter(total);
    Round2(mean)
  }

  /** `round(x, 2)` leaves a value that already has at most two decimals unchanged. */
  lemma Round2Exact(x: real)
    requires (x * 100.0).Floor as real == x * 100.0
    ensures Round2(x) == x
  {
    var y := x * 100.0;
    assert y - y.Floor as real == 0.0;
    assert Round2(x) == y.Floor as real / 100.0;
  }

  /** The four attribute values add up to the integer sum of the fields. */
  lemma SumValues(p: Profile)
    ensures Sum(Values(p)) == p.cost + p.easeOfUse + p.integration + p.scalability
  {
    var vs := Values(p);
    assert Sum(vs[3..]) == p.scalability by { assert vs[3..][1..] == []; }
    assert Sum(vs[2..]) == p.integration + Sum(vs[3..]) by { assert vs[2..][1..] == vs[3..]; }
    assert Sum(vs[1..]) == p.easeOfUse + Sum(vs[2..]) by { assert vs[1..][1..] == vs[2..]; }
  }

  /** Rounding a quarter `k / 4` to two decimals leaves it unchanged. */
  lemma Round2Quarter(k: int)
    ensures Round2(k as real / 4.0) == k as real / 4.0
  {
    var x := k as real / 4.0;
    var y := (25 * k) as real;
    assert x * 100.0 == y;
    assert y.Floor == 25 * k;
    Round2Exact(x);
  }

  /** The score is exactly the mean of the four attributes: a multiple of 1/4,
      which rounding to two decimals leaves unchanged. */
  lemma ScoreIsMean(p: Profile)
    ensures ComputeScore(p) == (p.cost + p.easeOfUse + p.integration + p.scalability) as real / 4.0
    ensures (ComputeScore(p) * 4.0).Floor as real == ComputeScore(p) * 4.0
  {
    var k := p.cost + p.easeOfUse + p.integration + p.scalability;
    SumValues(p);
    Round2Quarter(k);
    assert ComputeScore(p) * 4.0 == k as real;
  }

  /** The score lies between the smallest and the largest attribute. */
  lemma ScoreWithinAttributes(p: Profile)
    ensures exists i :: 0 <= i < 4 && Values(p)[i] as real <= ComputeScore(p)
    ensures exists j :: 0 <= j < 4 && ComputeScore(p) <= Values(p)[j] as real
  {
    ScoreIsMean(p);
    var vs := Values(p);
    var lo := if vs[0] <= vs[1] && vs[0] <= vs[2] && vs[0] <= vs[3] then 0
              else if vs[1] <= vs[2] && vs[1] <= vs[3] then 1
              else if vs[2] <= vs[3] then 2 else 3;
    var hi := if vs[0] >= vs[1] && vs[0] >= vs[2] && vs[0] >= vs[3] then 0
              else if vs[1] >= vs[2] && vs[1] >= vs[3] then 1
              else if vs[2] >= vs[3] then 2 else 3;
    assert vs[lo] as real <= ComputeScore(p);
    assert ComputeScore(p) <= vs[hi] as real;
  }

  /** Attributes on the 0..10 scale give a score on the 0..10 scale. */
  lemma ScoreInRange(p: Profile)
    requires forall i :: 0 <= i < 4 ==> 0 <= Values(p)[i] <= 10
    ensures 0.0 <= ComputeScore(p) <= 10.0
  {
    ScoreWithinAttributes(p);
  }
}
