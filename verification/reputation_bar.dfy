/**
 * The reputation arithmetic: the per-dimension average shown on the bars, the
 * aggregate reputation shown on the badge, and the colour bands of both.
 *
 * The source computes with floating point and `Math.round`; here every formula
 * is stated exactly on integers and proved equal to the rounded real-number
 * quotient it stands for (`Math.round(x)` is `floor(x + 1/2)`).
 */
module ReputationBar {
  import opened Common
  import opened Identity
  import opened Backend

  // ---------------------------------------------------------------- rounding

  /** `Math.round(x)`: the nearest integer, ties rounding up. */
  ghost function Round(x: real): int {
    (x + 0.5).Floor
  }

  /** A non-zero multiple of a positive `b` is at least `b` away from zero. */
  lemma {:induction false} MulSign(b: int, k: int)
    requires b > 0
    ensures k >= 1 ==> b * k >= b
    ensures k <= -1 ==> b * k <= -b
    decreases if k >= 0 then k else -k
  {
    if k > 1 {
      MulSign(b, k - 1);
      assert b * k == b * (k - 1) + b;
    } else if k < -1 {
      MulSign(b, k + 1);
      assert b * k == b * (k + 1) - b;
    }
  }

  /** If `a == b * q + r` with `0 <= r < b`, integer division gives `q`. */
  lemma DivUnique(a: int, b: int, q: int, r: int)
    requires b > 0 && 0 <= r < b && a == b * q + r
    ensures a / b == q
  {
    var q' := a / b;
    var r' := a % b;
    assert a == b * q' + r' && 0 <= r' < b;
    assert b * (q - q') == r' - r;
    MulSign(b, q - q');
  }

  /** The rounded quotient `Math.round(a / b)` of naturals, computed exactly. */
  function RoundDiv(a: nat, b: nat): (q: nat)
    requires b > 0
    ensures q == Round(a as real / b as real)
  {
    var q := (2 * a + b) / (2 * b);
    RoundDivCorrect(a, b, q, (2 * a + b) % (2 * b));
    q
  }

  lemma RoundDivCorrect(a: nat, b: nat, q: int, m: int)
    requires b > 0
    requires 2 * a + b == 2 * b * q + m && 0 <= m < 2 * b
    ensures q == Round(a as real / b as real)
  {
    var y, bb, qq := a as real / b as real, b as real, q as real;
    assert y * bb == a as real;
    assert (2 * b * q) as real == 2.0 * bb * qq;
    var lo := y + 0.5 - qq;
    var hi := qq + 1.0 - (y + 0.5);
    assert lo * (2.0 * bb) == 2.0 * (y * bb) + bb - 2.0 * bb * qq;
    assert lo * (2.0 * bb) == m as real;
    assert hi * (2.0 * bb) == 2.0 * bb - m as real;
    NonNegativeFactor(lo, 2.0 * bb);
    PositiveFactor(hi, 2.0 * bb);
  }

  /** A real whose product with a positive `d` is not negative is not negative. */
  lemma NonNegativeFactor(x: real, d: real)
    requires d > 0.0 && x * d >= 0.0
    ensures x >= 0.0
  {
  }

  /** A real whose product with a positive `d` is positive is positive. */
  lemma PositiveFactor(x: real, d: real)
    requires d > 0.0 && x * d > 0.0
    ensures x > 0.0
  {
  }

  /** Integer division by a positive divisor is monotone in the dividend. */
  lemma DivMonotone(a: int, b: int, d: int)
    requires d > 0 && a <= b
    ensures a / d <= b / d
  {
    var qa, qb := a / d, b / d;
    assert a == d * qa + a % d && 0 <= a % d < d;
    assert b == d * qb + b % d && 0 <= b % d < d;
    assert d * (qa - qb) == (a - b) + (b % d - a % d);
    MulSign(d, qa - qb);
  }

  // ---------------------------------------------------------------- one dimension

  datatype Dimension = Contribution | Teamwork | SkillRelevance | Reliability

  function Score(r: Review, d: Dimension): nat {
    match d
    case Contribution => r.scores.contribution
    case Teamwork => r.scores.teamwork
    case SkillRelevance => r.scores.skillRelevance
    case Reliability => r.scores.reliability
  }

  /** `reviews.reduce((acc, r) => acc + Number(r.scores[key]), 0)`. */
  function DimensionSum(reviews: seq<Review>, d: Dimension): nat {
    if reviews == [] then 0 else DimensionSum(reviews[..|reviews| - 1], d) + Score(reviews[|reviews| - 1], d)
  }

  /**
   * `avgScore`: 0 for no reviews, otherwise the rounded mean of the dimension,
   * capped at 100.
   */
  function AvgScore(reviews: seq<Review>, d: Dimension): (v: nat)
    ensures v <= 100
    ensures reviews == [] ==> v == 0
    ensures reviews != [] ==>
      v == Min(100, Round(DimensionSum(reviews, d) as real / |reviews| as real))
  {
    if reviews == [] then 0 else Min(100, RoundDiv(DimensionSum(reviews, d), |reviews|))
  }

  /** When every review gives the same value `x` in a dimension, that sum is `n * x`. */
  lemma {:induction false} DimensionSumUniform(reviews: seq<Review>, d: Dimension, x: nat)
    requires forall i :: 0 <= i < |reviews| ==> Score(reviews[i], d) == x
    ensures DimensionSum(reviews, d) == |reviews| * x
  {
    if reviews != [] {
      DimensionSumUniform(reviews[..|reviews| - 1], d, x);
    }
  }

  /** If every review scores `x <= 100` in a dimension, the bar shows exactly `x`. */
  lemma AvgScoreUniform(reviews: seq<Review>, d: Dimension, x: nat)
    requires reviews != [] && x <= 100
    requires forall i :: 0 <= i < |reviews| ==> Score(reviews[i], d) == x
    ensures AvgScore(reviews, d) == x
  {
    var n := |reviews|;
    DimensionSumUniform(reviews, d, x);
    assert 2 * (n * x) + n == (2 * n) * x + n;
    DivUnique(2 * (n * x) + n, 2 * n, x, n);
  }

  // ---------------------------------------------------------------- aggregate reputation

  /** The four scores of one review added up. */
  function ReviewTotal(r: Review): nat {
    r.scores.contribution + r.scores.teamwork + r.scores.skillRelevance + r.scores.reliability
  }

  /** T: all four scores over all reviews. */
  function TotalScore(reviews: seq<Review>): nat {
    if reviews == [] then 0 else ReviewTotal(reviews[0]) + TotalScore(reviews[1..])
  }

  /** The per-review means `(c + t + s + r) / 4`, summed as the source's `reduce` does. */
  ghost function SumOfMeans(reviews: seq<Review>): real {
    if reviews == [] then 0.0 else ReviewTotal(reviews[0]) as real / 4.0 + SumOfMeans(reviews[1..])
  }

  lemma {:induction false} SumOfMeansIsQuarterTotal(reviews: seq<Review>)
    ensures SumOfMeans(reviews) == TotalScore(reviews) as real / 4.0
  {
    if reviews != [] {
      SumOfMeansIsQuarterTotal(reviews[1..]);
    }
  }

  /**
   * `computeAvgReputation`: 0 for no reviews, otherwise the rounded mean of the
   * per-review means, capped at 100.
   */
  function AvgReputation(reviews: seq<Review>): (v: nat)
    ensures v <= 100
    ensures reviews == [] ==> v == 0
    ensures reviews != [] ==> v == Min(100, Round(SumOfMeans(reviews) / |reviews| as real))
  {
    if reviews == [] then 0
    else
      var n := |reviews|;
      var v := Min(100, RoundDiv(TotalScore(reviews), 4 * n));
      AvgReputationMeaning(reviews);
      v
  }

  lemma AvgReputationMeaning(reviews: seq<Review>)
    requires reviews != []
    ensures RoundDiv(TotalScore(reviews), 4 * |reviews|) == Round(SumOfMeans(reviews) / |reviews| as real)
  {
    var n := |reviews| as real;
    var t := TotalScore(reviews) as real;
    SumOfMeansIsQuarterTotal(reviews);
    assert SumOfMeans(reviews) / n == t / (4.0 * n);
  }

  /** The closed form `min(100, (T + 2n) / (4n))` of the aggregate. */
  lemma AvgReputationClosedForm(reviews: seq<Review>)
    requires reviews != []
    ensures AvgReputation(reviews) == Min(100, (TotalScore(reviews) + 2 * |reviews|) / (4 * |reviews|))
  {
    var n := |reviews|;
    var t := TotalScore(reviews);
    var q := (t + 2 * n) / (4 * n);
    var m := (t + 2 * n) % (4 * n);
    assert t + 2 * n == 4 * n * q + m;
    assert 2 * t + 4 * n == (2 * (4 * n)) * q + 2 * m;
    DivUnique(2 * t + 4 * n, 2 * (4 * n), q, 2 * m);
  }

  /** Taking review `i` out of the sum. */
  lemma {:induction false} TotalScoreRemove(s: seq<Review>, i: nat)
    requires i < |s|
    ensures TotalScore(s) == ReviewTotal(s[i]) + TotalScore(s[..i] + s[i + 1..])
  {
    if i > 0 {
      TotalScoreRemove(s[1..], i - 1);
      assert s[1..][..i - 1] + s[1..][i..] == (s[..i] + s[i + 1..])[1..];
    } else {
      assert s[..i] + s[i + 1..] == s[1..];
    }
  }

  /** T does not depend on the order of the reviews. */
  lemma {:induction false} TotalScorePermutation(a: seq<Review>, b: seq<Review>)
    requires multiset(a) == multiset(b)
    ensures TotalScore(a) == TotalScore(b)
  {
    if a == [] {
      assert |b| == |multiset(b)| == 0;
    } else {
      var i := MatchFirst(a, b);
      TotalScorePermutation(a[1..], b[..i] + b[i + 1..]);
      TotalScoreRemove(b, i);
    }
  }

  /** The first review of `a` sits somewhere in its permutation `b`; the rest of each are permutations. */
  lemma MatchFirst(a: seq<Review>, b: seq<Review>) returns (i: nat)
    requires a != [] && multiset(a) == multiset(b)
    ensures i < |b| && b[i] == a[0]
    ensures multiset(a[1..]) == multiset(b[..i] + b[i + 1..])
  {
    var x := a[0];
    assert x in multiset(a);
    assert x in b;
    i :| 0 <= i < |b| && b[i] == x;
    RemoveOne(b, i);
    RemoveOne(a, 0);
    assert a[..0] + a[1..] == a[1..];
    assert multiset(a[1..]) == multiset(a) - multiset{x};
  }

  /** Taking entry `i` out of a list takes one copy of it out of the multiset. */
  lemma RemoveOne(s: seq<Review>, i: nat)
    requires i < |s|
    ensures multiset(s[..i] + s[i + 1..]) == multiset(s) - multiset{s[i]}
  {
    assert s == s[..i] + [s[i]] + s[i + 1..];
  }

  /** Reordering the reviews leaves the aggregate unchanged. */
  lemma AvgReputationPermutation(a: seq<Review>, b: seq<Review>)
    requires multiset(a) == multiset(b)
    ensures AvgReputation(a) == AvgReputation(b)
  {
    assert |a| == |multiset(a)| == |multiset(b)| == |b|;
    TotalScorePermutation(a, b);
  }

  /** Every score of `x` is at most the matching score of `y`. */
  predicate ScoresLe(x: Scores, y: Scores) {
    x.contribution <= y.contribution && x.teamwork <= y.teamwork
    && x.skillRelevance <= y.skillRelevance && x.reliability <= y.reliability
  }

  lemma {:induction false} TotalScoreMonotone(a: seq<Review>, i: nat, r: Review)
    requires i < |a| && ScoresLe(a[i].scores, r.scores)
    ensures TotalScore(a) <= TotalScore(a[i := r])
  {
    if i > 0 {
      TotalScoreMonotone(a[1..], i - 1, r);
      assert a[i := r][1..] == a[1..][i - 1 := r];
    }
  }

  /** Raising the scores of one review never lowers the aggregate. */
  lemma AvgReputationMonotone(a: seq<Review>, i: nat, r: Review)
    requires i < |a| && ScoresLe(a[i].scores, r.scores)
    ensures AvgReputation(a) <= AvgReputation(a[i := r])
  {
    var n := |a|;
    TotalScoreMonotone(a, i, r);
    DivMonotone(2 * TotalScore(a) + 4 * n, 2 * TotalScore(a[i := r]) + 4 * n, 2 * (4 * n));
  }

  // ---------------------------------------------------------------- colour bands

  /** The colour names the badge and bar classes are built from. */
  datatype Tone = Emerald | Teal | Amber | Rose | Muted

  /** The number of thresholds `v` reaches, for descending thresholds `hi >= mid >= lo`. */
  function Band(v: int, hi: int, mid: int, lo: int): (b: nat)
    requires lo <= mid <= hi
    ensures b <= 3
    ensures b == 3 <==> v >= hi
    ensures b == 2 <==> mid <= v < hi
    ensures b == 1 <==> lo <= v < mid
    ensures b == 0 <==> v < lo
  {
    if v >= hi then 3 else if v >= mid then 2 else if v >= lo then 1 else 0
  }

  /** Higher values never fall into a lower band. */
  lemma BandMonotone(v: int, w: int, hi: int, mid: int, lo: int)
    requires lo <= mid <= hi && v <= w
    ensures Band(v, hi, mid, lo) <= Band(w, hi, mid, lo)
  {
  }

  /** `scoreBarColor`: emerald from 75, teal from 50, amber from 25, rose below. */
  function ScoreBarColor(v: int): (t: Tone)
    ensures t in {Emerald, Teal, Amber, Rose}
    ensures t == [Rose, Amber, Teal, Emerald][Band(v, 75, 50, 25)]
  {
    if v >= 75 then Emerald else if v >= 50 then Teal else if v >= 25 then Amber else Rose
  }

  /** The colour of `ReputationBadge`: the same bands on the aggregate, muted below 25. */
  function BadgeColor(reviews: seq<Review>): (t: Tone)
    ensures t in {Emerald, Teal, Amber, Muted}
    ensures t == [Muted, Amber, Teal, Emerald][Band(AvgReputation(reviews), 75, 50, 25)]
  {
    var avg := AvgReputation(reviews);
    if avg >= 75 then Emerald else if avg >= 50 then Teal else if avg >= 25 then Amber else Muted
  }

  /** With no reviews the badge reads 0 and is muted. */
  lemma BadgeOfNoReviews()
    ensures AvgReputation([]) == 0 && BadgeColor([]) == Muted
  {
  }
}
