/**
 * The discrete part of the hot score of a copilot: the floors applied to the
 * trailing-week like and dislike counts, the share of likes among them, and
 * the condition under which the time-based base score is scaled down. The
 * logarithms, the views term and the age in weeks are floating-point work
 * and are not part of this model.
 */
module HotScore {

  /** The inputs the floating-point formula is evaluated on. */
  datatype Discrete = Discrete(ups: int, downs: int, greatRate: real, penalized: bool)

  function Max(a: int, b: int): int
  {
    if a >= b then a else b
  }

  /** ups = max(like, 1), downs = max(dislike, 0), greatRate = ups / (ups + downs), and the
      base is penalised when there are at least 5 ratings and dislikes are at least as many as likes. */
  function Floors(lastWeekLike: int, lastWeekDislike: int): (d: Discrete)
    ensures d.ups >= 1 && d.downs >= 0
    ensures d.ups == Max(lastWeekLike, 1) && d.downs == Max(lastWeekDislike, 0)
    ensures d.greatRate == (d.ups as real) / ((d.ups + d.downs) as real)
    ensures lastWeekLike >= 1 ==> d.ups == lastWeekLike
    ensures lastWeekDislike >= 0 ==> d.downs == lastWeekDislike
    ensures 0.0 < d.greatRate <= 1.0
    ensures d.greatRate == 1.0 <==> d.downs == 0
    ensures d.penalized <==> d.ups + d.downs >= 5 && d.downs >= d.ups
    ensures d.penalized ==> d.greatRate <= 0.5
  {
    var ups := Max(lastWeekLike, 1);
    var downs := Max(lastWeekDislike, 0);
    var greatRate := (ups as real) / ((ups + downs) as real);
    ShareBounds(ups as real, (ups + downs) as real);
    Discrete(ups, downs, greatRate, ups + downs >= 5 && downs >= ups)
  }

  /** The share u / n of u likes among n ratings. */
  lemma ShareBounds(u: real, n: real)
    requires 0.0 < u <= n
    ensures 0.0 < u / n <= 1.0
    ensures u / n == 1.0 <==> n == u
    ensures n >= 2.0 * u ==> u / n <= 0.5
  {
    var g := u / n;
    assert g * n == u;
    if n >= 2.0 * u {
      assert g * n >= g * (2.0 * u);
    }
  }

  /** Raising the like count to 1 beforehand changes nothing: the score applies that floor itself. */
  lemma FloorsRaisedLike(like: int, dislike: int)
    ensures Floors(Max(like, 1), dislike) == Floors(like, dislike)
  {
    assert Max(Max(like, 1), 1) == Max(like, 1);
  }

  /** The refresh job's default for a copilot without trailing-week ratings, (1, 0), scores a
      full like share and is never penalised: stale data alone cannot trigger the penalty. */
  lemma DefaultNotPenalized()
    ensures Floors(1, 0).greatRate == 1.0
    ensures !Floors(1, 0).penalized
  {
  }

  /** The penalty needs at least three dislikes in the trailing week. */
  lemma PenaltyNeedsThreeDislikes(like: int, dislike: int)
    requires Floors(like, dislike).penalized
    ensures dislike >= 3
  {
  }

  /** One more dislike never lifts the penalty and never raises the like share. */
  lemma MoreDislikesNoBetter(like: int, dislike: int)
    requires dislike >= 0
    ensures Floors(like, dislike).penalized ==> Floors(like, dislike + 1).penalized
    ensures Floors(like, dislike + 1).greatRate < Floors(like, dislike).greatRate
  {
    var f0, f1 := Floors(like, dislike), Floors(like, dislike + 1);
    var n := (f0.ups + f0.downs) as real;
    assert f1.ups == f0.ups && f1.downs == f0.downs + 1;
    assert (f1.ups + f1.downs) as real == n + 1.0;
    ShareDecreases(f0.ups as real, n);
  }

  /** A like share u / n shrinks when one more rating joins the n. */
  lemma ShareDecreases(u: real, n: real)
    requires 0.0 < u && 0.0 < n
    ensures u / (n + 1.0) < u / n
  {
    var a, b := u / n, u / (n + 1.0);
    assert a * n == u;
    assert b * (n + 1.0) == u;
    assert b > 0.0;
    assert (a - b) * n == b;
    PositiveFactor(n, a - b);
  }

  lemma PositiveFactor(n: real, x: real)
    requires n > 0.0 && x * n > 0.0
    ensures x > 0.0
  {
  }
}
