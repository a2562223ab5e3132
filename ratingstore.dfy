/**
 * The normalised rating store: a list of rating records, at most one per
 * (kind, key, user) when written through Upsert, with the aggregate counts
 * the service reads after every submission, and the rounding of the like
 * share into the displayed ratio and level.
 */
module RatingStore {
  import opened Types

  /** Whether a record rates the copilot with id `key`. */
  predicate IsFor(r: Rating, key: int)
  {
    r.kind == COPILOT && r.key == key
  }

  /** Whether a record is the given user's rating of the copilot `key`. */
  predicate IsUserRating(r: Rating, key: int, user: string)
  {
    IsFor(r, key) && r.userId == user
  }

  /** countByTypeAndKeyAndRating. */
  function CountRating(rs: seq<Rating>, key: int, t: RatingType): (n: nat)
    ensures n <= |rs|
  {
    if rs == [] then 0
    else (if IsFor(rs[0], key) && rs[0].rating == t then 1 else 0) + CountRating(rs[1..], key, t)
  }

  /** countByTypeAndKey. */
  function TotalCount(rs: seq<Rating>, key: int): (n: nat)
    ensures n <= |rs|
  {
    if rs == [] then 0 else (if IsFor(rs[0], key) then 1 else 0) + TotalCount(rs[1..], key)
  }

  /** The records of a copilot split into likes, dislikes and neutral ones, so that the
      dislike count the service stores (total minus likes) is never negative. */
  lemma {:induction false} TotalIsSumOfKinds(rs: seq<Rating>, key: int)
    ensures TotalCount(rs, key) == CountRating(rs, key, LIKE) + CountRating(rs, key, DISLIKE) + CountRating(rs, key, NONE)
  {
    if rs != [] {
      TotalIsSumOfKinds(rs[1..], key);
    }
  }

  lemma {:induction false} CountAppend(a: seq<Rating>, b: seq<Rating>, key: int, t: RatingType)
    ensures CountRating(a + b, key, t) == CountRating(a, key, t) + CountRating(b, key, t)
    ensures TotalCount(a + b, key) == TotalCount(a, key) + TotalCount(b, key)
  {
    if a != [] {
      assert (a + b)[1..] == a[1..] + b;
      CountAppend(a[1..], b, key, t);
    } else {
      assert a + b == b;
    }
  }

  /** Overwriting one record changes a count by what the old and the new record contribute. */
  lemma {:induction false} CountUpdate(rs: seq<Rating>, i: nat, r: Rating, key: int, t: RatingType)
    requires i < |rs|
    ensures CountRating(rs[i := r], key, t) ==
      CountRating(rs, key, t) - (if IsFor(rs[i], key) && rs[i].rating == t then 1 else 0)
                              + (if IsFor(r, key) && r.rating == t then 1 else 0)
    ensures TotalCount(rs[i := r], key) ==
      TotalCount(rs, key) - (if IsFor(rs[i], key) then 1 else 0) + (if IsFor(r, key) then 1 else 0)
  {
    if i > 0 {
      assert rs[i := r][1..] == rs[1..][i - 1 := r];
      CountUpdate(rs[1..], i - 1, r, key, t);
    } else {
      assert rs[i := r][1..] == rs[1..];
    }
  }

  /** findByTypeAndKeyAndUserId: the first record of that user for that copilot. */
  function FindUser(rs: seq<Rating>, key: int, user: string): (r: Option<nat>)
    ensures r.Some? ==> r.value < |rs| && IsUserRating(rs[r.value], key, user)
    ensures r.Some? ==> forall j :: 0 <= j < r.value ==> !IsUserRating(rs[j], key, user)
    ensures r.None? ==> forall j :: 0 <= j < |rs| ==> !IsUserRating(rs[j], key, user)
  {
    if rs == [] then None
    else if IsUserRating(rs[0], key, user) then Some(0)
    else match FindUser(rs[1..], key, user)
      case None => None
      case Some(j) => Some(j + 1)
  }

  /** At most one record per (copilot, user). */
  ghost predicate Unique(rs: seq<Rating>)
  {
    forall i, j :: 0 <= i < j < |rs| && rs[i].kind == COPILOT && rs[j].kind == COPILOT ==>
      rs[i].key != rs[j].key || rs[i].userId != rs[j].userId
  }

  /** Sets the user's rating of a copilot: the existing record is overwritten in place,
      otherwise one record is appended. */
  function Upsert(rs: seq<Rating>, key: int, user: string, t: RatingType, now: int): (r: seq<Rating>)
    ensures FindUser(rs, key, user).Some? ==> |r| == |rs|
    ensures FindUser(rs, key, user).None? ==> |r| == |rs| + 1 && r[..|rs|] == rs
  {
    match FindUser(rs, key, user)
    case Some(i) => rs[i := rs[i].(rating := t, rateTime := now)]
    case None => rs + [Rating(COPILOT, key, user, t, now)]
  }

  /** Afterwards the user's record holds the new rating, and no other record changed. */
  lemma UpsertFinds(rs: seq<Rating>, key: int, user: string, t: RatingType, now: int)
    ensures var r := Upsert(rs, key, user, t, now);
      && FindUser(r, key, user).Some?
      && r[FindUser(r, key, user).value].rating == t
      && r[FindUser(r, key, user).value].rateTime == now
      && forall j :: 0 <= j < |rs| && !IsUserRating(rs[j], key, user) ==> j < |r| && r[j] == rs[j]
  {
    var r := Upsert(rs, key, user, t, now);
    match FindUser(rs, key, user)
    case Some(i) =>
      FindUserAt(r, key, user, i);
    case None =>
      FindUserAt(r, key, user, |rs|);
  }

  lemma FindUserAt(rs: seq<Rating>, key: int, user: string, i: nat)
    requires i < |rs| && IsUserRating(rs[i], key, user)
    requires forall j :: 0 <= j < i ==> !IsUserRating(rs[j], key, user)
    ensures FindUser(rs, key, user) == Some(i)
  {
  }

  /** Upsert never creates a second record for the same (copilot, user). */
  lemma UpsertKeepsUnique(rs: seq<Rating>, key: int, user: string, t: RatingType, now: int)
    requires Unique(rs)
    ensures Unique(Upsert(rs, key, user, t, now))
  {
  }

  /** Only the user's latest rating counts: upserting twice is the same as upserting the second value. */
  lemma UpsertTwice(rs: seq<Rating>, key: int, user: string, t1: RatingType, t2: RatingType, now1: int, now2: int)
    ensures Upsert(Upsert(rs, key, user, t1, now1), key, user, t2, now2) == Upsert(rs, key, user, t2, now2)
  {
    match FindUser(rs, key, user)
    case Some(i) =>
      FindUserAt(rs[i := rs[i].(rating := t1, rateTime := now1)], key, user, i);
    case None =>
      FindUserAt(rs + [Rating(COPILOT, key, user, t1, now1)], key, user, |rs|);
      assert (rs + [Rating(COPILOT, key, user, t1, now1)])[|rs| := Rating(COPILOT, key, user, t2, now2)]
          == rs + [Rating(COPILOT, key, user, t2, now2)];
  }

  /** The like count after an upsert: the user's old record no longer counts, the new one does. */
  lemma UpsertCounts(rs: seq<Rating>, key: int, user: string, t: RatingType, now: int, u: RatingType)
    ensures var r := Upsert(rs, key, user, t, now);
      var old_ := FindUser(rs, key, user);
      && CountRating(r, key, u) ==
           CountRating(rs, key, u) - (if old_.Some? && rs[old_.value].rating == u then 1 else 0)
                                   + (if t == u then 1 else 0)
      && TotalCount(r, key) == TotalCount(rs, key) + (if old_.Some? then 0 else 1)
  {
    match FindUser(rs, key, user)
    case Some(i) =>
      CountUpdate(rs, i, rs[i].(rating := t, rateTime := now), key, u);
    case None =>
      var n := Rating(COPILOT, key, user, t, now);
      CountAppend(rs, [n], key, u);
      assert [n][1..] == [];
  }

  /** The like share in tenths, rounded half up: round(10 * like / total), 0 without ratings. */
  function RatingTenths(like: nat, total: nat): (r: int)
    requires like <= total
    ensures 0 <= r <= 10
    ensures total > 0 ==> 20 * like - total <= 2 * total * r <= 20 * like + total
    ensures like == 0 ==> r == 0
    ensures total > 0 && like == total ==> r == 10
  {
    if total == 0 then 0
    else
      var r := (20 * like + total) / (2 * total);
      DivBounds(20 * like + total, 2 * total);
      CancelLt(2 * total, r, 11);
      if like == 0 then CancelLt(2 * total, r, 1); r
      else if like == total then CancelLt(2 * total, 9, r); r
      else r
  }

  lemma DivBounds(a: nat, b: int)
    requires b > 0
    ensures 0 <= a / b && b * (a / b) <= a < b * (a / b) + b
  {
    assert a == b * (a / b) + a % b;
  }

  lemma CancelLt(t: int, x: int, y: int)
    requires t > 0 && t * x < t * y
    ensures x < y
  {
    assert t * x - t * y == t * (x - y);
  }

  /** The stored ratio: the rounded tenths as a decimal in [0, 1], within 1/20 of the exact share. */
  function RatingRatio(like: nat, total: nat): (q: real)
    requires like <= total
    ensures 0.0 <= q <= 1.0
    ensures total == 0 ==> q == 0.0
    ensures total > 0 ==>
      (like as real) / (total as real) - 0.05 <= q <= (like as real) / (total as real) + 0.05
  {
    var r := RatingTenths(like, total);
    if total > 0 then
      var L, T, R := like as real, total as real, r as real;
      assert 20.0 * L - T <= 2.0 * T * R <= 20.0 * L + T;
      assert 20.0 * T * (R / 10.0) == 2.0 * T * R;
      RealShareBounds(L, T, R / 10.0);
      r as real / 10.0
    else r as real / 10.0
  }

  lemma RealShareBounds(L: real, T: real, q: real)
    requires T > 0.0
    requires 20.0 * L - T <= 20.0 * T * q <= 20.0 * L + T
    ensures L / T - 0.05 <= q <= L / T + 0.05
  {
    var u := L / T;
    assert u * T == L;
    var x := 20.0 * u - 1.0 - 20.0 * q;
    assert T * x == 20.0 * (u * T) - T - 20.0 * T * q;
    NonPositiveFactor(T, x);
    var y := 20.0 * q - 20.0 * u - 1.0;
    assert T * y == 20.0 * T * q - 20.0 * (u * T) - T;
    NonPositiveFactor(T, y);
  }

  lemma NonPositiveFactor(t: real, x: real)
    requires t > 0.0 && t * x <= 0.0
    ensures x <= 0.0
  {
  }
}
