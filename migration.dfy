/**
 * Conversion of a legacy rating blob into rating records, with the like and
 * dislike counts read off the legacy rating strings. Two variants exist: the
 * plain one (used when a copilot is displayed and by the daily job) and the
 * one run inside a rating submission, which folds the submitter's changed
 * vote into the same pass and clamps the counts at zero.
 *
 * The mapping from rating strings to RatingType is foreign code; it is a
 * parameter `decode` here, and the lemmas that need "Like" and "Dislike" to
 * decode to LIKE and DISLIKE say so.
 */
module Migration {
  import opened Types
  import opened RatingStore

  /** A decoder that maps exactly "Like" to LIKE and exactly "Dislike" to DISLIKE. */
  ghost predicate FaithfulDecoder(decode: string -> RatingType)
  {
    forall s :: (decode(s) == LIKE <==> s == "Like") && (decode(s) == DISLIKE <==> s == "Dislike")
  }

  /** The number of legacy entries whose rating string is s. */
  function CountString(users: seq<RatingUser>, s: string): (n: nat)
    ensures n <= |users|
  {
    if users == [] then 0
    else CountString(users[..|users| - 1], s) + (if users[|users| - 1].rating == s then 1 else 0)
  }

  /** The record a legacy entry becomes: same user, decoded rating, original rating time. */
  function LegacyRecord(key: int, u: RatingUser, decode: string -> RatingType): Rating
  {
    Rating(COPILOT, key, u.userId, decode(u.rating), u.rateTime)
  }

  /** The records of all entries, in order. */
  function LegacyRecords(key: int, users: seq<RatingUser>, decode: string -> RatingType): (rs: seq<Rating>)
    ensures |rs| == |users|
  {
    if users == [] then []
    else LegacyRecords(key, users[..|users| - 1], decode) + [LegacyRecord(key, users[|users| - 1], decode)]
  }

  /** Whether an entry is the submitter's and carries a different rating string than the submitted one. */
  predicate Changes(u: RatingUser, submitter: string, rating: string)
  {
    u.userId == submitter && u.rating != rating
  }

  /** The record an entry becomes during a submission: the submitter's changed entry takes the
      submitted rating and the submission time. */
  function SubmitRecord(key: int, u: RatingUser, submitter: string, rating: string,
                        decode: string -> RatingType, now: int): Rating
  {
    var r := LegacyRecord(key, u, decode);
    if Changes(u, submitter, rating) then r.(rating := decode(rating), rateTime := now) else r
  }

  function SubmitRecords(key: int, users: seq<RatingUser>, submitter: string, rating: string,
                         decode: string -> RatingType, now: int): (rs: seq<Rating>)
    ensures |rs| == |users|
  {
    if users == [] then []
    else SubmitRecords(key, users[..|users| - 1], submitter, rating, decode, now)
         + [SubmitRecord(key, users[|users| - 1], submitter, rating, decode, now)]
  }

  /** The change a changed entry makes to the like count: +1 when the new rating is a like,
      -1 when it replaces a like with something else. */
  function LikeDelta(u: RatingUser, submitter: string, rating: string, decode: string -> RatingType): int
  {
    if !Changes(u, submitter, rating) then 0
    else if decode(rating) == LIKE then 1
    else if decode(u.rating) != LIKE then 0
    else -1
  }

  function DislikeDelta(u: RatingUser, submitter: string, rating: string, decode: string -> RatingType): int
  {
    if !Changes(u, submitter, rating) then 0
    else if decode(rating) == DISLIKE then 1
    else if decode(u.rating) != DISLIKE then 0
    else -1
  }

  function SumLikeDelta(users: seq<RatingUser>, submitter: string, rating: string, decode: string -> RatingType): int
  {
    if users == [] then 0
    else SumLikeDelta(users[..|users| - 1], submitter, rating, decode) + LikeDelta(users[|users| - 1], submitter, rating, decode)
  }

  function SumDislikeDelta(users: seq<RatingUser>, submitter: string, rating: string, decode: string -> RatingType): int
  {
    if users == [] then 0
    else SumDislikeDelta(users[..|users| - 1], submitter, rating, decode) + DislikeDelta(users[|users| - 1], submitter, rating, decode)
  }

  function Clamp(n: int): nat
  {
    if n < 0 then 0 else n
  }

  /** The plain conversion loop: one record per entry, and the counts of "Like" and "Dislike" entries. */
  method ConvertLegacy(key: int, users: seq<RatingUser>, decode: string -> RatingType)
    returns (ratingList: seq<Rating>, likeCount: nat, dislikeCount: nat)
    ensures ratingList == LegacyRecords(key, users, decode)
    ensures likeCount == CountString(users, "Like")
    ensures dislikeCount == CountString(users, "Dislike")
  {
    ratingList, likeCount, dislikeCount := [], 0, 0;
    var i := 0;
    while i < |users|
      invariant 0 <= i <= |users|
      invariant ratingList == LegacyRecords(key, users[..i], decode)
      invariant likeCount == CountString(users[..i], "Like")
      invariant dislikeCount == CountString(users[..i], "Dislike")
    {
      var ru := users[i];
      assert users[..i + 1][..i] == users[..i];
      ratingList := ratingList + [LegacyRecord(key, ru, decode)];
      if ru.rating == "Like" {
        likeCount := likeCount + 1;
      } else if ru.rating == "Dislike" {
        dislikeCount := dislikeCount + 1;
      }
      i := i + 1;
    }
    assert users[..i] == users;
  }

  /** The conversion loop of a rating submission: the submitter's changed entries take the new
      rating and move the counts by their deltas in the same pass; the counts are then clamped at 0. */
  method MigrateForSubmission(key: int, users: seq<RatingUser>, submitter: string, rating: string,
                              decode: string -> RatingType, now: int)
    returns (ratingList: seq<Rating>, likeCount: int, dislikeCount: int)
    ensures ratingList == SubmitRecords(key, users, submitter, rating, decode, now)
    ensures likeCount == Clamp(CountString(users, "Like") + SumLikeDelta(users, submitter, rating, decode))
    ensures dislikeCount == Clamp(CountString(users, "Dislike") + SumDislikeDelta(users, submitter, rating, decode))
    ensures likeCount >= 0 && dislikeCount >= 0
  {
    ratingList, likeCount, dislikeCount := [], 0, 0;
    var i := 0;
    while i < |users|
      invariant 0 <= i <= |users|
      invariant ratingList == SubmitRecords(key, users[..i], submitter, rating, decode, now)
      invariant likeCount == CountString(users[..i], "Like") + SumLikeDelta(users[..i], submitter, rating, decode)
      invariant dislikeCount == CountString(users[..i], "Dislike") + SumDislikeDelta(users[..i], submitter, rating, decode)
    {
      var ratingUser := users[i];
      assert users[..i + 1][..i] == users[..i];
      var newRating := LegacyRecord(key, ratingUser, decode);
      if ratingUser.rating == "Like" {
        likeCount := likeCount + 1;
      } else if ratingUser.rating == "Dislike" {
        dislikeCount := dislikeCount + 1;
      }
      if submitter == ratingUser.userId && rating != ratingUser.rating {
        var oldRatingType := newRating.rating;
        newRating := newRating.(rating := decode(rating), rateTime := now);
        likeCount := likeCount + (if newRating.rating == LIKE then 1 else if oldRatingType != LIKE then 0 else -1);
        dislikeCount := dislikeCount + (if newRating.rating == DISLIKE then 1 else if oldRatingType != DISLIKE then 0 else -1);
      }
      ratingList := ratingList + [newRating];
      i := i + 1;
    }
    assert users[..i] == users;
    if likeCount < 0 {
      likeCount := 0;
    }
    if dislikeCount < 0 {
      dislikeCount := 0;
    }
  }

  /** Without a changed entry of the submitter, the submission variant is the plain conversion. */
  lemma {:induction false} NoChangeIsPlainConversion(key: int, users: seq<RatingUser>, submitter: string,
                                                     rating: string, decode: string -> RatingType, now: int)
    requires forall i :: 0 <= i < |users| ==> !Changes(users[i], submitter, rating)
    ensures SubmitRecords(key, users, submitter, rating, decode, now) == LegacyRecords(key, users, decode)
    ensures SumLikeDelta(users, submitter, rating, decode) == 0
    ensures SumDislikeDelta(users, submitter, rating, decode) == 0
  {
    if users != [] {
      var init := users[..|users| - 1];
      assert forall i :: 0 <= i < |init| ==> init[i] == users[i];
      NoChangeIsPlainConversion(key, init, submitter, rating, decode, now);
    }
  }

  /** Every converted record rates the copilot, so the copilot gains one record per entry. */
  lemma {:induction false} SubmitRecordsTotal(key: int, users: seq<RatingUser>, submitter: string,
                                              rating: string, decode: string -> RatingType, now: int)
    ensures TotalCount(SubmitRecords(key, users, submitter, rating, decode, now), key) == |users|
  {
    if users != [] {
      var init := users[..|users| - 1];
      SubmitRecordsTotal(key, init, submitter, rating, decode, now);
      var last := SubmitRecord(key, users[|users| - 1], submitter, rating, decode, now);
      CountAppend(SubmitRecords(key, init, submitter, rating, decode, now), [last], key, LIKE);
      assert [last][1..] == [];
    }
  }

  /** With a faithful decoder the counts from the legacy strings equal the counts of the converted records. */
  lemma {:induction false} LegacyCountsMatchRecords(key: int, users: seq<RatingUser>, decode: string -> RatingType)
    requires FaithfulDecoder(decode)
    ensures CountRating(LegacyRecords(key, users, decode), key, LIKE) == CountString(users, "Like")
    ensures CountRating(LegacyRecords(key, users, decode), key, DISLIKE) == CountString(users, "Dislike")
  {
    if users != [] {
      var init := users[..|users| - 1];
      LegacyCountsMatchRecords(key, init, decode);
      var last := LegacyRecord(key, users[|users| - 1], decode);
      CountAppend(LegacyRecords(key, init, decode), [last], key, LIKE);
      CountAppend(LegacyRecords(key, init, decode), [last], key, DISLIKE);
      assert [last][1..] == [];
    }
  }

  /** With a faithful decoder the counts folded with the submitter's deltas equal the counts of the
      records written, so they are never negative and the clamp changes nothing. */
  lemma {:induction false} SubmitCountsMatchRecords(key: int, users: seq<RatingUser>, submitter: string,
                                                    rating: string, decode: string -> RatingType, now: int)
    requires FaithfulDecoder(decode)
    ensures CountRating(SubmitRecords(key, users, submitter, rating, decode, now), key, LIKE)
            == CountString(users, "Like") + SumLikeDelta(users, submitter, rating, decode)
    ensures CountRating(SubmitRecords(key, users, submitter, rating, decode, now), key, DISLIKE)
            == CountString(users, "Dislike") + SumDislikeDelta(users, submitter, rating, decode)
  {
    if users != [] {
      var init := users[..|users| - 1];
      var u := users[|users| - 1];
      SubmitCountsMatchRecords(key, init, submitter, rating, decode, now);
      var last := SubmitRecord(key, u, submitter, rating, decode, now);
      CountAppend(SubmitRecords(key, init, submitter, rating, decode, now), [last], key, LIKE);
      CountAppend(SubmitRecords(key, init, submitter, rating, decode, now), [last], key, DISLIKE);
      assert [last][1..] == [];
      assert decode(u.rating) == LIKE <==> u.rating == "Like";
      assert decode(u.rating) == DISLIKE <==> u.rating == "Dislike";
      assert decode(rating) == LIKE <==> rating == "Like";
      assert decode(rating) == DISLIKE <==> rating == "Dislike";
    }
  }
}
