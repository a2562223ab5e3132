/**
 * The copilot service: the id allocator, upload, update, deletion with
 * listing-cache eviction, viewing with the per-actor view guard, the two
 * display formats (the legacy one migrating the blob it reads), the
 * home-page listing with its cache, rating submission with lazy migration
 * of the legacy blob, and the notification switch.
 *
 * The stores are the fields of one `Db` object. Parsing a copilot's JSON
 * content is foreign and appears as the flag `parsed`; the clock as `now`;
 * executing a store query as the function `run`; the level service's
 * keyword lookup as `levels`; the request fingerprint as `hash`.
 */
module CopilotService {
  import opened Types
  import opened Text
  import opened Query
  import opened RatingStore
  import opened Migration
  import opened Stores

  /** The first id handed out when there is no copilot yet. */
  const FirstCopilotId := 20000

  /** The lifetime, in seconds, an updated view guard is given (60 minutes). */
  const ViewGuardTtl := 60 * 60

  /** findByCopilotId on the legacy collection: the first blob of the copilot, deleted or not. */
  function FindLegacy(legacy: seq<CopilotRating>, id: int): (r: Option<nat>)
    ensures r.Some? ==> r.value < |legacy| && legacy[r.value].copilotId == id
    ensures r.Some? ==> forall j :: 0 <= j < r.value ==> legacy[j].copilotId != id
    ensures r.None? ==> forall j :: 0 <= j < |legacy| ==> legacy[j].copilotId != id
  {
    if legacy == [] then None
    else if legacy[0].copilotId == id then Some(0)
    else match FindLegacy(legacy[1..], id)
      case None => None
      case Some(j) => Some(j + 1)
  }

  /** The live blob a listing shows for a copilot: the first blob of it that is not deleted. */
  function FindLiveLegacy(legacy: seq<CopilotRating>, id: int): (r: Option<nat>)
    ensures r.Some? ==> r.value < |legacy| && legacy[r.value].copilotId == id && !legacy[r.value].delete
    ensures r.Some? ==> forall j :: 0 <= j < r.value ==> legacy[j].copilotId != id || legacy[j].delete
    ensures r.None? ==> forall j :: 0 <= j < |legacy| ==> legacy[j].copilotId != id || legacy[j].delete
  {
    if legacy == [] then None
    else if legacy[0].copilotId == id && !legacy[0].delete then Some(0)
    else match FindLiveLegacy(legacy[1..], id)
      case None => None
      case Some(j) => Some(j + 1)
  }

  /** The snapshot of the live blob a listing formats a copilot with. */
  function LiveBlob(legacy: seq<CopilotRating>, id: int): Option<CopilotRating>
  {
    match FindLiveLegacy(legacy, id)
    case None => None
    case Some(j) => Some(legacy[j])
  }

  /** Whether a blob holds a non-empty user list, the only case in which it is migrated. */
  predicate Migrates(b: CopilotRating)
  {
    b.ratingUsers.Some? && |b.ratingUsers.value| > 0
  }

  /** A blob read from the legacy collection together with the position it is saved back to. */
  datatype LegacyRef = LegacyRef(index: nat, blob: CopilotRating)

  function BlobOf(r: Option<LegacyRef>): Option<CopilotRating>
  {
    if r.Some? then Some(r.value.blob) else None
  }

  /** The first legacy entry of the actor. */
  function FirstEntryOf(rus: seq<RatingUser>, actor: Option<string>): (r: Option<nat>)
    ensures r.Some? ==> r.value < |rus| && actor == Some(rus[r.value].userId)
    ensures r.Some? ==> forall j :: 0 <= j < r.value ==> actor != Some(rus[j].userId)
    ensures r.None? ==> forall j :: 0 <= j < |rus| ==> actor != Some(rus[j].userId)
  {
    if rus == [] then None
    else if actor == Some(rus[0].userId) then Some(0)
    else match FirstEntryOf(rus[1..], actor)
      case None => None
      case Some(j) => Some(j + 1)
  }

  /** The display record the converter builds from a copilot, before either format adjusts it. */
  function BaseInfo(c: Copilot): CopilotInfo
  {
    CopilotInfo(c.copilotId, c.ratingRatio, c.ratingLevel, false, None, true)
  }

  /** The legacy display format: ratio and level from the blob, "not enough ratings" while the
      blob holds at most five entries, and the actor's rating read off the actor's first entry. */
  function LegacyInfo(actor: Option<string>, c: Copilot, blob: Option<CopilotRating>,
                      decode: string -> RatingType): (info: CopilotInfo)
    ensures info.copilotId == c.copilotId && info.available
    ensures blob.Some? ==> info.ratingRatio == blob.value.ratingRatio && info.ratingLevel == blob.value.ratingLevel
    ensures blob.None? ==> info.ratingRatio == c.ratingRatio && info.ratingLevel == c.ratingLevel
    ensures info.notEnoughRating <==> blob.Some? && blob.value.ratingUsers.Some? && |blob.value.ratingUsers.value| <= 5
    ensures info.ratingType.Some? <==>
      blob.Some? && blob.value.ratingUsers.Some? && FirstEntryOf(blob.value.ratingUsers.value, actor).Some?
    ensures info.ratingType.Some? ==>
      var rus := blob.value.ratingUsers.value;
      info.ratingType == Some(decode(rus[FirstEntryOf(rus, actor).value].rating))
  {
    match blob
    case None => BaseInfo(c)
    case Some(cr) =>
      var info := BaseInfo(c).(ratingRatio := cr.ratingRatio, ratingLevel := cr.ratingLevel);
      match cr.ratingUsers
      case None => info
      case Some(rus) =>
        var info := info.(notEnoughRating := |rus| <= 5);
        match FirstEntryOf(rus, actor)
        case None => info
        case Some(k) => info.(ratingType := Some(decode(rus[k].rating)))
  }

  /** The new display format: "not enough ratings" while likes and dislikes add up to at most
      five, and the actor's rating read off the actor's rating record. */
  function NewInfo(actor: Option<string>, c: Copilot, ratings: seq<Rating>): (info: CopilotInfo)
    ensures info.copilotId == c.copilotId && info.available
    ensures info.ratingRatio == c.ratingRatio && info.ratingLevel == c.ratingLevel
    ensures info.notEnoughRating <==> c.likeCount + c.dislikeCount <= 5
    ensures info.ratingType.Some? <==> actor.Some? && FindUser(ratings, c.copilotId, actor.value).Some?
    ensures info.ratingType.Some? ==>
      info.ratingType == Some(ratings[FindUser(ratings, c.copilotId, actor.value).value].rating)
  {
    var info := BaseInfo(c).(notEnoughRating := c.likeCount + c.dislikeCount <= 5);
    if actor.None? then info
    else match FindUser(ratings, c.copilotId, actor.value)
      case None => info
      case Some(k) => info.(ratingType := Some(ratings[k].rating))
  }

  /** The copilot the legacy format saves after migrating a blob: the blob's ratio and level and
      the counts of its "Like" and "Dislike" entries, replacing the stored counts. */
  function MigratedCopilot(c: Copilot, b: CopilotRating): Copilot
    requires b.ratingUsers.Some?
  {
    c.(ratingRatio := b.ratingRatio, ratingLevel := b.ratingLevel,
       likeCount := CountString(b.ratingUsers.value, "Like"),
       dislikeCount := CountString(b.ratingUsers.value, "Dislike"))
  }

  /** The rows rating submission works on. */
  datatype Rows = Rows(copilots: map<int, Copilot>, ratings: seq<Rating>, legacy: seq<CopilotRating>)

  /** The blob a submission migrates: the first blob of the copilot, when the copilot has some live
      blob and that first blob holds a non-empty user list. */
  function SubmissionBlob(legacy: seq<CopilotRating>, id: int): (r: Option<nat>)
    ensures r.Some? ==> r.value < |legacy| && legacy[r.value].copilotId == id && Migrates(legacy[r.value])
    ensures r.Some? ==> r == FindLegacy(legacy, id)
    ensures FindLiveLegacy(legacy, id).Some? && Migrates(legacy[FindLegacy(legacy, id).value]) ==> r.Some?
  {
    if FindLiveLegacy(legacy, id).Some? then
      var j := FindLegacy(legacy, id).value;
      if Migrates(legacy[j]) then Some(j) else None
    else None
  }

  /** The copilot's counts, ratio and level recomputed from the rating records. */
  function Recount(c: Copilot, rs: seq<Rating>, id: int): (r: Copilot)
    ensures r == c.(likeCount := r.likeCount, dislikeCount := r.dislikeCount,
                    ratingLevel := r.ratingLevel, ratingRatio := r.ratingRatio)
    ensures r.likeCount == CountRating(rs, id, LIKE)
    ensures r.dislikeCount >= 0 && r.likeCount + r.dislikeCount == TotalCount(rs, id)
    ensures 0 <= r.ratingLevel <= 10 && r.ratingRatio == r.ratingLevel as real / 10.0
    ensures TotalCount(rs, id) == 0 ==> r.ratingRatio == 0.0
    ensures r.likeCount == 0 ==> r.ratingLevel == 0
    ensures TotalCount(rs, id) > 0 && r.likeCount == TotalCount(rs, id) ==> r.ratingLevel == 10
  {
    var ratingCount := TotalCount(rs, id);
    var likeCount := CountRating(rs, id, LIKE);
    TotalIsSumOfKinds(rs, id);
    c.(likeCount := likeCount, dislikeCount := ratingCount - likeCount,
       ratingLevel := RatingTenths(likeCount, ratingCount), ratingRatio := RatingRatio(likeCount, ratingCount))
  }

  /** The migration step of a submission: the blob's entries become records (the submitter's
      changed entry taking the new vote), the copilot takes the blob's ratio and level and the
      clamped counts, and the blob is marked deleted. */
  function AfterMigration(s: Rows, user: string, id: int, rating: string,
                          decode: string -> RatingType, now: int): (m: Rows)
    requires id in s.copilots
    ensures m.copilots.Keys == s.copilots.Keys && m.copilots[id].delete == s.copilots[id].delete
    ensures |m.legacy| == |s.legacy| && s.ratings <= m.ratings
    ensures SubmissionBlob(s.legacy, id).None? ==> m == s
    ensures SubmissionBlob(s.legacy, id).Some? ==>
      var j := SubmissionBlob(s.legacy, id).value;
      && m.ratings == s.ratings + SubmitRecords(id, s.legacy[j].ratingUsers.value, user, rating, decode, now)
      && m.legacy[j] == s.legacy[j].(delete := true)
      && (forall k :: 0 <= k < |s.legacy| && k != j ==> m.legacy[k] == s.legacy[k])
      && (forall k :: k in s.copilots && k != id ==> m.copilots[k] == s.copilots[k])
      && m.copilots[id].ratingLevel == s.legacy[j].ratingLevel
      && m.copilots[id].ratingRatio == s.legacy[j].ratingRatio
  {
    match SubmissionBlob(s.legacy, id)
    case None => s
    case Some(j) =>
      var b := s.legacy[j];
      var users := b.ratingUsers.value;
      var c := s.copilots[id];
      Rows(s.copilots[id := c.(likeCount := Clamp(CountString(users, "Like") + SumLikeDelta(users, user, rating, decode)),
                               dislikeCount := Clamp(CountString(users, "Dislike") + SumDislikeDelta(users, user, rating, decode)),
                               ratingLevel := b.ratingLevel, ratingRatio := b.ratingRatio)],
           s.ratings + SubmitRecords(id, users, user, rating, decode, now),
           s.legacy[j := b.(delete := true)])
  }

  /** Whether a submission returns early: no migration ran and the user's record already holds the vote. */
  predicate EarlyReturn(s: Rows, user: string, id: int, rating: string, decode: string -> RatingType)
  {
    && SubmissionBlob(s.legacy, id).None?
    && FindUser(s.ratings, id, user).Some?
    && s.ratings[FindUser(s.ratings, id, user).value].rating == decode(rating)
  }

  /** The rows after a rating submission, and its outcome. */
  function RatesEffect(s: Rows, user: string, id: int, rating: string,
                       decode: string -> RatingType, now: int): (r: (Rows, Outcome))
    ensures id !in s.copilots ==> r == (s, Fail(NotFound))
    ensures id in s.copilots ==> r.1 == Pass
    ensures id in s.copilots && EarlyReturn(s, user, id, rating, decode) ==> r.0 == s
  {
    if id !in s.copilots then (s, Fail(NotFound))
    else
      var m := AfterMigration(s, user, id, rating, decode, now);
      var t := decode(rating);
      var found := FindUser(m.ratings, id, user);
      if found.Some? && m.ratings[found.value].rating == t && SubmissionBlob(s.legacy, id).None? then (m, Pass)
      else
        var rs := Upsert(m.ratings, id, user, t, now);
        var c := m.copilots[id];
        (Rows(if c.delete then m.copilots else m.copilots[id := Recount(c, rs, id)], rs, m.legacy), Pass)
  }

  /** A record that rates the copilot makes its total positive. */
  lemma {:induction false} TotalPositive(rs: seq<Rating>, key: int, i: nat)
    requires i < |rs| && IsFor(rs[i], key)
    ensures TotalCount(rs, key) >= 1
  {
    if i > 0 {
      TotalPositive(rs[1..], key, i - 1);
    }
  }

  /** After a submission for an existing copilot, the submitter's record holds the submitted
      vote, and without a migration every other record is as it was. */
  lemma RatesRecordsVote(s: Rows, user: string, id: int, rating: string, decode: string -> RatingType, now: int)
    requires id in s.copilots
    ensures var r := RatesEffect(s, user, id, rating, decode, now).0;
      && FindUser(r.ratings, id, user).Some?
      && r.ratings[FindUser(r.ratings, id, user).value].rating == decode(rating)
      && (SubmissionBlob(s.legacy, id).None? ==>
            forall j :: 0 <= j < |s.ratings| && !IsUserRating(s.ratings[j], id, user) ==>
              j < |r.ratings| && r.ratings[j] == s.ratings[j])
  {
    var m := AfterMigration(s, user, id, rating, decode, now);
    UpsertFinds(m.ratings, id, user, decode(rating), now);
  }

  /** After a submission that does not return early, a live copilot's counts are those of the
      record store: likes are the LIKE records, dislikes the rest, the level in 0..10 (10 when all
      records are likes, 0 when none are), and there is at least the submitter's record. */
  lemma RatesRecounts(s: Rows, user: string, id: int, rating: string, decode: string -> RatingType, now: int)
    requires id in s.copilots && !s.copilots[id].delete
    requires !EarlyReturn(s, user, id, rating, decode)
    ensures var r := RatesEffect(s, user, id, rating, decode, now).0;
      var c := r.copilots[id];
      && id in r.copilots
      && c.likeCount == CountRating(r.ratings, id, LIKE)
      && c.dislikeCount == TotalCount(r.ratings, id) - c.likeCount
      && TotalCount(r.ratings, id) >= 1
      && 0 <= c.ratingLevel <= 10
      && (c.likeCount == 0 ==> c.ratingLevel == 0)
      && (c.likeCount == TotalCount(r.ratings, id) ==> c.ratingLevel == 10)
  {
    var r := RatesEffect(s, user, id, rating, decode, now).0;
    RatesRecordsVote(s, user, id, rating, decode, now);
    TotalPositive(r.ratings, id, FindUser(r.ratings, id, user).value);
  }

  /** At most one legacy blob belongs to the copilot. */
  predicate AtMostOneBlob(legacy: seq<CopilotRating>, id: int)
  {
    forall i, j :: 0 <= i < |legacy| && 0 <= j < |legacy| && legacy[i].copilotId == id && legacy[j].copilotId == id ==> i == j
  }

  /** Submitting the same vote again changes nothing: the first submission migrated the only
      blob (if it had entries) and left the submitter's record holding the vote. */
  lemma RatesIdempotent(s: Rows, user: string, id: int, rating: string, decode: string -> RatingType,
                        now1: int, now2: int)
    requires id in s.copilots && AtMostOneBlob(s.legacy, id)
    ensures var r := RatesEffect(s, user, id, rating, decode, now1).0;
      RatesEffect(r, user, id, rating, decode, now2) == (r, Pass)
  {
    var r := RatesEffect(s, user, id, rating, decode, now1).0;
    RatesRecordsVote(s, user, id, rating, decode, now1);
    match SubmissionBlob(s.legacy, id)
    case None =>
      assert r.legacy == s.legacy;
    case Some(j) =>
      assert r.legacy == s.legacy[j := s.legacy[j].(delete := true)];
      assert FindLiveLegacy(r.legacy, id).None?;
    assert SubmissionBlob(r.legacy, id).None?;
    assert EarlyReturn(r, user, id, rating, decode);
  }

  /** The legacy and the new display formats agree once a blob has been migrated: the records
      hold the actor's rating where the blob did (for an actor without an earlier record), ratio
      and level are the blob's, and when every entry is a "Like" or a "Dislike" the two
      "not enough ratings" tests coincide. */
  lemma DisplayAgreesAfterMigration(actor: string, c: Copilot, b: CopilotRating, ratings: seq<Rating>,
                                    decode: string -> RatingType)
    requires b.ratingUsers.Some?
    requires FindUser(ratings, c.copilotId, actor).None?
    ensures var rus := b.ratingUsers.value;
      var after := NewInfo(Some(actor), MigratedCopilot(c, b), ratings + LegacyRecords(c.copilotId, rus, decode));
      var before := LegacyInfo(Some(actor), c, Some(b), decode);
      && after.ratingType == before.ratingType
      && after.ratingRatio == before.ratingRatio && after.ratingLevel == before.ratingLevel
      && ((forall k :: 0 <= k < |rus| ==> rus[k].rating == "Like" || rus[k].rating == "Dislike") ==>
            after.notEnoughRating == before.notEnoughRating)
  {
    var rus := b.ratingUsers.value;
    var recs := LegacyRecords(c.copilotId, rus, decode);
    LegacyRecordsAt(c.copilotId, rus, decode);
    FindUserAfterMigration(actor, c.copilotId, rus, recs, ratings, decode);
    if FirstEntryOf(rus, Some(actor)).Some? {
      var k := FirstEntryOf(rus, Some(actor)).value;
      assert (ratings + recs)[|ratings| + k] == recs[k];
    }
    if forall k :: 0 <= k < |rus| ==> rus[k].rating == "Like" || rus[k].rating == "Dislike" {
      LikesAndDislikesCoverAll(rus);
    }
  }

  /** For an actor without a record of the copilot, the first record found after appending the
      records made of legacy entries is the one made of the actor's first entry. */
  lemma FindUserAfterMigration(actor: string, key: int, rus: seq<RatingUser>, recs: seq<Rating>,
                               ratings: seq<Rating>, decode: string -> RatingType)
    requires |recs| == |rus| && forall j :: 0 <= j < |rus| ==> recs[j] == LegacyRecord(key, rus[j], decode)
    requires FindUser(ratings, key, actor).None?
    ensures FirstEntryOf(rus, Some(actor)).None? ==> FindUser(ratings + recs, key, actor).None?
    ensures FirstEntryOf(rus, Some(actor)).Some? ==>
      FindUser(ratings + recs, key, actor) == Some(|ratings| + FirstEntryOf(rus, Some(actor)).value)
  {
    var first := FirstEntryOf(rus, Some(actor));
    if first.None? {
      NoEntryNoRecord(actor, key, rus, recs, decode);
      FindUserNoneAppend(ratings, recs, key, actor);
    } else {
      FirstEntryFirstRecord(actor, key, rus, recs, ratings, decode, first.value);
    }
  }

  lemma NoEntryNoRecord(actor: string, key: int, rus: seq<RatingUser>, recs: seq<Rating>, decode: string -> RatingType)
    requires |recs| == |rus| && forall j :: 0 <= j < |rus| ==> recs[j] == LegacyRecord(key, rus[j], decode)
    requires forall j :: 0 <= j < |rus| ==> Some(actor) != Some(rus[j].userId)
    ensures FindUser(recs, key, actor).None?
  {
    forall j | 0 <= j < |recs|
      ensures !IsUserRating(recs[j], key, actor)
    {
      assert Some(actor) != Some(rus[j].userId);
    }
  }

  lemma FirstEntryFirstRecord(actor: string, key: int, rus: seq<RatingUser>, recs: seq<Rating>, ratings: seq<Rating>,
                              decode: string -> RatingType, k: nat)
    requires |recs| == |rus| && forall j :: 0 <= j < |rus| ==> recs[j] == LegacyRecord(key, rus[j], decode)
    requires k < |rus| && Some(actor) == Some(rus[k].userId)
    requires forall j :: 0 <= j < k ==> Some(actor) != Some(rus[j].userId)
    requires FindUser(ratings, key, actor).None?
    ensures FindUser(ratings + recs, key, actor) == Some(|ratings| + k)
  {
    var all := ratings + recs;
    forall j | 0 <= j < |ratings| + k
      ensures !IsUserRating(all[j], key, actor)
    {
      if j < |ratings| {
        assert all[j] == ratings[j];
      } else {
        assert all[j] == recs[j - |ratings|];
        assert Some(actor) != Some(rus[j - |ratings|].userId);
      }
    }
    assert all[|ratings| + k] == recs[k];
    FindUserAt(all, key, actor, |ratings| + k);
  }

  /** Each entry becomes the record at the same position. */
  lemma {:induction false} LegacyRecordsAt(key: int, users: seq<RatingUser>, decode: string -> RatingType)
    ensures forall k :: 0 <= k < |users| ==> LegacyRecords(key, users, decode)[k] == LegacyRecord(key, users[k], decode)
  {
    if users != [] {
      var init := users[..|users| - 1];
      LegacyRecordsAt(key, init, decode);
      assert forall k :: 0 <= k < |init| ==> init[k] == users[k];
    }
  }

  lemma FindUserNoneAppend(a: seq<Rating>, b: seq<Rating>, key: int, user: string)
    requires FindUser(a, key, user).None? && FindUser(b, key, user).None?
    ensures FindUser(a + b, key, user).None?
  {
    forall i | 0 <= i < |a + b|
      ensures !IsUserRating((a + b)[i], key, user)
    {
      if i < |a| {
        assert (a + b)[i] == a[i];
      } else {
        assert (a + b)[i] == b[i - |a|];
      }
    }
  }

  /** When every entry is a "Like" or a "Dislike", the two counts add up to the number of entries. */
  lemma {:induction false} LikesAndDislikesCoverAll(users: seq<RatingUser>)
    requires forall k :: 0 <= k < |users| ==> users[k].rating == "Like" || users[k].rating == "Dislike"
    ensures CountString(users, "Like") + CountString(users, "Dislike") == |users|
  {
    if users != [] {
      var init := users[..|users| - 1];
      assert forall k :: 0 <= k < |init| ==> init[k] == users[k];
      LikesAndDislikesCoverAll(init);
    }
  }

  /** The plan of a listing request: the operator tokens' inclusions and exclusions, the stage,
      uploader and text filters, the sort field, page and limit. */
  function ListingPlan(userId: Option<string>, req: QueryRequest, levels: string -> set<string>): Plan
  {
    if IsBlank(req.operator) then MakePlan(userId, req, levels, {}, {})
    else MakePlan(userId, req, levels, Inclusions(OperatorTokens(req.operator.value)),
                  Exclusions(OperatorTokens(req.operator.value)))
  }

  /** What executing a plan against the copilot collection yields: the number of matching
      copilots and the requested page of them. */
  datatype QueryResult = QueryResult(count: nat, copilots: seq<Copilot>)

  /** The ids on a page. */
  function PageIds(cs: seq<Copilot>): set<int>
  {
    set k | 0 <= k < |cs| :: cs[k].copilotId
  }

  /** Whether some live blob belongs to a copilot on the page; if so the whole page is shown in
      the legacy format. */
  predicate AnyLiveLegacy(legacy: seq<CopilotRating>, ids: set<int>)
  {
    exists j :: 0 <= j < |legacy| && legacy[j].copilotId in ids && !legacy[j].delete
  }

  /** The info a listing shows for the page entry `c`. */
  function ListingInfo(legacyFormat: bool, userId: Option<string>, c: Copilot, legacy: seq<CopilotRating>,
                       ratings: seq<Rating>, decode: string -> RatingType): CopilotInfo
  {
    if legacyFormat then LegacyInfo(userId, c, LiveBlob(legacy, c.copilotId), decode)
    else NewInfo(userId, c, ratings)
  }

  /** The ids a cached index holds (none when absent or of another type). */
  function IndexIds(kv: map<string, CacheValue>, setKey: string): set<int>
  {
    if setKey in kv && kv[setKey].IdSetValue? then kv[setKey].ids else {}
  }

  /** A blob row is as it was or only marked deleted. */
  predicate SameOrDeleted(now: seq<CopilotRating>, before: seq<CopilotRating>)
  {
    |now| == |before| && forall j :: 0 <= j < |now| ==> now[j] == before[j] || now[j] == before[j].(delete := true)
  }

  /** How a listing may change the copilot collection, given the ids on its page: no copilot
      disappears, one off the page is unchanged, none is added when every id on the page was
      stored, and each document stays under its own id. */
  ghost predicate PageFramed(now: map<int, Copilot>, before: map<int, Copilot>, ids: set<int>)
  {
    && before.Keys <= now.Keys
    && (forall i :: i in before && i !in ids ==> now[i] == before[i])
    && (ids <= before.Keys ==> now.Keys == before.Keys)
    && (KeyedById(before) ==> KeyedById(now))
  }

  /** Saving a copilot of the page under its own id keeps the listing's frame. */
  lemma PageFramedSave(now: map<int, Copilot>, before: map<int, Copilot>, ids: set<int>, c: Copilot)
    requires PageFramed(now, before, ids) && c.copilotId in ids
    ensures PageFramed(now[c.copilotId := c], before, ids)
  {
  }

  /** A set is empty exactly when nothing is in it. */
  lemma EmptyIff(s: set<int>)
    ensures s == {} <==> forall x :: x !in s
  {
    if forall x :: x !in s {
      assert s == {};
    }
  }

  class CopilotService {
    const db: Db
    const decode: string -> RatingType
    var copilotIncrementId: int

    constructor (db: Db, decode: string -> RatingType)
      ensures this.db == db && this.decode == decode
      ensures copilotIncrementId == FirstCopilotId
    {
      this.db := db;
      this.decode := decode;
      copilotIncrementId := FirstCopilotId;
    }

    /** Every stored id lies below the next id to hand out, so uploads never reuse one. */
    ghost predicate Valid()
      reads this, db
    {
      forall k :: k in db.copilots ==> k < copilotIncrementId
    }

    /** Seeds the allocator with one more than the largest stored id (deleted copilots included);
        without copilots it keeps its seed. */
    method Init()
      modifies this
      ensures db.copilots == map[] ==> copilotIncrementId == old(copilotIncrementId)
      ensures db.copilots != map[] ==> copilotIncrementId - 1 in db.copilots
      ensures db.copilots != map[] || old(Valid()) ==> Valid()
    {
      var keys := db.copilots.Keys;
      if keys != {} {
        EmptyIff(keys);
        var last :| last in keys;
        var rest := keys - {last};
        while rest != {}
          invariant rest <= keys && last in keys
          invariant forall x :: x in keys && x !in rest ==> x <= last
          decreases rest
        {
          EmptyIff(rest);
          var next :| next in rest;
          if next > last {
            last := next;
          }
          rest := rest - {next};
        }
        copilotIncrementId := last + 1;
      } else {
        assert db.copilots == map[];
      }
    }

    /** Uploads a copilot: content that does not parse is rejected without consuming an id;
        otherwise the next id is taken and a fresh copilot stored under it. */
    method Upload(loginUserId: string, content: string, parsed: bool, now: int) returns (r: Result<int>)
      modifies this, db
      ensures !parsed ==> r == Err(ValidationError) && copilotIncrementId == old(copilotIncrementId) && unchanged(db)
      ensures parsed ==>
        && r == Ok(old(copilotIncrementId))
        && copilotIncrementId == old(copilotIncrementId) + 1
        && db.copilots == old(db.copilots)[r.value := NewCopilot(r.value, loginUserId, content, now)]
        && db.ratings == old(db.ratings) && db.legacy == old(db.legacy)
        && db.kv == old(db.kv) && db.ttl == old(db.ttl)
      ensures old(Valid()) ==> Valid() && (parsed ==> r.value !in old(db.copilots))
      ensures old(db.Keyed()) ==> db.Keyed()
    {
      if !parsed {
        return Err(ValidationError);
      }
      var id := copilotIncrementId;
      copilotIncrementId := copilotIncrementId + 1;
      db.copilots := db.copilots[id := NewCopilot(id, loginUserId, content, now)];
      r := Ok(id);
    }

    /** Deletes a copilot: an unknown id is ignored, another user's copilot is refused, and
        otherwise the copilot is marked deleted and every listing dimension whose index holds its
        id loses all of its cached keys. */
    method Delete(loginUserId: string, id: int) returns (r: Outcome)
      modifies db
      ensures id !in old(db.copilots) ==> r == Pass && unchanged(db)
      ensures id in old(db.copilots) && old(db.copilots[id]).uploaderId != loginUserId ==>
        r == Fail(PermissionDenied) && unchanged(db)
      ensures id in old(db.copilots) && old(db.copilots[id]).uploaderId == loginUserId ==>
        && r == Pass
        && db.copilots == old(db.copilots)[id := old(db.copilots[id]).(delete := true)]
        && db.kv == EvictForDelete(old(db.kv), old(db.kv), id)
        && db.ttl == EvictForDelete(old(db.ttl), old(db.kv), id)
        && db.ratings == old(db.ratings) && db.legacy == old(db.legacy)
    {
      if id !in db.copilots {
        return Pass;
      }
      var copilot := db.copilots[id];
      if copilot.uploaderId != loginUserId {
        return Fail(PermissionDenied);
      }
      db.copilots := db.copilots[id := copilot.(delete := true)];
      ghost var kv0, ttl0 := db.kv, db.ttl;
      var i := 0;
      while i < |Dimensions|
        invariant 0 <= i <= |Dimensions|
        invariant db.kv == EvictDims(kv0, kv0, id, Dimensions[..i])
        invariant db.ttl == EvictDims(ttl0, kv0, id, Dimensions[..i])
        invariant db.copilots == old(db.copilots)[id := copilot.(delete := true)]
        invariant db.ratings == old(db.ratings) && db.legacy == old(db.legacy)
      {
        EvictDimsNext(kv0, ttl0, id, i);
        var dim := Dimensions[i];
        if InIndex(db.kv, dim, id) {
          db.kv := RemovePrefix(db.kv, DimPrefix(dim));
          db.ttl := RemovePrefix(db.ttl, DimPrefix(dim));
        }
        i := i + 1;
      }
      assert Dimensions[..i] == Dimensions;
      EvictDimsAll(kv0, kv0, id);
      EvictDimsAll(ttl0, kv0, id);
      r := Pass;
    }

    /** The legacy display format; a blob with a non-empty user list is migrated: its entries
        become records, it is saved back marked deleted, and the copilot as passed in is saved with
        the blob's ratio and level and the counted likes and dislikes. */
    method FormatLegacy(actor: Option<string>, c: Copilot, ref: Option<LegacyRef>) returns (info: CopilotInfo)
      requires ref.Some? ==> ref.value.index < |db.legacy|
      modifies db
      ensures info == LegacyInfo(actor, c, BlobOf(ref), decode)
      ensures if ref.Some? && Migrates(ref.value.blob) then
          && db.ratings == old(db.ratings) + LegacyRecords(c.copilotId, ref.value.blob.ratingUsers.value, decode)
          && db.legacy == old(db.legacy)[ref.value.index := ref.value.blob.(delete := true)]
          && db.copilots == old(db.copilots)[c.copilotId := MigratedCopilot(c, ref.value.blob)]
        else
          db.ratings == old(db.ratings) && db.legacy == old(db.legacy) && db.copilots == old(db.copilots)
      ensures db.kv == old(db.kv) && db.ttl == old(db.ttl)
      ensures KeyedById(old(db.copilots)) ==> KeyedById(db.copilots)
    {
      info := BaseInfo(c);
      if ref.Some? {
        var cr := ref.value.blob;
        info := info.(ratingRatio := cr.ratingRatio, ratingLevel := cr.ratingLevel);
        var copilot := c.(ratingRatio := cr.ratingRatio, ratingLevel := cr.ratingLevel);
        if cr.ratingUsers.Some? {
          var rus := cr.ratingUsers.value;
          info := info.(notEnoughRating := |rus| <= 5);
          var fst := FirstEntryOf(rus, actor);
          if fst.Some? {
            info := info.(ratingType := Some(decode(rus[fst.value].rating)));
          }
          if |rus| > 0 {
            var ratingList, likeCount, dislikeCount := ConvertLegacy(c.copilotId, rus, decode);
            db.ratings := db.ratings + ratingList;
            db.legacy := db.legacy[ref.value.index := cr.(delete := true)];
            copilot := copilot.(likeCount := likeCount, dislikeCount := dislikeCount);
            db.copilots := db.copilots[c.copilotId := copilot];
          }
        }
      }
      info := info.(available := true);
    }

    /** Shows a live copilot. A view is counted (views + 1) unless the actor's guard already
        holds the id, and the id then joins the guard. The copilot is shown in the legacy format
        when its first blob is live, which migrates that blob and saves the copilot as read before
        the view was counted, so the counted view is overwritten. */
    method GetCopilotById(actor: string, id: int) returns (r: Option<CopilotInfo>)
      requires db.Keyed()
      modifies db
      ensures id !in old(db.copilots) || old(db.copilots[id]).delete ==> r == None && unchanged(db)
      ensures id in old(db.copilots) && !old(db.copilots[id]).delete ==>
        var c := old(db.copilots[id]);
        var counted := CountsView(old(db.kv), actor, id);
        var j := FindLegacy(old(db.legacy), id);
        var legacyFormat := j.Some? && !old(db.legacy)[j.value].delete;
        && db.kv == (if counted then GuardAfter(old(db.kv), actor, id) else old(db.kv))
        && db.ttl == (if !counted then old(db.ttl)
                      else if GuardIds(old(db.kv), actor).None? then old(db.ttl) - {GuardKey(actor)}
                      else old(db.ttl)[GuardKey(actor) := ViewGuardTtl])
        && r == Some(if legacyFormat then LegacyInfo(Some(actor), c, Some(old(db.legacy)[j.value]), decode)
                     else NewInfo(Some(actor), c, old(db.ratings)))
        && if legacyFormat && Migrates(old(db.legacy)[j.value]) then
             && db.copilots == old(db.copilots)[id := MigratedCopilot(c, old(db.legacy)[j.value])]
             && db.ratings == old(db.ratings) + LegacyRecords(id, old(db.legacy)[j.value].ratingUsers.value, decode)
             && db.legacy == old(db.legacy)[j.value := old(db.legacy)[j.value].(delete := true)]
           else
             && db.copilots == (if counted then old(db.copilots)[id := c.(views := c.views + 1)] else old(db.copilots))
             && db.ratings == old(db.ratings) && db.legacy == old(db.legacy)
    {
      if id !in db.copilots || db.copilots[id].delete {
        return None;
      }
      var copilot := db.copilots[id];
      var cache := GuardIds(db.kv, actor);
      if cache.None? || id !in cache.value {
        db.copilots := db.copilots[id := copilot.(views := copilot.views + 1)];
        if cache.None? {
          db.kv := db.kv[GuardKey(actor) := GuardValue({id})];
          db.ttl := db.ttl - {GuardKey(actor)};
        } else {
          db.kv := db.kv[GuardKey(actor) := GuardValue(cache.value + {id})];
          db.ttl := db.ttl[GuardKey(actor) := ViewGuardTtl];
        }
      }
      var j := FindLegacy(db.legacy, id);
      if j.Some? && !db.legacy[j.value].delete {
        var info := FormatLegacy(Some(actor), copilot, Some(LegacyRef(j.value, db.legacy[j.value])));
        return Some(info);
      }
      return Some(NewInfo(Some(actor), copilot, db.ratings));
    }

    /** Formats the copilots of a page, each in the legacy format (with the live blob the page's
        blobs held before formatting began) or each in the new one. */
    method FormatPage(userId: Option<string>, copilots: seq<Copilot>, legacyFormat: bool)
      returns (infos: seq<CopilotInfo>)
      modifies db
      ensures |infos| == |copilots|
      ensures forall m :: 0 <= m < |infos| ==>
        infos[m] == ListingInfo(legacyFormat, userId, copilots[m], old(db.legacy), old(db.ratings), decode)
      ensures db.kv == old(db.kv) && db.ttl == old(db.ttl)
      ensures !legacyFormat ==> db.copilots == old(db.copilots) && db.ratings == old(db.ratings) && db.legacy == old(db.legacy)
      ensures old(db.ratings) <= db.ratings
      ensures SameOrDeleted(db.legacy, old(db.legacy))
      ensures PageFramed(db.copilots, old(db.copilots), PageIds(copilots))
    {
      var legacy0 := db.legacy;
      infos := [];
      var k := 0;
      while k < |copilots|
        invariant 0 <= k <= |copilots|
        invariant |infos| == k
        invariant forall m :: 0 <= m < k ==>
          infos[m] == ListingInfo(legacyFormat, userId, copilots[m], legacy0, old(db.ratings), decode)
        invariant db.kv == old(db.kv) && db.ttl == old(db.ttl)
        invariant !legacyFormat ==> db.copilots == old(db.copilots) && db.ratings == old(db.ratings) && db.legacy == old(db.legacy)
        invariant old(db.ratings) <= db.ratings
        invariant SameOrDeleted(db.legacy, legacy0)
        invariant PageFramed(db.copilots, old(db.copilots), PageIds(copilots))
      {
        var c := copilots[k];
        assert c.copilotId in PageIds(copilots);
        var info;
        if legacyFormat {
          var j := FindLiveLegacy(legacy0, c.copilotId);
          var ref := if j.Some? then Some(LegacyRef(j.value, legacy0[j.value])) else None;
          ghost var before := db.copilots;
          info := FormatLegacy(userId, c, ref);
          if ref.Some? && Migrates(ref.value.blob) {
            PageFramedSave(before, old(db.copilots), PageIds(copilots), MigratedCopilot(c, ref.value.blob));
          }
        } else {
          info := NewInfo(userId, c, db.ratings);
        }
        infos := infos + [info];
        k := k + 1;
      }
    }

    /** One page of the listing. An eligible request whose page is cached is answered from the
        cache with nothing changed. Otherwise the plan is run, the page is formatted (in the legacy
        format when any copilot on it has a live blob), the page count and `hasNext` computed, and
        an eligible request's page is cached and its ids added to the dimension's index, both with
        the dimension's TTL. */
    method QueriesCopilot(userId: Option<string>, req: QueryRequest, hash: int,
                          levels: string -> set<string>, run: (Plan, map<int, Copilot>) -> QueryResult)
      returns (data: PageInfo)
      modifies db
      ensures var slot := CacheSlotFor(req, hash);
        slot.Some? && slot.value.key in old(db.kv) && old(db.kv)[slot.value.key].PageValue? ==>
          data == old(db.kv)[slot.value.key].page && unchanged(db)
      ensures var slot := CacheSlotFor(req, hash);
        !(slot.Some? && slot.value.key in old(db.kv) && old(db.kv)[slot.value.key].PageValue?) ==>
          var result := run(ListingPlan(userId, req, levels), old(db.copilots));
          var limit := LimitOrDefault(req.limit);
          var legacyFormat := AnyLiveLegacy(old(db.legacy), PageIds(result.copilots));
          && data.total == result.count
          && data.page == PageCount(result.count, limit)
          && data.hasNext == HasNext(result.count, PageOrDefault(req.page), limit)
          && |data.data| == |result.copilots|
          && (forall k :: 0 <= k < |data.data| ==>
                data.data[k] == ListingInfo(legacyFormat, userId, result.copilots[k], old(db.legacy), old(db.ratings), decode))
          && (slot.None? ==> db.kv == old(db.kv) && db.ttl == old(db.ttl))
          && (slot.Some? ==>
                && db.kv == old(db.kv)[slot.value.setKey := IdSetValue(IndexIds(old(db.kv), slot.value.setKey) + PageIds(result.copilots))]
                                      [slot.value.key := PageValue(data)]
                && db.ttl == old(db.ttl)[slot.value.setKey := slot.value.ttl][slot.value.key := slot.value.ttl])
          && (!legacyFormat ==> db.copilots == old(db.copilots) && db.ratings == old(db.ratings) && db.legacy == old(db.legacy))
          && old(db.ratings) <= db.ratings
          && SameOrDeleted(db.legacy, old(db.legacy))
          && PageFramed(db.copilots, old(db.copilots), PageIds(result.copilots))
      ensures old(db.Keyed()) ==> db.Keyed()
    {
      var slot := CacheSlotFor(req, hash);
      if slot.Some? && slot.value.key in db.kv && db.kv[slot.value.key].PageValue? {
        return db.kv[slot.value.key].page;
      }
      var ands, nors := OperatorFilters(req.operator);
      var plan := MakePlan(userId, req, levels, ands, nors);
      assert plan == ListingPlan(userId, req, levels);
      var result := run(plan, db.copilots);
      var copilots := result.copilots;
      var copilotIds := PageIds(copilots);
      var legacyFormat := AnyLiveLegacy(db.legacy, copilotIds);
      var infos := FormatPage(userId, copilots, legacyFormat);
      var page := PageOrDefault(req.page);
      var limit := LimitOrDefault(req.limit);
      var pageNumber := PageCount(result.count, limit);
      var hasNext := HasNext(result.count, page, limit);
      data := PageInfo(result.count, hasNext, infos, pageNumber);
      if slot.Some? {
        var s := slot.value;
        db.kv := db.kv[s.setKey := IdSetValue(IndexIds(db.kv, s.setKey) + copilotIds)];
        db.ttl := db.ttl[s.setKey := s.ttl];
        db.kv := db.kv[s.key := PageValue(data)];
        db.ttl := db.ttl[s.key := s.ttl];
      }
    }

    /** Updates a copilot's content: an unknown id is ignored; content that does not parse is
        rejected before the ownership check; another user's copilot is refused. */
    method Update(loginUserId: string, id: int, content: string, parsed: bool, now: int) returns (r: Outcome)
      modifies db
      ensures id !in old(db.copilots) ==> r == Pass && unchanged(db)
      ensures id in old(db.copilots) && !parsed ==> r == Fail(ValidationError) && unchanged(db)
      ensures id in old(db.copilots) && parsed && old(db.copilots[id]).uploaderId != loginUserId ==>
        r == Fail(PermissionDenied) && unchanged(db)
      ensures id in old(db.copilots) && parsed && old(db.copilots[id]).uploaderId == loginUserId ==>
        && r == Pass
        && db.copilots == old(db.copilots)[id := old(db.copilots[id]).(uploadTime := now, content := content)]
        && db.ratings == old(db.ratings) && db.legacy == old(db.legacy)
        && db.kv == old(db.kv) && db.ttl == old(db.ttl)
    {
      if id !in db.copilots {
        return Pass;
      }
      if !parsed {
        return Fail(ValidationError);
      }
      var copilot := db.copilots[id];
      if copilot.uploaderId != loginUserId {
        return Fail(PermissionDenied);
      }
      db.copilots := db.copilots[id := copilot.(uploadTime := now, content := content)];
      r := Pass;
    }

    /** The migration step of a submission (see AfterMigration); answers whether no migration ran. */
    method MigrateOnSubmission(userIdOrIpAddress: string, id: int, rating: string, now: int) returns (noReq: bool)
      requires id in db.copilots
      modifies db
      ensures Rows(db.copilots, db.ratings, db.legacy)
              == AfterMigration(old(Rows(db.copilots, db.ratings, db.legacy)), userIdOrIpAddress, id, rating, decode, now)
      ensures noReq <==> SubmissionBlob(old(db.legacy), id).None?
      ensures db.kv == old(db.kv) && db.ttl == old(db.ttl)
    {
      noReq := true;
      if FindLiveLegacy(db.legacy, id).Some? {
        var j := FindLegacy(db.legacy, id).value;
        var copilotRating := db.legacy[j];
        if copilotRating.ratingUsers.Some? && |copilotRating.ratingUsers.value| > 0 {
          var ratingUsers := copilotRating.ratingUsers.value;
          noReq := false;
          var ratingList, likeCount, dislikeCount :=
            MigrateForSubmission(id, ratingUsers, userIdOrIpAddress, rating, decode, now);
          db.ratings := db.ratings + ratingList;
          var c := db.copilots[id];
          db.copilots := db.copilots[id := c.(likeCount := likeCount, dislikeCount := dislikeCount,
                                              ratingLevel := copilotRating.ratingLevel,
                                              ratingRatio := copilotRating.ratingRatio)];
          db.legacy := db.legacy[j := copilotRating.(delete := true)];
        }
      }
    }

    /** Submits a rating: see RatesEffect, which this computes in place. */
    method Rates(userIdOrIpAddress: string, id: int, rating: string, now: int) returns (r: Outcome)
      modifies db
      ensures (Rows(db.copilots, db.ratings, db.legacy), r)
              == RatesEffect(old(Rows(db.copilots, db.ratings, db.legacy)), userIdOrIpAddress, id, rating, decode, now)
      ensures db.kv == old(db.kv) && db.ttl == old(db.ttl)
    {
      if id !in db.copilots {
        return Fail(NotFound);
      }
      ghost var s := Rows(db.copilots, db.ratings, db.legacy);
      var noReq := MigrateOnSubmission(userIdOrIpAddress, id, rating, now);
      var t := decode(rating);
      var ratingOptional := FindUser(db.ratings, id, userIdOrIpAddress);
      if ratingOptional.Some? {
        var rating1 := db.ratings[ratingOptional.value];
        if rating1.rating == t && noReq {
          return Pass;
        }
        db.ratings := db.ratings[ratingOptional.value := rating1.(rating := t, rateTime := now)];
      } else {
        db.ratings := db.ratings + [Rating(COPILOT, id, userIdOrIpAddress, t, now)];
      }
      var c := db.copilots[id];
      if !c.delete {
        db.copilots := db.copilots[id := Recount(c, db.ratings, id)];
      }
      r := Pass;
    }

    /** Switches a copilot's notifications: an unknown id is an error, as is another user's copilot. */
    method NotificationStatus(userId: string, copilotId: int, status: bool) returns (r: Outcome)
      modifies db
      ensures copilotId !in old(db.copilots) ==> r == Fail(NotFound) && unchanged(db)
      ensures copilotId in old(db.copilots) && old(db.copilots[copilotId]).uploaderId != userId ==>
        r == Fail(PermissionDenied) && unchanged(db)
      ensures copilotId in old(db.copilots) && old(db.copilots[copilotId]).uploaderId == userId ==>
        && r == Pass
        && db.copilots == old(db.copilots)[copilotId := old(db.copilots[copilotId]).(notification := status)]
        && db.ratings == old(db.ratings) && db.legacy == old(db.legacy)
        && db.kv == old(db.kv) && db.ttl == old(db.ttl)
    {
      if copilotId !in db.copilots {
        return Fail(NotFound);
      }
      var copilot := db.copilots[copilotId];
      if userId != copilot.uploaderId {
        return Fail(PermissionDenied);
      }
      db.copilots := db.copilots[copilotId := copilot.(notification := status)];
      r := Pass;
    }
  }

  /** The copilot an upload stores: no views, ratings or score yet, notifications off, live. */
  function NewCopilot(id: int, uploaderId: string, content: string, now: int): (c: Copilot)
    ensures c.copilotId == id && c.uploaderId == uploaderId && c.content == content && c.uploadTime == now
    ensures c.views == 0 && c.likeCount == 0 && c.dislikeCount == 0 && !c.delete
    ensures c.ratingLevel == 0 && c.ratingRatio == 0.0 && c.hotScore == 0.0 && !c.notification
  {
    Copilot(id, uploaderId, content, 0, 0, 0, 0, 0.0, 0.0, now, false, false)
  }
}
