/**
 * The daily hot-score job: every live copilot first takes over its live
 * legacy blob (the first such blob, when several share its id), adding the
 * blob's "Like" and "Dislike" entries onto its stored counts; then it is
 * scored from the likes and dislikes of the trailing week and saved; last,
 * every cached key of the "hot" listing dimension is evicted.
 *
 * The floating-point score is the function `hot`, given the copilot and the
 * discrete inputs of module HotScore; the clock is `now`, in seconds.
 */
module ScoreRefresh {
  import opened Types
  import opened Query
  import opened RatingStore
  import opened Migration
  import opened HotScore
  import opened Stores
  import CS = CopilotService

  /** The trailing window, in seconds (seven days). */
  const Week := 7 * 24 * 3600

  /** Whether a record is a COPILOT record of `key` with rating `t` rated at `start` or later. */
  predicate InWindow(r: Rating, key: int, t: RatingType, start: int)
  {
    IsFor(r, key) && r.rating == t && r.rateTime >= start
  }

  /** The number of COPILOT records of `key` with rating `t` and a rating time of at least `start`:
      zero exactly when no record matches, and all of them exactly when every record matches. */
  function CountWindow(rs: seq<Rating>, key: int, t: RatingType, start: int): (n: nat)
    ensures n <= |rs|
    ensures n == 0 <==> forall i :: 0 <= i < |rs| ==> !InWindow(rs[i], key, t, start)
    ensures n == |rs| <==> forall i :: 0 <= i < |rs| ==> InWindow(rs[i], key, t, start)
  {
    if rs == [] then 0
    else
      var rest := CountWindow(rs[1..], key, t, start);
      assert forall i :: 1 <= i < |rs| ==> rs[i] == rs[1..][i - 1];
      (if InWindow(rs[0], key, t, start) then 1 else 0) + rest
  }

  /** The window only drops records: never more than all records of that rating. */
  lemma {:induction false} CountWindowBound(rs: seq<Rating>, key: int, t: RatingType, start: int)
    ensures CountWindow(rs, key, t, start) <= CountRating(rs, key, t)
  {
    if rs != [] {
      CountWindowBound(rs[1..], key, t, start);
    }
  }

  /** When every record falls inside the window, the window count is the plain count. */
  lemma {:induction false} CountWindowAll(rs: seq<Rating>, key: int, t: RatingType, start: int)
    requires forall i :: 0 <= i < |rs| ==> rs[i].rateTime >= start
    ensures CountWindow(rs, key, t, start) == CountRating(rs, key, t)
  {
    if rs != [] {
      assert forall i :: 0 <= i < |rs[1..]| ==> rs[1..][i] == rs[i + 1];
      CountWindowAll(rs[1..], key, t, start);
    }
  }

  /** The grouped count: per key of `keys`, its window count, and keys without a match absent. */
  function Counts(rs: seq<Rating>, keys: set<int>, t: RatingType, start: int): (m: map<int, nat>)
    ensures forall k :: k in m <==> k in keys && CountWindow(rs, k, t, start) > 0
    ensures forall k :: k in m ==> m[k] == CountWindow(rs, k, t, start)
  {
    map k | k in keys && CountWindow(rs, k, t, start) > 0 :: CountWindow(rs, k, t, start)
  }

  function GetOrDefault(m: map<int, nat>, k: int, d: int): int
  {
    if k in m then m[k] else d
  }

  /** The defaults (1 like, 0 dislikes) for copilots without a match in the window: the like
      count scored is the window count raised to at least 1 and the dislike count is the window
      count, so the score's own floors see exactly the window counts. */
  lemma DefaultsMatchFloors(rs: seq<Rating>, keys: set<int>, k: int, start: int)
    requires k in keys
    ensures var like := GetOrDefault(Counts(rs, keys, LIKE, start), k, 1);
      var dislike := GetOrDefault(Counts(rs, keys, DISLIKE, start), k, 0);
      && like == Max(CountWindow(rs, k, LIKE, start), 1)
      && dislike == CountWindow(rs, k, DISLIKE, start)
      && Floors(like, dislike) == Floors(CountWindow(rs, k, LIKE, start), CountWindow(rs, k, DISLIKE, start))
  {
    var cl, cd := CountWindow(rs, k, LIKE, start), CountWindow(rs, k, DISLIKE, start);
    var likes, dislikes := Counts(rs, keys, LIKE, start), Counts(rs, keys, DISLIKE, start);
    assert GetOrDefault(likes, k, 1) == Max(cl, 1) by {
      if cl > 0 { assert k in likes; } else { assert k !in likes; }
    }
    assert GetOrDefault(dislikes, k, 0) == cd by {
      if cd > 0 { assert k in dislikes; } else { assert k !in dislikes; }
    }
    FloorsRaisedLike(cl, cd);
  }

  /** The copilot after the batch migration: the blob's level and ratio, and, when the blob has a
      user list, its "Like" and "Dislike" entries added onto the stored counts. */
  function BatchMigrated(c: Copilot, blob: Option<CopilotRating>): (r: Copilot)
    ensures r.copilotId == c.copilotId && r.delete == c.delete
  {
    match blob
    case None => c
    case Some(b) =>
      var r := c.(ratingLevel := b.ratingLevel, ratingRatio := b.ratingRatio);
      match b.ratingUsers
      case None => r
      case Some(users) =>
        r.(likeCount := c.likeCount + CountString(users, "Like"),
           dislikeCount := c.dislikeCount + CountString(users, "Dislike"))
  }

  /** The loaded copilots after the batch migration, in order. */
  function BatchCopilots(cs: seq<Copilot>, legacy: seq<CopilotRating>): (r: seq<Copilot>)
    ensures |r| == |cs|
  {
    if cs == [] then []
    else BatchCopilots(cs[..|cs| - 1], legacy) + [BatchMigrated(cs[|cs| - 1], CS.LiveBlob(legacy, cs[|cs| - 1].copilotId))]
  }

  lemma BatchCopilotsStep(cs: seq<Copilot>, n: nat, legacy: seq<CopilotRating>)
    requires n < |cs|
    ensures BatchCopilots(cs[..n + 1], legacy) == BatchCopilots(cs[..n], legacy) + [BatchMigrated(cs[n], CS.LiveBlob(legacy, cs[n].copilotId))]
  {
    assert cs[..n + 1][..n] == cs[..n];
  }

  /** Each copilot is migrated on its own. */
  lemma {:induction false} BatchCopilotsAt(cs: seq<Copilot>, legacy: seq<CopilotRating>, m: nat)
    requires m < |cs|
    ensures BatchCopilots(cs, legacy)[m] == BatchMigrated(cs[m], CS.LiveBlob(legacy, cs[m].copilotId))
  {
    if m < |cs| - 1 {
      BatchCopilotsAt(cs[..|cs| - 1], legacy, m);
    }
  }

  /** The records one copilot's live blob becomes (none without a blob or a user list). */
  function RecordsOf(c: Copilot, legacy: seq<CopilotRating>, decode: string -> RatingType): seq<Rating>
  {
    match CS.LiveBlob(legacy, c.copilotId)
    case None => []
    case Some(b) =>
      if b.ratingUsers.Some? then LegacyRecords(c.copilotId, b.ratingUsers.value, decode) else []
  }

  /** The records the batch migration inserts, copilot by copilot. */
  function BatchRecords(cs: seq<Copilot>, legacy: seq<CopilotRating>, decode: string -> RatingType): seq<Rating>
  {
    if cs == [] then []
    else BatchRecords(cs[..|cs| - 1], legacy, decode) + RecordsOf(cs[|cs| - 1], legacy, decode)
  }

  lemma BatchRecordsStep(cs: seq<Copilot>, n: nat, legacy: seq<CopilotRating>, decode: string -> RatingType)
    requires n < |cs|
    ensures BatchRecords(cs[..n + 1], legacy, decode) == BatchRecords(cs[..n], legacy, decode) + RecordsOf(cs[n], legacy, decode)
  {
    assert cs[..n + 1][..n] == cs[..n];
  }

  /** Each entry of a migrated blob becomes one record of its copilot. */
  lemma RecordsOfTotal(c: Copilot, legacy: seq<CopilotRating>, decode: string -> RatingType)
    ensures CS.LiveBlob(legacy, c.copilotId).Some? && CS.LiveBlob(legacy, c.copilotId).value.ratingUsers.Some? ==>
      |RecordsOf(c, legacy, decode)| == |CS.LiveBlob(legacy, c.copilotId).value.ratingUsers.value|
    ensures CS.LiveBlob(legacy, c.copilotId).None? || CS.LiveBlob(legacy, c.copilotId).value.ratingUsers.None? ==>
      RecordsOf(c, legacy, decode) == []
  {
  }

  /** With a faithful decoder, the likes and dislikes the batch adds onto a copilot are exactly the
      LIKE and DISLIKE records it inserts for that copilot. */
  lemma BatchCountsMatchRecords(c: Copilot, legacy: seq<CopilotRating>, decode: string -> RatingType)
    requires FaithfulDecoder(decode)
    ensures BatchMigrated(c, CS.LiveBlob(legacy, c.copilotId)).likeCount
            == c.likeCount + CountRating(RecordsOf(c, legacy, decode), c.copilotId, LIKE)
    ensures BatchMigrated(c, CS.LiveBlob(legacy, c.copilotId)).dislikeCount
            == c.dislikeCount + CountRating(RecordsOf(c, legacy, decode), c.copilotId, DISLIKE)
  {
    match CS.LiveBlob(legacy, c.copilotId)
    case None =>
    case Some(b) =>
      if b.ratingUsers.Some? {
        LegacyCountsMatchRecords(c.copilotId, b.ratingUsers.value, decode);
      }
  }

  /** Whether the batch marks blob j deleted: it is the first live blob of a processed copilot and
      has a user list (possibly empty). */
  predicate MarkedBy(legacy: seq<CopilotRating>, ids: set<int>, j: int)
    requires 0 <= j < |legacy|
  {
    legacy[j].copilotId in ids && CS.FindLiveLegacy(legacy, legacy[j].copilotId) == Some(j)
    && legacy[j].ratingUsers.Some?
  }

  /** The legacy collection after one copilot's blob is written back marked deleted. */
  function MarkNext(cur: seq<CopilotRating>, legacy0: seq<CopilotRating>, id: int): (r: seq<CopilotRating>)
    requires |cur| == |legacy0|
    ensures |r| == |cur|
  {
    match CS.FindLiveLegacy(legacy0, id)
    case None => cur
    case Some(j) => if legacy0[j].ratingUsers.Some? then cur[j := legacy0[j].(delete := true)] else cur
  }

  /** The legacy collection holds the snapshot with exactly the blobs the copilots `ids` mark deleted. */
  predicate MarkedAs(cur: seq<CopilotRating>, legacy0: seq<CopilotRating>, ids: set<int>)
  {
    |cur| == |legacy0|
    && forall j {:trigger cur[j]} :: 0 <= j < |legacy0| ==>
      cur[j] == if MarkedBy(legacy0, ids, j) then legacy0[j].(delete := true) else legacy0[j]
  }

  /** Before any copilot is processed nothing is marked. */
  lemma MarkedAsNone(legacy0: seq<CopilotRating>, cs: seq<Copilot>)
    ensures MarkedAs(legacy0, legacy0, IdsOf(cs, 0))
  {
    assert IdsOf(cs, 0) == {};
  }

  /** Processing one more copilot marks exactly its own blob. */
  lemma MarkStep(cur: seq<CopilotRating>, legacy0: seq<CopilotRating>, ids: set<int>, id: int)
    requires MarkedAs(cur, legacy0, ids)
    ensures MarkedAs(MarkNext(cur, legacy0, id), legacy0, ids + {id})
  {
    var next := MarkNext(cur, legacy0, id);
    forall j | 0 <= j < |legacy0|
      ensures next[j] == if MarkedBy(legacy0, ids + {id}, j) then legacy0[j].(delete := true) else legacy0[j]
    {
      if legacy0[j].copilotId == id && CS.FindLiveLegacy(legacy0, id) == Some(j) {
      } else {
        assert MarkedBy(legacy0, ids + {id}, j) == MarkedBy(legacy0, ids, j);
      }
    }
  }

  /** The legacy collection after the batch has processed the copilots `cs`, in order. */
  function BatchLegacy(legacy0: seq<CopilotRating>, cs: seq<Copilot>): (r: seq<CopilotRating>)
    ensures |r| == |legacy0|
  {
    if cs == [] then legacy0
    else MarkNext(BatchLegacy(legacy0, cs[..|cs| - 1]), legacy0, cs[|cs| - 1].copilotId)
  }

  lemma BatchLegacyStep(legacy0: seq<CopilotRating>, cs: seq<Copilot>, n: nat)
    requires n < |cs|
    ensures BatchLegacy(legacy0, cs[..n + 1]) == MarkNext(BatchLegacy(legacy0, cs[..n]), legacy0, cs[n].copilotId)
  {
    assert cs[..n + 1][..n] == cs[..n];
  }

  /** The batch marks deleted exactly the first live blob, with a user list, of each processed copilot. */
  lemma {:induction false} BatchLegacyMarks(legacy0: seq<CopilotRating>, cs: seq<Copilot>)
    ensures MarkedAs(BatchLegacy(legacy0, cs), legacy0, IdsOf(cs, |cs|))
  {
    if cs == [] {
      MarkedAsNone(legacy0, cs);
    } else {
      var init := cs[..|cs| - 1];
      BatchLegacyMarks(legacy0, init);
      assert IdsOf(init, |init|) == IdsOf(cs, |cs| - 1);
      IdsOfStep(cs, |cs| - 1);
      MarkStep(BatchLegacy(legacy0, init), legacy0, IdsOf(init, |init|), cs[|cs| - 1].copilotId);
    }
  }

  lemma AppendAssoc(a: seq<Rating>, b: seq<Rating>, c: seq<Rating>)
    ensures (a + b) + c == a + (b + c)
  {
  }

  /** The live copilots as the job loads them, in the order the repository returns them. */
  function Snapshot(copilots: map<int, Copilot>, ids: seq<int>): (r: seq<Copilot>)
    requires forall m :: 0 <= m < |ids| ==> ids[m] in copilots
    ensures |r| == |ids| && forall m :: 0 <= m < |ids| ==> r[m] == copilots[ids[m]]
  {
    if ids == [] then [] else Snapshot(copilots, ids[..|ids| - 1]) + [copilots[ids[|ids| - 1]]]
  }

  /** The ids of the first `n` copilots. */
  function IdsOf(cs: seq<Copilot>, n: nat): set<int>
    requires n <= |cs|
  {
    set m | 0 <= m < n :: cs[m].copilotId
  }

  lemma IdsOfStep(cs: seq<Copilot>, n: nat)
    requires n < |cs|
    ensures IdsOf(cs, n + 1) == IdsOf(cs, n) + {cs[n].copilotId}
  {
  }

  /** A copilot with its new hot score, from the window counts (1 like and 0 dislikes by default). */
  function Scored(c: Copilot, likeCountMap: map<int, nat>, dislikeCountMap: map<int, nat>,
                  hot: (Copilot, Discrete) -> real): Copilot
  {
    c.(hotScore := hot(c, Floors(GetOrDefault(likeCountMap, c.copilotId, 1), GetOrDefault(dislikeCountMap, c.copilotId, 0))))
  }

  /** The snapshot lists the copilots by their own ids, which are exactly the live ids. */
  lemma SnapshotIds(copilots: map<int, Copilot>, ids: seq<int>, cs: seq<Copilot>)
    requires forall k :: k in copilots ==> copilots[k].copilotId == k
    requires ListsLive(ids, copilots)
    requires cs == Snapshot(copilots, ids)
    ensures forall a :: 0 <= a < |cs| ==> cs[a].copilotId == ids[a]
    ensures IdsOf(cs, |cs|) == LiveKeys(copilots)
  {
    forall k | k in LiveKeys(copilots)
      ensures k in IdsOf(cs, |cs|)
    {
      var a :| 0 <= a < |ids| && ids[a] == k;
      assert cs[a].copilotId == k;
    }
  }

  /** Scoring the batch-migrated snapshot scores, for each listed id, that copilot migrated
      against its own first live blob. */
  lemma ScoredSnapshot(copilots: map<int, Copilot>, ids: seq<int>, legacy: seq<CopilotRating>, cs: seq<Copilot>,
                       scored: seq<Copilot>, likeCountMap: map<int, nat>, dislikeCountMap: map<int, nat>,
                       hot: (Copilot, Discrete) -> real)
    requires forall k :: k in copilots ==> copilots[k].copilotId == k
    requires ListsLive(ids, copilots)
    requires cs == Snapshot(copilots, ids)
    requires |scored| == |cs|
    requires forall m :: 0 <= m < |cs| ==>
      scored[m] == Scored(BatchCopilots(cs, legacy)[m], likeCountMap, dislikeCountMap, hot)
    ensures forall a :: 0 <= a < |ids| ==>
      scored[a] == Scored(BatchMigrated(copilots[ids[a]], CS.LiveBlob(legacy, ids[a])), likeCountMap, dislikeCountMap, hot)
  {
    SnapshotIds(copilots, ids, cs);
    forall a | 0 <= a < |ids|
      ensures scored[a] == Scored(BatchMigrated(copilots[ids[a]], CS.LiveBlob(legacy, ids[a])),
                                  likeCountMap, dislikeCountMap, hot)
    {
      BatchCopilotsAt(cs, legacy, a);
    }
  }

  /** The copilot collection after the job saves its scores: the same keys, the deleted copilots
      as they were, and each live copilot migrated against its first live blob and scored. */
  ghost predicate Rescored(saved: map<int, Copilot>, copilots: map<int, Copilot>, legacy: seq<CopilotRating>,
                           likeCountMap: map<int, nat>, dislikeCountMap: map<int, nat>, hot: (Copilot, Discrete) -> real)
  {
    && saved.Keys == copilots.Keys
    && (forall k :: k in copilots && copilots[k].delete ==> saved[k] == copilots[k])
    && (forall k :: k in copilots && !copilots[k].delete ==>
          saved[k] == Scored(BatchMigrated(copilots[k], CS.LiveBlob(legacy, k)), likeCountMap, dislikeCountMap, hot))
  }

  /** Saving the scored copilots by id replaces each live copilot by its scored version and
      leaves the deleted ones as they were. */
  lemma SavedEffect(copilots: map<int, Copilot>, ids: seq<int>, legacy: seq<CopilotRating>, scored: seq<Copilot>,
                    likeCountMap: map<int, nat>, dislikeCountMap: map<int, nat>, hot: (Copilot, Discrete) -> real)
    requires forall k :: k in copilots ==> copilots[k].copilotId == k
    requires ListsLive(ids, copilots)
    requires |scored| == |ids|
    requires forall a :: 0 <= a < |ids| ==>
      scored[a] == Scored(BatchMigrated(copilots[ids[a]], CS.LiveBlob(legacy, ids[a])), likeCountMap, dislikeCountMap, hot)
    ensures forall a, b :: 0 <= a < b < |scored| ==> scored[a].copilotId != scored[b].copilotId
    ensures Rescored(copilots + ByKey(scored), copilots, legacy, likeCountMap, dislikeCountMap, hot)
  {
    assert forall a :: 0 <= a < |ids| ==> scored[a].copilotId == ids[a];
    var saved := copilots + ByKey(scored);
    forall k | k in copilots && !copilots[k].delete
      ensures saved[k] == Scored(BatchMigrated(copilots[k], CS.LiveBlob(legacy, k)), likeCountMap, dislikeCountMap, hot)
    {
      var a :| 0 <= a < |ids| && ids[a] == k;
      assert scored[a].copilotId == k;
    }
  }

  /** The ids the repository lists are exactly the live copilots, each once. */
  predicate ListsLive(ids: seq<int>, copilots: map<int, Copilot>)
  {
    && (forall m :: 0 <= m < |ids| ==> ids[m] in copilots && !copilots[ids[m]].delete)
    && (forall k :: k in copilots && !copilots[k].delete ==> k in ids)
    && (forall m, n :: 0 <= m < n < |ids| ==> ids[m] != ids[n])
  }

  function LiveKeys(copilots: map<int, Copilot>): set<int>
  {
    set k | k in copilots && !copilots[k].delete
  }

  /** The copilots keyed by id, as a batch save writes them. */
  function ByKey(cs: seq<Copilot>): (m: map<int, Copilot>)
    requires forall a, b :: 0 <= a < b < |cs| ==> cs[a].copilotId != cs[b].copilotId
    ensures forall a :: 0 <= a < |cs| ==> cs[a].copilotId in m && m[cs[a].copilotId] == cs[a]
    ensures forall k :: k in m ==> exists a :: 0 <= a < |cs| && cs[a].copilotId == k
  {
    map a | 0 <= a < |cs| :: cs[a].copilotId := cs[a]
  }

  /** Evicting the hot dimension removes every `home:hot:` key, the hot index included, and
      leaves the keys of the other dimensions as they were. */
  lemma HotEvictionSparesOthers(kv: map<string, CacheValue>, k: string)
    ensures IndexKey("hot") !in RemovePrefix(kv, DimPrefix("hot"))
    ensures UnderDim(k, "views") || UnderDim(k, "id") ==>
      (k in RemovePrefix(kv, DimPrefix("hot")) <==> k in kv)
  {
    assert IndexKey("hot") == DimPrefix("hot") + "copilotIds";
    if UnderDim(k, "views") {
      PrefixesDisjoint("views", "hot", k);
    }
    if UnderDim(k, "id") {
      PrefixesDisjoint("id", "hot", k);
    }
  }

  class CopilotScoreRefreshTask {
    const db: Db
    const decode: string -> RatingType

    constructor (db: Db, decode: string -> RatingType)
      ensures this.db == db && this.decode == decode
    {
      this.db := db;
      this.decode := decode;
    }

    /** One copilot's share of the batch migration, against the legacy snapshot `legacy0`: the
        copilot takes its first live blob's level and ratio; a blob with a user list has its
        entries converted and added onto the counts, and is written back marked deleted. */
    method MigrateOne(copilot: Copilot, legacy0: seq<CopilotRating>) returns (migrated: Copilot)
      requires |db.legacy| == |legacy0|
      modifies db
      ensures migrated == BatchMigrated(copilot, CS.LiveBlob(legacy0, copilot.copilotId))
      ensures db.ratings == old(db.ratings) + RecordsOf(copilot, legacy0, decode)
      ensures db.legacy == MarkNext(old(db.legacy), legacy0, copilot.copilotId)
      ensures db.copilots == old(db.copilots) && db.kv == old(db.kv) && db.ttl == old(db.ttl)
    {
      migrated := copilot;
      var j := CS.FindLiveLegacy(legacy0, copilot.copilotId);
      if j.Some? {
        var rating := legacy0[j.value];
        migrated := migrated.(ratingLevel := rating.ratingLevel, ratingRatio := rating.ratingRatio);
        if rating.ratingUsers.Some? {
          var ratingList, likes, dislikes := ConvertLegacy(copilot.copilotId, rating.ratingUsers.value, decode);
          migrated := migrated.(likeCount := migrated.likeCount + likes, dislikeCount := migrated.dislikeCount + dislikes);
          db.ratings := db.ratings + ratingList;
          db.legacy := db.legacy[j.value := rating.(delete := true)];
        }
      }
    }

    /** The batch migration over the loaded copilots, in order. */
    method MigrateAll(copilots: seq<Copilot>) returns (migrated: seq<Copilot>)
      modifies db
      ensures migrated == BatchCopilots(copilots, old(db.legacy))
      ensures db.ratings == old(db.ratings) + BatchRecords(copilots, old(db.legacy), decode)
      ensures db.legacy == BatchLegacy(old(db.legacy), copilots)
      ensures db.copilots == old(db.copilots) && db.kv == old(db.kv) && db.ttl == old(db.ttl)
    {
      var legacy0 := db.legacy;
      migrated := [];
      var i := 0;
      while i < |copilots|
        invariant 0 <= i <= |copilots|
        invariant migrated == BatchCopilots(copilots[..i], legacy0)
        invariant db.ratings == old(db.ratings) + BatchRecords(copilots[..i], legacy0, decode)
        invariant db.legacy == BatchLegacy(legacy0, copilots[..i])
        invariant db.copilots == old(db.copilots) && db.kv == old(db.kv) && db.ttl == old(db.ttl)
      {
        BatchRecordsStep(copilots, i, legacy0, decode);
        BatchCopilotsStep(copilots, i, legacy0);
        BatchLegacyStep(legacy0, copilots, i);
        ghost var done := BatchRecords(copilots[..i], legacy0, decode);
        ghost var added := RecordsOf(copilots[i], legacy0, decode);
        var copilot := MigrateOne(copilots[i], legacy0);
        AppendAssoc(old(db.ratings), done, added);
        migrated := migrated + [copilot];
        i := i + 1;
      }
      assert copilots[..i] == copilots;
    }

    /** Scores every loaded copilot from its trailing-week like and dislike counts (defaults 1
        and 0 for keys without a match). */
    method ScoreAll(copilots: seq<Copilot>, likeCountMap: map<int, nat>, dislikeCountMap: map<int, nat>,
                    hot: (Copilot, Discrete) -> real)
      returns (scored: seq<Copilot>)
      ensures |scored| == |copilots|
      ensures forall m :: 0 <= m < |copilots| ==> scored[m] == Scored(copilots[m], likeCountMap, dislikeCountMap, hot)
    {
      scored := copilots;
      var i := 0;
      while i < |copilots|
        invariant 0 <= i <= |copilots| && |scored| == |copilots|
        invariant forall m :: 0 <= m < |copilots| ==>
          scored[m] == if m < i then Scored(copilots[m], likeCountMap, dislikeCountMap, hot) else copilots[m]
      {
        var copilot := copilots[i];
        var likeCount := GetOrDefault(likeCountMap, copilot.copilotId, 1);
        var dislikeCount := GetOrDefault(dislikeCountMap, copilot.copilotId, 0);
        scored := scored[i := copilot.(hotScore := hot(copilot, Floors(likeCount, dislikeCount)))];
        i := i + 1;
      }
    }

    /** The daily job. `copilotIds` is what the repository lists: the live ids, each once. */
    method RefreshHotScores(copilotIds: seq<int>, now: int, hot: (Copilot, Discrete) -> real)
      requires db.Keyed() && ListsLive(copilotIds, db.copilots)
      modifies db
      ensures db.ratings == old(db.ratings) + BatchRecords(Snapshot(old(db.copilots), copilotIds), old(db.legacy), decode)
      ensures MarkedAs(db.legacy, old(db.legacy), LiveKeys(old(db.copilots)))
      ensures Rescored(db.copilots, old(db.copilots), old(db.legacy),
                       Counts(db.ratings, LiveKeys(old(db.copilots)), LIKE, now - Week),
                       Counts(db.ratings, LiveKeys(old(db.copilots)), DISLIKE, now - Week), hot)
      ensures db.kv == RemovePrefix(old(db.kv), DimPrefix("hot"))
      ensures db.ttl == RemovePrefix(old(db.ttl), DimPrefix("hot"))
    {
      ghost var copilots0, legacy0 := db.copilots, db.legacy;
      var copilots := Snapshot(db.copilots, copilotIds);
      var migrated := MigrateAll(copilots);
      SnapshotIds(copilots0, copilotIds, copilots);
      BatchLegacyMarks(legacy0, copilots);
      var ids := IdsOf(copilots, |copilots|);
      var start := now - Week;
      var likeCountMap := Counts(db.ratings, ids, LIKE, start);
      var dislikeCountMap := Counts(db.ratings, ids, DISLIKE, start);
      var scored := ScoreAll(migrated, likeCountMap, dislikeCountMap, hot);
      ScoredSnapshot(copilots0, copilotIds, legacy0, copilots, scored, likeCountMap, dislikeCountMap, hot);
      SavedEffect(copilots0, copilotIds, legacy0, scored, likeCountMap, dislikeCountMap, hot);
      db.copilots := db.copilots + ByKey(scored);
      db.kv := RemovePrefix(db.kv, DimPrefix("hot"));
      db.ttl := RemovePrefix(db.ttl, DimPrefix("hot"));
    }
  }
}
