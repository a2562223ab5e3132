/**
 * The entities of the copilot rating engine: copilot documents, the
 * normalised per-user rating records, the legacy embedded rating blobs,
 * the display record built for clients and the values kept in the cache.
 */
module Types {

  datatype Option<T> = None | Some(value: T)

  /** The outcome of an operation that changes state but returns nothing. */
  datatype Error = NotFound | PermissionDenied | ValidationError
  datatype Outcome = Pass | Fail(error: Error)

  /** The outcome of an operation that returns a value. */
  datatype Result<T> = Ok(value: T) | Err(error: Error)

  /** RatingType: 0 = NONE, 1 = LIKE, 2 = DISLIKE. */
  datatype RatingType = NONE | LIKE | DISLIKE

  /** The subject kind of a rating record; only COPILOT records are modelled further. */
  datatype KeyType = COPILOT | COMMENT

  /**
   * A rating record of the new system, unique per (kind, key, userId) when
   * written by the rating store. The key is the copilot id (the source stores
   * its decimal string, which is injective).
   */
  datatype Rating = Rating(kind: KeyType, key: int, userId: string, rating: RatingType, rateTime: int)

  /** One entry of a legacy blob: the rating is kept as its raw string ("Like", "Dislike", ...). */
  datatype RatingUser = RatingUser(userId: string, rating: string, rateTime: int)

  /** A legacy rating blob; `ratingUsers` is None when the stored list is null. */
  datatype CopilotRating = CopilotRating(
    copilotId: int,
    ratingUsers: Option<seq<RatingUser>>,
    ratingLevel: int,
    ratingRatio: real,
    delete: bool)

  /** A copilot document (only the fields the rating and ranking engine uses). */
  datatype Copilot = Copilot(
    copilotId: int,
    uploaderId: string,
    content: string,
    views: int,
    likeCount: int,
    dislikeCount: int,
    ratingLevel: int,
    ratingRatio: real,
    hotScore: real,
    uploadTime: int,
    notification: bool,
    delete: bool)

  /** The rating-related part of the display record sent to clients. */
  datatype CopilotInfo = CopilotInfo(
    copilotId: int,
    ratingRatio: real,
    ratingLevel: int,
    notEnoughRating: bool,
    ratingType: Option<RatingType>,
    available: bool)

  /** One page of a listing. */
  datatype PageInfo = PageInfo(total: nat, hasNext: bool, data: seq<CopilotInfo>, page: nat)

  /** A value held in the key/value cache. */
  datatype CacheValue =
    | PageValue(page: PageInfo)      // a cached listing page, `home:<dim>:<fingerprint>`
    | IdSetValue(ids: set<int>)      // the per-dimension index, `home:<dim>:copilotIds`
    | GuardValue(ids: set<int>)      // the view guard of one actor, `views:<actor>`
}
