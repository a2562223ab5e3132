/**
 * The backing stores as in-memory state: the copilot collection, the rating
 * record collection, the legacy rating collection, and the key/value cache
 * with the TTL recorded per key. Also the key-level cache operations the
 * service and the daily job perform: removal by key pattern, the
 * per-dimension index lookup, and the view guard.
 */
module Stores {
  import opened Types
  import opened Query

  class Db {
    var copilots: map<int, Copilot>
    var ratings: seq<Rating>
    var legacy: seq<CopilotRating>
    var kv: map<string, CacheValue>
    var ttl: map<string, int>

    constructor ()
      ensures copilots == map[] && ratings == [] && legacy == [] && kv == map[] && ttl == map[]
    {
      copilots, ratings, legacy, kv, ttl := map[], [], [], map[], map[];
    }

    /** Copilot documents are keyed by their own copilot id. */
    ghost predicate Keyed()
      reads this
    {
      KeyedById(copilots)
    }
  }

  /** Every document of a copilot collection sits under its own copilot id. */
  ghost predicate KeyedById(copilots: map<int, Copilot>)
  {
    forall k :: k in copilots ==> copilots[k].copilotId == k
  }

  /** removeCacheByPattern("<p>*"): every key starting with p disappears. */
  function RemovePrefix<V>(m: map<string, V>, p: string): (r: map<string, V>)
    ensures forall k :: k in r <==> k in m && !(p <= k)
    ensures forall k :: k in r ==> r[k] == m[k]
  {
    map k | k in m && !(p <= k) :: m[k]
  }

  /** valueMemberInSet on the dimension's index key. */
  predicate InIndex(kv: map<string, CacheValue>, dim: string, id: int)
  {
    IndexKey(dim) in kv && kv[IndexKey(dim)].IdSetValue? && id in kv[IndexKey(dim)].ids
  }

  /** The prefixes of two different dimensions never extend each other, so evicting one
      dimension never touches the keys of another. */
  lemma PrefixesDisjoint(d1: string, d2: string, k: string)
    requires d1 in Dimensions && d2 in Dimensions && d1 != d2
    requires DimPrefix(d1) <= k
    ensures !(DimPrefix(d2) <= k)
  {
    assert DimPrefix(d1)[5] == k[5];
    assert DimPrefix(d1)[5] == d1[0] && DimPrefix(d2)[5] == d2[0];
  }

  /** The dimension a key belongs to, if it lies under one of the `home:<dim>:` prefixes. */
  predicate UnderDim(k: string, dim: string)
  {
    dim in Dimensions && DimPrefix(dim) <= k
  }

  /** The dimension whose `home:<dim>:` prefix a key lies under, if any. */
  function DimOf(k: string): (r: Option<string>)
    ensures r.Some? ==> UnderDim(k, r.value)
    ensures r.None? ==> forall d :: !UnderDim(k, d)
  {
    if DimPrefix("hot") <= k then Some("hot")
    else if DimPrefix("views") <= k then Some("views")
    else if DimPrefix("id") <= k then Some("id")
    else None
  }

  /** A key lies under at most one dimension. */
  lemma DimOfUnique(k: string, d: string)
    requires UnderDim(k, d)
    ensures DimOf(k) == Some(d)
  {
    if DimOf(k).value != d {
      PrefixesDisjoint(d, DimOf(k).value, k);
    }
  }

  /** The cache after a copilot's deletion: every dimension whose index holds the id loses all its keys. */
  function EvictForDelete<V>(m: map<string, V>, kv: map<string, CacheValue>, id: int): (r: map<string, V>)
    ensures forall k :: k in r ==> k in m && r[k] == m[k]
  {
    map k | k in m && !(DimOf(k).Some? && InIndex(kv, DimOf(k).value, id)) :: m[k]
  }

  /** The cache after evicting, among the dimensions in `done`, those whose index holds the id. */
  function EvictDims<V>(m: map<string, V>, kv: map<string, CacheValue>, id: int, done: seq<string>): map<string, V>
  {
    map k | k in m && !(DimOf(k).Some? && DimOf(k).value in done && InIndex(kv, DimOf(k).value, id)) :: m[k]
  }

  /** Evicting one more dimension is a removal by its prefix when its index holds the id, and nothing otherwise. */
  lemma EvictDimsStep<V>(m: map<string, V>, kv: map<string, CacheValue>, id: int, done: seq<string>, dim: string)
    requires dim in Dimensions
    ensures InIndex(kv, dim, id) ==> RemovePrefix(EvictDims(m, kv, id, done), DimPrefix(dim)) == EvictDims(m, kv, id, done + [dim])
    ensures !InIndex(kv, dim, id) ==> EvictDims(m, kv, id, done) == EvictDims(m, kv, id, done + [dim])
  {
    forall k | DimPrefix(dim) <= k
      ensures DimOf(k) == Some(dim)
    {
      DimOfUnique(k, dim);
    }
    if InIndex(kv, dim, id) {
      assert RemovePrefix(EvictDims(m, kv, id, done), DimPrefix(dim)) == EvictDims(m, kv, id, done + [dim]);
    } else {
      assert EvictDims(m, kv, id, done) == EvictDims(m, kv, id, done + [dim]);
    }
  }

  /** A dimension not yet evicted still has its index. */
  lemma EvictDimsIndex(kv: map<string, CacheValue>, id: int, done: seq<string>, dim: string)
    requires dim in Dimensions && dim !in done
    ensures InIndex(EvictDims(kv, kv, id, done), dim, id) == InIndex(kv, dim, id)
  {
    assert IndexKey(dim) == DimPrefix(dim) + "copilotIds";
    DimOfUnique(IndexKey(dim), dim);
  }

  /** One step of the deletion loop: the cache and its TTLs after evicting the first i + 1
      dimensions are those after the first i, with dimension i's prefix removed when its index
      (as it still stands after the first i) holds the id. */
  lemma EvictDimsNext(kv0: map<string, CacheValue>, ttl0: map<string, int>, id: int, i: nat)
    requires i < |Dimensions|
    ensures var kv, ttl, dim := EvictDims(kv0, kv0, id, Dimensions[..i]), EvictDims(ttl0, kv0, id, Dimensions[..i]), Dimensions[i];
      && EvictDims(kv0, kv0, id, Dimensions[..i + 1]) == (if InIndex(kv, dim, id) then RemovePrefix(kv, DimPrefix(dim)) else kv)
      && EvictDims(ttl0, kv0, id, Dimensions[..i + 1]) == (if InIndex(kv, dim, id) then RemovePrefix(ttl, DimPrefix(dim)) else ttl)
  {
    var dim := Dimensions[i];
    assert Dimensions[..i + 1] == Dimensions[..i] + [dim];
    assert dim !in Dimensions[..i];
    EvictDimsIndex(kv0, id, Dimensions[..i], dim);
    EvictDimsStep(kv0, kv0, id, Dimensions[..i], dim);
    EvictDimsStep(ttl0, kv0, id, Dimensions[..i], dim);
  }

  /** Once every dimension is done, the eviction is the one a deletion performs. */
  lemma EvictDimsAll<V>(m: map<string, V>, kv: map<string, CacheValue>, id: int)
    ensures EvictDims(m, kv, id, Dimensions) == EvictForDelete(m, kv, id)
  {
    assert EvictDims(m, kv, id, Dimensions) == EvictForDelete(m, kv, id);
  }

  /** Deleting evicts exactly the dimensions whose index holds the id: a key of dimension d
      survives iff d's index does not hold the id, and keys outside all dimensions always survive. */
  lemma EvictForDeleteKeys(kv: map<string, CacheValue>, id: int, k: string)
    ensures forall d :: UnderDim(k, d) ==> (k in EvictForDelete(kv, kv, id) <==> k in kv && !InIndex(kv, d, id))
    ensures (forall d :: !UnderDim(k, d)) ==> (k in EvictForDelete(kv, kv, id) <==> k in kv)
  {
    forall d | UnderDim(k, d)
      ensures k in EvictForDelete(kv, kv, id) <==> k in kv && !InIndex(kv, d, id)
    {
      DimOfUnique(k, d);
    }
  }

  /** The key of an actor's view guard. */
  function GuardKey(actor: string): string
  {
    "views:" + actor
  }

  /** The ids the actor's guard already holds (an absent or foreign-typed value holds none). */
  function GuardIds(kv: map<string, CacheValue>, actor: string): Option<set<int>>
  {
    if GuardKey(actor) in kv && kv[GuardKey(actor)].GuardValue? then Some(kv[GuardKey(actor)].ids) else None
  }

  /** Whether a view of the copilot by the actor is counted. */
  predicate CountsView(kv: map<string, CacheValue>, actor: string, id: int)
  {
    GuardIds(kv, actor).None? || id !in GuardIds(kv, actor).value
  }

  /** The cache after a counted view: the id joins the actor's guard. */
  function GuardAfter(kv: map<string, CacheValue>, actor: string, id: int): (r: map<string, CacheValue>)
    ensures !CountsView(r, actor, id)
    ensures forall k :: k != GuardKey(actor) ==> (k in r <==> k in kv) && (k in r ==> r[k] == kv[k])
  {
    match GuardIds(kv, actor)
    case None => kv[GuardKey(actor) := GuardValue({id})]
    case Some(ids) => kv[GuardKey(actor) := GuardValue(ids + {id})]
  }

  /** The guard only grows: a view counted before by the actor stays suppressed after any other view. */
  lemma GuardMonotone(kv: map<string, CacheValue>, actor: string, id: int, actor2: string, id2: int)
    requires !CountsView(kv, actor, id)
    ensures !CountsView(GuardAfter(kv, actor2, id2), actor, id)
  {
    assert GuardKey(actor)[6..] == actor && GuardKey(actor2)[6..] == actor2;
  }

  /** Guard keys never lie under a listing dimension, so no listing eviction removes a guard. */
  lemma GuardNotUnderDim(actor: string, dim: string)
    ensures !UnderDim(GuardKey(actor), dim)
  {
    assert GuardKey(actor)[0] == 'v';
    assert DimPrefix(dim)[0] == 'h';
  }
}
