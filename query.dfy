/**
 * Normalisation of a listing request: which requests may use the home-page
 * cache and under which keys, the sort field, the page and limit defaults,
 * the page count, and the abstract filter sets the store query is built from.
 */
module Query {
  import opened Types
  import opened Text

  /** A listing request; the absent (null) fields are None. */
  datatype QueryRequest = QueryRequest(
    page: int,
    limit: int,
    document: Option<string>,
    levelKeyword: Option<string>,
    operator: Option<string>,
    uploaderId: Option<string>,
    orderBy: Option<string>,
    desc: bool)

  /** HOME_PAGE_CACHE_CONFIG: the cached sort dimensions and their TTL in seconds. */
  const HomePageCacheConfig: map<string, int> := map["hot" := 3600 * 24, "views" := 3600, "id" := 300]

  /** The dimensions in the order the model visits them (the source's Map.of has no fixed order). */
  const Dimensions: seq<string> := ["hot", "views", "id"]

  /** The key of the per-dimension index of cached copilot ids. */
  function IndexKey(dim: string): string
  {
    "home:" + dim + ":copilotIds"
  }

  /** Every cache key of a dimension starts with this prefix (`home:<dim>:*`). */
  function DimPrefix(dim: string): string
  {
    "home:" + dim + ":"
  }

  /** The decimal digits of a natural number. */
  function Digits(n: nat): (r: string)
    ensures |r| >= 1
    ensures forall i :: 0 <= i < |r| ==> '0' <= r[i] <= '9'
  {
    if n < 10 then [(('0' as int) + n) as char] else Digits(n / 10) + [(('0' as int) + n % 10) as char]
  }

  /** Integer.toString of the request's hash code. */
  function DecimalString(n: int): (r: string)
    ensures |r| >= 1 && (r[0] == '-' || '0' <= r[0] <= '9')
  {
    if n < 0 then "-" + Digits(-n) else Digits(n)
  }

  /** Where a cacheable listing is stored: the page key, the index key and the TTL. */
  datatype CacheSlot = CacheSlot(key: string, setKey: string, ttl: int)

  /** The independent statement of which requests are served through the cache. */
  predicate CacheEligible(req: QueryRequest)
  {
    && req.page <= 3
    && req.document.None? && req.levelKeyword.None?
    && req.uploaderId.None? && req.operator.None?
    && req.orderBy.Some? && req.orderBy.value in {"hot", "views", "id"}
  }

  /** The cache keys of a request, computed only when the request qualifies. */
  function CacheSlotFor(req: QueryRequest, hash: int): (r: Option<CacheSlot>)
    ensures r.Some? <==> CacheEligible(req)
    ensures r.Some? ==>
      && r.value.setKey == IndexKey(req.orderBy.value)
      && r.value.key == DimPrefix(req.orderBy.value) + DecimalString(hash)
      && r.value.ttl > 0
      && (req.orderBy.value == "hot" ==> r.value.ttl == 86400)
      && (req.orderBy.value == "views" ==> r.value.ttl == 3600)
      && (req.orderBy.value == "id" ==> r.value.ttl == 300)
  {
    ConfigKeys();
    if req.page <= 3 && req.document.None? && req.levelKeyword.None?
       && req.uploaderId.None? && req.operator.None?
    then
      if req.orderBy.Some? && !IsBlank(req.orderBy) && req.orderBy.value in HomePageCacheConfig then
        var dim := req.orderBy.value;
        Some(CacheSlot("home:" + dim + ":" + DecimalString(hash), "home:" + dim + ":copilotIds",
                       HomePageCacheConfig[dim]))
      else None
    else None
  }

  /** The configured dimensions are exactly hot, views and id, none of them blank. */
  lemma ConfigKeys()
    ensures HomePageCacheConfig.Keys == {"hot", "views", "id"}
    ensures forall d :: d in HomePageCacheConfig ==> !IsBlank(Some(d))
  {
    NotBlank("hot");
    NotBlank("views");
    NotBlank("id");
  }

  lemma NotBlank(s: string)
    requires |s| > 0 && !IsWhitespace(s[0])
    ensures !IsBlank(Some(s))
  {
  }

  /** The page key and the index key of a request both lie under the dimension's prefix,
      and they never coincide, since a rendered hash code is not the word "copilotIds". */
  lemma CacheSlotKeys(req: QueryRequest, hash: int)
    requires CacheEligible(req)
    ensures var slot := CacheSlotFor(req, hash).value;
      && DimPrefix(req.orderBy.value) <= slot.key
      && DimPrefix(req.orderBy.value) <= slot.setKey
      && slot.key != slot.setKey
  {
    var dim := req.orderBy.value;
    var slot := CacheSlotFor(req, hash).value;
    var p := DimPrefix(dim);
    assert slot.key == p + DecimalString(hash);
    assert slot.setKey == p + "copilotIds";
    assert slot.key[|p|] == DecimalString(hash)[0];
    assert slot.setKey[|p|] == 'c';
  }

  /** The sort field: "hot" and "id" are renamed, any other non-blank value is used as given,
      and a missing or blank value falls back to the copilot id. */
  function SortField(orderBy: Option<string>): (r: string)
    ensures IsBlank(orderBy) ==> r == "copilotId"
    ensures !IsBlank(orderBy) ==>
      r == (if orderBy.value == "hot" then "hotScore"
            else if orderBy.value == "id" then "copilotId"
            else orderBy.value)
    ensures !IsBlank(Some(r))
  {
    NotBlank("hotScore");
    NotBlank("copilotId");
    if orderBy.Some? && !IsBlank(orderBy) then
      match orderBy.value
      case "hot" => "hotScore"
      case "id" => "copilotId"
      case _ => orderBy.value
    else "copilotId"
  }

  /** A non-positive page becomes 1. */
  function PageOrDefault(page: int): (r: int)
    ensures r >= 1
    ensures page > 0 ==> r == page
    ensures page <= 0 ==> r == 1
  {
    if page > 0 then page else 1
  }

  /** A non-positive limit becomes 10. */
  function LimitOrDefault(limit: int): (r: int)
    ensures r >= 1
    ensures limit > 0 ==> r == limit
    ensures limit <= 0 ==> r == 10
  {
    if limit > 0 then limit else 10
  }

  /** `ceil(count / limit)`: the least number of pages of `limit` items that hold `count` items. */
  function PageCount(count: nat, limit: int): (r: nat)
    requires limit >= 1
    ensures r * limit >= count
    ensures r > 0 ==> (r - 1) * limit < count
  {
    var r := (count + limit - 1) / limit;
    assert r * limit <= count + limit - 1 < r * limit + limit;
    assert (r - 1) * limit == r * limit - limit;
    r
  }

  /** Whether items remain after the given page. */
  predicate HasNext(count: nat, page: int, limit: int)
  {
    count - page * limit > 0
  }

  /** There is a next page exactly when the current page is not the last one. */
  lemma HasNextIffBeforeLastPage(count: nat, page: int, limit: int)
    requires page >= 1 && limit >= 1
    ensures HasNext(count, page, limit) <==> page < PageCount(count, limit)
  {
    var r := PageCount(count, limit);
    if page < r {
      MulMonotone(page, r - 1, limit);
    } else {
      MulMonotone(r, page, limit);
    }
  }

  lemma MulMonotone(a: int, b: int, c: int)
    requires a <= b && c >= 0
    ensures a * c <= b * c
  {
    assert b * c - a * c == (b - a) * c;
  }

  /** The abstract filters of the store query (the regular-expression matching is the store's). */
  datatype Filter =
    | NotDeleted
    | StageMatches(keyword: string)
    | StageIn(stageIds: set<string>)
    | TitleMatches(document: string)
    | DetailsMatches(document: string)
    | OperatorMatches(pattern: string)
    | UploaderIs(userId: string)

  /** The sort order, the page window and the and/nor/or filter sets of a listing query. */
  datatype Plan = Plan(
    sortField: string, desc: bool, page: int, limit: int,
    andFilters: set<Filter>, norFilters: set<Filter>, orFilters: set<Filter>)

  /** The operator tokens: quotes removed, then split on ','. */
  function OperatorTokens(oper: string): seq<string>
  {
    JavaSplit(StripQuotes(oper), ',')
  }

  /** The inclusions contributed by a token list: every token not starting with '~'. */
  function Inclusions(tokens: seq<string>): set<Filter>
  {
    set t | t in tokens && !("~" <= t) :: OperatorMatches(t)
  }

  /** The exclusions contributed by a token list: the rest of every token starting with '~'. */
  function Exclusions(tokens: seq<string>): set<Filter>
  {
    set t | t in tokens && "~" <= t :: OperatorMatches(t[1..])
  }

  lemma InclusionsMember(tokens: seq<string>, p: string)
    ensures OperatorMatches(p) in Inclusions(tokens) <==> p in tokens && !("~" <= p)
  {
  }

  lemma ExclusionsMember(tokens: seq<string>, p: string)
    ensures OperatorMatches(p) in Exclusions(tokens) <==> "~" + p in tokens
  {
    if "~" + p in tokens {
      assert ("~" + p)[1..] == p;
      assert "~" <= "~" + p;
    }
    if OperatorMatches(p) in Exclusions(tokens) {
      var t :| t in tokens && "~" <= t && t[1..] == p;
      assert t == "~" + p;
    }
  }

  lemma TokensAppend(tokens: seq<string>, t: string)
    ensures Inclusions(tokens + [t]) == Inclusions(tokens) + (if "~" <= t then {} else {OperatorMatches(t)})
    ensures Exclusions(tokens + [t]) == Exclusions(tokens) + (if "~" <= t then {OperatorMatches(t[1..])} else {})
  {
    assert forall u :: u in tokens + [t] <==> u in tokens || u == t;
  }

  /** Fills the operator inclusion and exclusion sets from the request's operator string. */
  method OperatorFilters(oper: Option<string>) returns (ands: set<Filter>, nors: set<Filter>)
    ensures IsBlank(oper) ==> ands == {} && nors == {}
    ensures !IsBlank(oper) ==>
      ands == Inclusions(OperatorTokens(oper.value)) && nors == Exclusions(OperatorTokens(oper.value))
  {
    ands, nors := {}, {};
    if !IsBlank(oper) {
      var operators := OperatorTokens(oper.value);
      var i := 0;
      while i < |operators|
        invariant 0 <= i <= |operators|
        invariant ands == Inclusions(operators[..i])
        invariant nors == Exclusions(operators[..i])
      {
        var operator := operators[i];
        TokensAppend(operators[..i], operator);
        assert operators[..i + 1] == operators[..i] + [operator];
        if "~" <= operator {
          nors := nors + {OperatorMatches(operator[1..])};
        } else {
          ands := ands + {OperatorMatches(operator)};
        }
        i := i + 1;
      }
      assert operators[..i] == operators;
    }
  }

  /** The uploader filter: "me" means the logged-in user (none when nobody is logged in),
      any other non-blank value is taken literally. */
  function UploaderFilter(userId: Option<string>, uploaderId: Option<string>): (r: Option<Filter>)
    ensures IsBlank(uploaderId) ==> r.None?
    ensures r.Some? ==> r.value.UploaderIs?
    ensures !IsBlank(uploaderId) && uploaderId.value != "me" ==> r == Some(UploaderIs(uploaderId.value))
    ensures uploaderId == Some("me") ==>
      (r.Some? <==> userId.Some? && userId.value != "") && (r.Some? ==> r.value.userId == userId.value)
  {
    NotBlank("me");
    if !IsBlank(uploaderId) then
      if uploaderId.value == "me" then
        if userId.Some? && userId.value != "" then Some(UploaderIs(userId.value)) else None
      else Some(UploaderIs(uploaderId.value))
    else
      None
  }

  /** The stage filter: the stage ids the level service resolves, or the keyword itself when
      it resolves none. */
  function StageFilter(levelKeyword: Option<string>, levels: string -> set<string>): Option<Filter>
  {
    if !IsBlank(levelKeyword) then
      if levels(levelKeyword.value) == {} then Some(StageMatches(levelKeyword.value))
      else Some(StageIn(levels(levelKeyword.value)))
    else None
  }

  function OptionSet(f: Option<Filter>): set<Filter>
  {
    if f.Some? then {f.value} else {}
  }

  /** The store query of a listing request, given the operator filter sets. */
  function MakePlan(userId: Option<string>, req: QueryRequest, levels: string -> set<string>,
                    opAnds: set<Filter>, opNors: set<Filter>): (p: Plan)
    ensures NotDeleted in p.andFilters
    ensures p.page >= 1 && p.limit >= 1
    ensures p.page == PageOrDefault(req.page) && p.limit == LimitOrDefault(req.limit)
    ensures p.sortField == SortField(req.orderBy) && p.desc == req.desc
    ensures p.andFilters == {NotDeleted} + OptionSet(StageFilter(req.levelKeyword, levels)) + opAnds
                              + OptionSet(UploaderFilter(userId, req.uploaderId))
    ensures opAnds <= p.andFilters && p.norFilters == opNors
    ensures (p.orFilters == {}) <==> IsBlank(req.document)
    ensures !IsBlank(req.uploaderId) && req.uploaderId.value != "me" ==> UploaderIs(req.uploaderId.value) in p.andFilters
  {
    var orFilters := if !IsBlank(req.document)
                     then {TitleMatches(req.document.value), DetailsMatches(req.document.value)}
                     else {};
    Plan(SortField(req.orderBy), req.desc, PageOrDefault(req.page), LimitOrDefault(req.limit),
         {NotDeleted} + OptionSet(StageFilter(req.levelKeyword, levels)) + opAnds
           + OptionSet(UploaderFilter(userId, req.uploaderId)),
         opNors, orFilters)
  }
}
