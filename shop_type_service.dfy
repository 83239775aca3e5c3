/** `com.hmdp.service.impl.ShopTypeServiceImpl`: the list of shop types,
    served from a Redis list and filled from the table, ordered by `sort`,
    when the list is empty. */
module ShopTypes {
  import opened Common
  import opened Json
  import opened Store

  /** `com.hmdp.entity.ShopType`. */
  datatype ShopType = ShopType(id: int, name: string, icon: string, sort: int)

  predicate SortedBySort(s: seq<ShopType>)
  {
    forall i, j :: 0 <= i < j < |s| ==> s[i].sort <= s[j].sort
  }

  /** Inserts `x` into a list ordered by `sort`, before the first element
      whose `sort` is not smaller. */
  function Insert(x: ShopType, s: seq<ShopType>): (r: seq<ShopType>)
    requires SortedBySort(s)
    ensures SortedBySort(r)
    ensures multiset(r) == multiset(s) + multiset{x}
  {
    if s == [] then [x]
    else if x.sort <= s[0].sort then [x] + s
    else
      var rest := Insert(x, s[1..]);
      assert s == [s[0]] + s[1..];
      assert forall k :: 0 <= k < |rest| ==> rest[k] in multiset(s[1..]) + multiset{x};
      [s[0]] + rest
  }

  /** `query().orderByAsc("sort").list()`: the rows in ascending `sort`
      order. `ORDER BY sort` leaves the order of equal `sort` values to the
      database; the model fixes one such order (the table's). */
  function OrderBySort(rows: seq<ShopType>): (r: seq<ShopType>)
    ensures SortedBySort(r)
    ensures multiset(r) == multiset(rows)
  {
    if rows == [] then []
    else
      assert rows == [rows[0]] + rows[1..];
      Insert(rows[0], OrderBySort(rows[1..]))
  }

  /** One call of `queryTypeList`: the answer, the lists afterwards, and
      whether the table was queried. */
  datatype ListStep = ListStep(result: Result<seq<ShopType>>, lists: map<string, ListEntry>, queried: bool)

  /** `queryTypeList` on the lists `L` and table `rows`: a non-empty cached
      list is decoded in list order; otherwise the table is queried, an
      empty answer is refused, and a non-empty one is pushed encoded, in
      order, given the TTL `ttl`, and returned. */
  function TypeList(L: map<string, ListEntry>, key: string, codec: Codec<ShopType>,
                    rows: seq<ShopType>, ttl: Ttl): ListStep
  {
    var cached := if key in L then L[key].items else [];
    if cached != [] then ListStep(Ok(DecodeAll(codec, cached)), L, false)
    else
      var shopTypes := OrderBySort(rows);
      if shopTypes == [] then ListStep(Fail("店铺类型不存在"), L, true)
      else ListStep(Ok(shopTypes), L[key := ListEntry(EncodeAll(codec, shopTypes), Some(ttl))], true)
  }

  /** A hit answers one decoded type per cached element, without the table;
      a fill answers every row, in `sort` order, and caches exactly their
      encodings with the TTL; an empty table is refused and nothing is
      written. */
  lemma TypeListCases(L: map<string, ListEntry>, key: string, codec: Codec<ShopType>, rows: seq<ShopType>, ttl: Ttl)
    ensures var step := TypeList(L, key, codec, rows, ttl);
            var cached := if key in L then L[key].items else [];
            && (cached != [] ==> !step.queried && step.lists == L && step.result.Ok?
                                 && |step.result.data| == |cached|
                                 && forall i :: 0 <= i < |cached| ==> step.result.data[i] == codec.decode(cached[i]))
            && (cached == [] && rows == [] ==> step == ListStep(Fail("店铺类型不存在"), L, true))
            && (cached == [] && rows != [] ==>
                  && step.queried && step.result.Ok?
                  && |step.result.data| == |rows|
                  && SortedBySort(step.result.data) && multiset(step.result.data) == multiset(rows)
                  && step.lists == L[key := ListEntry(EncodeAll(codec, step.result.data), Some(ttl))])
  {
    if rows != [] {
      var sorted := OrderBySort(rows);
      assert rows[0] in multiset(rows);
      assert |sorted| == |multiset(sorted)| == |multiset(rows)| == |rows|;
    }
  }

  /** After a fill, the next call is a hit: it answers the same list,
      decoded from the cache, and neither queries the table nor writes. */
  lemma TypeListFillThenHit(L: map<string, ListEntry>, key: string, codec: Codec<ShopType>,
                            rows: seq<ShopType>, later: seq<ShopType>, ttl: Ttl)
    requires Lawful(codec)
    requires (key !in L || L[key].items == []) && rows != []
    ensures var first := TypeList(L, key, codec, rows, ttl);
            var second := TypeList(first.lists, key, codec, later, ttl);
            second == ListStep(first.result, first.lists, false)
  {
    TypeListCases(L, key, codec, rows, ttl);
    DecodeEncodeAll(codec, OrderBySort(rows));
  }

  /** The `tb_shop_type` table. */
  class ShopTypeTable {
    var rows: seq<ShopType>
    /** How many queries have been made. */
    var queries: nat

    constructor (rows: seq<ShopType>)
      ensures this.rows == rows && queries == 0
    {
      this.rows, queries := rows, 0;
    }

    /** `query().orderByAsc("sort").list()`. */
    method ListOrderedBySort() returns (list: seq<ShopType>)
      modifies this`queries
      ensures list == OrderBySort(rows)
      ensures queries == old(queries) + 1
    {
      list := OrderBySort(rows);
      queries := queries + 1;
    }
  }

  class ShopTypeServiceImpl {
    const redis: Redis
    const types: ShopTypeTable
    const typeCodec: Codec<ShopType>
    /** `RedisConstants.CACHE_SHOP_TYPE_KEY` and `CACHE_SHOP_TYPE_TTL` (minutes). */
    const cacheShopTypeKey: string
    const cacheShopTypeTtl: int

    constructor (redis: Redis, types: ShopTypeTable, typeCodec: Codec<ShopType>, cacheShopTypeKey: string, cacheShopTypeTtl: int)
      ensures this.redis == redis && this.types == types && this.typeCodec == typeCodec
      ensures this.cacheShopTypeKey == cacheShopTypeKey && this.cacheShopTypeTtl == cacheShopTypeTtl
    {
      this.redis, this.types, this.typeCodec := redis, types, typeCodec;
      this.cacheShopTypeKey, this.cacheShopTypeTtl := cacheShopTypeKey, cacheShopTypeTtl;
    }

    /** `queryTypeList`: LRANGE 0 -1 of the key; on an empty list, the
        ordered query, RPUSH of the encodings and EXPIRE. */
    method QueryTypeList() returns (r: Result<seq<ShopType>>)
      modifies redis, types`queries
      ensures var step := TypeList(old(redis.lists), cacheShopTypeKey, typeCodec, old(types.rows), Ttl(cacheShopTypeTtl, Minutes));
              && r == step.result
              && redis.lists == step.lists
              && redis.strings == old(redis.strings)
              && types.queries == old(types.queries) + (if step.queried then 1 else 0)
    {
      var range := redis.Range(cacheShopTypeKey);
      if range != [] {
        return Ok(DecodeAll(typeCodec, range));
      }
      var shopTypes := types.ListOrderedBySort();
      if shopTypes == [] {
        return Fail("店铺类型不存在");
      }
      CacheTypes(shopTypes);
      r := Ok(shopTypes);
    }

    /** The fill of `queryTypeList` on an empty list: RPUSH of the encodings,
        then EXPIRE. */
    method CacheTypes(shopTypes: seq<ShopType>)
      requires cacheShopTypeKey !in redis.lists || redis.lists[cacheShopTypeKey].items == []
      modifies redis
      ensures redis.lists == old(redis.lists)[cacheShopTypeKey := ListEntry(EncodeAll(typeCodec, shopTypes),
                                                                            Some(Ttl(cacheShopTypeTtl, Minutes)))]
      ensures redis.strings == old(redis.strings)
    {
      var encoded := EncodeAll(typeCodec, shopTypes);
      var _ := redis.RightPushAll(cacheShopTypeKey, encoded);
      assert redis.lists[cacheShopTypeKey].items == encoded;
      var _ := redis.Expire(cacheShopTypeKey, Ttl(cacheShopTypeTtl, Minutes));
    }
  }
}
