/** `ListParams.ToQuery` of the waitlist entries client. */
module WaitlistEntry {
  import opened Wrappers
  import opened UrlValues
  import opened Api

  /** `ListParams`: nil pointers are `None`; a nil and an empty `Statuses`
      slice behave the same, so both are the empty list. */
  datatype ListParams = ListParams(
    page: Page,
    orderBy: Option<string>,
    query: Option<string>,
    statuses: seq<string>)

  /** The conditional writes of `ToQuery`, in source order. */
  function Writes(p: ListParams): (ws: seq<Write>)
    ensures DistinctKeys(ws)
    ensures |ws| == 3 && ws[0].key == "order_by" && ws[1].key == "query" && ws[2].key == "status"
  {
    [SetValue("order_by", p.orderBy), SetValue("query", p.query), AddEachValue("status", p.statuses)]
  }

  /** `ListParams.ToQuery`: the base pagination query with `order_by` and
      `query` Set when given and each status Added in order. */
  function ToQuery(p: ListParams, baseToQuery: BaseToQuery): (r: Values)
    ensures var base := baseToQuery(p.page);
      && SetEffect(r, base, "order_by", p.orderBy)
      && SetEffect(r, base, "query", p.query)
      && AddEachEffect(r, base, "status", p.statuses)
    ensures forall k :: k !in {"order_by", "query", "status"} ==> Agree(r, baseToQuery(p.page), k)
  {
    var base := baseToQuery(p.page);
    var ws := Writes(p);
    ApplyAllEffect(base, ws);
    var r := ApplyAll(base, ws);
    assert WriteEffect(r, base, ws[0]);
    assert WriteEffect(r, base, ws[1]);
    assert WriteEffect(r, base, ws[2]);
    assert forall k :: k in KeysOf(ws) ==> k in {"order_by", "query", "status"};
    r
  }

  /** When the base query holds none of the three keys: `order_by` holds one
      value exactly when `OrderBy` is set, `query` likewise, `status` is
      present exactly when there are statuses and then holds them in order,
      and no key is added beyond the base keys and these three. */
  lemma ToQueryOnPaginationBase(p: ListParams, baseToQuery: BaseToQuery)
    requires var base := baseToQuery(p.page); "order_by" !in base && "query" !in base && "status" !in base
    ensures var r := ToQuery(p, baseToQuery);
      && ("order_by" in r <==> p.orderBy.Some?)
      && (p.orderBy.Some? ==> r["order_by"] == [p.orderBy.value])
      && ("query" in r <==> p.query.Some?)
      && (p.query.Some? ==> r["query"] == [p.query.value])
      && ("status" in r <==> |p.statuses| > 0)
      && ("status" in r ==> r["status"] == p.statuses)
      && r.Keys <= baseToQuery(p.page).Keys + {"order_by", "query", "status"}
  {
    var r, base := ToQuery(p, baseToQuery), baseToQuery(p.page);
    forall k | k in r
      ensures k in base.Keys + {"order_by", "query", "status"}
    {
      if k !in {"order_by", "query", "status"} {
        assert Agree(r, base, k);
      }
    }
  }

  /** The request of the list test: limit 10, offset 20, order
      `-created_at`, a query and two statuses give exactly the expected
      multimap, given that the base serialiser renders the pagination as
      decimal `limit` and `offset`. */
  lemma ListWithParamsExample(baseToQuery: BaseToQuery)
    requires baseToQuery(Page(Some(10), Some(20))) == map["limit" := ["10"], "offset" := ["20"]]
    ensures ToQuery(ListParams(Page(Some(10), Some(20)), Some("-created_at"), Some("example@email.com"), ["pending", "invited"]), baseToQuery)
         == map["limit" := ["10"], "offset" := ["20"], "order_by" := ["-created_at"],
                "query" := ["example@email.com"], "status" := ["pending", "invited"]]
  {
    var p := ListParams(Page(Some(10), Some(20)), Some("-created_at"), Some("example@email.com"), ["pending", "invited"]);
    var r := ToQuery(p, baseToQuery);
    var expected := map["limit" := ["10"], "offset" := ["20"], "order_by" := ["-created_at"],
                        "query" := ["example@email.com"], "status" := ["pending", "invited"]];
    ToQueryOnPaginationBase(p, baseToQuery);
    forall k
      ensures (k in r <==> k in expected) && (k in r ==> r[k] == expected[k])
    {
      if k !in {"order_by", "query", "status"} {
        assert Agree(r, baseToQuery(p.page), k);
      }
    }
    assert r.Keys == expected.Keys;
  }
}
