/** The commerce subscriptions client: every operation joins its path
    segments first and returns the `JoinPath` error before building any
    request; `List` appends an `include` query when asked to. */
module Subscriptions {
  import opened Wrappers
  import opened Strings
  import opened UrlValues
  import opened Api

  const RootPath: string := "/commerce"
  const SubscriptionsPath: string := "/subscriptions"

  /** Join `segments`; on failure return the error as is, otherwise a
      request with the given verb on the joined path. */
  function Route(join: JoinPath, verb: Method, segments: seq<string>): (r: Result<Request, string>)
    ensures join(segments).Failure? <==> r.Failure?
    ensures r.Failure? ==> r.error == join(segments).error
    ensures r.Success? ==> r.value.verb == verb && r.value.path == join(segments).value
  {
    match join(segments)
    case Failure(e) => Failure(e)
    case Success(path) => Success(Request(verb, path))
  }

  /** The single-key query `{include: [v]}` where `v` is the includes
      joined with commas, in order. */
  function IncludeQuery(includes: seq<string>): (q: Values)
    ensures q.Keys == {"include"} && |q["include"]| == 1
    ensures |includes| >= 1 && (forall i :: 0 <= i < |includes| ==> ',' !in includes[i]) ==>
      Split(q["include"][0], ',') == includes
  {
    SplitJoinWhenSafe(includes);
    Set(map[], "include", Join(includes, ','))
  }

  lemma SplitJoinWhenSafe(includes: seq<string>)
    ensures |includes| >= 1 && (forall i :: 0 <= i < |includes| ==> ',' !in includes[i]) ==>
      Split(Join(includes, ','), ',') == includes
  {
    if |includes| >= 1 && (forall i :: 0 <= i < |includes| ==> ',' !in includes[i]) {
      SplitJoin(includes, ',');
    }
  }

  /** `Create`: POST `/commerce/subscriptions`. */
  function Create(join: JoinPath): (r: Result<Request, string>)
    ensures join([RootPath, SubscriptionsPath]).Failure? <==> r.Failure?
    ensures join([RootPath, SubscriptionsPath]).Failure? ==> r == Failure(join([RootPath, SubscriptionsPath]).error)
    ensures r.Success? ==> r.value.verb == Post && r.value.path == join([RootPath, SubscriptionsPath]).value
  {
    Route(join, Post, [RootPath, SubscriptionsPath])
  }

  /** `List`: GET `/commerce/subscriptions`, with `?` and the encoded
      include query appended only when `includes` is non-empty. */
  function List(join: JoinPath, encode: Encode, includes: seq<string>): (r: Result<Request, string>)
    ensures join([RootPath, SubscriptionsPath]).Failure? ==> r == Failure(join([RootPath, SubscriptionsPath]).error)
    ensures join([RootPath, SubscriptionsPath]).Success? ==> r.Success? && r.value.verb == Get
    ensures join([RootPath, SubscriptionsPath]).Success? && |includes| == 0 ==>
      r.value.path == join([RootPath, SubscriptionsPath]).value
    ensures join([RootPath, SubscriptionsPath]).Success? && |includes| > 0 ==>
      r.value.path == join([RootPath, SubscriptionsPath]).value + "?" + encode(IncludeQuery(includes))
  {
    match join([RootPath, SubscriptionsPath])
    case Failure(e) => Failure(e)
    case Success(path) =>
      if |includes| > 0 then Success(Request(Get, path + "?" + encode(IncludeQuery(includes))))
      else Success(Request(Get, path))
  }

  /** `ListInvoices`: GET `/commerce/subscriptions/<id>/invoices`. */
  function ListInvoices(join: JoinPath, subscriptionId: string): (r: Result<Request, string>)
    ensures join([RootPath, SubscriptionsPath, subscriptionId, "invoices"]).Failure? <==> r.Failure?
    ensures r.Failure? ==> r.error == join([RootPath, SubscriptionsPath, subscriptionId, "invoices"]).error
    ensures r.Success? ==>
      r.value.verb == Get && r.value.path == join([RootPath, SubscriptionsPath, subscriptionId, "invoices"]).value
  {
    Route(join, Get, [RootPath, SubscriptionsPath, subscriptionId, "invoices"])
  }

  /** `ListByUserID`: GET on the segments `commerce`, `subscribers`, the
      subscriber type, the ID and `subscriptions`, in that order. */
  function ListByUserId(join: JoinPath, subscriberType: string, id: string): (r: Result<Request, string>)
    ensures join([RootPath, "subscribers", subscriberType, id, "subscriptions"]).Failure? <==> r.Failure?
    ensures r.Failure? ==> r.error == join([RootPath, "subscribers", subscriberType, id, "subscriptions"]).error
    ensures r.Success? ==>
      r.value.verb == Get && r.value.path == join([RootPath, "subscribers", subscriberType, id, "subscriptions"]).value
  {
    Route(join, Get, [RootPath, "subscribers", subscriberType, id, "subscriptions"])
  }

  /** `Get`: GET `/commerce/subscriptions/<id>`. */
  function GetSubscription(join: JoinPath, id: string): (r: Result<Request, string>)
    ensures join([RootPath, SubscriptionsPath, id]).Failure? <==> r.Failure?
    ensures r.Failure? ==> r.error == join([RootPath, SubscriptionsPath, id]).error
    ensures r.Success? ==> r.value.verb == Get && r.value.path == join([RootPath, SubscriptionsPath, id]).value
  {
    Route(join, Get, [RootPath, SubscriptionsPath, id])
  }

  /** `Update`: PUT `/commerce/subscriptions/<id>`. */
  function Update(join: JoinPath, id: string): (r: Result<Request, string>)
    ensures join([RootPath, SubscriptionsPath, id]).Failure? <==> r.Failure?
    ensures r.Failure? ==> r.error == join([RootPath, SubscriptionsPath, id]).error
    ensures r.Success? ==> r.value.verb == Put && r.value.path == join([RootPath, SubscriptionsPath, id]).value
  {
    Route(join, Put, [RootPath, SubscriptionsPath, id])
  }
}
