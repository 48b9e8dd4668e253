/** `ListParams.ToQuery` of the organization memberships client. */
module OrganizationMembership {
  import opened Wrappers
  import opened UrlValues
  import opened Decimal
  import opened Api

  /** `ListParams`. A nil string pointer, slice or int64 pointer is `None`;
      `Some([])` is a non-nil empty slice. */
  datatype ListParams = ListParams(
    page: Page,
    orderBy: Option<string>,
    query: Option<string>,
    emailAddressQuery: Option<string>,
    phoneNumberQuery: Option<string>,
    usernameQuery: Option<string>,
    nameQuery: Option<string>,
    roles: Option<seq<string>>,
    userIds: Option<seq<string>>,
    emailAddresses: Option<seq<string>>,
    phoneNumbers: Option<seq<string>>,
    usernames: Option<seq<string>>,
    web3Wallets: Option<seq<string>>,
    createdAtBefore: Option<Int64>,
    createdAtAfter: Option<Int64>,
    lastActiveAtBefore: Option<Int64>,
    lastActiveAtAfter: Option<Int64>,
    organizationId: string)

  /** The keys the serialiser writes, in the order it writes them. */
  const FilterKeys: seq<string> := [
    "order_by", "query",
    "email_address_query", "phone_number_query", "username_query", "name_query",
    "role", "user_id", "email_address", "phone_number", "username", "web3_wallet",
    "created_at_before", "created_at_after", "last_active_at_before", "last_active_at_after"
  ]

  lemma FilterKeysDistinct()
    ensures forall i, j :: 0 <= i < j < |FilterKeys| ==> FilterKeys[i] != FilterKeys[j]
  {
  }

  /** An optional timestamp rendered in base 10. */
  function FormatOpt(t: Option<Int64>): (r: Option<string>)
    ensures r.Some? <==> t.Some?
    ensures r.Some? ==> ParseInt(r.value) == Some(t.value)
  {
    match t
    case None => None
    case Some(n) =>
      ParseFormatInt(n);
      Some(FormatInt(n))
  }

  /** The conditional writes of `ToQuery`, in source order: `order_by` and
      `query` are Set, the four `*_query` filters Added, the six list filters
      assigned whole, and the four timestamps Added in base 10. */
  function Writes(p: ListParams): (ws: seq<Write>)
    ensures |ws| == |FilterKeys|
    ensures forall i :: 0 <= i < |ws| ==> ws[i].key == FilterKeys[i]
  {
    [ SetValue("order_by", p.orderBy),
      SetValue("query", p.query),
      AddValue("email_address_query", p.emailAddressQuery),
      AddValue("phone_number_query", p.phoneNumberQuery),
      AddValue("username_query", p.usernameQuery),
      AddValue("name_query", p.nameQuery),
      AssignValues("role", p.roles),
      AssignValues("user_id", p.userIds),
      AssignValues("email_address", p.emailAddresses),
      AssignValues("phone_number", p.phoneNumbers),
      AssignValues("username", p.usernames),
      AssignValues("web3_wallet", p.web3Wallets),
      AddValue("created_at_before", FormatOpt(p.createdAtBefore)),
      AddValue("created_at_after", FormatOpt(p.createdAtAfter)),
      AddValue("last_active_at_before", FormatOpt(p.lastActiveAtBefore)),
      AddValue("last_active_at_after", FormatOpt(p.lastActiveAtAfter)) ]
  }

  /** `ListParams.ToQuery`: the base pagination query, extended with the
      filters. Each key is described against the base query: an absent
      filter leaves its key as the base had it, and keys no filter names
      are left as the base had them. */
  function ToQuery(p: ListParams, baseToQuery: BaseToQuery): (r: Values)
    ensures var base := baseToQuery(p.page);
      && SetEffect(r, base, "order_by", p.orderBy)
      && SetEffect(r, base, "query", p.query)
      && AddEffect(r, base, "email_address_query", p.emailAddressQuery)
      && AddEffect(r, base, "phone_number_query", p.phoneNumberQuery)
      && AddEffect(r, base, "username_query", p.usernameQuery)
      && AddEffect(r, base, "name_query", p.nameQuery)
    ensures var base := baseToQuery(p.page);
      && AssignEffect(r, base, "role", p.roles)
      && AssignEffect(r, base, "user_id", p.userIds)
      && AssignEffect(r, base, "email_address", p.emailAddresses)
      && AssignEffect(r, base, "phone_number", p.phoneNumbers)
      && AssignEffect(r, base, "username", p.usernames)
      && AssignEffect(r, base, "web3_wallet", p.web3Wallets)
    ensures var base := baseToQuery(p.page);
      && AddEffect(r, base, "created_at_before", FormatOpt(p.createdAtBefore))
      && AddEffect(r, base, "created_at_after", FormatOpt(p.createdAtAfter))
      && AddEffect(r, base, "last_active_at_before", FormatOpt(p.lastActiveAtBefore))
      && AddEffect(r, base, "last_active_at_after", FormatOpt(p.lastActiveAtAfter))
    ensures forall k :: k !in FilterKeys ==> Agree(r, baseToQuery(p.page), k)
  {
    var base := baseToQuery(p.page);
    var ws := Writes(p);
    WritesEffect(base, ws);
    var r := ApplyAll(base, ws);
    assert WriteEffect(r, base, ws[0]);
    assert WriteEffect(r, base, ws[1]);
    assert WriteEffect(r, base, ws[2]);
    assert WriteEffect(r, base, ws[3]);
    assert WriteEffect(r, base, ws[4]);
    assert WriteEffect(r, base, ws[5]);
    assert WriteEffect(r, base, ws[6]);
    assert WriteEffect(r, base, ws[7]);
    assert WriteEffect(r, base, ws[8]);
    assert WriteEffect(r, base, ws[9]);
    assert WriteEffect(r, base, ws[10]);
    assert WriteEffect(r, base, ws[11]);
    assert WriteEffect(r, base, ws[12]);
    assert WriteEffect(r, base, ws[13]);
    assert WriteEffect(r, base, ws[14]);
    assert WriteEffect(r, base, ws[15]);
    r
  }

  /** Every write of the list takes effect on its own key, and no other key
      changes. */
  lemma WritesEffect(base: Values, ws: seq<Write>)
    requires |ws| == |FilterKeys|
    requires forall i :: 0 <= i < |ws| ==> ws[i].key == FilterKeys[i]
    ensures forall i :: 0 <= i < |ws| ==> WriteEffect(ApplyAll(base, ws), base, ws[i])
    ensures forall k :: k !in FilterKeys ==> Agree(ApplyAll(base, ws), base, k)
  {
    FilterKeysDistinct();
    ApplyAllEffect(base, ws);
    assert forall k :: k in KeysOf(ws) ==> k in FilterKeys;
  }

  /** The organization ID is part of the request path only: it never
      influences the query. */
  lemma OrganizationIdNotInQuery(p: ListParams, id: string, baseToQuery: BaseToQuery)
    ensures ToQuery(p.(organizationId := id), baseToQuery) == ToQuery(p, baseToQuery)
  {
  }

  /** A timestamp filter on a key the base query does not hold yields one
      value, which parses back to the original `int64`. */
  lemma TimestampFilterRoundTrip(p: ListParams, baseToQuery: BaseToQuery)
    requires p.createdAtBefore.Some?
    requires "created_at_before" !in baseToQuery(p.page)
    ensures var r := ToQuery(p, baseToQuery);
      && "created_at_before" in r && |r["created_at_before"]| == 1
      && ParseInt(r["created_at_before"][0]) == Some(p.createdAtBefore.value)
  {
  }

  /** With every filter absent the query is the base query unchanged. */
  lemma NoFiltersIsBase(p: ListParams, baseToQuery: BaseToQuery)
    requires p.orderBy.None? && p.query.None?
    requires p.emailAddressQuery.None? && p.phoneNumberQuery.None? && p.usernameQuery.None? && p.nameQuery.None?
    requires p.roles.None? && p.userIds.None? && p.emailAddresses.None?
    requires p.phoneNumbers.None? && p.usernames.None? && p.web3Wallets.None?
    requires p.createdAtBefore.None? && p.createdAtAfter.None?
    requires p.lastActiveAtBefore.None? && p.lastActiveAtAfter.None?
    ensures ToQuery(p, baseToQuery) == baseToQuery(p.page)
  {
    var r, base := ToQuery(p, baseToQuery), baseToQuery(p.page);
    forall k
      ensures (k in r <==> k in base) && (k in r ==> r[k] == base[k])
    {
      assert Agree(r, base, k);
    }
    assert r.Keys == base.Keys;
  }
}
