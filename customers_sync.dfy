/** The customers batch sync worker (`CustomersSync`): which registered users
    still need a row in the customer lookup table, page by page, and the
    batch delete of lookup rows. The users table and the lookup table are
    abstract maps; `WP_User_Query` is modelled by the conditions it filters on. */
module CustomersSync {
  import opened Basics

  /** A registered user: the roles it holds and its registration time. */
  datatype User = User(roles: set<string>, registered: int)

  /** The customer lookup table: `customer_id` to the `user_id` (none for guests). */
  type Lookup = map<int, Option<int>>

  /** `apply_filters( 'woocommerce_admin_import_customer_roles', ... )` without filters. */
  const DefaultCustomerRoles: seq<string> := ["customer"]

  /** One WHERE condition of the user query. */
  datatype UserCondition =
    | RoleIn(roles: seq<string>)
    | RegisteredAfter(date: int)
    | NotInCustomerLookup

  /** The users that already have a lookup row. */
  function ImportedUsers(lookup: Lookup): set<int>
  {
    set c | c in lookup && lookup[c].Some? :: lookup[c].value
  }

  /** Each imported user owns at least one row of the lookup table. */
  lemma {:induction false} ImportedUsersBound(lookup: Lookup)
    ensures |ImportedUsers(lookup)| <= |lookup|
    decreases |lookup|
  {
    if lookup.Keys != {} {
      HasElement(lookup.Keys);
      var c :| c in lookup.Keys;
      var rest := lookup - {c};
      ImportedUsersBound(rest);
      var added: set<int> := if lookup[c].Some? then {lookup[c].value} else {};
      forall u | u in ImportedUsers(lookup)
        ensures u in ImportedUsers(rest) + added
      {
        var d :| d in lookup && lookup[d].Some? && lookup[d].value == u;
        if d != c {
          assert d in rest && rest[d] == lookup[d];
        }
      }
      assert |rest.Keys| == |lookup.Keys - {c}| == |lookup.Keys| - 1;
      SubsetCard(ImportedUsers(lookup), ImportedUsers(rest) + added);
    } else {
      assert ImportedUsers(lookup) == {};
    }
  }

  lemma SubsetCard(a: set<int>, b: set<int>)
    requires a <= b
    ensures |a| <= |b|
  {
    assert b == a + (b - a);
  }

  /** `role__in`: the user holds one of the listed roles; an empty list
      places no role restriction at all. */
  predicate RoleMatches(roles: seq<string>, u: User)
  {
    roles == [] || exists r :: r in roles && r in u.roles
  }

  predicate Satisfies(u: User, id: int, lookup: Lookup, c: UserCondition)
  {
    match c
    case RoleIn(roles) => RoleMatches(roles, u)
    case RegisteredAfter(date) => u.registered > date
    case NotInCustomerLookup => id !in ImportedUsers(lookup)
  }

  /** The ids of the users meeting every condition. */
  function MatchingIds(users: map<int, User>, lookup: Lookup, conds: seq<UserCondition>): (r: set<int>)
    ensures r <= users.Keys
  {
    set id | id in users && forall c :: c in conds ==> Satisfies(users[id], id, lookup, c)
  }

  /** `get_items`' result: `total` and `ids`. */
  datatype Items = Items(total: nat, ids: seq<int>)

  /** `number` / `paged` of `WP_User_Query`: a `number` of at most 0 means no
      limit; otherwise page `page` of `number` ids. A page below 1 gives a
      negative `LIMIT` offset, which the database rejects: no ids. */
  function UserPage(all: seq<int>, limit: int, page: int): (r: seq<int>)
    ensures limit >= 1 ==> |r| <= limit
    ensures limit <= 0 ==> r == all
    ensures limit >= 1 && page < 1 ==> r == []
    ensures limit >= 1 && page >= 1 ==>
      r == all[Min(PageOffset(page, limit), |all|)..Min(PageOffset(page, limit) + limit, |all|)]
  {
    if limit <= 0 then all
    else if page < 1 then []
    else
      var offset := (page - 1) * limit;
      MulMonotone(0, page - 1, limit);
      all[Min(offset, |all|)..Min(offset + limit, |all|)]
  }

  /** A page is a run of consecutive ids of `all`: ascending when `all` is. */
  lemma UserPageSlice(all: seq<int>, limit: int, page: int)
    ensures forall k :: 0 <= k < |UserPage(all, limit, page)| ==> UserPage(all, limit, page)[k] in all
    ensures StrictlyAscending(all) ==> StrictlyAscending(UserPage(all, limit, page))
  {
    if limit >= 1 && page >= 1 {
      var offset := (page - 1) * limit;
      MulMonotone(0, page - 1, limit);
      var lo := Min(offset, |all|);
      var r := UserPage(all, limit, page);
      assert r == all[lo..Min(offset + limit, |all|)];
      assert forall i :: 0 <= i < |r| ==> r[i] == all[lo + i];
    }
  }

  /** The user query with `orderby => ID, order => ASC` and `count_total`. */
  function RunUserQuery(users: map<int, User>, lookup: Lookup, conds: seq<UserCondition>, limit: int, page: int): Items
  {
    var matching := MatchingIds(users, lookup, conds);
    Items(|matching|, UserPage(Ascending(matching), limit, page))
  }

  /** The conditions `get_items` means to query: the roles, the day horizon
      when `days` is an integer, the anti-join when the exclusion hook runs. */
  function ItemConditions(days: Days, exclude: bool, now: int, roles: seq<string>): seq<UserCondition>
  {
    [RoleIn(roles)]
      + (if days.Days? then [RegisteredAfter(Horizon(now, days.n))] else [])
      + (if exclude then [NotInCustomerLookup] else [])
  }

  /** `get_items` with the date query passed to `WP_User_Query`. */
  function GetItemsResult(users: map<int, User>, lookup: Lookup, limit: int, page: int, days: Days,
                          exclude: bool, now: int, roles: seq<string>): Items
  {
    RunUserQuery(users, lookup, ItemConditions(days, exclude, now, roles), limit, page)
  }

  /** `get_items` as written: `$query_args['date_query']` is built but never
      passed to `WP_User_Query`, so `days` has no effect. */
  function GetItemsAsWritten(users: map<int, User>, lookup: Lookup, limit: int, page: int, days: Days,
                             exclude: bool, now: int, roles: seq<string>): Items
  {
    RunUserQuery(users, lookup, ItemConditions(NoLimit, exclude, now, roles), limit, page)
  }

  // ---------------------------------------------------------------------
  // What `get_items` promises.
  // ---------------------------------------------------------------------

  lemma SatisfiesAll(users: map<int, User>, lookup: Lookup, id: int, days: Days, exclude: bool, now: int, roles: seq<string>)
    requires id in users
    ensures id in MatchingIds(users, lookup, ItemConditions(days, exclude, now, roles)) <==>
      && (roles == [] || exists r :: r in roles && r in users[id].roles)
      && (days.Days? ==> users[id].registered > Horizon(now, days.n))
      && (exclude ==> id !in ImportedUsers(lookup))
  {
    var conds := ItemConditions(days, exclude, now, roles);
    assert RoleIn(roles) in conds;
    if days.Days? {
      assert RegisteredAfter(Horizon(now, days.n)) in conds;
    }
    if exclude {
      assert NotInCustomerLookup in conds;
    }
  }

  /** The ids come in ascending order, at most `limit` of them, each one a
      user that holds a listed role (any user for an empty list), registered after the horizon when
      `days` is an integer, and not yet imported when excluding. */
  lemma GetItemsSelects(users: map<int, User>, lookup: Lookup, limit: int, page: int, days: Days,
                        exclude: bool, now: int, roles: seq<string>)
    ensures var r := GetItemsResult(users, lookup, limit, page, days, exclude, now, roles);
      && StrictlyAscending(r.ids)
      && (limit >= 1 ==> |r.ids| <= limit)
      && forall k :: 0 <= k < |r.ids| ==>
           var id := r.ids[k];
           && id in users
           && (roles == [] || exists role :: role in roles && role in users[id].roles)
           && (days.Days? ==> users[id].registered > Horizon(now, days.n))
           && (exclude ==> id !in ImportedUsers(lookup))
  {
    var conds := ItemConditions(days, exclude, now, roles);
    var matching := MatchingIds(users, lookup, conds);
    var all := Ascending(matching);
    var r := GetItemsResult(users, lookup, limit, page, days, exclude, now, roles);
    assert r.ids == UserPage(all, limit, page);
    UserPageSlice(all, limit, page);
    forall k | 0 <= k < |r.ids|
      ensures var id := r.ids[k];
        && id in users
        && (roles == [] || exists role :: role in roles && role in users[id].roles)
        && (days.Days? ==> users[id].registered > Horizon(now, days.n))
        && (exclude ==> id !in ImportedUsers(lookup))
    {
      var id := r.ids[k];
      assert id in matching;
      SatisfiesAll(users, lookup, id, days, exclude, now, roles);
    }
  }

  /** The ids are exactly page `page` of the ascending matching set: all of
      it without a positive limit, otherwise the `limit` ids from offset
      `(page - 1) * limit` on. */
  lemma GetItemsPage(users: map<int, User>, lookup: Lookup, limit: int, page: int, days: Days,
                     exclude: bool, now: int, roles: seq<string>)
    ensures var all := Ascending(MatchingIds(users, lookup, ItemConditions(days, exclude, now, roles)));
      var r := GetItemsResult(users, lookup, limit, page, days, exclude, now, roles);
      && (limit <= 0 ==> r.ids == all)
      && (limit >= 1 && page >= 1 ==>
            r.ids == all[Min(PageOffset(page, limit), |all|)..Min(PageOffset(page, limit) + limit, |all|)])
  {
  }

  /** Paging misses no id: item `i` of `all` is item `i % limit` of page `i / limit + 1`. */
  lemma UserPageCover(all: seq<int>, limit: int, i: nat)
    requires limit >= 1
    requires i < |all|
    ensures var page := UserPage(all, limit, i / limit + 1);
      i % limit < |page| && page[i % limit] == all[i]
  {
    var q, m := i / limit, i % limit;
    assert i == q * limit + m;
    assert PageOffset(q + 1, limit) == q * limit;
  }

  /** The `i`-th matching id in ascending order comes back as item `i % limit`
      of page `i / limit + 1`. */
  lemma GetItemsCover(users: map<int, User>, lookup: Lookup, limit: int, days: Days,
                      exclude: bool, now: int, roles: seq<string>, i: nat)
    requires limit >= 1
    requires i < |MatchingIds(users, lookup, ItemConditions(days, exclude, now, roles))|
    ensures var all := Ascending(MatchingIds(users, lookup, ItemConditions(days, exclude, now, roles)));
      var r := GetItemsResult(users, lookup, limit, i / limit + 1, days, exclude, now, roles);
      i % limit < |r.ids| && r.ids[i % limit] == all[i]
  {
    var all := Ascending(MatchingIds(users, lookup, ItemConditions(days, exclude, now, roles)));
    UserPageCover(all, limit, i);
  }

  /** `total` counts the whole matching set, whatever the page and limit. */
  lemma GetItemsTotal(users: map<int, User>, lookup: Lookup, limit: int, page: int, limit2: int, page2: int,
                      days: Days, exclude: bool, now: int, roles: seq<string>)
    ensures GetItemsResult(users, lookup, limit, page, days, exclude, now, roles).total ==
            |MatchingIds(users, lookup, ItemConditions(days, exclude, now, roles))|
    ensures GetItemsResult(users, lookup, limit, page, days, exclude, now, roles).total ==
            GetItemsResult(users, lookup, limit2, page2, days, exclude, now, roles).total
  {
  }

  /** With the exclusion, no counted id has a lookup row; without `days`
      and without the exclusion, every user holding a listed role is
      counted, and every user at all when the role list is empty. */
  lemma GetItemsCounts(users: map<int, User>, lookup: Lookup, days: Days, exclude: bool, now: int, roles: seq<string>)
    ensures exclude ==> MatchingIds(users, lookup, ItemConditions(days, exclude, now, roles)) !! ImportedUsers(lookup)
    ensures !exclude && days.NoLimit? ==>
      MatchingIds(users, lookup, ItemConditions(days, exclude, now, roles)) ==
      set id | id in users && (roles == [] || exists r :: r in roles && r in users[id].roles)
    ensures !exclude && days.NoLimit? && roles == [] ==>
      MatchingIds(users, lookup, ItemConditions(days, exclude, now, roles)) == users.Keys
  {
    var m := MatchingIds(users, lookup, ItemConditions(days, exclude, now, roles));
    forall id | id in users
      ensures id in m <==>
        && (roles == [] || exists r :: r in roles && r in users[id].roles)
        && (days.Days? ==> users[id].registered > Horizon(now, days.n))
        && (exclude ==> id !in ImportedUsers(lookup))
    {
      SatisfiesAll(users, lookup, id, days, exclude, now, roles);
    }
  }

  /** The input that shows the date query is dropped: one customer who
      registered at time 0, asked for with a one-day horizon ten days later. */
  lemma GetItemsIgnoresDays()
    ensures var users := map[1 := User({"customer"}, 0)];
      var now := 10 * DaySeconds;
      && GetItemsAsWritten(users, map[], 10, 1, Days(1), false, now, DefaultCustomerRoles) == Items(1, [1])
      && GetItemsResult(users, map[], 10, 1, Days(1), false, now, DefaultCustomerRoles) == Items(0, [])
  {
    var users := map[1 := User({"customer"}, 0)];
    var now := 10 * DaySeconds;
    var asWritten := MatchingIds(users, map[], ItemConditions(NoLimit, false, now, DefaultCustomerRoles));
    SatisfiesAll(users, map[], 1, NoLimit, false, now, DefaultCustomerRoles);
    assert "customer" in DefaultCustomerRoles;
    assert asWritten == {1};
    assert Ascending({1}) == [1] by {
      assert |Ascending({1})| == 1;
      assert Ascending({1})[0] in {1};
    }
    var intended := MatchingIds(users, map[], ItemConditions(Days(1), false, now, DefaultCustomerRoles));
    SatisfiesAll(users, map[], 1, Days(1), false, now, DefaultCustomerRoles);
    assert Horizon(now, 1) == 9 * DaySeconds;
    assert intended == {};
  }

  // ---------------------------------------------------------------------
  // Imports and deletes on the lookup table.
  // ---------------------------------------------------------------------

  /** The id the lookup table gives a new row: one past the largest. */
  function NextCustomerId(lookup: Lookup): (id: int)
    ensures id !in lookup
  {
    var ids := Ascending(lookup.Keys);
    if ids == [] then 1
    else
      assert forall c :: c in lookup ==> c <= ids[|ids| - 1] by {
        forall c | c in lookup
          ensures c <= ids[|ids| - 1]
        {
          var i :| 0 <= i < |ids| && ids[i] == c;
          assert i == |ids| - 1 || ids[i] < ids[|ids| - 1];
        }
      }
      ids[|ids| - 1] + 1
  }

  /** `update_registered_customer`, as an upsert keyed on the user id: a
      user with a row keeps it, any other user gets a new row. */
  function UpsertCustomer(lookup: Lookup, userId: int): (r: Lookup)
    ensures userId in ImportedUsers(r)
    ensures lookup.Keys <= r.Keys
    ensures forall c :: c in lookup ==> r[c] == lookup[c]
    ensures |r| == if userId in ImportedUsers(lookup) then |lookup| else |lookup| + 1
  {
    if userId in ImportedUsers(lookup) then lookup
    else
      var id := NextCustomerId(lookup);
      var r := lookup[id := Some(userId)];
      assert r[id].Some? && r[id].value == userId;
      r
  }

  lemma UpsertCustomerIdempotent(lookup: Lookup, userId: int)
    ensures UpsertCustomer(UpsertCustomer(lookup, userId), userId) == UpsertCustomer(lookup, userId)
  {
  }

  /** Once imported, a user is no longer among those the skip-existing query returns. */
  lemma ImportedUserIsSkipped(users: map<int, User>, lookup: Lookup, userId: int, days: Days, now: int, roles: seq<string>)
    ensures MatchingIds(users, UpsertCustomer(lookup, userId), ItemConditions(days, true, now, roles)) ==
            MatchingIds(users, lookup, ItemConditions(days, true, now, roles)) - {userId}
  {
    var after := UpsertCustomer(lookup, userId);
    assert ImportedUsers(after) == ImportedUsers(lookup) + {userId} by {
      if userId !in ImportedUsers(lookup) {
        var id := NextCustomerId(lookup);
        assert after == lookup[id := Some(userId)];
        forall u | u in ImportedUsers(after)
          ensures u in ImportedUsers(lookup) + {userId}
        {
          var c :| c in after && after[c].Some? && after[c].value == u;
          if c != id {
            assert c in lookup && lookup[c] == after[c];
          }
        }
        forall u | u in ImportedUsers(lookup)
          ensures u in ImportedUsers(after)
        {
          var c :| c in lookup && lookup[c].Some? && lookup[c].value == u;
          assert after[c] == lookup[c];
        }
      }
    }
    forall id | id in users
      ensures id in MatchingIds(users, after, ItemConditions(days, true, now, roles)) <==>
              id in MatchingIds(users, lookup, ItemConditions(days, true, now, roles)) - {userId}
    {
      SatisfiesAll(users, after, id, days, true, now, roles);
      SatisfiesAll(users, lookup, id, days, true, now, roles);
    }
  }

  /** `LIMIT %d` of the delete query: no rows for a limit of at most 0. */
  function DeleteCount(batchSize: int, rows: nat): (k: nat)
    ensures k <= rows
  {
    if batchSize <= 0 then 0 else Min(batchSize, rows)
  }

  /** `SELECT customer_id ... ORDER BY customer_id ASC LIMIT batch_size`. */
  function SmallestCustomerIds(lookup: Lookup, batchSize: int): seq<int>
  {
    var ids := Ascending(lookup.Keys);
    ids[..DeleteCount(batchSize, |ids|)]
  }

  /** The batch's ids are lookup rows, `min( batch_size, rows )` of them. */
  lemma DeleteRemovesCount(lookup: Lookup, batchSize: int)
    ensures var removed := Elements(SmallestCustomerIds(lookup, batchSize));
      && removed <= lookup.Keys
      && |removed| == DeleteCount(batchSize, |lookup|)
  {
    var ids := Ascending(lookup.Keys);
    var k := DeleteCount(batchSize, |ids|);
    AscendingPrefixCard(ids, k);
    var removed := Elements(ids[..k]);
    forall x | x in removed
      ensures x in lookup.Keys
    {
      var i :| 0 <= i < k && ids[..k][i] == x;
      assert ids[i] == x;
    }
  }

  /** Deleting the batch shrinks the table by exactly that many rows. */
  lemma DeleteShrinksTable(lookup: Lookup, batchSize: int)
    ensures |lookup - Elements(SmallestCustomerIds(lookup, batchSize))| == |lookup| - DeleteCount(batchSize, |lookup|)
  {
    DeleteRemovesCount(lookup, batchSize);
    RemoveKeysCard(lookup, Elements(SmallestCustomerIds(lookup, batchSize)));
  }

  /** Every id the batch removes is smaller than every id that stays. */
  lemma DeleteRemovesSmallest(lookup: Lookup, batchSize: int)
    ensures var removed := Elements(SmallestCustomerIds(lookup, batchSize));
      forall x, y :: x in lookup.Keys - removed && y in removed ==> y < x
  {
    var ids := Ascending(lookup.Keys);
    var k := DeleteCount(batchSize, |ids|);
    var removed := Elements(ids[..k]);
    forall x, y | x in lookup.Keys - removed && y in removed
      ensures y < x
    {
      var j :| 0 <= j < k && ids[..k][j] == y;
      var i :| 0 <= i < |ids| && ids[i] == x;
      assert ids[j] == y;
      assert i >= k;
    }
  }

  /** Removing one more id of the batch from the table. */
  lemma DeleteStep(before: Lookup, ids: seq<int>, k: nat)
    requires k < |ids|
    ensures before - Elements(ids[..k + 1]) == (before - Elements(ids[..k])) - {ids[k]}
  {
    assert ids[..k + 1] == ids[..k] + [ids[k]];
    ElementsSnoc(ids[..k], ids[k]);
    RemoveStep(before, Elements(ids[..k]), ids[k]);
  }

  lemma RemoveStep(m: Lookup, s: set<int>, x: int)
    ensures (m - s) - {x} == m - (s + {x})
  {
  }

  lemma RemoveKeysCard(m: Lookup, s: set<int>)
    requires s <= m.Keys
    ensures |m - s| == |m| - |s|
  {
    assert (m - s).Keys == m.Keys - s;
    assert m.Keys == (m.Keys - s) + s;
  }

  // ---------------------------------------------------------------------
  // The query object and the worker.
  // ---------------------------------------------------------------------

  /** The part of a `WP_User_Query` the sync cares about: its WHERE conditions. */
  class UserQuery {
    var queryWhere: seq<UserCondition>

    constructor (conds: seq<UserCondition>)
      ensures queryWhere == conds
    {
      queryWhere := conds;
    }
  }

  /** `exclude_existing_customers_from_query`: appends the anti-join. */
  method ExcludeExistingCustomersFromQuery(q: UserQuery)
    modifies q
    ensures q.queryWhere == old(q.queryWhere) + [NotInCustomerLookup]
  {
    q.queryWhere := q.queryWhere + [NotInCustomerLookup];
  }

  class CustomersSyncWorker {
    var users: map<int, User>
    var lookup: Lookup
    /** Whether `exclude_existing_customers_from_query` is hooked to `pre_user_query`. */
    var excludeHooked: bool

    constructor (users: map<int, User>, lookup: Lookup)
      ensures this.users == users && this.lookup == lookup && !excludeHooked
    {
      this.users := users;
      this.lookup := lookup;
      excludeHooked := false;
    }

    /** `get_items` (with the date query passed on). The exclusion applies
        when asked for, or when the hook was left attached before the call;
        it is always detached afterwards. */
    method GetItems(limit: int, page: int, days: Days, skipExisting: bool, now: int, customerRoles: seq<string>)
      returns (r: Items)
      modifies this
      ensures r == GetItemsResult(users, lookup, limit, page, days, skipExisting || old(excludeHooked), now, customerRoles)
      ensures users == old(users) && lookup == old(lookup) && !excludeHooked
    {
      var dateQuery: seq<UserCondition> := [];
      if days.Days? {
        dateQuery := [RegisteredAfter(Horizon(now, days.n))];
      }
      if skipExisting {
        excludeHooked := true;
      }
      var customerQuery := new UserQuery([RoleIn(customerRoles)] + dateQuery);
      if excludeHooked {
        ExcludeExistingCustomersFromQuery(customerQuery);
      }
      assert customerQuery.queryWhere == ItemConditions(days, skipExisting || old(excludeHooked), now, customerRoles);
      excludeHooked := false;
      r := RunUserQuery(users, lookup, customerQuery.queryWhere, limit, page);
    }

    /** `get_total_imported`: `SELECT COUNT(*)` of the lookup table, which
        counts guests too, so it is at least the number of imported users. */
    function TotalImported(): (n: nat)
      reads this
      ensures |ImportedUsers(lookup)| <= n
    {
      ImportedUsersBound(lookup);
      |lookup|
    }

    /** `import`. */
    method Import(userId: int)
      modifies this
      ensures lookup == UpsertCustomer(old(lookup), userId)
      ensures users == old(users) && excludeHooked == old(excludeHooked)
    {
      lookup := UpsertCustomer(lookup, userId);
    }

    /** `delete`: the smallest `batch_size` customer ids, one `delete_customer` each. */
    method Delete(batchSize: int)
      modifies this
      ensures lookup == old(lookup) - Elements(SmallestCustomerIds(old(lookup), batchSize))
      ensures TotalImported() == old(TotalImported()) - DeleteCount(batchSize, old(TotalImported()))
      ensures users == old(users) && excludeHooked == old(excludeHooked)
    {
      var customerIds := SmallestCustomerIds(lookup, batchSize);
      DeleteShrinksTable(lookup, batchSize);
      DeleteCustomers(customerIds);
    }

    /** The `foreach` over the selected ids: `delete_customer` removes each lookup row. */
    method DeleteCustomers(customerIds: seq<int>)
      modifies this
      ensures lookup == old(lookup) - Elements(customerIds)
      ensures users == old(users) && excludeHooked == old(excludeHooked)
    {
      for k := 0 to |customerIds|
        invariant lookup == old(lookup) - Elements(customerIds[..k])
        invariant users == old(users) && excludeHooked == old(excludeHooked)
      {
        DeleteStep(old(lookup), customerIds, k);
        lookup := lookup - {customerIds[k]};
      }
      assert customerIds[..|customerIds|] == customerIds;
    }
  }
}
