/** The managed-user endpoints of the mock back end: a module-level list of
    users, a GET handler that filters, sorts and pages it, and a POST
    handler that creates, updates or deletes entries.

    As in the activity endpoints, `parse` stands for the date library's
    parser (epoch milliseconds, or None for an invalid date), `iso` for its
    ISO-8601 printer and `now` for the clock in milliseconds. */
module ManagedUsersMock {
  import opened Js
  import opened Seqs

  datatype User = User(
    id: string,
    name: string,
    email: string,
    phone: Option<string>,
    department: Option<string>,
    role: string,          // admin | manager | editor | viewer
    status: string,        // active | pending | suspended
    lastLogin: Option<string>,
    createdAt: string,
    notes: Option<string>)

  /** The query string of a list request; '' stands for "not given". */
  datatype Query = Query(keyword: string, status: string, role: string, sorter: Sorter)

  // ------------------------------------------------------------ filtering

  /** The keyword occurs, ignoring case, in the name, e-mail, department or
      phone; a missing department or phone reads as ''. */
  predicate KeywordHit(item: User, keyword: string) {
    var k := ToLower(keyword);
    Includes(ToLower(item.name), k) ||
    Includes(ToLower(item.email), k) ||
    Includes(ToLower(OrElse(item.department, "")), k) ||
    Includes(ToLower(OrElse(item.phone, "")), k)
  }

  function ByKeyword(keyword: string): User -> bool {
    (item: User) => KeywordHit(item, keyword)
  }

  function ByStatus(status: string): User -> bool {
    (item: User) => item.status == status
  }

  function ByRole(role: string): User -> bool {
    (item: User) => item.role == role
  }

  /** Every criterion the query supplies holds of `item`. */
  predicate Selected(item: User, q: Query) {
    (q.keyword == "" || KeywordHit(item, q.keyword)) &&
    (q.status == "" || item.status == q.status) &&
    (q.role == "" || item.role == q.role)
  }

  function SelectedBy(q: Query): User -> bool {
    (item: User) => Selected(item, q)
  }

  /** The filter stages of `getManagedUsers`, in the order they run. */
  function Matching(data: seq<User>, q: Query): seq<User> {
    var byKeyword := if q.keyword != "" then Filter(data, ByKeyword(q.keyword)) else data;
    var byStatus := if q.status != "" then Filter(byKeyword, ByStatus(q.status)) else byKeyword;
    if q.role != "" then Filter(byStatus, ByRole(q.role)) else byStatus
  }

  /** The stages together keep exactly the users that meet every supplied
      criterion, in their original order. */
  lemma MatchingSelects(data: seq<User>, q: Query)
    ensures Matching(data, q) == Filter(data, SelectedBy(q))
  {
    var p1 := (item: User) => q.keyword == "" || KeywordHit(item, q.keyword);
    var p2 := (item: User) => p1(item) && (q.status == "" || item.status == q.status);
    var p3 := SelectedBy(q);
    FilterKeepsAll(data, (x: User) => true);
    StageIsFilter(data, data, (x: User) => true, q.keyword != "", ByKeyword(q.keyword), p1);
    var r1 := if q.keyword != "" then Filter(data, ByKeyword(q.keyword)) else data;
    StageIsFilter(data, r1, p1, q.status != "", ByStatus(q.status), p2);
    var r2 := if q.status != "" then Filter(r1, ByStatus(q.status)) else r1;
    StageIsFilter(data, r2, p2, q.role != "", ByRole(q.role), p3);
  }

  lemma MatchingIsSubsequence(data: seq<User>, q: Query)
    ensures IsSubsequence(Matching(data, q), data)
    ensures forall i :: 0 <= i < |data| ==> (data[i] in Matching(data, q) <==> Selected(data[i], q))
  {
    MatchingSelects(data, q);
    FilterKeepsExactly(data, SelectedBy(q));
  }

  // ------------------------------------------------------------ sorting

  /** A field read by name, as `item[sortKey]` does; None is `undefined`. */
  function FieldOf(item: User, key: string): Option<string> {
    match key
    case "id" => Some(item.id)
    case "name" => Some(item.name)
    case "email" => Some(item.email)
    case "phone" => item.phone
    case "department" => item.department
    case "role" => Some(item.role)
    case "status" => Some(item.status)
    case "lastLogin" => item.lastLogin
    case "createdAt" => Some(item.createdAt)
    case "notes" => item.notes
    case _ => None
  }

  /** The sort comparator of `getManagedUsers`: a missing value ties with
      everything, two valid dates compare by time, other texts by
      `localeCompare`. Every field holds text, so the comparator's final
      `return 0` for non-strings cannot be reached. */
  function Compare(a: User, b: User, key: string, order: string, parse: string -> Option<int>): int {
    var va := FieldOf(a, key);
    var vb := FieldOf(b, key);
    if va.None? || vb.None? then 0
    else if parse(va.value).Some? && parse(vb.value).Some? then
      var ta := parse(va.value).value;
      var tb := parse(vb.value).value;
      if order == "ascend" then ta - tb else tb - ta
    else if order == "ascend" then CompareStrings(va.value, vb.value)
    else CompareStrings(vb.value, va.value)
  }

  function Comparator(key: string, order: string, parse: string -> Option<int>): (User, User) -> int {
    (a, b) => Compare(a, b, key, order, parse)
  }

  /** Any order other than 'ascend' is the ascending comparator with its
      operands swapped. */
  lemma DescendSwapsOperands(a: User, b: User, key: string, order: string, parse: string -> Option<int>)
    requires order != "ascend"
    ensures Compare(a, b, key, order, parse) == Compare(b, a, key, "ascend", parse)
  {
  }

  lemma ComparatorAntisymmetric(key: string, order: string, parse: string -> Option<int>)
    ensures Antisymmetric(Comparator(key, order, parse))
  {
    forall a: User, b: User | Comparator(key, order, parse)(a, b) > 0
      ensures Comparator(key, order, parse)(b, a) < 0
    {
      var va := FieldOf(a, key);
      var vb := FieldOf(b, key);
      if va.Some? && vb.Some? {
        CompareStringsAntisymmetric(va.value, vb.value);
      }
    }
  }

  /** The list `getManagedUsers` pages. */
  function Listed(data: seq<User>, q: Query, parse: string -> Option<int>): seq<User> {
    var m := Matching(data, q);
    match SortSpec(q.sorter)
    case None => m
    case Some((key, order)) => SortedBy(m, Comparator(key, order, parse))
  }

  lemma ListedIsPermutation(data: seq<User>, q: Query, parse: string -> Option<int>)
    ensures multiset(Listed(data, q, parse)) == multiset(Matching(data, q))
    ensures SortSpec(q.sorter).None? ==> Listed(data, q, parse) == Matching(data, q)
  {
    match SortSpec(q.sorter)
    case None =>
    case Some((key, order)) => SortedByIsPermutation(Matching(data, q), Comparator(key, order, parse));
  }

  lemma ListedIsOrdered(data: seq<User>, q: Query, parse: string -> Option<int>, key: string, order: string)
    requires SortSpec(q.sorter) == Some((key, order))
    ensures AdjacentOrdered(Listed(data, q, parse), Comparator(key, order, parse))
  {
    ComparatorAntisymmetric(key, order, parse);
    SortedByIsOrdered(Matching(data, q), Comparator(key, order, parse));
  }

  /** With a usable sorter the list is the matching users sorted by its
      comparator. */
  lemma ListedSortsMatching(data: seq<User>, q: Query, parse: string -> Option<int>, key: string, order: string)
    requires SortSpec(q.sorter) == Some((key, order))
    ensures Listed(data, q, parse) == SortedBy(Matching(data, q), Comparator(key, order, parse))
  {
  }

  /** The time of a field, 0 when it is missing or does not parse. */
  function TimeOf(x: User, key: string, parse: string -> Option<int>): int {
    var v := FieldOf(x, key);
    if v.Some? then parse(v.value).GetOr(0) else 0
  }

  predicate HasValidDate(x: User, key: string, parse: string -> Option<int>) {
    var v := FieldOf(x, key);
    v.Some? && parse(v.value).Some?
  }

  lemma CompareDates(a: User, b: User, key: string, order: string, parse: string -> Option<int>)
    requires HasValidDate(a, key, parse) && HasValidDate(b, key, parse)
    ensures Compare(a, b, key, order, parse) ==
      if order == "ascend" then TimeOf(a, key, parse) - TimeOf(b, key, parse)
      else TimeOf(b, key, parse) - TimeOf(a, key, parse)
  {
  }

  /** Sorting by a key every user holds as a valid date (`createdAt`, or
      `lastLogin` when all users have one) orders the list by that date. */
  lemma SortedByDate(m: seq<User>, parse: string -> Option<int>, key: string, order: string)
    requires forall i :: 0 <= i < |m| ==> HasValidDate(m[i], key, parse)
    ensures var r := SortedBy(m, Comparator(key, order, parse));
      forall i, j :: 0 <= i <= j < |r| ==>
        if order == "ascend" then TimeOf(r[i], key, parse) <= TimeOf(r[j], key, parse)
        else TimeOf(r[i], key, parse) >= TimeOf(r[j], key, parse)
  {
    var cmp := Comparator(key, order, parse);
    var r := SortedBy(m, cmp);
    ComparatorAntisymmetric(key, order, parse);
    SortedByIsOrdered(m, cmp);
    SortedByIsPermutation(m, cmp);
    var time := (x: User) => if order == "ascend" then TimeOf(x, key, parse) else -TimeOf(x, key, parse);
    forall k | 0 < k < |r| ensures time(r[k - 1]) <= time(r[k]) {
      assert r[k - 1] in multiset(m) && r[k] in multiset(m);
      CompareDates(r[k - 1], r[k], key, order, parse);
    }
    AdjacentKeysOrdered(r, time);
  }

  lemma SortByDate(data: seq<User>, q: Query, parse: string -> Option<int>, key: string, order: string)
    requires SortSpec(q.sorter) == Some((key, order))
    requires forall x :: x in Matching(data, q) ==> HasValidDate(x, key, parse)
    ensures var r := Listed(data, q, parse);
      forall i, j :: 0 <= i <= j < |r| ==>
        if order == "ascend" then TimeOf(r[i], key, parse) <= TimeOf(r[j], key, parse)
        else TimeOf(r[i], key, parse) >= TimeOf(r[j], key, parse)
  {
    var m := Matching(data, q);
    forall i | 0 <= i < |m| ensures HasValidDate(m[i], key, parse) {
      assert m[i] in m;
    }
    ListedSortsMatching(data, q, parse, key, order);
    SortedByDate(m, parse, key, order);
  }

  /** A key that some user lacks (or that is not a field at all) makes the
      comparator tie whenever that user is involved; if every user lacks it,
      the order is left as it is. */
  lemma MissingKeyKeepsOrder(data: seq<User>, q: Query, parse: string -> Option<int>, key: string, order: string)
    requires SortSpec(q.sorter) == Some((key, order))
    requires forall x :: x in Matching(data, q) ==> FieldOf(x, key).None?
    ensures Listed(data, q, parse) == Matching(data, q)
  {
    var m := Matching(data, q);
    var cmp := Comparator(key, order, parse);
    forall k | 0 < k < |m| ensures cmp(m[k - 1], m[k]) <= 0 {
      assert m[k] in m;
    }
    SortedByOrderedIsIdentity(m, cmp);
  }

  // ------------------------------------------------------------ mutations

  /** The POST body; `action` is its `method` field. */
  datatype Body = Body(
    action: string,
    id: Option<string>,
    ids: Option<seq<string>>,
    name: Option<string>,
    email: Option<string>,
    phone: Option<string>,
    department: Option<string>,
    role: Option<string>,
    status: Option<string>,
    lastLogin: Option<string>,
    notes: Option<string>,
    createdAt: Option<string>)

  datatype Reply = Done(data: Option<User>) | BadRequest(message: string)

  /** The record `post` creates. */
  function NewUser(body: Body, now: nat, iso: int -> string): (u: User)
    requires body.name.Some? && body.email.Some?
    ensures u.id == NatToString(now)
    ensures u.name == body.name.value && u.email == body.email.value
    ensures u.phone == body.phone && u.department == body.department && u.notes == body.notes
    ensures u.role == OrElse(body.role, "viewer") && u.status == OrElse(body.status, "pending")
    ensures u.lastLogin == Some(OrElse(body.lastLogin, iso(now)))
    ensures u.createdAt == iso(now)
  {
    User(
      NatToString(now),
      body.name.value,
      body.email.value,
      body.phone,
      body.department,
      OrElse(body.role, "viewer"),
      OrElse(body.status, "pending"),
      Some(OrElse(body.lastLogin, iso(now))),
      iso(now),
      body.notes)
  }

  /** `{...item, ...body, role, status, lastLogin}`: a field the body
      carries replaces the stored one, except that an empty role, status or
      last-login time keeps the stored value. */
  function Merge(item: User, body: Body): (r: User)
    ensures r.id == item.id && r.createdAt == body.createdAt.GetOr(item.createdAt)
    ensures r.role == OrElse(body.role, item.role)
    ensures r.status == OrElse(body.status, item.status)
    ensures r.lastLogin == if Truthy(body.lastLogin) then body.lastLogin else item.lastLogin
    ensures r.name == body.name.GetOr(item.name) && r.email == body.email.GetOr(item.email)
    ensures body.phone.Some? ==> r.phone == body.phone
    ensures body.phone.None? ==> r.phone == item.phone
    ensures r.department == (if body.department.Some? then body.department else item.department)
    ensures r.notes == (if body.notes.Some? then body.notes else item.notes)
  {
    item.(
      name := body.name.GetOr(item.name),
      email := body.email.GetOr(item.email),
      phone := if body.phone.Some? then body.phone else item.phone,
      department := if body.department.Some? then body.department else item.department,
      notes := if body.notes.Some? then body.notes else item.notes,
      createdAt := body.createdAt.GetOr(item.createdAt),
      role := OrElse(body.role, item.role),
      status := OrElse(body.status, item.status),
      lastLogin := if Truthy(body.lastLogin) then body.lastLogin else item.lastLogin)
  }

  /** The list after `update`: entries with the id are merged, the others
      are kept, positions unchanged. */
  function UpdateAll(s: seq<User>, id: string, body: Body): (r: seq<User>)
    ensures |r| == |s|
    ensures forall i :: 0 <= i < |s| ==> r[i].id == s[i].id
    ensures forall i :: 0 <= i < |s| && s[i].id != id ==> r[i] == s[i]
    ensures forall i :: 0 <= i < |s| && s[i].id == id ==> r[i] == Merge(s[i], body)
  {
    Map(s, (item: User) => if item.id == id then Merge(item, body) else item)
  }

  /** The index of the last entry with the id, or -1 when there is none:
      the entry whose merge `update` answers with, since its loop reassigns
      the answer on every match and ids made from the clock can repeat. */
  function LastWithId(s: seq<User>, id: string): (k: int)
    ensures -1 <= k < |s|
    ensures k >= 0 ==> s[k].id == id
    ensures forall j :: k < j < |s| ==> s[j].id != id
    decreases |s|
  {
    if |s| == 0 then -1
    else if s[|s| - 1].id == id then |s| - 1
    else LastWithId(s[..|s| - 1], id)
  }

  /** The merged record of the last entry with the id. */
  function LastMerged(s: seq<User>, id: string, body: Body): (r: Option<User>)
    ensures r.None? <==> forall i :: 0 <= i < |s| ==> s[i].id != id
    ensures r.Some? ==> r.value.id == id && r.value in UpdateAll(s, id, body)
    ensures r.Some? ==> r.value == Merge(s[LastWithId(s, id)], body)
    decreases |s|
  {
    if |s| == 0 then None
    else if s[|s| - 1].id == id then
      var u := UpdateAll(s, id, body);
      assert u[|s| - 1] == Merge(s[|s| - 1], body);
      Some(Merge(s[|s| - 1], body))
    else
      var init := s[..|s| - 1];
      var r := LastMerged(init, id, body);
      assert forall i :: 0 <= i < |init| ==> UpdateAll(s, id, body)[i] == UpdateAll(init, id, body)[i];
      r
  }

  /** One more entry extends the update by that entry's image, and makes
      the answer its merge when it has the id. */
  lemma UpdateStep(s: seq<User>, i: nat, id: string, body: Body)
    requires i < |s|
    ensures UpdateAll(s[..i + 1], id, body) ==
      UpdateAll(s[..i], id, body) + [if s[i].id == id then Merge(s[i], body) else s[i]]
    ensures LastMerged(s[..i + 1], id, body) ==
      if s[i].id == id then Some(Merge(s[i], body)) else LastMerged(s[..i], id, body)
  {
    assert s[..i + 1][..i] == s[..i];
  }

  /** The ids `delete` removes. */
  function IdsToDelete(body: Body): seq<string> {
    if body.ids.Some? then body.ids.value
    else if Truthy(body.id) then [body.id.value]
    else []
  }

  function IdNotIn(ids: seq<string>): User -> bool {
    (item: User) => item.id !in ids
  }

  lemma DeleteRemovesExactly(s: seq<User>, ids: seq<string>)
    ensures IsSubsequence(Filter(s, IdNotIn(ids)), s)
    ensures forall i :: 0 <= i < |s| ==> (s[i] in Filter(s, IdNotIn(ids)) <==> s[i].id !in ids)
    ensures forall x :: x in Filter(s, IdNotIn(ids)) ==> x.id !in ids
  {
    FilterKeepsExactly(s, IdNotIn(ids));
  }

  /** The module-level `managedUsers` list and its two handlers. */
  class Store {
    var users: seq<User>

    constructor (initial: seq<User>)
      ensures users == initial
    {
      users := initial;
    }

    /** `GET /api/managed-users`. */
    method List(q: Query, current: Option<nat>, pageSize: Option<nat>, parse: string -> Option<int>)
      returns (resp: PageResponse<User>)
      ensures resp.current == PageNumber(current) && resp.pageSize == PageSize(pageSize)
      ensures resp.total == |Matching(users, q)|
      ensures resp.data == Page(Listed(users, q, parse), resp.current, resp.pageSize)
      ensures |resp.data| <= resp.pageSize && resp.success
    {
      var data := users;
      if q.keyword != "" {
        data := Filter(data, ByKeyword(q.keyword));
      }
      if q.status != "" {
        data := Filter(data, ByStatus(q.status));
      }
      if q.role != "" {
        data := Filter(data, ByRole(q.role));
      }
      assert data == Matching(users, q);
      if q.sorter.Parsed? {
        var entries := q.sorter.entries;
        if |entries| > 0 && entries[0].0 != "" && entries[0].1 != "" {
          data := SortedCopy(data, Comparator(entries[0].0, entries[0].1, parse));
        }
      }
      assert data == Listed(users, q, parse);
      ListedIsPermutation(users, q, parse);
      assert |data| == |Matching(users, q)| by {
        assert |multiset(data)| == |multiset(Matching(users, q))|;
      }
      var page := PageNumber(current);
      var size := PageSize(pageSize);
      resp := PageResponse(Page(data, page, size), |data|, true, size, page);
    }

    /** `post`: the new user goes in front of the list. */
    method Create(body: Body, now: nat, iso: int -> string) returns (created: User)
      requires body.name.Some? && body.email.Some?
      modifies this
      ensures created == NewUser(body, now, iso)
      ensures users == [created] + old(users)
    {
      created := NewUser(body, now, iso);
      users := [created] + users;
    }

    /** `update`: without an id the list is left alone and the answer is
      400; otherwise every entry with the id is merged with the body. */
    method Update(body: Body) returns (reply: Reply)
      modifies this
      ensures !Truthy(body.id) ==> users == old(users) && reply.BadRequest?
      ensures Truthy(body.id) ==>
        users == UpdateAll(old(users), body.id.value, body) &&
        reply == Done(LastMerged(old(users), body.id.value, body))
    {
      if !Truthy(body.id) {
        return BadRequest("缺少用户 ID");
      }
      var id := body.id.value;
      var updated: Option<User> := None;
      var next: seq<User> := [];
      var i := 0;
      while i < |users|
        invariant 0 <= i <= |users|
        invariant users == old(users)
        invariant next == UpdateAll(users[..i], id, body)
        invariant updated == LastMerged(users[..i], id, body)
      {
        var item := users[i];
        UpdateStep(users, i, id, body);
        if item.id == id {
          updated := Some(Merge(item, body));
          next := next + [updated.value];
        } else {
          next := next + [item];
        }
        i := i + 1;
      }
      assert users[..i] == users;
      users := next;
      reply := Done(updated);
    }

    /** `delete`: drop every user whose id is listed. */
    method Delete(body: Body)
      modifies this
      ensures users == Filter(old(users), IdNotIn(IdsToDelete(body)))
    {
      var ids := IdsToDelete(body);
      users := Filter(users, IdNotIn(ids));
    }

    /** `POST /api/managed-users`: dispatch on the body's `method`; any
      other value changes nothing. */
    method Handle(body: Body, now: nat, iso: int -> string) returns (reply: Reply)
      requires body.action == "post" ==> body.name.Some? && body.email.Some?
      modifies this
      ensures body.action == "post" ==>
        reply == Done(Some(NewUser(body, now, iso))) && users == [NewUser(body, now, iso)] + old(users)
      ensures body.action == "update" && !Truthy(body.id) ==>
        reply.BadRequest? && users == old(users)
      ensures body.action == "update" && Truthy(body.id) ==>
        users == UpdateAll(old(users), body.id.value, body) &&
        reply == Done(LastMerged(old(users), body.id.value, body))
      ensures body.action == "delete" ==>
        reply == Done(None) && users == Filter(old(users), IdNotIn(IdsToDelete(body)))
      ensures body.action !in {"post", "update", "delete"} ==>
        reply == Done(None) && users == old(users)
    {
      match body.action
      case "post" =>
        var created := Create(body, now, iso);
        reply := Done(Some(created));
      case "update" =>
        reply := Update(body);
      case "delete" =>
        Delete(body);
        reply := Done(None);
      case _ =>
        reply := Done(None);
    }
  }
}
