/** The activity endpoints of the mock back end: a module-level list of
    activities, a GET handler that filters, sorts and pages it, and a POST
    handler that creates, updates or deletes entries.

    Date handling is delegated to the date library; here it is a parameter
    `parse` that gives the epoch milliseconds of a date string (None when the
    string is not a valid date) and `iso` that prints epoch milliseconds as an
    ISO-8601 string. The clock is the natural number `now` (milliseconds). */
module ActivityMock {
  import opened Js
  import opened Seqs

  datatype Activity = Activity(
    id: string,
    title: string,
    kind: string,          // `type`: online | offline | hybrid
    status: string,        // draft | scheduled | live | completed | cancelled
    organizer: string,
    location: string,
    participants: int,
    startTime: string,
    endTime: string,
    description: Option<string>,
    createdAt: string,
    updatedAt: string)

  /** The query string of a list request. An absent parameter and '' behave
      alike in every branch, so '' stands for "not given". */
  datatype Query = Query(
    keyword: string,
    status: string,
    kind: string,
    startTime: string,
    endTime: string,
    sorter: Sorter)

  // ------------------------------------------------------------ filtering

  /** The keyword occurs, ignoring case, in the title, organizer or location. */
  predicate KeywordHit(item: Activity, keyword: string) {
    var k := ToLower(keyword);
    Includes(ToLower(item.title), k) ||
    Includes(ToLower(item.organizer), k) ||
    Includes(ToLower(item.location), k)
  }

  function ByKeyword(keyword: string): Activity -> bool {
    item => KeywordHit(item, keyword)
  }

  function ByStatus(status: string): Activity -> bool {
    (item: Activity) => item.status == status
  }

  function ByKind(kind: string): Activity -> bool {
    (item: Activity) => item.kind == kind
  }

  /** `itemStart.isAfter(start - 1ms) && itemStart.isBefore(end + 1ms)`: a
      comparison with an invalid date is false, so an unparseable bound or
      item date rejects the item. */
  predicate InWindow(item: Activity, start: string, end: string, parse: string -> Option<int>)
    ensures InWindow(item, start, end, parse) <==>
      parse(start).Some? && parse(end).Some? && parse(item.startTime).Some? &&
      parse(start).value <= parse(item.startTime).value <= parse(end).value
  {
    var s := parse(start);
    var e := parse(end);
    var t := parse(item.startTime);
    s.Some? && e.Some? && t.Some? && s.value - 1 < t.value && t.value < e.value + 1
  }

  function ByWindow(start: string, end: string, parse: string -> Option<int>): Activity -> bool {
    item => InWindow(item, start, end, parse)
  }

  /** Every criterion the query supplies holds of `item`. */
  predicate Selected(item: Activity, q: Query, parse: string -> Option<int>) {
    (q.keyword == "" || KeywordHit(item, q.keyword)) &&
    (q.status == "" || item.status == q.status) &&
    (q.kind == "" || item.kind == q.kind) &&
    (q.startTime == "" || q.endTime == "" || InWindow(item, q.startTime, q.endTime, parse))
  }

  function SelectedBy(q: Query, parse: string -> Option<int>): Activity -> bool {
    (item: Activity) => Selected(item, q, parse)
  }

  /** The filter stages of `filterActivities`, in the order they run. */
  function Matching(data: seq<Activity>, q: Query, parse: string -> Option<int>): seq<Activity> {
    var byKeyword := if q.keyword != "" then Filter(data, ByKeyword(q.keyword)) else data;
    var byStatus := if q.status != "" then Filter(byKeyword, ByStatus(q.status)) else byKeyword;
    var byKind := if q.kind != "" then Filter(byStatus, ByKind(q.kind)) else byStatus;
    if q.startTime != "" && q.endTime != "" then
      Filter(byKind, ByWindow(q.startTime, q.endTime, parse))
    else byKind
  }

  /** The stages together keep exactly the activities that meet every
      supplied criterion, in their original order. */
  lemma MatchingSelects(data: seq<Activity>, q: Query, parse: string -> Option<int>)
    ensures Matching(data, q, parse) == Filter(data, SelectedBy(q, parse))
  {
    var p1 := (item: Activity) => q.keyword == "" || KeywordHit(item, q.keyword);
    var p2 := (item: Activity) => p1(item) && (q.status == "" || item.status == q.status);
    var p3 := (item: Activity) => p2(item) && (q.kind == "" || item.kind == q.kind);
    var p4 := SelectedBy(q, parse);
    var r1 := if q.keyword != "" then Filter(data, ByKeyword(q.keyword)) else data;
    FilterKeepsAll(data, (x: Activity) => true);
    StageIsFilter(data, data, (x: Activity) => true, q.keyword != "", ByKeyword(q.keyword), p1);
    var r2 := if q.status != "" then Filter(r1, ByStatus(q.status)) else r1;
    StageIsFilter(data, r1, p1, q.status != "", ByStatus(q.status), p2);
    var r3 := if q.kind != "" then Filter(r2, ByKind(q.kind)) else r2;
    StageIsFilter(data, r2, p2, q.kind != "", ByKind(q.kind), p3);
    StageIsFilter(data, r3, p3, q.startTime != "" && q.endTime != "",
                  ByWindow(q.startTime, q.endTime, parse), p4);
  }

  lemma MatchingIsSubsequence(data: seq<Activity>, q: Query, parse: string -> Option<int>)
    ensures IsSubsequence(Matching(data, q, parse), data)
    ensures forall i :: 0 <= i < |data| ==>
      (data[i] in Matching(data, q, parse) <==> Selected(data[i], q, parse))
  {
    MatchingSelects(data, q, parse);
    FilterKeepsExactly(data, SelectedBy(q, parse));
  }

  // ------------------------------------------------------------ sorting

  /** A field read by name, as `item[sortKey]` does. */
  datatype Value = Str(s: string) | Num(n: int) | Undefined

  function FieldOf(item: Activity, key: string): Value {
    match key
    case "id" => Str(item.id)
    case "title" => Str(item.title)
    case "type" => Str(item.kind)
    case "status" => Str(item.status)
    case "organizer" => Str(item.organizer)
    case "location" => Str(item.location)
    case "participants" => Num(item.participants)
    case "startTime" => Str(item.startTime)
    case "endTime" => Str(item.endTime)
    case "description" => if item.description.Some? then Str(item.description.value) else Undefined
    case "createdAt" => Str(item.createdAt)
    case "updatedAt" => Str(item.updatedAt)
    case _ => Undefined
  }

  /** The template-literal text `${value}`. */
  function Display(v: Value): string {
    match v
    case Str(s) => s
    case Num(n) => IntToString(n)
    case Undefined => "undefined"
  }

  /** The sort comparator of `filterActivities`: two valid dates compare by
      time, two numbers by value, anything else by the text of the values. */
  function Compare(a: Activity, b: Activity, key: string, order: string,
                   parse: string -> Option<int>): int
  {
    var va := FieldOf(a, key);
    var vb := FieldOf(b, key);
    if va.Str? && vb.Str? && parse(va.s).Some? && parse(vb.s).Some? then
      var ta := parse(va.s).value;
      var tb := parse(vb.s).value;
      if order == "ascend" then ta - tb else tb - ta
    else if va.Num? && vb.Num? then
      if order == "ascend" then va.n - vb.n else vb.n - va.n
    else if order == "ascend" then CompareStrings(Display(va), Display(vb))
    else CompareStrings(Display(vb), Display(va))
  }

  function Comparator(key: string, order: string, parse: string -> Option<int>): (Activity, Activity) -> int {
    (a, b) => Compare(a, b, key, order, parse)
  }

  /** Any order other than 'ascend' is the ascending comparator with its
      operands swapped. */
  lemma DescendSwapsOperands(a: Activity, b: Activity, key: string, order: string,
                             parse: string -> Option<int>)
    requires order != "ascend"
    ensures Compare(a, b, key, order, parse) == Compare(b, a, key, "ascend", parse)
  {
  }

  lemma ComparatorAntisymmetric(key: string, order: string, parse: string -> Option<int>)
    ensures Antisymmetric(Comparator(key, order, parse))
  {
    forall a: Activity, b: Activity | Comparator(key, order, parse)(a, b) > 0
      ensures Comparator(key, order, parse)(b, a) < 0
    {
      CompareStringsAntisymmetric(Display(FieldOf(a, key)), Display(FieldOf(b, key)));
    }
  }

  /** The list `filterActivities` returns. */
  function Listed(data: seq<Activity>, q: Query, parse: string -> Option<int>): seq<Activity> {
    var m := Matching(data, q, parse);
    match SortSpec(q.sorter)
    case None => m
    case Some((key, order)) => SortedBy(m, Comparator(key, order, parse))
  }

  /** Sorting only reorders: the listed activities are the matching ones. */
  lemma ListedIsPermutation(data: seq<Activity>, q: Query, parse: string -> Option<int>)
    ensures multiset(Listed(data, q, parse)) == multiset(Matching(data, q, parse))
    ensures SortSpec(q.sorter).None? ==> Listed(data, q, parse) == Matching(data, q, parse)
  {
    match SortSpec(q.sorter)
    case None =>
    case Some((key, order)) => SortedByIsPermutation(Matching(data, q, parse), Comparator(key, order, parse));
  }

  /** With a usable sorter no two neighbours of the list are out of order. */
  lemma ListedIsOrdered(data: seq<Activity>, q: Query, parse: string -> Option<int>, key: string, order: string)
    requires SortSpec(q.sorter) == Some((key, order))
    ensures AdjacentOrdered(Listed(data, q, parse), Comparator(key, order, parse))
  {
    ComparatorAntisymmetric(key, order, parse);
    SortedByIsOrdered(Matching(data, q, parse), Comparator(key, order, parse));
  }

  /** With a usable sorter the list is the matching activities sorted by
      its comparator. */
  lemma ListedSortsMatching(data: seq<Activity>, q: Query, parse: string -> Option<int>, key: string, order: string)
    requires SortSpec(q.sorter) == Some((key, order))
    ensures Listed(data, q, parse) == SortedBy(Matching(data, q, parse), Comparator(key, order, parse))
  {
  }

  /** Sorting by `participants` orders the whole list by head count:
      ascending for 'ascend', descending otherwise. */
  lemma SortedByParticipants(m: seq<Activity>, order: string, parse: string -> Option<int>)
    ensures var r := SortedBy(m, Comparator("participants", order, parse));
      order == "ascend" ==> forall i, j :: 0 <= i <= j < |r| ==> r[i].participants <= r[j].participants
    ensures var r := SortedBy(m, Comparator("participants", order, parse));
      order != "ascend" ==> forall i, j :: 0 <= i <= j < |r| ==> r[i].participants >= r[j].participants
  {
    var cmp := Comparator("participants", order, parse);
    var r := SortedBy(m, cmp);
    ComparatorAntisymmetric("participants", order, parse);
    SortedByIsOrdered(m, cmp);
    assert forall x: Activity :: FieldOf(x, "participants") == Num(x.participants);
    if order == "ascend" {
      AdjacentKeysOrdered(r, (x: Activity) => x.participants);
    } else {
      AdjacentKeysOrdered(r, (x: Activity) => -x.participants);
    }
  }

  lemma SortByParticipants(data: seq<Activity>, q: Query, parse: string -> Option<int>, order: string)
    requires SortSpec(q.sorter) == Some(("participants", order))
    ensures var r := Listed(data, q, parse);
      order == "ascend" ==> forall i, j :: 0 <= i <= j < |r| ==> r[i].participants <= r[j].participants
    ensures var r := Listed(data, q, parse);
      order != "ascend" ==> forall i, j :: 0 <= i <= j < |r| ==> r[i].participants >= r[j].participants
  {
    ListedSortsMatching(data, q, parse, "participants", order);
    SortedByParticipants(Matching(data, q, parse), order, parse);
  }

  /** The time of a date field, 0 when it does not parse. */
  function TimeOf(x: Activity, key: string, parse: string -> Option<int>): int {
    var v := FieldOf(x, key);
    if v.Str? then parse(v.s).GetOr(0) else 0
  }

  predicate HasValidDate(x: Activity, key: string, parse: string -> Option<int>) {
    var v := FieldOf(x, key);
    v.Str? && parse(v.s).Some?
  }

  /** Sorting by a key that every activity holds as a valid date orders the
      list by that date. */
  lemma SortedByDate(m: seq<Activity>, parse: string -> Option<int>, key: string, order: string)
    requires forall i :: 0 <= i < |m| ==> HasValidDate(m[i], key, parse)
    ensures var r := SortedBy(m, Comparator(key, order, parse));
      forall i, j :: 0 <= i <= j < |r| ==>
        if order == "ascend" then TimeOf(r[i], key, parse) <= TimeOf(r[j], key, parse)
        else TimeOf(r[i], key, parse) >= TimeOf(r[j], key, parse)
  {
    var cmp := Comparator(key, order, parse);
    var r := SortedBy(m, cmp);
    ComparatorAntisymmetric(key, order, parse);
    SortedByIsOrdered(m, cmp);
    SortedByIsPermutation(m, cmp);
    var time := (x: Activity) => if order == "ascend" then TimeOf(x, key, parse) else -TimeOf(x, key, parse);
    forall k | 0 < k < |r| ensures time(r[k - 1]) <= time(r[k]) {
      assert r[k - 1] in multiset(m) && r[k] in multiset(m);
      CompareDates(r[k - 1], r[k], key, order, parse);
    }
    AdjacentKeysOrdered(r, time);
  }

  /** Two valid dates compare by the difference of their times. */
  lemma CompareDates(a: Activity, b: Activity, key: string, order: string, parse: string -> Option<int>)
    requires HasValidDate(a, key, parse) && HasValidDate(b, key, parse)
    ensures Compare(a, b, key, order, parse) ==
      if order == "ascend" then TimeOf(a, key, parse) - TimeOf(b, key, parse)
      else TimeOf(b, key, parse) - TimeOf(a, key, parse)
  {
  }

  lemma SortByDate(data: seq<Activity>, q: Query, parse: string -> Option<int>, key: string, order: string)
    requires SortSpec(q.sorter) == Some((key, order))
    requires forall x :: x in Matching(data, q, parse) ==> HasValidDate(x, key, parse)
    ensures var r := Listed(data, q, parse);
      forall i, j :: 0 <= i <= j < |r| ==>
        if order == "ascend" then TimeOf(r[i], key, parse) <= TimeOf(r[j], key, parse)
        else TimeOf(r[i], key, parse) >= TimeOf(r[j], key, parse)
  {
    ListedSortsMatching(data, q, parse, key, order);
    SortedByDate(Matching(data, q, parse), parse, key, order);
  }

  /** A sort key that is not a field of the record compares every pair as
      equal, so the order is left as it is. */
  lemma UnknownKeyKeepsOrder(data: seq<Activity>, q: Query, parse: string -> Option<int>, key: string, order: string)
    requires SortSpec(q.sorter) == Some((key, order))
    requires key !in {"id", "title", "type", "status", "organizer", "location", "participants",
                      "startTime", "endTime", "description", "createdAt", "updatedAt"}
    ensures Listed(data, q, parse) == Matching(data, q, parse)
  {
    var m := Matching(data, q, parse);
    var cmp := Comparator(key, order, parse);
    assert forall a, b :: cmp(a, b) == 0;
    SortedByOrderedIsIdentity(m, cmp);
  }

  /** `filterActivities`: the filter stages in turn, then an in-place sort of
      the working copy when the sorter names a key and an order. */
  method FilterActivities(data: seq<Activity>, q: Query, parse: string -> Option<int>)
    returns (result: seq<Activity>)
    ensures result == Listed(data, q, parse)
  {
    result := data;
    if q.keyword != "" {
      result := Filter(result, ByKeyword(q.keyword));
    }
    if q.status != "" {
      result := Filter(result, ByStatus(q.status));
    }
    if q.kind != "" {
      result := Filter(result, ByKind(q.kind));
    }
    if q.startTime != "" && q.endTime != "" {
      result := Filter(result, ByWindow(q.startTime, q.endTime, parse));
    }
    assert result == Matching(data, q, parse);
    if q.sorter.Parsed? {
      var entries := q.sorter.entries;
      if |entries| > 0 && entries[0].0 != "" && entries[0].1 != "" {
        var sortKey, sortOrder := entries[0].0, entries[0].1;
        result := SortedCopy(result, Comparator(sortKey, sortOrder, parse));
      }
    }
  }

  // ------------------------------------------------------------ mutations

  const TwoHours: nat := 2 * 60 * 60 * 1000

  /** The POST body; `action` is its `method` field. */
  datatype Body = Body(
    action: string,
    id: Option<string>,
    ids: Option<seq<string>>,
    title: Option<string>,
    kind: Option<string>,
    status: Option<string>,
    organizer: Option<string>,
    location: Option<string>,
    participants: Option<int>,
    startTime: Option<string>,
    endTime: Option<string>,
    description: Option<string>,
    createdAt: Option<string>)

  datatype Reply = Done(data: Option<Activity>) | BadRequest(message: string)

  /** The record `post` creates: its id is the clock reading, its stamps are
      now, and each missing field takes its default. */
  function NewActivity(body: Body, now: nat, iso: int -> string): (a: Activity)
    requires body.title.Some?
    ensures a.id == NatToString(now) && a.title == body.title.value
    ensures a.kind == OrElse(body.kind, "online") && a.status == OrElse(body.status, "draft")
    ensures a.organizer == OrElse(body.organizer, "未指定")
    ensures a.location == OrElse(body.location, "待定")
    ensures a.participants == body.participants.GetOr(0)
    ensures a.startTime == OrElse(body.startTime, iso(now))
    ensures a.endTime == OrElse(body.endTime, iso(now + TwoHours))
    ensures a.description == body.description
    ensures a.createdAt == iso(now) && a.updatedAt == iso(now)
  {
    Activity(
      NatToString(now),
      body.title.value,
      OrElse(body.kind, "online"),
      OrElse(body.status, "draft"),
      OrElse(body.organizer, "未指定"),
      OrElse(body.location, "待定"),
      if body.participants.Some? && body.participants.value != 0 then body.participants.value else 0,
      OrElse(body.startTime, iso(now)),
      OrElse(body.endTime, iso(now + TwoHours)),
      body.description,
      iso(now),
      iso(now))
  }

  /** `{...item, ...body, participants, startTime, endTime, updatedAt}`: a
      field the body carries replaces the stored one, except that a zero
      participant count or an empty time keeps the stored value. */
  function Merge(item: Activity, body: Body, stamp: string): (r: Activity)
    ensures r.id == item.id
    ensures r.participants == if body.participants.Some? && body.participants.value != 0
                              then body.participants.value else item.participants
    ensures r.startTime == OrElse(body.startTime, item.startTime)
    ensures r.endTime == OrElse(body.endTime, item.endTime)
    ensures r.createdAt == body.createdAt.GetOr(item.createdAt) && r.updatedAt == stamp
    ensures body.title.None? ==> r.title == item.title
    ensures body.title.Some? ==> r.title == body.title.value
    ensures r.kind == body.kind.GetOr(item.kind) && r.status == body.status.GetOr(item.status)
    ensures r.organizer == body.organizer.GetOr(item.organizer) && r.location == body.location.GetOr(item.location)
    ensures r.description == (if body.description.Some? then body.description else item.description)
  {
    item.(
      title := body.title.GetOr(item.title),
      kind := body.kind.GetOr(item.kind),
      status := body.status.GetOr(item.status),
      organizer := body.organizer.GetOr(item.organizer),
      location := body.location.GetOr(item.location),
      description := if body.description.Some? then body.description else item.description,
      createdAt := body.createdAt.GetOr(item.createdAt),
      participants := if body.participants.Some? && body.participants.value != 0
                      then body.participants.value else item.participants,
      startTime := OrElse(body.startTime, item.startTime),
      endTime := OrElse(body.endTime, item.endTime),
      updatedAt := stamp)
  }

  /** The list after `update`: entries with the id are merged, the others
      are kept, positions unchanged. */
  function UpdateAll(s: seq<Activity>, id: string, body: Body, stamp: string): (r: seq<Activity>)
    ensures |r| == |s|
    ensures forall i :: 0 <= i < |s| ==> r[i].id == s[i].id
    ensures forall i :: 0 <= i < |s| && s[i].id != id ==> r[i] == s[i]
    ensures forall i :: 0 <= i < |s| && s[i].id == id ==> r[i] == Merge(s[i], body, stamp)
  {
    Map(s, (item: Activity) => if item.id == id then Merge(item, body, stamp) else item)
  }

  /** The index of the last entry with the id, or -1 when there is none:
      the entry whose merge `update` answers with, since its loop reassigns
      the answer on every match and ids made from the clock can repeat. */
  function LastWithId(s: seq<Activity>, id: string): (k: int)
    ensures -1 <= k < |s|
    ensures k >= 0 ==> s[k].id == id
    ensures forall j :: k < j < |s| ==> s[j].id != id
    decreases |s|
  {
    if |s| == 0 then -1
    else if s[|s| - 1].id == id then |s| - 1
    else LastWithId(s[..|s| - 1], id)
  }

  /** The merged record of the last entry with the id: what `update`
      answers with. */
  function LastMerged(s: seq<Activity>, id: string, body: Body, stamp: string): (r: Option<Activity>)
    ensures r.None? <==> forall i :: 0 <= i < |s| ==> s[i].id != id
    ensures r.Some? ==> r.value.id == id && r.value in UpdateAll(s, id, body, stamp)
    ensures r.Some? ==> r.value == Merge(s[LastWithId(s, id)], body, stamp)
    decreases |s|
  {
    if |s| == 0 then None
    else if s[|s| - 1].id == id then
      var u := UpdateAll(s, id, body, stamp);
      assert u[|s| - 1] == Merge(s[|s| - 1], body, stamp);
      Some(Merge(s[|s| - 1], body, stamp))
    else
      var init := s[..|s| - 1];
      var r := LastMerged(init, id, body, stamp);
      assert forall i :: 0 <= i < |init| ==> UpdateAll(s, id, body, stamp)[i] == UpdateAll(init, id, body, stamp)[i];
      r
  }

  /** One more entry extends the update by that entry's image, and makes
      the answer its merge when it has the id. */
  lemma UpdateStep(s: seq<Activity>, i: nat, id: string, body: Body, stamp: string)
    requires i < |s|
    ensures UpdateAll(s[..i + 1], id, body, stamp) ==
      UpdateAll(s[..i], id, body, stamp) + [if s[i].id == id then Merge(s[i], body, stamp) else s[i]]
    ensures LastMerged(s[..i + 1], id, body, stamp) ==
      if s[i].id == id then Some(Merge(s[i], body, stamp)) else LastMerged(s[..i], id, body, stamp)
  {
    assert s[..i + 1][..i] == s[..i];
  }

  /** The ids `delete` removes: `ids` when it is a list, else `[id]` when
      `id` is set, else none. */
  function IdsToDelete(body: Body): seq<string> {
    if body.ids.Some? then body.ids.value
    else if Truthy(body.id) then [body.id.value]
    else []
  }

  function IdNotIn(ids: seq<string>): Activity -> bool {
    (item: Activity) => item.id !in ids
  }

  /** Deleting keeps the other entries, in their order, and only them. */
  lemma DeleteRemovesExactly(s: seq<Activity>, ids: seq<string>)
    ensures IsSubsequence(Filter(s, IdNotIn(ids)), s)
    ensures forall i :: 0 <= i < |s| ==> (s[i] in Filter(s, IdNotIn(ids)) <==> s[i].id !in ids)
    ensures forall x :: x in Filter(s, IdNotIn(ids)) ==> x.id !in ids
  {
    FilterKeepsExactly(s, IdNotIn(ids));
  }

  /** The module-level `activities` list and its two handlers. */
  class Store {
    var activities: seq<Activity>

    constructor (initial: seq<Activity>)
      ensures activities == initial
    {
      activities := initial;
    }

    /** `GET /api/activities`. */
    method List(q: Query, current: Option<nat>, pageSize: Option<nat>, parse: string -> Option<int>)
      returns (resp: PageResponse<Activity>)
      ensures resp.current == PageNumber(current) && resp.pageSize == PageSize(pageSize)
      ensures resp.total == |Matching(activities, q, parse)|
      ensures resp.data == Page(Listed(activities, q, parse), resp.current, resp.pageSize)
      ensures |resp.data| <= resp.pageSize && resp.success
    {
      var filtered := FilterActivities(activities, q, parse);
      ListedIsPermutation(activities, q, parse);
      assert |filtered| == |Matching(activities, q, parse)| by {
        assert |multiset(filtered)| == |multiset(Matching(activities, q, parse))|;
      }
      var page := PageNumber(current);
      var size := PageSize(pageSize);
      resp := PageResponse(Page(filtered, page, size), |filtered|, true, size, page);
    }

    /** `post`: the new record goes in front of the list. */
    method Create(body: Body, now: nat, iso: int -> string) returns (created: Activity)
      requires body.title.Some?
      modifies this
      ensures created == NewActivity(body, now, iso)
      ensures activities == [created] + old(activities)
    {
      created := NewActivity(body, now, iso);
      activities := [created] + activities;
    }

    /** `update`: without an id the list is left alone and the answer is
      400; otherwise every entry with the id is merged with the body. */
    method Update(body: Body, now: nat, iso: int -> string) returns (reply: Reply)
      modifies this
      ensures !Truthy(body.id) ==> activities == old(activities) && reply.BadRequest?
      ensures Truthy(body.id) ==>
        activities == UpdateAll(old(activities), body.id.value, body, iso(now)) &&
        reply == Done(LastMerged(old(activities), body.id.value, body, iso(now)))
    {
      if !Truthy(body.id) {
        return BadRequest("缺少活动 ID");
      }
      var id := body.id.value;
      var stamp := iso(now);
      var updated: Option<Activity> := None;
      var next: seq<Activity> := [];
      var i := 0;
      while i < |activities|
        invariant 0 <= i <= |activities|
        invariant activities == old(activities)
        invariant next == UpdateAll(activities[..i], id, body, stamp)
        invariant updated == LastMerged(activities[..i], id, body, stamp)
      {
        var item := activities[i];
        UpdateStep(activities, i, id, body, stamp);
        if item.id == id {
          updated := Some(Merge(item, body, stamp));
          next := next + [updated.value];
        } else {
          next := next + [item];
        }
        i := i + 1;
      }
      assert activities[..i] == activities;
      activities := next;
      reply := Done(updated);
    }

    /** `delete`: drop every entry whose id is listed. */
    method Delete(body: Body)
      modifies this
      ensures activities == Filter(old(activities), IdNotIn(IdsToDelete(body)))
    {
      var ids := IdsToDelete(body);
      activities := Filter(activities, IdNotIn(ids));
    }

    /** `POST /api/activities`: dispatch on the body's `method`; any other
      value changes nothing. */
    method Handle(body: Body, now: nat, iso: int -> string) returns (reply: Reply)
      requires body.action == "post" ==> body.title.Some?
      modifies this
      ensures body.action == "post" ==>
        reply == Done(Some(NewActivity(body, now, iso))) &&
        activities == [NewActivity(body, now, iso)] + old(activities)
      ensures body.action == "update" && !Truthy(body.id) ==>
        reply.BadRequest? && activities == old(activities)
      ensures body.action == "update" && Truthy(body.id) ==>
        activities == UpdateAll(old(activities), body.id.value, body, iso(now)) &&
        reply == Done(LastMerged(old(activities), body.id.value, body, iso(now)))
      ensures body.action == "delete" ==>
        reply == Done(None) && activities == Filter(old(activities), IdNotIn(IdsToDelete(body)))
      ensures body.action !in {"post", "update", "delete"} ==>
        reply == Done(None) && activities == old(activities)
    {
      match body.action
      case "post" =>
        var created := Create(body, now, iso);
        reply := Done(Some(created));
      case "update" =>
        reply := Update(body, now, iso);
      case "delete" =>
        Delete(body);
        reply := Done(None);
      case _ =>
        reply := Done(None);
    }
  }
}
