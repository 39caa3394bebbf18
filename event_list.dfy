/** The event list page's response helpers: reading events out of a back
    end whose field names are not known in advance (each field is looked up
    under a list of alias keys with `??`), finding the list, the success
    flag and the total in several response shapes.

    The date library and `Number` are parameters gathered in `Host`. */
module EventList {
  import opened Js
  import opened Seqs

  /** A JSON value as received; a missing key is `None` where an optional
      value is expected. Numbers are integers here. */
  datatype Json =
    | JNull
    | JBool(b: bool)
    | JNum(n: int)
    | JStr(s: string)
    | JArr(items: seq<Json>)
    | JObj(fields: map<string, Json>)

  /** The environment the helpers read:
      `now` is `Date.now()`;
      `number(s)` is `Number(s)` when that is finite, None otherwise;
      `parseDate(v)` is `dayjs(v).valueOf()` when `dayjs(v).isValid()`;
      `iso(t)` is `toISOString()` of the instant `t`. */
  datatype Host = Host(
    now: nat,
    number: string -> Option<int>,
    parseDate: Json -> Option<int>,
    iso: int -> string)

  // ------------------------------------------------------------ `??` chains

  /** `v[key]`: a key that is missing, or any key of a non-object, reads
      as `undefined`. */
  function Get(v: Json, key: string): Option<Json> {
    if v.JObj? && key in v.fields then Some(v.fields[key]) else None
  }

  predicate Nullish(v: Option<Json>) {
    v.None? || v.value.JNull?
  }

  /** `vs[i]` is the first operand of the chain that is neither null nor
      undefined. */
  predicate FirstPresentAt(vs: seq<Option<Json>>, i: int) {
    0 <= i < |vs| && !Nullish(vs[i]) && forall j :: 0 <= j < i ==> Nullish(vs[j])
  }

  /** `vs[0] ?? vs[1] ?? ... ?? vs[n-1]`: the first operand that is not
      nullish, or else the last operand as it is (null stays null). */
  function Coalesce(vs: seq<Option<Json>>): (r: Option<Json>)
    requires |vs| > 0
    ensures forall i :: FirstPresentAt(vs, i) ==> r == vs[i]
    ensures (forall i :: 0 <= i < |vs| ==> Nullish(vs[i])) ==> r == vs[|vs| - 1]
    ensures Nullish(r) ==> forall i :: 0 <= i < |vs| ==> Nullish(vs[i])
    decreases |vs|
  {
    if |vs| == 1 || !Nullish(vs[0]) then vs[0]
    else
      var rest := vs[1..];
      var r := Coalesce(rest);
      assert forall i :: FirstPresentAt(vs, i) ==> FirstPresentAt(rest, i - 1) by {
        forall i | FirstPresentAt(vs, i) ensures FirstPresentAt(rest, i - 1) {
          assert i != 0;
          assert forall j :: 0 <= j < i - 1 ==> rest[j] == vs[j + 1];
        }
      }
      assert Nullish(r) ==> forall i :: 1 <= i < |vs| ==> Nullish(vs[i]) by {
        if Nullish(r) {
          forall i | 1 <= i < |vs| ensures Nullish(vs[i]) {
            assert vs[i] == rest[i - 1];
          }
        }
      }
      r
  }

  /** The operands `item[keys[0]]`, `item[keys[1]]`, ... */
  function Props(item: Json, keys: seq<string>): (r: seq<Option<Json>>)
    ensures |r| == |keys|
    ensures forall i :: 0 <= i < |keys| ==> r[i] == Get(item, keys[i])
  {
    seq(|keys|, i requires 0 <= i < |keys| => Get(item, keys[i]))
  }

  function Chain(item: Json, keys: seq<string>): Option<Json>
    requires |keys| > 0
  {
    Coalesce(Props(item, keys))
  }

  /** A present first key decides the chain, whatever its type: '' and 0
      count as present. */
  lemma ChainFirstPresent(item: Json, keys: seq<string>)
    requires |keys| > 0 && !Nullish(Get(item, keys[0]))
    ensures Chain(item, keys) == Get(item, keys[0])
  {
    assert FirstPresentAt(Props(item, keys), 0);
  }

  /** A chain none of whose keys is present is undefined. */
  lemma ChainAllAbsent(item: Json, keys: seq<string>)
    requires |keys| > 0 && forall i :: 0 <= i < |keys| ==> Get(item, keys[i]) == None
    ensures Chain(item, keys) == None
  {
    assert Props(item, keys)[|keys| - 1] == None;
  }

  // ------------------------------------------------------------ alias keys

  const IdKeys := ["id", "eventId", "event_id", "uuid", "_id", "slug", "code", "key"]
  const TitleKeys := ["title", "name", "eventTitle", "event_name", "event"]
  const TypeKeys := ["type", "category", "mode", "eventType", "event_type", "categoryName"]
  const StatusKeys := ["status", "state", "lifecycle", "phase", "stage", "eventStatus", "event_status"]
  const OrganizerKeys := ["organizer", "host", "owner", "createdBy", "organisation", "organization",
                          "company", "organizerName", "organizedBy", "organisedBy", "hostName"]
  const LocationKeys := ["location", "venue", "address", "city", "place", "addressLine", "cityName",
                         "placeName", "room", "site"]
  const ParticipantKeys := ["participants", "attendees", "attendeeCount", "capacity", "expectedParticipants",
                            "registrationCount", "participantCount", "attending", "attendee_count",
                            "registration_total", "expectedAttendees", "maxParticipants"]
  const StartKeys := ["startTime", "start_time", "startAt", "start_at", "startDate", "start_date",
                      "startDatetime", "start_datetime", "startsAt", "starts_at", "start", "beginAt", "begin_at"]
  const EndKeys := ["endTime", "end_time", "endAt", "end_at", "endDate", "end_date", "endDatetime",
                    "end_datetime", "endsAt", "ends_at", "finishAt", "finish_at", "finishDate", "finish_date", "end"]
  const DescriptionKeys := ["description", "summary", "details", "content", "notes", "remark",
                            "longDescription", "description_long", "overview"]
  const CreatedKeys := ["createdAt", "created_at", "createdOn", "created_on", "createdDate", "created_date",
                        "insertedAt", "inserted_at", "created"]
  const UpdatedKeys := ["updatedAt", "updated_at", "updatedOn", "updated_on", "updatedDate", "updated_date",
                        "modifiedAt", "modified_at", "updated"]

  const Untitled := "未命名 Event"

  // ------------------------------------------------------------ conversions

  /** `String(v)` and `${v}`: arrays join their elements with ',' (a null
      element gives ''), objects print as '[object Object]'. */
  function JsString(v: Json): string
    decreases v
  {
    match v
    case JNull => "null"
    case JBool(b) => if b then "true" else "false"
    case JNum(n) => IntToString(n)
    case JStr(s) => s
    case JArr(items) =>
      Join(seq(|items|, i requires 0 <= i < |items| => if items[i].JNull? then "" else JsString(items[i])), ",")
    case JObj(_) => "[object Object]"
  }

  /** `toNumber`: a number as it is, a string through `Number` when that is
      finite, anything else undefined. */
  function ToNumber(value: Option<Json>, number: string -> Option<int>): (r: Option<int>)
    ensures value.Some? && value.value.JNum? ==> r == Some(value.value.n)
    ensures value.Some? && value.value.JStr? ==> r == number(value.value.s)
    ensures (value.None? || !(value.value.JNum? || value.value.JStr?)) ==> r.None?
  {
    match value
    case Some(JNum(n)) => Some(n)
    case Some(JStr(s)) => number(s)
    case _ => None
  }

  /** `parseDateValue`: nothing for undefined, null or ''; the ISO text of a
      valid date; an invalid string as it is; anything else undefined. */
  function ParseDateValue(value: Option<Json>, host: Host): (r: Option<string>)
    ensures value.None? || value.value == JNull || value.value == JStr("") ==> r.None?
    ensures value.Some? && value.value != JNull && value.value != JStr("") ==>
      match host.parseDate(value.value)
      case Some(t) => r == Some(host.iso(t))
      case None => r == if value.value.JStr? then Some(value.value.s) else None
  {
    if value.None? || value.value == JNull || value.value == JStr("") then None
    else
      match host.parseDate(value.value)
      case Some(t) => Some(host.iso(t))
      case None => if value.value.JStr? then Some(value.value.s) else None
  }

  // ------------------------------------------------------------ normalising

  /** The event record the table shows. Optional fields keep the `??`
      chain's value: None is undefined, `Some(JNull)` a null. */
  datatype Event = Event(
    id: string,
    title: Json,
    kind: Option<Json>,
    status: Option<Json>,
    organizer: Option<Json>,
    location: Option<Json>,
    participants: Option<int>,
    startTime: Option<string>,
    endTime: Option<string>,
    description: Option<Json>,
    createdAt: Option<string>,
    updatedAt: Option<string>)

  /** The id made up when no id alias is present:
      `${title ?? name ?? 'event'}-${startTime ?? Date.now()}`. */
  function FallbackId(item: Json, startTime: Option<Json>, now: nat): (r: string)
    ensures |r| > 0
  {
    var titlePart := Coalesce([Get(item, "title"), Get(item, "name"), Some(JStr("event"))]);
    var timePart := if Nullish(startTime) then NatToString(now) else JsString(startTime.value);
    JsString(titlePart.value) + "-" + timePart
  }

  /** The id: the first id alias present, printed as a string, or the
      made-up id when there is none. */
  function EventId(item: Json, now: nat): (r: string)
    ensures r == "" ==> exists i :: 0 <= i < |IdKeys| && !Nullish(Get(item, IdKeys[i]))
    ensures forall i :: FirstPresentAt(Props(item, IdKeys), i) ==> r == JsString(Get(item, IdKeys[i]).value)
    ensures (forall i :: 0 <= i < |IdKeys| ==> Nullish(Get(item, IdKeys[i]))) ==>
      r == FallbackId(item, Chain(item, StartKeys), now)
  {
    var vs := Props(item, IdKeys) + [Some(JStr(FallbackId(item, Chain(item, StartKeys), now)))];
    assert !Nullish(vs[|vs| - 1]);
    assert forall i :: FirstPresentAt(Props(item, IdKeys), i) ==> FirstPresentAt(vs, i);
    var idChain := Coalesce(vs);
    assert (forall i :: 0 <= i < |IdKeys| ==> Nullish(Get(item, IdKeys[i]))) ==> FirstPresentAt(vs, |IdKeys|);
    JsString(idChain.value)
  }

  /** The title: the first title alias present, whatever its type, or the
      untitled placeholder when there is none. */
  function EventTitle(item: Json): (r: Json)
    ensures (forall i :: 0 <= i < |TitleKeys| ==> Nullish(Get(item, TitleKeys[i]))) ==> r == JStr(Untitled)
    ensures forall i :: FirstPresentAt(Props(item, TitleKeys), i) ==> r == Get(item, TitleKeys[i]).value
  {
    var title := Chain(item, TitleKeys);
    if Nullish(title) then JStr(Untitled) else title.value
  }

  /** `normalizeEventItem`. */
  function Normalize(item: Json, host: Host): Event {
    var startTime := Chain(item, StartKeys);
    Event(
      EventId(item, host.now),
      EventTitle(item),
      Chain(item, TypeKeys),
      Chain(item, StatusKeys),
      Chain(item, OrganizerKeys),
      Chain(item, LocationKeys),
      ToNumber(Chain(item, ParticipantKeys), host.number),
      ParseDateValue(startTime, host),
      ParseDateValue(Chain(item, EndKeys), host),
      Chain(item, DescriptionKeys),
      ParseDateValue(Chain(item, CreatedKeys), host),
      ParseDateValue(Chain(item, UpdatedKeys), host))
  }

  // Each field is read from the first of its aliases, in the listed order,
  // that is neither null nor undefined.

  /** The type is read from the first present alias. */
  lemma NormalizeReadsKind(item: Json, host: Host, i: nat)
    requires FirstPresentAt(Props(item, TypeKeys), i)
    ensures Normalize(item, host).kind == Get(item, TypeKeys[i])
  {
  }

  /** The status is read from the first present alias. */
  lemma NormalizeReadsStatus(item: Json, host: Host, i: nat)
    requires FirstPresentAt(Props(item, StatusKeys), i)
    ensures Normalize(item, host).status == Get(item, StatusKeys[i])
  {
  }

  /** The organizer is read from the first present alias. */
  lemma NormalizeReadsOrganizer(item: Json, host: Host, i: nat)
    requires FirstPresentAt(Props(item, OrganizerKeys), i)
    ensures Normalize(item, host).organizer == Get(item, OrganizerKeys[i])
  {
  }

  /** The location is read from the first present alias. */
  lemma NormalizeReadsLocation(item: Json, host: Host, i: nat)
    requires FirstPresentAt(Props(item, LocationKeys), i)
    ensures Normalize(item, host).location == Get(item, LocationKeys[i])
  {
  }

  /** The description is read from the first present alias. */
  lemma NormalizeReadsDescription(item: Json, host: Host, i: nat)
    requires FirstPresentAt(Props(item, DescriptionKeys), i)
    ensures Normalize(item, host).description == Get(item, DescriptionKeys[i])
  {
  }

  /** The participant count, through `toNumber`, is read from the first present alias. */
  lemma NormalizeReadsParticipants(item: Json, host: Host, i: nat)
    requires FirstPresentAt(Props(item, ParticipantKeys), i)
    ensures Normalize(item, host).participants == ToNumber(Get(item, ParticipantKeys[i]), host.number)
  {
  }

  /** The start time, through `parseDateValue`, is read from the first present alias. */
  lemma NormalizeReadsStartTime(item: Json, host: Host, i: nat)
    requires FirstPresentAt(Props(item, StartKeys), i)
    ensures Normalize(item, host).startTime == ParseDateValue(Get(item, StartKeys[i]), host)
  {
  }

  /** The end time, through `parseDateValue`, is read from the first present alias. */
  lemma NormalizeReadsEndTime(item: Json, host: Host, i: nat)
    requires FirstPresentAt(Props(item, EndKeys), i)
    ensures Normalize(item, host).endTime == ParseDateValue(Get(item, EndKeys[i]), host)
  {
  }

  /** The creation time, through `parseDateValue`, is read from the first present alias. */
  lemma NormalizeReadsCreatedAt(item: Json, host: Host, i: nat)
    requires FirstPresentAt(Props(item, CreatedKeys), i)
    ensures Normalize(item, host).createdAt == ParseDateValue(Get(item, CreatedKeys[i]), host)
  {
  }

  /** The update time, through `parseDateValue`, is read from the first present alias. */
  lemma NormalizeReadsUpdatedAt(item: Json, host: Host, i: nat)
    requires FirstPresentAt(Props(item, UpdatedKeys), i)
    ensures Normalize(item, host).updatedAt == ParseDateValue(Get(item, UpdatedKeys[i]), host)
  {
  }

  /** An empty title is a title: the default is used only when every title
      alias is missing or null. */
  lemma EmptyTitleIsKept(item: Json, host: Host)
    requires Get(item, "title") == Some(JStr(""))
    ensures Normalize(item, host).title == JStr("")
  {
    assert FirstPresentAt(Props(item, TitleKeys), 0);
  }

  /** With no id alias the id is the title (or name, or 'event'), a dash,
      and the start time, or the clock when no start alias is present. */
  lemma FallbackIdShape(item: Json, host: Host)
    requires forall i :: 0 <= i < |IdKeys| ==> Nullish(Get(item, IdKeys[i]))
    requires Get(item, "title").Some? && Get(item, "title").value.JStr?
    ensures Normalize(item, host).id == Get(item, "title").value.s + "-" +
      (if Nullish(Chain(item, StartKeys)) then NatToString(host.now) else JsString(Chain(item, StartKeys).value))
  {
    assert FirstPresentAt([Get(item, "title"), Get(item, "name"), Some(JStr("event"))], 0);
  }

  // ------------------------------------------------------------ responses

  /** `!response`. */
  predicate Falsy(v: Option<Json>) {
    v.None? || v.value == JNull || v.value == JBool(false) || v.value == JNum(0) || v.value == JStr("")
  }

  const ListKeys := ["data", "items", "list", "events", "results", "records", "dataSource"]

  /** The raw list `extractEventList` maps over. */
  function RawList(response: Option<Json>): (r: seq<Json>)
    ensures Falsy(response) ==> r == []
    ensures !Falsy(response) && response.value.JArr? ==> r == response.value.items
    ensures !Falsy(response) && !response.value.JArr? ==>
      (forall i :: FirstPresentAt(Props(response.value, ListKeys), i) ==>
        r == if Get(response.value, ListKeys[i]).value.JArr? then Get(response.value, ListKeys[i]).value.items else [])
    ensures (!Falsy(response) && !response.value.JArr? &&
             forall i :: 0 <= i < |ListKeys| ==> Nullish(Get(response.value, ListKeys[i]))) ==> r == []
  {
    if Falsy(response) then []
    else if response.value.JArr? then response.value.items
    else
      var vs := Props(response.value, ListKeys) + [Some(JArr([]))];
      var candidate := Coalesce(vs);
      assert forall i :: FirstPresentAt(Props(response.value, ListKeys), i) ==> FirstPresentAt(vs, i);
      assert (forall i :: 0 <= i < |ListKeys| ==> Nullish(Get(response.value, ListKeys[i]))) ==>
        FirstPresentAt(vs, |ListKeys|);
      if candidate.value.JArr? then candidate.value.items else []
  }

  /** `normalizeEventItem(item ?? {})`. */
  function NormalizeEntry(host: Host): Json -> Event {
    (item: Json) => Normalize(if item.JNull? then JObj(map[]) else item, host)
  }

  function HasId(e: Event): bool {
    e.id != ""
  }

  /** `extractEventList`: the raw list normalised, without the events whose
      id is ''. */
  function ExtractEventList(response: Option<Json>, host: Host): (r: seq<Event>)
    ensures |r| <= |RawList(response)|
    ensures IsSubsequence(r, Map(RawList(response), NormalizeEntry(host)))
    ensures forall i :: 0 <= i < |r| ==> r[i].id != ""
    ensures forall x :: x in RawList(response) && NormalizeEntry(host)(x).id != "" ==>
      NormalizeEntry(host)(x) in r
    ensures forall e :: multiset(r)[e] == (if e.id != "" then multiset(Map(RawList(response), NormalizeEntry(host)))[e] else 0)
  {
    var raw := RawList(response);
    FilterMapKeeps(raw, NormalizeEntry(host), HasId);
    var r := Filter(Map(raw, NormalizeEntry(host)), HasId);
    assert forall e :: multiset(r)[e] == (if e.id != "" then multiset(Map(raw, NormalizeEntry(host)))[e] else 0) by {
      forall e ensures multiset(r)[e] == (if e.id != "" then multiset(Map(raw, NormalizeEntry(host)))[e] else 0) {
        FilterCount(Map(raw, NormalizeEntry(host)), HasId, e);
      }
    }
    r
  }

  /** An entry without any id alias always survives: its made-up id is
      never empty. */
  lemma EntryWithoutIdIsKept(response: Option<Json>, host: Host, x: Json)
    requires x in RawList(response)
    requires forall i :: 0 <= i < |IdKeys| ==> Nullish(Get(x, IdKeys[i]))
    ensures NormalizeEntry(host)(x) in ExtractEventList(response, host)
  {
    var item := if x.JNull? then JObj(map[]) else x;
    assert forall i :: 0 <= i < |IdKeys| ==> Nullish(Get(item, IdKeys[i]));
  }

  /** `resolveResponseSuccess`. */
  function ResolveSuccess(response: Option<Json>): (r: Json)
    ensures Falsy(response) || response.value.JArr? ==> r == JBool(true)
    ensures !Falsy(response) && !response.value.JArr? ==>
      r == if Nullish(Get(response.value, "success")) then JBool(true) else Get(response.value, "success").value
  {
    if Falsy(response) then JBool(true)
    else if response.value.JArr? then JBool(true)
    else
      var s := Get(response.value, "success");
      if Nullish(s) then JBool(true) else s.value
  }

  /** `v?.a?.b...`: undefined as soon as a step is nullish. */
  function GetPath(v: Option<Json>, path: seq<string>): Option<Json>
    decreases |path|
  {
    if |path| == 0 then v
    else if Nullish(v) then None
    else GetPath(Get(v.value, path[0]), path[1..])
  }

  const TotalPaths: seq<seq<string>> := [
    ["total"],
    ["meta", "total"],
    ["meta", "itemCount"],
    ["meta", "pagination", "total"],
    ["meta", "pagination", "itemCount"],
    ["meta", "pagination", "count"],
    ["meta", "pagination", "items"]]

  function TotalCandidates(response: Json): (r: seq<Option<Json>>)
    ensures |r| == |TotalPaths|
    ensures forall i :: 0 <= i < |TotalPaths| ==> r[i] == GetPath(Some(response), TotalPaths[i])
  {
    seq(|TotalPaths|, i requires 0 <= i < |TotalPaths| => GetPath(Some(response), TotalPaths[i]))
  }

  /** `resolveResponseTotal`. */
  function ResolveTotal(response: Option<Json>, fallback: int): (r: Json)
    ensures Falsy(response) || response.value.JArr? ==> r == JNum(fallback)
    ensures !Falsy(response) && !response.value.JArr? ==>
      forall i :: FirstPresentAt(TotalCandidates(response.value), i) ==> r == TotalCandidates(response.value)[i].value
    ensures !Falsy(response) && !response.value.JArr? ==>
      (r == JNum(fallback) || exists i :: 0 <= i < |TotalPaths| && Some(r) == TotalCandidates(response.value)[i])
  {
    if Falsy(response) || response.value.JArr? then JNum(fallback)
    else
      var cs := TotalCandidates(response.value);
      var vs := cs + [Some(JNum(fallback))];
      var c := Coalesce(vs);
      assert forall i :: FirstPresentAt(cs, i) ==> FirstPresentAt(vs, i);
      assert !Nullish(c) by {
        assert !Nullish(vs[|vs| - 1]);
      }
      assert c.value == JNum(fallback) || exists i :: 0 <= i < |TotalPaths| && c == cs[i] by {
        var k :| 0 <= k < |vs| && c == vs[k] by {
          if forall i :: 0 <= i < |vs| ==> c != vs[i] {
            CoalesceIsOperand(vs);
          }
        }
        if k < |cs| {
          assert c == cs[k];
        }
      }
      c.value
  }

  lemma {:induction false} CoalesceIsOperand(vs: seq<Option<Json>>)
    requires |vs| > 0
    ensures exists k :: 0 <= k < |vs| && Coalesce(vs) == vs[k]
    decreases |vs|
  {
    if |vs| == 1 || !Nullish(vs[0]) {
      assert Coalesce(vs) == vs[0];
    } else {
      CoalesceIsOperand(vs[1..]);
      var k :| 0 <= k < |vs[1..]| && Coalesce(vs[1..]) == vs[1..][k];
      assert Coalesce(vs) == vs[k + 1];
    }
  }

  /** The total is the fallback, and nothing else, when no total is given
      in any of the places looked at. */
  lemma TotalFallbackWhenAbsent(response: Json, fallback: int)
    requires !Falsy(Some(response)) && !response.JArr?
    requires forall i :: 0 <= i < |TotalPaths| ==> Nullish(GetPath(Some(response), TotalPaths[i]))
    ensures ResolveTotal(Some(response), fallback) == JNum(fallback)
  {
    var cs := TotalCandidates(response);
    var vs := cs + [Some(JNum(fallback))];
    assert FirstPresentAt(vs, |cs|);
  }
}
