/** `buildEventPayload` of the event list page (src/pages/event/list/index.tsx):
    the request body sent when an event is created or edited, with every
    field also written under the aliases the list reader accepts. */
module EventPayload {
  import opened Js
  import opened EventList

  /** The form's values; `dateRange` is the picked pair of instants. */
  datatype FormValues = FormValues(
    title: string,
    kind: string,
    status: string,
    organizer: string,
    location: string,
    participants: Option<int>,
    description: Option<string>,
    dateRange: Option<(int, int)>)

  /** The nine values `buildEventPayload` computes from the form before
      writing them under their keys. */
  datatype Column = TitleColumn | TypeColumn | StatusColumn | OrganizerColumn | LocationColumn
                  | ParticipantsColumn | DescriptionColumn | StartColumn | EndColumn

  // ------------------------------------------------------------ key names

  // The JSON names each column is written under: the base key first, then
  // the aliases in the order the payload lists them.
  const TitleNames: seq<string> := ["title", "name"]
  const TypeNames: seq<string> := ["type"]
  const StatusNames: seq<string> := ["status"]
  const OrganizerNames: seq<string> :=
    ["organizer", "host", "organiser", "organizerName", "organiserName", "organizedBy"]
  const LocationNames: seq<string> :=
    ["location", "venue", "address", "addressLine", "city", "cityName", "placeName"]
  const ParticipantNames: seq<string> :=
    ["participants", "attendeeCount", "attendees", "capacity", "registrationCount", "participantCount",
     "expectedParticipants", "expectedAttendees", "maxParticipants"]
  const DescriptionNames: seq<string> := ["description", "summary", "details", "longDescription", "overview"]
  const StartNames: seq<string> :=
    ["startTime", "start_time", "startAt", "start_at", "start", "beginAt", "begin_at", "begin"]
  const EndNames: seq<string> :=
    ["endTime", "end_time", "endAt", "end_at", "end", "finishAt", "finish_at", "finish"]

  function Names(col: Column): seq<string> {
    match col
    case TitleColumn => TitleNames
    case TypeColumn => TypeNames
    case StatusColumn => StatusNames
    case OrganizerColumn => OrganizerNames
    case LocationColumn => LocationNames
    case ParticipantsColumn => ParticipantNames
    case DescriptionColumn => DescriptionNames
    case StartColumn => StartNames
    case EndColumn => EndNames
  }

  /** A key of the payload: the `alias`-th name of `column`, alias 0 being
      the column's base key. */
  datatype Field = Field(column: Column, alias: nat)

  predicate IsKey(f: Field) {
    f.alias < |Names(f.column)|
  }

  /** The JSON name of a key. */
  function KeyName(f: Field): string
    requires IsKey(f)
  {
    Names(f.column)[f.alias]
  }

  const Title := Field(TitleColumn, 0)
  const Type := Field(TypeColumn, 0)
  const Status := Field(StatusColumn, 0)
  const Organizer := Field(OrganizerColumn, 0)
  const Location := Field(LocationColumn, 0)
  const Participants := Field(ParticipantsColumn, 0)
  const Description := Field(DescriptionColumn, 0)
  const StartTime := Field(StartColumn, 0)
  const EndTime := Field(EndColumn, 0)
  const Name := Field(TitleColumn, 1)
  const HostKey := Field(OrganizerColumn, 1)
  const Organiser := Field(OrganizerColumn, 2)
  const OrganizerName := Field(OrganizerColumn, 3)
  const OrganiserName := Field(OrganizerColumn, 4)
  const OrganizedBy := Field(OrganizerColumn, 5)
  const Venue := Field(LocationColumn, 1)
  const Address := Field(LocationColumn, 2)
  const AddressLine := Field(LocationColumn, 3)
  const City := Field(LocationColumn, 4)
  const CityName := Field(LocationColumn, 5)
  const PlaceName := Field(LocationColumn, 6)
  const AttendeeCount := Field(ParticipantsColumn, 1)
  const Attendees := Field(ParticipantsColumn, 2)
  const Capacity := Field(ParticipantsColumn, 3)
  const RegistrationCount := Field(ParticipantsColumn, 4)
  const ParticipantCount := Field(ParticipantsColumn, 5)
  const ExpectedParticipants := Field(ParticipantsColumn, 6)
  const ExpectedAttendees := Field(ParticipantsColumn, 7)
  const MaxParticipants := Field(ParticipantsColumn, 8)
  const Summary := Field(DescriptionColumn, 1)
  const Details := Field(DescriptionColumn, 2)
  const LongDescription := Field(DescriptionColumn, 3)
  const Overview := Field(DescriptionColumn, 4)
  const Start_time := Field(StartColumn, 1)
  const StartAt := Field(StartColumn, 2)
  const Start_at := Field(StartColumn, 3)
  const Start := Field(StartColumn, 4)
  const BeginAt := Field(StartColumn, 5)
  const Begin_at := Field(StartColumn, 6)
  const Begin := Field(StartColumn, 7)
  const End_time := Field(EndColumn, 1)
  const EndAt := Field(EndColumn, 2)
  const End_at := Field(EndColumn, 3)
  const End := Field(EndColumn, 4)
  const FinishAt := Field(EndColumn, 5)
  const Finish_at := Field(EndColumn, 6)
  const Finish := Field(EndColumn, 7)

  // ------------------------------------------------------------ the payload

  /** A payload maps each key to a value or to `undefined` (None). */
  type Payload = map<Field, Option<Json>>

  function Text(s: Option<string>): Option<Json> {
    if s.Some? then Some(JStr(s.value)) else None
  }

  function StartTimeOf(values: FormValues, iso: int -> string): Option<string> {
    if values.dateRange.Some? then Some(iso(values.dateRange.value.0)) else None
  }

  function EndTimeOf(values: FormValues, iso: int -> string): Option<string> {
    if values.dateRange.Some? then Some(iso(values.dateRange.value.1)) else None
  }

  datatype Columns = Columns(
    title: Option<Json>,
    kind: Option<Json>,
    status: Option<Json>,
    organizer: Option<Json>,
    location: Option<Json>,
    participants: Option<Json>,
    description: Option<Json>,
    startTime: Option<Json>,
    endTime: Option<Json>)
  {
    function At(col: Column): Option<Json> {
      match col
      case TitleColumn => title
      case TypeColumn => kind
      case StatusColumn => status
      case OrganizerColumn => organizer
      case LocationColumn => location
      case ParticipantsColumn => participants
      case DescriptionColumn => description
      case StartColumn => startTime
      case EndColumn => endTime
    }
  }

  /** `participants` defaults to 0; the times are ISO strings of the picked
      range, or undefined without one. */
  function ColumnsOf(values: FormValues, iso: int -> string): Columns {
    Columns(
      Some(JStr(values.title)),
      Some(JStr(values.kind)),
      Some(JStr(values.status)),
      Some(JStr(values.organizer)),
      Some(JStr(values.location)),
      Some(JNum(values.participants.GetOr(0))),
      Text(values.description),
      Text(StartTimeOf(values, iso)),
      Text(EndTimeOf(values, iso)))
  }

  /** The truthiness of a time column: set and not the empty string. */
  predicate IsSet(t: Option<Json>) {
    t.Some? && t.value != JStr("")
  }

  /** The keys of `col` from alias `from` on. */
  function ColumnKeys(col: Column, from: nat): set<Field> {
    set i | from <= i < |Names(col)| :: Field(col, i)
  }

  const BaseKeys := {Title, Type, Status, Organizer, Location, Participants, Description, StartTime, EndTime}
  const AliasKeys := ColumnKeys(TitleColumn, 1) + ColumnKeys(OrganizerColumn, 1) + ColumnKeys(LocationColumn, 1) +
                     ColumnKeys(ParticipantsColumn, 1) + ColumnKeys(DescriptionColumn, 1)
  const StartAliases := ColumnKeys(StartColumn, 1)
  const EndAliases := ColumnKeys(EndColumn, 1)

  /** The keys of the payload: the base keys and their aliases, with the
      start and end aliases only when those times are set. */
  function KeysOf(c: Columns): set<Field> {
    BaseKeys + AliasKeysOf(c)
  }

  function AliasKeysOf(c: Columns): set<Field> {
    AliasKeys + (if IsSet(c.startTime) then StartAliases else {}) + (if IsSet(c.endTime) then EndAliases else {})
  }

  /** A time column is set exactly when the form's time is truthy. */
  lemma TimesAreSet(values: FormValues, iso: int -> string)
    ensures IsSet(ColumnsOf(values, iso).startTime) == Truthy(StartTimeOf(values, iso))
    ensures IsSet(ColumnsOf(values, iso).endTime) == Truthy(EndTimeOf(values, iso))
  {
  }

  /** Each key of `keys` carrying the value of its column. */
  function Fill(c: Columns, keys: set<Field>): Payload {
    map k | k in keys :: c.At(k.column)
  }

  /** The payload `buildEventPayload` is meant to send: every base key and
      every alias holds its column's value. */
  function PayloadOf(values: FormValues, iso: int -> string): Payload {
    var c := ColumnsOf(values, iso);
    Fill(c, KeysOf(c))
  }

  // ------------------------------------------------------------ as written

  /** The base record as written. */
  function BaseRecord(c: Columns): (r: Payload)
    ensures r == Fill(c, BaseKeys)
  {
    map[
      Title := c.title,
      Type := c.kind,
      Status := c.status,
      Organizer := c.organizer,
      Location := c.location,
      Participants := c.participants,
      Description := c.description,
      StartTime := c.startTime,
      EndTime := c.endTime]
  }

  /** The alias literal, written group by group: each alias carries the
      value of the field it stands for. */
  function AliasRecord(c: Columns): (r: Payload)
    ensures r == Fill(c, AliasKeys)
  {
    var t, o, l, p, d :=
      ColumnKeys(TitleColumn, 1), ColumnKeys(OrganizerColumn, 1), ColumnKeys(LocationColumn, 1),
      ColumnKeys(ParticipantsColumn, 1), ColumnKeys(DescriptionColumn, 1);
    FillUnion(c, t, o);
    FillUnion(c, t + o, l);
    FillUnion(c, t + o + l, p);
    FillUnion(c, t + o + l + p, d);
    TitleAliasRecord(c) + OrganizerAliasRecord(c) + LocationAliasRecord(c) +
    ParticipantAliasRecord(c) + DescriptionAliasRecord(c)
  }

  function TitleAliasRecord(c: Columns): (r: Payload)
    ensures r == Fill(c, ColumnKeys(TitleColumn, 1))
  {
    map[Name := c.title]
  }

  function OrganizerAliasRecord(c: Columns): (r: Payload)
    ensures r == Fill(c, ColumnKeys(OrganizerColumn, 1))
  {
    map[
      HostKey := c.organizer,
      Organiser := c.organizer,
      OrganizerName := c.organizer,
      OrganiserName := c.organizer,
      OrganizedBy := c.organizer]
  }

  function LocationAliasRecord(c: Columns): (r: Payload)
    ensures r == Fill(c, ColumnKeys(LocationColumn, 1))
  {
    map[
      Venue := c.location,
      Address := c.location,
      AddressLine := c.location,
      City := c.location,
      CityName := c.location,
      PlaceName := c.location]
  }

  function ParticipantAliasRecord(c: Columns): (r: Payload)
    ensures r == Fill(c, ColumnKeys(ParticipantsColumn, 1))
  {
    map[
      AttendeeCount := c.participants,
      Attendees := c.participants,
      Capacity := c.participants,
      RegistrationCount := c.participants,
      ParticipantCount := c.participants,
      ExpectedParticipants := c.participants,
      ExpectedAttendees := c.participants,
      MaxParticipants := c.participants]
  }

  function DescriptionAliasRecord(c: Columns): (r: Payload)
    ensures r == Fill(c, ColumnKeys(DescriptionColumn, 1))
  {
    map[
      Summary := c.description,
      Details := c.description,
      LongDescription := c.description,
      Overview := c.description]
  }

  /** Spreading one filled record over another fills the union of keys. */
  lemma FillUnion(c: Columns, a: set<Field>, b: set<Field>)
    ensures Fill(c, a) + Fill(c, b) == Fill(c, a + b)
  {
  }

  /** Setting the start aliases to the start time fills them too. */
  lemma FillStartAliases(c: Columns, keys: set<Field>)
    ensures Fill(c, keys)[Start_time := c.startTime][StartAt := c.startTime][Start_at := c.startTime]
      [Start := c.startTime][BeginAt := c.startTime][Begin_at := c.startTime][Begin := c.startTime]
      == Fill(c, keys + StartAliases)
  {
  }

  /** Setting the end aliases to the end time fills them too. */
  lemma FillEndAliases(c: Columns, keys: set<Field>)
    ensures Fill(c, keys)[End_time := c.endTime][EndAt := c.endTime][End_at := c.endTime]
      [End := c.endTime][FinishAt := c.endTime][Finish_at := c.endTime][Finish := c.endTime]
      == Fill(c, keys + EndAliases)
  {
  }

  /** `buildEventPayload`: the base record, the alias record extended in
      place with the start and end aliases when those times are set, and
      the aliases spread over the base. */
  method BuildEventPayload(values: FormValues, iso: int -> string) returns (payload: Payload)
    ensures payload == PayloadOf(values, iso)
  {
    var c := ColumnsOf(values, iso);
    var base := BaseRecord(c);
    var aliases := AliasRecord(c);
    TimesAreSet(values, iso);
    ghost var keys := AliasKeys;
    if Truthy(StartTimeOf(values, iso)) {
      FillStartAliases(c, keys);
      var t := c.startTime;
      aliases := aliases[Start_time := t];
      aliases := aliases[StartAt := t];
      aliases := aliases[Start_at := t];
      aliases := aliases[Start := t];
      aliases := aliases[BeginAt := t];
      aliases := aliases[Begin_at := t];
      aliases := aliases[Begin := t];
      keys := keys + StartAliases;
    }
    if Truthy(EndTimeOf(values, iso)) {
      FillEndAliases(c, keys);
      var t := c.endTime;
      aliases := aliases[End_time := t];
      aliases := aliases[EndAt := t];
      aliases := aliases[End_at := t];
      aliases := aliases[End := t];
      aliases := aliases[FinishAt := t];
      aliases := aliases[Finish_at := t];
      aliases := aliases[Finish := t];
      keys := keys + EndAliases;
    }
    assert keys == AliasKeysOf(c);
    FillUnion(c, BaseKeys, keys);
    payload := base + aliases;
  }

  // ------------------------------------------------------------ properties

  /** Every participant key is sent with the count, 0 when the form left
      it empty. */
  lemma ParticipantsFanOut(values: FormValues, iso: int -> string, i: nat)
    requires i < |ParticipantNames|
    ensures Field(ParticipantsColumn, i) in PayloadOf(values, iso)
    ensures PayloadOf(values, iso)[Field(ParticipantsColumn, i)] == Some(JNum(values.participants.GetOr(0)))
  {
    assert i == 0 || Field(ParticipantsColumn, i) in ColumnKeys(ParticipantsColumn, 1);
  }

  /** A start alias is sent exactly when the start time is truthy. */
  lemma StartAliasSentIffSet(values: FormValues, iso: int -> string, i: nat)
    requires 1 <= i < |StartNames|
    ensures Field(StartColumn, i) in PayloadOf(values, iso) <==> Truthy(StartTimeOf(values, iso))
  {
    TimesAreSet(values, iso);
    assert Field(StartColumn, i) in StartAliases;
  }

  /** An end alias is sent exactly when the end time is truthy. */
  lemma EndAliasSentIffSet(values: FormValues, iso: int -> string, i: nat)
    requires 1 <= i < |EndNames|
    ensures Field(EndColumn, i) in PayloadOf(values, iso) <==> Truthy(EndTimeOf(values, iso))
  {
    TimesAreSet(values, iso);
    assert Field(EndColumn, i) in EndAliases;
  }

  /** Spreading the aliases over the base record never overwrites a base
      key: no alias is a base key, so every base key keeps the value the
      base record gives it. */
  lemma BaseKeysKept(values: FormValues, iso: int -> string, f: Field)
    requires f in BaseKeys
    ensures BaseKeys !! AliasKeysOf(ColumnsOf(values, iso))
    ensures f in PayloadOf(values, iso) && PayloadOf(values, iso)[f] == BaseRecord(ColumnsOf(values, iso))[f]
  {
  }

  // ------------------------------------------------------------ JSON names

  /** The names within a column are distinct. */
  lemma NamesDistinct(col: Column, i: nat, j: nat)
    requires i < j < |Names(col)|
    ensures Names(col)[i] != Names(col)[j]
  {
  }

  /** The position of a column in the payload's order. */
  function Rank(col: Column): nat {
    match col
    case TitleColumn => 0
    case TypeColumn => 1
    case StatusColumn => 2
    case OrganizerColumn => 3
    case LocationColumn => 4
    case ParticipantsColumn => 5
    case DescriptionColumn => 6
    case StartColumn => 7
    case EndColumn => 8
  }

  lemma TitleNamesApart(b: Field)
    requires IsKey(b) && Rank(b.column) > 0
    ensures forall j :: 0 <= j < |TitleNames| ==> TitleNames[j] != KeyName(b)
  {
  }

  lemma TypeNamesApart(b: Field)
    requires IsKey(b) && Rank(b.column) > 1
    ensures forall j :: 0 <= j < |TypeNames| ==> TypeNames[j] != KeyName(b)
  {
  }

  lemma StatusNamesApart(b: Field)
    requires IsKey(b) && Rank(b.column) > 2
    ensures forall j :: 0 <= j < |StatusNames| ==> StatusNames[j] != KeyName(b)
  {
  }

  lemma OrganizerNamesApart(b: Field)
    requires IsKey(b) && Rank(b.column) > 3
    ensures forall j :: 0 <= j < |OrganizerNames| ==> OrganizerNames[j] != KeyName(b)
  {
  }

  lemma LocationNamesApart(b: Field)
    requires IsKey(b) && Rank(b.column) > 4
    ensures forall j :: 0 <= j < |LocationNames| ==> LocationNames[j] != KeyName(b)
  {
  }

  lemma ParticipantNamesApart(b: Field)
    requires IsKey(b) && Rank(b.column) > 5
    ensures forall j :: 0 <= j < |ParticipantNames| ==> ParticipantNames[j] != KeyName(b)
  {
  }

  lemma DescriptionNamesApart(b: Field)
    requires IsKey(b) && Rank(b.column) > 6
    ensures forall j :: 0 <= j < |DescriptionNames| ==> DescriptionNames[j] != KeyName(b)
  {
  }

  lemma StartNamesApart(b: Field)
    requires IsKey(b) && Rank(b.column) > 7
    ensures forall j :: 0 <= j < |StartNames| ==> StartNames[j] != KeyName(b)
  {
  }

  /** A name of a column is no name of a later column. */
  lemma NamesApartOrdered(a: Field, b: Field)
    requires IsKey(a) && IsKey(b) && Rank(a.column) < Rank(b.column)
    ensures KeyName(a) != KeyName(b)
  {
    match a.column
    case TitleColumn => TitleNamesApart(b);
    case TypeColumn => TypeNamesApart(b);
    case StatusColumn => StatusNamesApart(b);
    case OrganizerColumn => OrganizerNamesApart(b);
    case LocationColumn => LocationNamesApart(b);
    case ParticipantsColumn => ParticipantNamesApart(b);
    case DescriptionColumn => DescriptionNamesApart(b);
    case StartColumn => StartNamesApart(b);
  }

  /** Distinct keys have distinct JSON names: no alias is written under
      the name of a base key or of another alias, so the payload holds one
      entry per JSON key. */
  lemma KeyNameInjective(a: Field, b: Field)
    requires IsKey(a) && IsKey(b) && KeyName(a) == KeyName(b)
    ensures a == b
  {
    if Rank(a.column) < Rank(b.column) {
      NamesApartOrdered(a, b);
    } else if Rank(b.column) < Rank(a.column) {
      NamesApartOrdered(b, a);
    } else if a.alias < b.alias {
      NamesDistinct(a.column, a.alias, b.alias);
    } else if b.alias < a.alias {
      NamesDistinct(a.column, b.alias, a.alias);
    }
  }
}
