/** The `Footprinted::Footprint` record: its attributes, the validation
    and callback pipeline that `create!` runs (default `occurred_at`,
    presence validations, geolocation enrichment), the table it is stored
    in, and its query scopes and aggregates. */
module Footprints {
  import opened Common
  import opened Geo
  import opened Attributes
  import Query

  /** The attributes of a footprint that has not been saved. */
  datatype Draft = Draft(
    trackable: Ref,
    performer: Option<Ref>,
    ip: Option<string>,
    eventType: Option<string>,
    metadata: Value,
    occurredAt: Option<Time>,
    geo: Location)

  /** `trackable.footprints.new`: column defaults, owner already set. */
  function NewDraft(owner: Ref): Draft {
    Draft(owner, None, None, None, Json(EmptyDocument), None, NoLocation)
  }

  /** The kind of each attribute of the `footprints` table this model
      covers; `None` for a name the record has no writer for. */
  function ColumnKind(name: string): Option<Kind> {
    if name in {"ip", "event_type", "country_code", "country_name", "city", "region", "continent", "timezone"}
    then Some(TextKind)
    else if name == "metadata" then Some(JsonKind)
    else if name == "occurred_at" then Some(TimeKind)
    else if name == "performer" then Some(RefKind)
    else if name == "latitude" || name == "longitude" then Some(NumberKind)
    else None
  }

  /** Whether the writer for `name` exists and takes `v`. */
  predicate Fits(name: string, v: Value) {
    ColumnKind(name).Some? && Accepts(ColumnKind(name).value, v)
  }

  /** The value a draft holds for an attribute name; `None` when the
      record has no attribute of that name. Every value held is of its
      column's kind. */
  function Column(d: Draft, name: string): (r: Option<Value>)
    ensures r.Some? <==> ColumnKind(name).Some?
    ensures r.Some? ==> Accepts(ColumnKind(name).value, r.value)
  {
    if name == "ip" then Some(TextValue(d.ip))
    else if name == "event_type" then Some(TextValue(d.eventType))
    else if name == "metadata" then Some(d.metadata)
    else if name == "occurred_at" then Some(TimeValue(d.occurredAt))
    else if name == "performer" then Some(RefValue(d.performer))
    else if name == "country_code" then Some(TextValue(d.geo.countryCode))
    else if name == "country_name" then Some(TextValue(d.geo.countryName))
    else if name == "city" then Some(TextValue(d.geo.city))
    else if name == "region" then Some(TextValue(d.geo.region))
    else if name == "continent" then Some(TextValue(d.geo.continent))
    else if name == "timezone" then Some(TextValue(d.geo.timezone))
    else if name == "latitude" then Some(NumberValue(d.geo.latitude))
    else if name == "longitude" then Some(NumberValue(d.geo.longitude))
    else None
  }

  function AssignText(d: Draft, name: string, v: Value): Result<Draft, Error> {
    var c := CastText(name, v);
    if c.Failure? then Failure(c.error)
    else if name == "ip" then Success(d.(ip := c.value))
    else if name == "event_type" then Success(d.(eventType := c.value))
    else if name == "country_code" then Success(d.(geo := d.geo.(countryCode := c.value)))
    else if name == "country_name" then Success(d.(geo := d.geo.(countryName := c.value)))
    else if name == "city" then Success(d.(geo := d.geo.(city := c.value)))
    else if name == "region" then Success(d.(geo := d.geo.(region := c.value)))
    else if name == "continent" then Success(d.(geo := d.geo.(continent := c.value)))
    else if name == "timezone" then Success(d.(geo := d.geo.(timezone := c.value)))
    else Failure(UnknownAttribute(name))
  }

  /** One `name=` writer call of mass assignment. */
  function Assign(d: Draft, name: string, v: Value): (r: Result<Draft, Error>)
    ensures r.Success? ==> Column(r.value, name) == Some(v)
    ensures r.Success? ==> r.value.trackable == d.trackable
    ensures r.Success? ==> forall n :: n != name ==> Column(r.value, n) == Column(d, n)
    ensures r.Success? <==> Fits(name, v)
    ensures r.Failure? ==> r.error == (if ColumnKind(name).None? then UnknownAttribute(name) else TypeMismatch(name))
  {
    if name == "metadata" then Success(d.(metadata := v))
    else if name == "occurred_at" then
      var c := CastTime(name, v);
      if c.Failure? then Failure(c.error) else Success(d.(occurredAt := c.value))
    else if name == "performer" then
      var c := CastRef(name, v);
      if c.Failure? then Failure(c.error) else Success(d.(performer := c.value))
    else if name == "latitude" then
      var c := CastNumber(name, v);
      if c.Failure? then Failure(c.error) else Success(d.(geo := d.geo.(latitude := c.value)))
    else if name == "longitude" then
      var c := CastNumber(name, v);
      if c.Failure? then Failure(c.error) else Success(d.(geo := d.geo.(longitude := c.value)))
    else if Column(d, name).None? then Failure(UnknownAttribute(name))
    else AssignText(d, name, v)
  }

  /** Mass assignment of an attribute hash, in hash order: it succeeds
      exactly when every entry fits its column. */
  function AssignAll(d: Draft, h: Hash): (r: Result<Draft, Error>)
    ensures r.Success? ==> r.value.trackable == d.trackable
    ensures r.Success? <==> forall i :: 0 <= i < |h| ==> Fits(h[i].0, h[i].1)
    ensures r.Failure? ==> r.error.UnknownAttribute? || r.error.TypeMismatch?
    decreases h
  {
    if h == [] then Success(d)
    else
      var step := Assign(d, h[0].0, h[0].1);
      if step.Failure? then Failure(step.error)
      else
        assert forall i :: 1 <= i < |h| ==> h[i] == h[1..][i - 1];
        AssignAll(step.value, h[1..])
  }

  /** Entry `i` is the first of `h` that does not fit its column. */
  ghost predicate FirstMisfit(h: Hash, i: int)
    requires 0 <= i < |h|
  {
    !Fits(h[i].0, h[i].1) && forall j :: 0 <= j < i ==> Fits(h[j].0, h[j].1)
  }

  /** The first entry that does not fit raises: `UnknownAttributeError`
      for a name with no writer, a type error otherwise. */
  lemma {:induction false} FirstMisfitRaises(d: Draft, h: Hash, i: int)
    requires 0 <= i < |h| && FirstMisfit(h, i)
    ensures AssignAll(d, h) == Failure(if ColumnKind(h[i].0).None? then UnknownAttribute(h[i].0) else TypeMismatch(h[i].0))
    decreases i
  {
    if i > 0 {
      var step := Assign(d, h[0].0, h[0].1);
      assert FirstMisfit(h[1..], i - 1) by {
        assert forall j :: 0 <= j < i - 1 ==> h[1..][j] == h[j + 1];
      }
      FirstMisfitRaises(step.value, h[1..], i - 1);
    }
  }

  /** After mass assignment of a hash with distinct keys, every attribute
      named in the hash holds exactly the hash's value and every other
      attribute keeps its value. */
  lemma {:induction false} AssignAllStores(d: Draft, h: Hash, e: Draft)
    requires UniqueKeys(h)
    requires AssignAll(d, h) == Success(e)
    ensures forall n :: Get(h, n).Some? ==> Column(e, n) == Get(h, n)
    ensures forall n :: Get(h, n).None? ==> Column(e, n) == Column(d, n)
    decreases h
  {
    if h != [] {
      var step := Assign(d, h[0].0, h[0].1);
      AssignAllStores(step.value, h[1..], e);
      GetAbsent(h[1..], h[0].0);
    }
  }

  /** One attribute after mass assignment: the hash's value when the
      hash names it, the previous value otherwise. */
  lemma AssignAllStoresAt(d: Draft, h: Hash, e: Draft, n: string)
    requires UniqueKeys(h)
    requires AssignAll(d, h) == Success(e)
    ensures Column(e, n) == if Get(h, n).Some? then Get(h, n) else Column(d, n)
  {
    AssignAllStores(d, h, e);
  }

  /** `validates :ip, :event_type, :occurred_at, presence: true`. */
  predicate IsValid(d: Draft) {
    Present(d.ip) && Present(d.eventType) && d.occurredAt.Some?
  }

  /** `before_validation :set_occurred_at`: `occurred_at ||= now`. */
  function WithDefaultOccurredAt(d: Draft, now: Time): Draft {
    if d.occurredAt.None? then d.(occurredAt := Some(now)) else d
  }

  /** The default only fills a nil `occurred_at`, so the presence check
      on `occurred_at` can never be what makes a record invalid. */
  lemma DefaultOnlyFillsNil(d: Draft, now: Time)
    ensures var v := WithDefaultOccurredAt(d, now);
      && (d.occurredAt.Some? ==> v == d)
      && (d.occurredAt.None? ==> v == d.(occurredAt := Some(now)))
      && (IsValid(v) <==> Present(d.ip) && Present(d.eventType))
  {
  }

  /** The default touches no attribute but `occurred_at`. */
  lemma DefaultKeepsOtherColumns(d: Draft, now: Time, n: string)
    requires n != "occurred_at"
    ensures Column(WithDefaultOccurredAt(d, now), n) == Column(d, n)
  {
  }

  /** A nil, empty or white-space-only address or event type fails
      validation, whatever `occurred_at` holds. */
  lemma BlankIsInvalid(d: Draft, now: Time)
    requires !Present(d.ip) || !Present(d.eventType)
    ensures !IsValid(WithDefaultOccurredAt(d, now))
  {
  }

  /** The guard of `set_geolocation_data`. */
  predicate SkipsGeolocation(d: Draft) {
    Present(d.geo.countryCode) || !Present(d.ip)
  }

  /** `before_save :set_geolocation_data`: one resolver call whose result
      sets all eight fields; a raised error leaves the record as it was. */
  function Enriched(d: Draft, request: Option<Request>, b: Backend): (r: Draft)
    ensures r == d.(geo := r.geo)
  {
    if SkipsGeolocation(d) then d
    else match Attempt(b, d.ip.value, request)
      case Located(loc) => d.(geo := loc)
      case Raised => d
  }

  /** The calls `set_geolocation_data` makes to the resolver. */
  function GeoCalls(d: Draft, request: Option<Request>, b: Backend): seq<Call> {
    if SkipsGeolocation(d) || !b.defined then [] else [Call(d.ip.value, request)]
  }

  /** A present country code means the resolver is never called and every
      supplied geographic field is kept. */
  lemma ExplicitCountryWins(d: Draft, request: Option<Request>, b: Backend)
    requires Present(d.geo.countryCode)
    ensures Enriched(d, request, b) == d
    ensures GeoCalls(d, request, b) == []
  {
  }

  /** A blank address is never enriched. */
  lemma BlankIpNotEnriched(d: Draft, request: Option<Request>, b: Backend)
    requires !Present(d.ip)
    ensures Enriched(d, request, b) == d
    ensures GeoCalls(d, request, b) == []
  {
  }

  /** After enrichment the geographic fields are either untouched or all
      eight come from one successful lookup, nils included. */
  lemma GeoFromOneLookup(d: Draft, request: Option<Request>, b: Backend)
    ensures var r := Enriched(d, request, b);
      || r == d
      || (!SkipsGeolocation(d) && Attempt(b, d.ip.value, request) == Located(r.geo) && r == d.(geo := r.geo))
  {
  }

  /** A successful lookup is made once, with the address and the request
      context as given, and its result is copied field by field. */
  lemma LookupCopiesResult(d: Draft, request: Option<Request>, b: Backend, loc: Location)
    requires !SkipsGeolocation(d)
    requires Attempt(b, d.ip.value, request) == Located(loc)
    ensures Enriched(d, request, b) == d.(geo := loc)
    ensures GeoCalls(d, request, b) == [Call(d.ip.value, request)]
  {
  }

  /** A failing resolver changes nothing, and the record stays valid. */
  lemma FailedLookupChangesNothing(d: Draft, request: Option<Request>, b: Backend)
    requires !SkipsGeolocation(d) && Attempt(b, d.ip.value, request) == Raised
    ensures Enriched(d, request, b) == d
  {
  }

  /** A stored footprint row. */
  datatype Footprint = Footprint(
    id: nat,
    trackable: Ref,
    performer: Option<Ref>,
    ip: string,
    eventType: string,
    metadata: Value,
    occurredAt: Time,
    geo: Location,
    createdAt: Time)

  /** The attributes a stored row was saved from. */
  function AsDraft(f: Footprint): Draft {
    Draft(f.trackable, f.performer, Some(f.ip), Some(f.eventType), f.metadata, Some(f.occurredAt), f.geo)
  }

  /** The row inserted for a valid draft: exactly its attributes, plus the
      id and `created_at` the store assigns. */
  function Persist(d: Draft, id: nat, now: Time): (f: Footprint)
    requires IsValid(d)
    ensures AsDraft(f) == d && f.id == id && f.createdAt == now
  {
    Footprint(id, d.trackable, d.performer, d.ip.value, d.eventType.value, d.metadata,
              d.occurredAt.value, d.geo, now)
  }

  /** What every stored row satisfies. */
  predicate Stored(f: Footprint) {
    !Blank(f.ip) && !Blank(f.eventType)
  }

  /** An unsaved `Footprint` instance. `request` is the transient
      `@_request` the enrichment step hands to the resolver. */
  class FootprintRecord {
    var trackable: Ref
    var performer: Option<Ref>
    var ip: Option<string>
    var eventType: Option<string>
    var metadata: Value
    var occurredAt: Option<Time>
    var countryCode: Option<string>
    var countryName: Option<string>
    var city: Option<string>
    var region: Option<string>
    var continent: Option<string>
    var timezone: Option<string>
    var latitude: Option<real>
    var longitude: Option<real>
    var request: Option<Request>
    var id: Option<nat>

    function Attributes(): Draft
      reads this
    {
      Draft(trackable, performer, ip, eventType, metadata, occurredAt,
            Location(countryCode, countryName, city, region, continent, timezone, latitude, longitude))
    }

    constructor (d: Draft, request: Option<Request>)
      ensures Attributes() == d && this.request == request && id == None
    {
      trackable, performer, ip, eventType := d.trackable, d.performer, d.ip, d.eventType;
      metadata, occurredAt := d.metadata, d.occurredAt;
      countryCode, countryName, city, region := d.geo.countryCode, d.geo.countryName, d.geo.city, d.geo.region;
      continent, timezone := d.geo.continent, d.geo.timezone;
      latitude, longitude := d.geo.latitude, d.geo.longitude;
      this.request := request;
      id := None;
    }

    method SetOccurredAt(now: Time)
      modifies this
      ensures Attributes() == WithDefaultOccurredAt(old(Attributes()), now)
      ensures request == old(request) && id == old(id)
    {
      if occurredAt.None? {
        occurredAt := Some(now);
      }
    }

    /** `valid?`: runs the before-validation callback, then the checks. */
    method Validate(now: Time) returns (valid: bool)
      modifies this
      ensures Attributes() == WithDefaultOccurredAt(old(Attributes()), now)
      ensures valid == IsValid(Attributes())
      ensures request == old(request) && id == old(id)
    {
      SetOccurredAt(now);
      valid := IsValid(Attributes());
    }

    method SetGeolocationData(resolver: Trackdown)
      modifies this, resolver`calls
      ensures Attributes() == Enriched(old(Attributes()), request, resolver.backend)
      ensures resolver.calls == old(resolver.calls) + GeoCalls(old(Attributes()), request, resolver.backend)
      ensures request == old(request) && id == old(id)
    {
      // The source returns early when a country is already present or the ip is blank.
      if SkipsGeolocation(Attributes()) {
        return;
      }
      var location := resolver.Locate(ip.value, request);
      if location.Located? {
        var loc := location.loc;
        countryCode, countryName, city, region := loc.countryCode, loc.countryName, loc.city, loc.region;
        continent, timezone, latitude, longitude := loc.continent, loc.timezone, loc.latitude, loc.longitude;
      }
      // A raised lookup is rescued and logged; no field changes.
    }
  }

  /** The `footprints` table. */
  class FootprintTable {
    var rows: seq<Footprint>
    var nextId: nat

    ghost predicate Valid()
      reads this
    {
      && (forall i :: 0 <= i < |rows| ==> Stored(rows[i]) && rows[i].id < nextId)
      && (forall i, j :: 0 <= i < j < |rows| ==> rows[i].id < rows[j].id)
    }

    constructor ()
      ensures Valid() && rows == [] && nextId == 1
    {
      rows, nextId := [], 1;
    }

    /** `create!`: validation (with its default), which raises
        `RecordInvalid` and stores nothing when it fails; otherwise the
        enrichment step and the insert of one new row. */
    method CreateBang(rec: FootprintRecord, now: Time, resolver: Trackdown) returns (r: Result<Footprint, Error>)
      requires Valid() && rec.id.None?
      modifies this, rec, resolver`calls
      ensures Valid()
      ensures var validated := WithDefaultOccurredAt(old(rec.Attributes()), now);
        if IsValid(validated) then
          var saved := Enriched(validated, old(rec.request), resolver.backend);
          && IsValid(saved)
          && r == Success(Persist(saved, old(nextId), now))
          && rows == old(rows) + [r.value]
          && nextId == old(nextId) + 1
          && rec.Attributes() == saved && rec.id == Some(old(nextId))
          && resolver.calls == old(resolver.calls) + GeoCalls(validated, old(rec.request), resolver.backend)
        else
          && r == Failure(RecordInvalid)
          && rows == old(rows) && nextId == old(nextId)
          && rec.Attributes() == validated && rec.id == None
          && resolver.calls == old(resolver.calls)
    {
      var valid := rec.Validate(now);
      if !valid {
        return Failure(RecordInvalid);
      }
      rec.SetGeolocationData(resolver);
      var row := Persist(rec.Attributes(), nextId, now);
      rows := rows + [row];
      rec.id := Some(nextId);
      nextId := nextId + 1;
      r := Success(row);
    }
  }

  /** `by_event(type)`. */
  function ByEvent(rows: seq<Footprint>, eventType: string): (r: seq<Footprint>)
    ensures forall f :: f in r <==> f in rows && f.eventType == eventType
  {
    Query.Where(rows, (f: Footprint) => f.eventType == eventType)
  }

  /** `by_country(code)`; a nil code selects the rows without one. */
  function ByCountry(rows: seq<Footprint>, code: Option<string>): (r: seq<Footprint>)
    ensures forall f :: f in r <==> f in rows && f.geo.countryCode == code
  {
    Query.Where(rows, (f: Footprint) => f.geo.countryCode == code)
  }

  /** `performed_by(performer)`; nil selects the rows without one. */
  function PerformedBy(rows: seq<Footprint>, performer: Option<Ref>): (r: seq<Footprint>)
    ensures forall f :: f in r <==> f in rows && f.performer == performer
  {
    Query.Where(rows, (f: Footprint) => f.performer == performer)
  }

  /** `between(a, b)`: `occurred_at` in the closed range. */
  function Between(rows: seq<Footprint>, from: Time, to: Time): (r: seq<Footprint>)
    ensures forall f :: f in r <==> f in rows && from <= f.occurredAt <= to
  {
    Query.Where(rows, (f: Footprint) => from <= f.occurredAt <= to)
  }

  /** `last_days(days)`: `occurred_at` no earlier than `days` days ago. */
  function LastDays(rows: seq<Footprint>, days: int, now: Time): (r: seq<Footprint>)
    ensures forall f :: f in r <==> f in rows && f.occurredAt >= now - days * SecondsPerDay
  {
    Query.Where(rows, (f: Footprint) => f.occurredAt >= now - days * SecondsPerDay)
  }

  /** `recent`: all rows, latest `occurred_at` first. */
  function Recent(rows: seq<Footprint>): (r: seq<Footprint>)
    ensures multiset(r) == multiset(rows)
    ensures forall i, j :: 0 <= i < j < |r| ==> r[i].occurredAt >= r[j].occurredAt
  {
    Query.OrderDesc(rows, (f: Footprint) => f.occurredAt)
  }

  /** Chained scopes select the rows every scope selects. */
  lemma ChainedScopes(rows: seq<Footprint>, eventType: string, code: Option<string>)
    ensures forall f :: (f in ByCountry(ByEvent(rows, eventType), code)
                         <==> f in rows && f.eventType == eventType && f.geo.countryCode == code)
  {
  }

  /** `event_types`: each event type present, once. */
  function EventTypes(rows: seq<Footprint>): (r: seq<string>)
    ensures Query.NoDuplicates(r)
    ensures forall t :: t in r <==> exists i :: 0 <= i < |rows| && rows[i].eventType == t
  {
    Query.Distinct(Query.Pluck(rows, (f: Footprint) => f.eventType))
  }

  /** `countries`: each non-nil country code present, once. */
  function Countries(rows: seq<Footprint>): (r: seq<string>)
    ensures Query.NoDuplicates(r)
    ensures forall c :: c in r <==> exists i :: 0 <= i < |rows| && rows[i].geo.countryCode == Some(c)
  {
    var codes := Query.Pluck(rows, (f: Footprint) => f.geo.countryCode);
    assert forall c :: Some(c) in codes <==> exists i :: 0 <= i < |rows| && rows[i].geo.countryCode == Some(c) by {
      forall c ensures Some(c) in codes ==> exists i :: 0 <= i < |rows| && rows[i].geo.countryCode == Some(c) {
        if Some(c) in codes {
          var i :| 0 <= i < |codes| && codes[i] == Some(c);
          assert rows[i].geo.countryCode == Some(c);
        }
      }
    }
    Query.Distinct(Query.Values(codes))
  }
}
