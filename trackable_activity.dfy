/** The legacy `Footprinted::TrackableActivity` record: its attributes,
    validations, the `before_save` enrichment with its guard, raise and
    rescue chain, the table it is stored in, and its scopes and
    aggregates, which are keyed on `created_at`. */
module TrackableActivities {
  import opened Common
  import opened Geo
  import opened Attributes
  import Query
  import Footprints

  /** The attributes of an activity that has not been saved. */
  datatype ActivityDraft = ActivityDraft(
    trackable: Option<Ref>,
    performer: Option<Ref>,
    ip: Option<string>,
    activityType: Option<string>,
    country: Option<string>,
    city: Option<string>)

  /** `TrackableActivity.new`: every column nil. */
  const EmptyActivity := ActivityDraft(None, None, None, None, None, None)

  /** The kind of each attribute of the `trackable_activities` table this
      model covers; `None` for a name the record has no writer for. */
  function ColumnKind(name: string): Option<Kind> {
    if name in {"ip", "activity_type", "country", "city"} then Some(TextKind)
    else if name == "trackable" || name == "performer" then Some(RefKind)
    else None
  }

  /** Whether the writer for `name` exists and takes `v`. */
  predicate Fits(name: string, v: Value) {
    ColumnKind(name).Some? && Accepts(ColumnKind(name).value, v)
  }

  /** The value an activity holds for an attribute name; `None` when the
      record has no attribute of that name. Every value held is of its
      column's kind. */
  function Column(a: ActivityDraft, name: string): (r: Option<Value>)
    ensures r.Some? <==> ColumnKind(name).Some?
    ensures r.Some? ==> Accepts(ColumnKind(name).value, r.value)
  {
    if name == "ip" then Some(TextValue(a.ip))
    else if name == "activity_type" then Some(TextValue(a.activityType))
    else if name == "country" then Some(TextValue(a.country))
    else if name == "city" then Some(TextValue(a.city))
    else if name == "trackable" then Some(RefValue(a.trackable))
    else if name == "performer" then Some(RefValue(a.performer))
    else None
  }

  /** One `name=` writer call of mass assignment. */
  function Assign(a: ActivityDraft, name: string, v: Value): (r: Result<ActivityDraft, Error>)
    ensures r.Success? ==> Column(r.value, name) == Some(v)
    ensures r.Success? ==> forall n :: n != name ==> Column(r.value, n) == Column(a, n)
    ensures r.Success? <==> Fits(name, v)
    ensures r.Failure? ==> r.error == (if ColumnKind(name).None? then UnknownAttribute(name) else TypeMismatch(name))
  {
    if name == "trackable" || name == "performer" then
      var c := CastRef(name, v);
      if c.Failure? then Failure(c.error)
      else if name == "trackable" then Success(a.(trackable := c.value))
      else Success(a.(performer := c.value))
    else if Column(a, name).None? then Failure(UnknownAttribute(name))
    else
      var c := CastText(name, v);
      if c.Failure? then Failure(c.error)
      else if name == "ip" then Success(a.(ip := c.value))
      else if name == "activity_type" then Success(a.(activityType := c.value))
      else if name == "country" then Success(a.(country := c.value))
      else Success(a.(city := c.value))
  }

  /** Mass assignment of an attribute hash, in hash order: it succeeds
      exactly when every entry fits its column. */
  function AssignAll(a: ActivityDraft, h: Hash): (r: Result<ActivityDraft, Error>)
    ensures r.Success? <==> forall i :: 0 <= i < |h| ==> Fits(h[i].0, h[i].1)
    ensures r.Failure? ==> r.error.UnknownAttribute? || r.error.TypeMismatch?
    decreases h
  {
    if h == [] then Success(a)
    else
      var step := Assign(a, h[0].0, h[0].1);
      if step.Failure? then Failure(step.error)
      else
        assert forall i :: 1 <= i < |h| ==> h[i] == h[1..][i - 1];
        AssignAll(step.value, h[1..])
  }

  /** A name no activity column has makes mass assignment raise
      `UnknownAttributeError` when it is reached. */
  lemma UnknownNameRaises(a: ActivityDraft, name: string, v: Value, rest: Hash)
    requires Column(a, name).None?
    ensures AssignAll(a, [(name, v)] + rest) == Failure(UnknownAttribute(name))
  {
    assert ([(name, v)] + rest)[0] == (name, v);
  }

  /** `validates :ip, :activity_type, :trackable, presence: true`. */
  predicate IsValid(a: ActivityDraft) {
    Present(a.ip) && Present(a.activityType) && a.trackable.Some?
  }

  /** A nil or blank address or activity type, or a missing owner, fails
      validation; so does the new, empty activity. */
  lemma BlankIsInvalid(a: ActivityDraft)
    requires !Present(a.ip) || !Present(a.activityType) || a.trackable.None?
    ensures !IsValid(a)
    ensures !IsValid(EmptyActivity)
  {
  }

  /** Whether `set_geolocation_data` reaches `Trackdown.locate`: the ip is
      present, the constant is defined and the database exists. A missing
      resolver or database raises `Footprinted::Error`, which the
      callback's own rescue swallows. */
  predicate Reaches(a: ActivityDraft, b: Backend) {
    Present(a.ip) && b.defined && b.databaseExists
  }

  /** `before_save :set_geolocation_data`: `country` and `city` from one
      lookup, whatever they held before; no change when the lookup is not
      reached or raises. */
  function Enriched(a: ActivityDraft, b: Backend): (r: ActivityDraft)
    ensures r == a.(country := r.country, city := r.city)
  {
    if !Reaches(a, b) then a
    else match b.answer(a.ip.value, None)
      case Located(loc) => a.(country := loc.countryCode, city := loc.city)
      case Raised => a
  }

  /** The calls `set_geolocation_data` makes to `Trackdown.locate`. */
  function GeoCalls(a: ActivityDraft, b: Backend): seq<Call> {
    if Reaches(a, b) then [Call(a.ip.value, None)] else []
  }

  /** A successful lookup overwrites `country` and `city`, even when a
      country was already set; the lookup has no request context. */
  lemma LookupOverwrites(a: ActivityDraft, b: Backend, loc: Location)
    requires Reaches(a, b) && b.answer(a.ip.value, None) == Located(loc)
    ensures Enriched(a, b) == a.(country := loc.countryCode, city := loc.city)
    ensures GeoCalls(a, b) == [Call(a.ip.value, None)]
  {
  }

  /** A blank ip, a missing resolver, a missing database or a raising
      lookup leave the record as it was. */
  lemma UnreachedOrRaisedChangesNothing(a: ActivityDraft, b: Backend)
    requires !Present(a.ip) || !b.defined || !b.databaseExists || b.answer(a.ip.value, None) == Raised
    ensures Enriched(a, b) == a
    ensures !Present(a.ip) || !b.defined || !b.databaseExists ==> GeoCalls(a, b) == []
  {
  }

  /** Enrichment never touches the validated columns, so a valid activity
      stays valid. */
  lemma EnrichedKeepsValidity(a: ActivityDraft, b: Backend)
    ensures IsValid(Enriched(a, b)) <==> IsValid(a)
  {
  }

  /** The two records disagree about a country that is already set: with
      the same resolver answer, the footprint keeps its country and makes
      no call, while the activity takes the looked-up one. */
  lemma EnrichmentRulesDiffer(d: Footprints.Draft, b: Backend, loc: Location)
    requires Present(d.ip) && Present(d.geo.countryCode)
    requires b.defined && b.databaseExists && b.answer(d.ip.value, None) == Located(loc)
    requires loc.countryCode != d.geo.countryCode
    ensures Footprints.Enriched(d, None, b).geo.countryCode == d.geo.countryCode
    ensures Footprints.GeoCalls(d, None, b) == []
    ensures var a := ActivityDraft(Some(d.trackable), d.performer, d.ip, d.eventType, d.geo.countryCode, d.geo.city);
      && Enriched(a, b).country == loc.countryCode
      && Enriched(a, b).country != Footprints.Enriched(d, None, b).geo.countryCode
      && GeoCalls(a, b) == [Call(d.ip.value, None)]
  {
    Footprints.ExplicitCountryWins(d, None, b);
  }

  /** A stored activity row; `created_at` is set when it is inserted. */
  datatype Activity = Activity(
    id: nat,
    trackable: Ref,
    performer: Option<Ref>,
    ip: string,
    activityType: string,
    country: Option<string>,
    city: Option<string>,
    createdAt: Time)

  function AsDraft(r: Activity): ActivityDraft {
    ActivityDraft(Some(r.trackable), r.performer, Some(r.ip), Some(r.activityType), r.country, r.city)
  }

  /** The row inserted for a valid activity: exactly its attributes, plus
      the id and timestamp the store assigns. */
  function Persist(a: ActivityDraft, id: nat, now: Time): (r: Activity)
    requires IsValid(a)
    ensures AsDraft(r) == a && r.id == id && r.createdAt == now
  {
    Activity(id, a.trackable.value, a.performer, a.ip.value, a.activityType.value, a.country, a.city, now)
  }

  predicate Stored(r: Activity) {
    !Blank(r.ip) && !Blank(r.activityType)
  }

  function IdOf(r: Activity): int {
    r.id
  }

  /** An unsaved or saved `TrackableActivity` instance. */
  class ActivityRecord {
    var trackable: Option<Ref>
    var performer: Option<Ref>
    var ip: Option<string>
    var activityType: Option<string>
    var country: Option<string>
    var city: Option<string>
    var id: Option<nat>

    function Attributes(): ActivityDraft
      reads this
    {
      ActivityDraft(trackable, performer, ip, activityType, country, city)
    }

    constructor (a: ActivityDraft)
      ensures Attributes() == a && id == None
    {
      trackable, performer, ip, activityType := a.trackable, a.performer, a.ip, a.activityType;
      country, city := a.country, a.city;
      id := None;
    }

    /** `valid?`. */
    method Validate() returns (valid: bool)
      ensures valid == IsValid(Attributes())
    {
      valid := IsValid(Attributes());
    }

    method SetGeolocationData(resolver: Trackdown)
      modifies this, resolver`calls
      ensures Attributes() == Enriched(old(Attributes()), resolver.backend)
      ensures resolver.calls == old(resolver.calls) + GeoCalls(old(Attributes()), resolver.backend)
      ensures id == old(id)
    {
      if !Present(ip) {
        return;
      }
      if !resolver.backend.defined {
        // "Trackdown gem is not installed": raised, then rescued.
        return;
      }
      if !resolver.backend.databaseExists {
        // "Trackdown database not found": raised, then rescued.
        return;
      }
      var location := resolver.Locate(ip.value, None);
      if location.Located? {
        country, city := location.loc.countryCode, location.loc.city;
      }
    }
  }

  /** The `trackable_activities` table. */
  class ActivityTable {
    var rows: seq<Activity>
    var nextId: nat

    ghost predicate Valid()
      reads this
    {
      WellFormed(rows, nextId)
    }

    constructor ()
      ensures Valid() && rows == [] && nextId == 1
    {
      rows, nextId := [], 1;
    }

    /** `create`: an invalid activity is returned unsaved and the table is
        unchanged; a valid one is enriched and inserted. */
    method Create(rec: ActivityRecord, now: Time, resolver: Trackdown) returns (persisted: bool)
      requires Valid() && rec.id.None?
      modifies this, rec, resolver`calls
      ensures Valid()
      ensures persisted == IsValid(old(rec.Attributes()))
      ensures if persisted then
          var saved := Enriched(old(rec.Attributes()), resolver.backend);
          && rows == old(rows) + [Persist(saved, old(nextId), now)]
          && nextId == old(nextId) + 1
          && rec.Attributes() == saved && rec.id == Some(old(nextId))
          && resolver.calls == old(resolver.calls) + GeoCalls(old(rec.Attributes()), resolver.backend)
        else
          && rows == old(rows) && nextId == old(nextId)
          && rec.Attributes() == old(rec.Attributes()) && rec.id == None
          && resolver.calls == old(resolver.calls)
    {
      persisted := rec.Validate();
      if !persisted {
        return;
      }
      rec.SetGeolocationData(resolver);
      EnrichedKeepsValidity(old(rec.Attributes()), resolver.backend);
      rows := rows + [Persist(rec.Attributes(), nextId, now)];
      rec.id := Some(nextId);
      nextId := nextId + 1;
    }

    /** `create!`: as `create`, but an invalid activity raises. */
    method CreateBang(rec: ActivityRecord, now: Time, resolver: Trackdown) returns (r: Result<Activity, Error>)
      requires Valid() && rec.id.None?
      modifies this, rec, resolver`calls
      ensures Valid()
      ensures if IsValid(old(rec.Attributes())) then
          var saved := Enriched(old(rec.Attributes()), resolver.backend);
          && r == Success(Persist(saved, old(nextId), now))
          && rows == old(rows) + [r.value]
          && nextId == old(nextId) + 1
          && rec.Attributes() == saved && rec.id == Some(old(nextId))
          && resolver.calls == old(resolver.calls) + GeoCalls(old(rec.Attributes()), resolver.backend)
        else
          && r == Failure(RecordInvalid)
          && rows == old(rows) && nextId == old(nextId)
          && rec.Attributes() == old(rec.Attributes()) && rec.id == None
          && resolver.calls == old(resolver.calls)
    {
      var persisted := Create(rec, now, resolver);
      if !persisted {
        return Failure(RecordInvalid);
      }
      r := Success(rows[|rows| - 1]);
    }

    /** `dependent: :destroy` on the owner's `trackable_activities`: load
        the owner's activities and destroy each of them by id. */
    method DestroyOwnedBy(owner: Ref) returns (destroyed: seq<Activity>)
      requires Valid()
      modifies this
      ensures Valid() && nextId == old(nextId)
      ensures forall r :: r in destroyed <==> r in old(rows) && r.trackable == owner
      ensures forall r :: r in rows <==> r in old(rows) && r.trackable != owner
      ensures rows == Query.Where(old(rows), (r: Activity) => r.trackable != owner)
    {
      destroyed := Query.Where(rows, (r: Activity) => r.trackable == owner);
      var kept := Query.Where(rows, (r: Activity) => r.trackable != owner);
      Query.WhereKeepsIncreasing(rows, (r: Activity) => r.trackable != owner, IdOf);
      rows := DestroyEach(rows, nextId, destroyed);
      Query.IncreasingDetermined(rows, kept, IdOf);
    }
  }

  /** `each(&:destroy)` over rows loaded from the table: each destroy
      deletes one row by its id. */
  method DestroyEach(rows: seq<Activity>, ghost nextId: nat, doomed: seq<Activity>) returns (remaining: seq<Activity>)
    requires WellFormed(rows, nextId)
    requires forall x :: x in doomed ==> x in rows
    ensures WellFormed(remaining, nextId)
    ensures forall r :: r in remaining <==> r in rows && r !in doomed
  {
    remaining := rows;
    var i := 0;
    while i < |doomed|
      invariant 0 <= i <= |doomed|
      invariant WellFormed(remaining, nextId)
      invariant forall r :: r in remaining <==> r in rows && r !in doomed[..i]
    {
      DestroyStep(rows, nextId, doomed, i, remaining);
      remaining := DeleteId(remaining, doomed[i].id, nextId);
      i := i + 1;
    }
    assert doomed[..i] == doomed;
  }

  /** One turn of `each(&:destroy)`: deleting the next loaded row's id
      removes exactly that row from what is left. */
  lemma DestroyStep(rows: seq<Activity>, nextId: nat, doomed: seq<Activity>, i: nat, remaining: seq<Activity>)
    requires WellFormed(rows, nextId) && WellFormed(remaining, nextId)
    requires forall x :: x in doomed ==> x in rows
    requires i < |doomed|
    requires forall r :: r in remaining <==> r in rows && r !in doomed[..i]
    ensures forall r :: r in DeleteId(remaining, doomed[i].id, nextId) <==> r in rows && r !in doomed[..i + 1]
  {
    DeletingOne(rows, nextId, remaining, doomed[i]);
    assert doomed[..i + 1] == doomed[..i] + [doomed[i]];
  }

  /** What every state of the table satisfies: stored rows, ids below the
      next one, in increasing order. */
  ghost predicate WellFormed(rows: seq<Activity>, nextId: nat) {
    && (forall r :: r in rows ==> Stored(r) && r.id < nextId)
    && Query.Increasing(rows, IdOf)
  }

  /** `destroy` of one row: every row but the one with this id, in order. */
  function DeleteId(rows: seq<Activity>, id: nat, ghost nextId: nat): (r: seq<Activity>)
    requires WellFormed(rows, nextId)
    ensures WellFormed(r, nextId)
    ensures forall x :: x in r <==> x in rows && x.id != id
  {
    Query.WhereKeepsIncreasing(rows, (x: Activity) => x.id != id, IdOf);
    Query.Where(rows, (x: Activity) => x.id != id)
  }

  /** Within rows taken from one well-formed table, deleting by the id of
      one of its rows deletes that row and no other. */
  lemma DeletingOne(all: seq<Activity>, nextId: nat, rows: seq<Activity>, x: Activity)
    requires WellFormed(all, nextId)
    requires x in all
    requires forall r :: r in rows ==> r in all
    ensures forall r :: r in rows ==> (r.id != x.id <==> r != x)
  {
    forall r | r in rows ensures r.id != x.id <==> r != x {
      if r.id == x.id {
        SameIdSameRow(all, r, x);
      }
    }
  }

  /** Ids identify rows in a table whose ids increase. */
  lemma SameIdSameRow(rows: seq<Activity>, r: Activity, s: Activity)
    requires Query.Increasing(rows, IdOf)
    requires r in rows && s in rows && r.id == s.id
    ensures r == s
  {
    var i :| 0 <= i < |rows| && rows[i] == r;
    var j :| 0 <= j < |rows| && rows[j] == s;
    assert IdOf(rows[i]) == IdOf(rows[j]);
  }

  /** `by_activity(type)`. */
  function ByActivity(rows: seq<Activity>, activityType: string): (r: seq<Activity>)
    ensures forall x :: x in r <==> x in rows && x.activityType == activityType
  {
    Query.Where(rows, (x: Activity) => x.activityType == activityType)
  }

  /** `by_country(country)`; nil selects the rows without one. */
  function ByCountry(rows: seq<Activity>, country: Option<string>): (r: seq<Activity>)
    ensures forall x :: x in r <==> x in rows && x.country == country
  {
    Query.Where(rows, (x: Activity) => x.country == country)
  }

  /** `performed_by(performer)`; nil selects the rows without one. */
  function PerformedBy(rows: seq<Activity>, performer: Option<Ref>): (r: seq<Activity>)
    ensures forall x :: x in r <==> x in rows && x.performer == performer
  {
    Query.Where(rows, (x: Activity) => x.performer == performer)
  }

  /** `recent`: all rows, latest `created_at` first. */
  function Recent(rows: seq<Activity>): (r: seq<Activity>)
    ensures multiset(r) == multiset(rows)
    ensures forall i, j :: 0 <= i < j < |r| ==> r[i].createdAt >= r[j].createdAt
  {
    Query.OrderDesc(rows, (x: Activity) => x.createdAt)
  }

  /** `between(a, b)`: `created_at` in the closed range. */
  function Between(rows: seq<Activity>, from: Time, to: Time): (r: seq<Activity>)
    ensures forall x :: x in r <==> x in rows && from <= x.createdAt <= to
  {
    Query.Where(rows, (x: Activity) => from <= x.createdAt <= to)
  }

  /** `last_days(days)`: `created_at` no earlier than `days` days ago. */
  function LastDays(rows: seq<Activity>, days: int, now: Time): (r: seq<Activity>)
    ensures forall x :: x in r <==> x in rows && x.createdAt >= now - days * SecondsPerDay
  {
    Query.Where(rows, (x: Activity) => x.createdAt >= now - days * SecondsPerDay)
  }

  /** `activity_types`: each activity type present, once. */
  function ActivityTypes(rows: seq<Activity>): (r: seq<string>)
    ensures Query.NoDuplicates(r)
    ensures forall t :: t in r <==> exists i :: 0 <= i < |rows| && rows[i].activityType == t
  {
    Query.Distinct(Query.Pluck(rows, (x: Activity) => x.activityType))
  }

  /** `countries`: each non-nil country present, once. */
  function Countries(rows: seq<Activity>): (r: seq<string>)
    ensures Query.NoDuplicates(r)
    ensures forall c :: c in r <==> exists i :: 0 <= i < |rows| && rows[i].country == Some(c)
  {
    var codes := Query.Pluck(rows, (x: Activity) => x.country);
    assert forall c :: Some(c) in codes <==> exists i :: 0 <= i < |rows| && rows[i].country == Some(c) by {
      forall c ensures Some(c) in codes ==> exists i :: 0 <= i < |rows| && rows[i].country == Some(c) {
        if Some(c) in codes {
          var i :| 0 <= i < |codes| && codes[i] == Some(c);
          assert rows[i].country == Some(c);
        }
      }
    }
    Query.Distinct(Query.Values(codes))
  }
}
