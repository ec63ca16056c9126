/** The `Footprinted::Model` concern: the `trackable_activities`
    association every including class gets, the `has_trackable`
    declaration that registers a filtered association and a
    `track_<singular>` method, and the `track_activity` fallback. Dynamic
    method definition is held as an explicit registry. */
module TrackableConcern {
  import opened Common
  import opened Geo
  import opened Attributes
  import opened TrackableActivities
  import Query

  /** `trackable_activities`: every activity the owner has, whatever its type. */
  function OwnedActivities(rows: seq<Activity>, owner: Ref): (r: seq<Activity>)
    ensures forall x :: x in r <==> x in rows && x.trackable == owner
  {
    Query.Where(rows, (x: Activity) => x.trackable == owner)
  }

  /** The association `has_trackable(name)` declares, read for one owner:
      `None` when no association of that name was declared. */
  function View(associations: map<string, string>, association: string, owner: Ref, rows: seq<Activity>)
    : (r: Option<seq<Activity>>)
    ensures r.Some? <==> association in associations
    ensures r.Some? ==> forall x :: x in r.value <==>
      x in rows && x.trackable == owner && x.activityType == associations[association]
  {
    if association !in associations then None
    else Some(Query.Where(rows, (x: Activity) => x.trackable == owner && x.activityType == associations[association]))
  }

  /** A filtered association only shows activities the owner has. */
  lemma ViewWithinOwned(associations: map<string, string>, association: string, owner: Ref, rows: seq<Activity>)
    requires association in associations
    ensures forall x :: x in View(associations, association, owner, rows).value ==> x in OwnedActivities(rows, owner)
  {
  }

  /** Associations whose singular types differ show disjoint activities;
      associations with the same singular type show the same ones. */
  lemma ViewsDisjoint(associations: map<string, string>, a: string, b: string, owner: Ref, rows: seq<Activity>)
    requires a in associations && b in associations
    ensures associations[a] != associations[b] ==>
      forall x :: !(x in View(associations, a, owner, rows).value && x in View(associations, b, owner, rows).value)
    ensures associations[a] == associations[b] ==>
      forall x :: x in View(associations, a, owner, rows).value <==> x in View(associations, b, owner, rows).value
  {
  }

  /** The name of the method `has_trackable` defines for a singular type. */
  function TrackMethodName(singular: string): (r: string)
    ensures |r| == |singular| + 6 && r[..6] == "track_" && r[6..] == singular
  {
    "track_" + singular
  }

  /** Distinct singular types get distinct method names. */
  lemma TrackMethodNameInjective(s: string, t: string)
    requires TrackMethodName(s) == TrackMethodName(t)
    ensures s == t
  {
    assert s == TrackMethodName(s)[6..];
  }

  /** What a call to a `track_` method runs. */
  datatype Target = Fixed(activityType: string) | Fallback | NoSuchMethod

  /** A method `has_trackable` defined wins over the included
      `track_activity`; any other name is undefined. */
  function Dispatch(trackMethods: map<string, string>, selector: string): (r: Target)
    ensures r.Fixed? <==> selector in trackMethods
    ensures r.Fallback? <==> selector !in trackMethods && selector == "track_activity"
    ensures r.Fixed? ==> r.activityType == trackMethods[selector]
  {
    if selector in trackMethods then Fixed(trackMethods[selector])
    else if selector == "track_activity" then Fallback
    else NoSuchMethod
  }

  /** `trackable.<association>.new`: an activity already owned. */
  function OwnedDraft(owner: Ref): ActivityDraft {
    EmptyActivity.(trackable := Some(owner))
  }

  /** The attribute hash the tracking methods pass to `create`, as the
      source writes it: the performer under the name `user`. */
  function AsWrittenAttributes(ip: Option<string>, user: Option<Ref>, activityType: Option<string>): Hash {
    [("ip", TextValue(ip)), ("user", RefValue(user)), ("activity_type", TextValue(activityType))]
  }

  /** `trackable_activities` has no `user` column, so building any record
      from the hash as written raises `UnknownAttributeError`: no tracking
      call can ever store an activity. */
  lemma AsWrittenAlwaysRaises(owner: Ref, ip: Option<string>, user: Option<Ref>, activityType: Option<string>)
    ensures AssignAll(OwnedDraft(owner), AsWrittenAttributes(ip, user, activityType)) == Failure(UnknownAttribute("user"))
  {
    var h := AsWrittenAttributes(ip, user, activityType);
    var first := Assign(OwnedDraft(owner), "ip", TextValue(ip));
    assert first.Success?;
    assert Column(first.value, "user").None?;
    assert h[1..] == [("user", RefValue(user))] + h[2..];
    UnknownNameRaises(first.value, "user", RefValue(user), h[2..]);
  }

  /** The attribute hash with the performer under its column's name. */
  function TrackAttributes(ip: Option<string>, performer: Option<Ref>, activityType: Option<string>): Hash {
    [("ip", TextValue(ip)), ("performer", RefValue(performer)), ("activity_type", TextValue(activityType))]
  }

  /** Building from that hash never raises and yields an activity owned by
      the caller with exactly the given ip, performer and type. */
  lemma TrackAttributesBuild(owner: Ref, ip: Option<string>, performer: Option<Ref>, activityType: Option<string>)
    ensures AssignAll(OwnedDraft(owner), TrackAttributes(ip, performer, activityType))
      == Success(ActivityDraft(Some(owner), performer, ip, activityType, None, None))
  {
    var h := TrackAttributes(ip, performer, activityType);
    var a0 := OwnedDraft(owner);
    var a1 := a0.(ip := ip);
    var a2 := a1.(performer := performer);
    var a3 := a2.(activityType := activityType);
    assert Assign(a0, "ip", TextValue(ip)) == Success(a1);
    assert Assign(a1, "performer", RefValue(performer)) == Success(a2);
    assert Assign(a2, "activity_type", TextValue(activityType)) == Success(a3);
    assert h[1..][1..] == [h[2]];
    assert AssignAll(a2, h[1..][1..]) == Success(a3);
    assert AssignAll(a1, h[1..]) == Success(a3);
  }

  /** The activity a tracking call builds before `create` saves it. */
  function Planned(trackMethods: map<string, string>, selector: string, owner: Ref,
                   ip: Option<string>, performer: Option<Ref>, activityType: Option<string>)
    : (r: Result<ActivityDraft, Error>)
    ensures r.Failure? <==> (Dispatch(trackMethods, selector).NoSuchMethod?
                             || (Dispatch(trackMethods, selector).Fixed? && activityType.Some?))
    ensures r.Success? ==> r.value.trackable == Some(owner) && r.value.ip == ip
                           && r.value.performer == performer
                           && r.value.country == None && r.value.city == None
    ensures r.Success? && selector in trackMethods ==> r.value.activityType == Some(trackMethods[selector])
    ensures r.Success? && selector !in trackMethods ==> r.value.activityType == activityType
  {
    match Dispatch(trackMethods, selector)
    case NoSuchMethod => Failure(NoMethodError(selector))
    case Fixed(t) =>
      // `track_<singular>(ip:, user: nil)` takes no `activity_type:` keyword.
      if activityType.Some? then Failure(ArgumentError)
      else
        TrackAttributesBuild(owner, ip, performer, Some(t));
        AssignAll(OwnedDraft(owner), TrackAttributes(ip, performer, Some(t)))
    case Fallback =>
      TrackAttributesBuild(owner, ip, performer, activityType);
      AssignAll(OwnedDraft(owner), TrackAttributes(ip, performer, activityType))
  }

  /** What a tracking call returns: it raised, or `create` gave back a
      record that failed validation, or a saved record. */
  datatype Tracked = Refused(e: Error) | Unsaved(attributes: ActivityDraft) | Saved(row: Activity)

  /** A class that includes `Footprinted::Model`. `associations` maps the
      name given to `has_trackable` to its singular activity type;
      `trackMethods` maps each method it defined to the type it fixes. */
  class TrackableModel {
    const name: string
    const singularize: string -> string
    var associations: map<string, string>
    var trackMethods: map<string, string>

    /** Every declared association has its tracking method, fixing its
        type, and every tracking method is named after the type it fixes. */
    ghost predicate Consistent()
      reads this
    {
      && (forall a :: a in associations ==>
            TrackMethodName(associations[a]) in trackMethods
            && trackMethods[TrackMethodName(associations[a])] == associations[a])
      && (forall m :: m in trackMethods ==> m == TrackMethodName(trackMethods[m]))
    }

    constructor (name: string, singularize: string -> string)
      ensures this.name == name && this.singularize == singularize
      ensures associations == map[] && trackMethods == map[]
      ensures Consistent()
    {
      this.name := name;
      this.singularize := singularize;
      associations := map[];
      trackMethods := map[];
    }

    /** `has_trackable(association)`. */
    method HasTrackable(association: string)
      requires Consistent()
      modifies this
      ensures Consistent()
      ensures associations == old(associations)[association := singularize(association)]
      ensures trackMethods == old(trackMethods)[TrackMethodName(singularize(association)) := singularize(association)]
    {
      var singular := singularize(association);
      associations := associations[association := singular];
      trackMethods := trackMethods[TrackMethodName(singular) := singular];
      forall a | a in associations
        ensures trackMethods[TrackMethodName(associations[a])] == associations[a]
      {
        if TrackMethodName(associations[a]) == TrackMethodName(singular) {
          TrackMethodNameInjective(associations[a], singular);
        }
      }
    }

    /** A call `owner.<selector>(ip:, user:, activity_type:)` on the row
        with id `id`: the method it dispatches to builds the activity on
        the owner's collection and saves it with the non-raising `create`. */
    method Track(selector: string, id: nat, ip: Option<string>, performer: Option<Ref>,
                 activityType: Option<string>, table: ActivityTable, resolver: Trackdown, now: Time)
      returns (r: Tracked)
      requires table.Valid()
      modifies table, resolver`calls
      ensures table.Valid()
      ensures var p := Planned(trackMethods, selector, Ref(name, id), ip, performer, activityType);
        if p.Failure? then
          && r == Refused(p.error)
          && table.rows == old(table.rows) && table.nextId == old(table.nextId)
          && resolver.calls == old(resolver.calls)
        else if IsValid(p.value) then
          && r == Saved(Persist(Enriched(p.value, resolver.backend), old(table.nextId), now))
          && table.rows == old(table.rows) + [r.row]
          && table.nextId == old(table.nextId) + 1
          && resolver.calls == old(resolver.calls) + GeoCalls(p.value, resolver.backend)
        else
          && r == Unsaved(p.value)
          && table.rows == old(table.rows) && table.nextId == old(table.nextId)
          && resolver.calls == old(resolver.calls)
    {
      var p := Planned(trackMethods, selector, Ref(name, id), ip, performer, activityType);
      if p.Failure? {
        return Refused(p.error);
      }
      var rec := new ActivityRecord(p.value);
      var persisted := table.Create(rec, now, resolver);
      if persisted {
        r := Saved(table.rows[|table.rows| - 1]);
      } else {
        r := Unsaved(rec.Attributes());
      }
    }
  }

  /** A declared category's method stores an activity of the category's
      type on the owner, and the row shows up in the category's view. */
  lemma TrackedRowInView(associations: map<string, string>, trackMethods: map<string, string>,
                         association: string, owner: Ref, ip: string, performer: Option<Ref>,
                         b: Backend, id: nat, now: Time, rows: seq<Activity>)
    requires association in associations
    requires TrackMethodName(associations[association]) in trackMethods
    requires trackMethods[TrackMethodName(associations[association])] == associations[association]
    requires !Blank(ip) && !Blank(associations[association])
    ensures var p := Planned(trackMethods, TrackMethodName(associations[association]), owner, Some(ip), performer, None);
      && p.Success? && IsValid(p.value)
      && Persist(Enriched(p.value, b), id, now) in View(associations, association, owner, rows + [Persist(Enriched(p.value, b), id, now)]).value
  {
    var p := Planned(trackMethods, TrackMethodName(associations[association]), owner, Some(ip), performer, None);
    EnrichedKeepsValidity(p.value, b);
  }
}
