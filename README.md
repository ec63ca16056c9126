# footprinted, modelled in Dafny

footprinted is a Rails engine that records events ("footprints") against any
model: an IP address, an event type, a time, optional metadata and a
performer. Before each footprint is saved it is enriched with geographic
fields from the Trackdown IP resolver. This project models the library's
core as values, classes and proofs:

- **The `Footprint` record** (`footprint.dfy`, module `Footprints`). `create!`
  runs a fixed pipeline:
  - the `occurred_at` default;
  - the presence validations, where `RecordInvalid` stores nothing;
  - the `set_geolocation_data` callback, which copies all eight geo fields
    from one resolver answer unless a country code is already present or
    the IP is blank, and swallows a raised lookup.

  The scopes and the `event_types` / `countries` aggregates are modelled as
  pure queries over the rows.
- **The deferred replay** (`track_job.dfy`, module `TrackJob`). `TrackJob#perform`:
  - looks up the owner by class name and id (`NameError` for an unknown
    class, nil for a missing row);
  - symbolizes the keys;
  - parses a textual `occurred_at`;
  - creates the footprint through the same pipeline.
- **The legacy `TrackableActivity` record** (`trackable_activity.dfy`, module
  `TrackableActivities`):
  - validity needs `ip`, `activity_type` and `trackable`;
  - enrichment always overwrites `country` / `city`;
  - a missing resolver, a missing database or a raising lookup is rescued
    inside the callback;
  - the scopes are keyed on `created_at`;
  - the table has a non-raising `create` and the owner's cascading destroy.
- **The trackable concern** (`model.dfy`, module `TrackableConcern`):
  - `has_trackable` is a registry in the model class. It maps association
    names to their singular activity type, and defined `track_<singular>`
    methods to the type they fix.
  - The filtered association views are modelled.
  - Method dispatch covers both the fixed-type methods and the
    `track_activity` fallback.
- **The configuration holder** (`configuration.dfy`, module `Settings`): the
  memoised `configuration`, `configure`, `configuration=` and `reset`.

Shared pieces:

- `common.dfy` has options, results, timestamps, polymorphic references,
  attribute values, the raised errors and Ruby's `blank?` / `present?` over
  Unicode white space.
- `query.dfy` has `where`, `order(:desc)`, `pluck`, `distinct`.
- `geo.dfy` has the resolver at its interface. A `Backend` says whether
  `Trackdown` is defined, whether its database exists, and what `locate`
  answers. A `Trackdown` object logs every call that reaches `locate`.
- `attributes.dfy` has ordered Ruby hashes and the casts from hash values
  to columns.

Imperative code stays imperative:

- The callbacks are methods on `FootprintRecord` / `ActivityRecord`, whose
  fields are the record's columns.
- `create!` / `create` are methods on table classes that hold the rows and
  the next id.
- `perform`, `has_trackable`, the tracking methods and the configuration
  operations are methods that update that state.

Each of these methods is proved against a specification function:

- `Enriched` and `GeoCalls` for the callbacks;
- `WithDefaultOccurredAt` and `IsValid` for validation;
- `Persist` for the inserted row;
- `Planned` for what a job or a tracking call builds.

The lemmas state the library's promises about those functions.

Clock, parser, inflector and class lookup are parameters:

- `now` is the clock.
- `parse: string -> Option<Time>` is `Time.parse`.
- `singularize: string -> string` is `String#singularize`.
- `owners: map<string, set<nat>>` stands for `constantize` plus `find_by(id:)`.

## Model

| member | source | states |
|---|---|---|
| Query.Where | lib/footprinted/footprint.rb:17-18 | `where` keeps exactly the rows satisfying the condition, each with its multiplicity |
| Query.WhereWhere | lib/footprinted/footprint.rb:17-22 | two chained `where` scopes select the same rows, in the same order, as one on the conjunction |
| Query.Pluck | lib/footprinted/footprint.rb:24-26 | `pluck` yields one column of every row, position by position |
| Query.Values | lib/footprinted/footprint.rb:28-30 | `where.not(column: nil)` then pluck yields exactly the non-nil values, each as often as it occurs, and as many values as there are non-nil entries |
| Query.Distinct | lib/footprinted/footprint.rb:24-30 | `distinct` keeps every value present and repeats none |
| Query.OrderDesc | lib/footprinted/footprint.rb:19 | `order(:desc)` is a permutation of the rows sorted by descending key |
| Geo.Trackdown.Locate | lib/footprinted/footprint.rb:42 | a lookup with the constant defined is logged and answered by the backend; without it nothing is logged and it raises |
| Attributes.Put | app/jobs/footprinted/track_job.rb:12 | `h[k] = v` keeps keys unique, makes `h[k]` return `v` and leaves every other key's value unchanged |
| Footprints.Assign | app/jobs/footprinted/track_job.rb:21 | one writer call succeeds exactly when the name has a writer and the value is of its column's kind; it then sets that column to the value and no other; otherwise an unknown name raises `UnknownAttribute` and a wrongly typed value `TypeMismatch` |
| Footprints.AssignAll | app/jobs/footprinted/track_job.rb:21 | mass assignment succeeds exactly when every entry fits its column, and keeps the owner; otherwise it raises an unknown-attribute or type error |
| Footprints.FirstMisfitRaises | app/jobs/footprinted/track_job.rb:21 | the first entry that does not fit decides the error: `UnknownAttribute` for a name with no writer, `TypeMismatch` otherwise |
| Footprints.AssignAllStores | app/jobs/footprinted/track_job.rb:21 | after mass assignment every named column holds the hash's value and every other column is unchanged |
| Footprints.DefaultOnlyFillsNil | lib/footprinted/footprint.rb:34-36 | the default fills only a nil `occurred_at`, never overrides one, and after it validity depends on `ip` and `event_type` alone |
| Footprints.DefaultKeepsOtherColumns | lib/footprinted/footprint.rb:34-36 | the default changes no column other than `occurred_at` |
| Footprints.BlankIsInvalid | lib/footprinted/footprint.rb:10-12 | a nil, empty or white-space-only ip or event type fails validation, whatever `occurred_at` holds |
| Footprints.Enriched | lib/footprinted/footprint.rb:38-53 | enrichment changes only the geographic fields |
| Footprints.ExplicitCountryWins | lib/footprinted/footprint.rb:39 | with a present country code, the resolver is not called and every field is kept |
| Footprints.BlankIpNotEnriched | lib/footprinted/footprint.rb:40 | a blank ip makes no call and changes nothing |
| Footprints.GeoFromOneLookup | lib/footprinted/footprint.rb:42-50 | afterwards the geo fields are either untouched or exactly the eight fields of one successful lookup, nils included |
| Footprints.LookupCopiesResult | lib/footprinted/footprint.rb:42-50 | a successful lookup is called once with the ip and the request as given, and its result is copied field by field |
| Footprints.FailedLookupChangesNothing | lib/footprinted/footprint.rb:51-53 | a raised lookup is swallowed and leaves the record unchanged |
| Footprints.Persist | lib/footprinted/footprint.rb:10-15 | the row stored for a valid record holds exactly its attributes, plus its id and creation time |
| Footprints.FootprintRecord.SetOccurredAt | lib/footprinted/footprint.rb:34-36 | the record's attributes become the defaulted ones |
| Footprints.FootprintRecord.Validate | lib/footprinted/footprint.rb:10-14 | runs the default, then answers exactly `IsValid` of the result |
| Footprints.FootprintRecord.SetGeolocationData | lib/footprinted/footprint.rb:38-53 | the record becomes `Enriched` of its old attributes and the resolver log grows by exactly the call made |
| Footprints.FootprintTable.CreateBang | lib/footprinted/footprint.rb:10-15 | a valid record is enriched, appended with the next id and returned; an invalid one raises `RecordInvalid` and nothing is stored or looked up; the table invariant holds |
| Footprints.ByEvent | lib/footprinted/footprint.rb:17 | exactly the rows with that event type |
| Footprints.ByCountry | lib/footprinted/footprint.rb:18 | exactly the rows with that country code, nil selecting rows without one |
| Footprints.Recent | lib/footprinted/footprint.rb:19 | the same rows, latest `occurred_at` first |
| Footprints.Between | lib/footprinted/footprint.rb:20 | exactly the rows with `occurred_at` in the closed range |
| Footprints.LastDays | lib/footprinted/footprint.rb:21 | exactly the rows with `occurred_at` at or after now minus the given days |
| Footprints.PerformedBy | lib/footprinted/footprint.rb:22 | exactly the rows of that performer |
| Footprints.ChainedScopes | lib/footprinted/footprint.rb:17-18 | chaining scopes selects the intersection |
| Footprints.EventTypes | lib/footprinted/footprint.rb:24-26 | each event type present in some row, once |
| Footprints.Countries | lib/footprinted/footprint.rb:28-30 | each non-nil country code present in some row, once |
| TrackJob.Symbolized | app/jobs/footprinted/track_job.rb:11 | keys become unique names, and each name holds the value its last occurrence gave |
| TrackJob.KeyFormIrrelevant | app/jobs/footprinted/track_job.rb:11 | payloads that differ only in string versus symbol keys symbolize to the same hash |
| TrackJob.ParsedTime | app/jobs/footprinted/track_job.rb:12 | it raises `ArgumentError` exactly when `occurred_at` is text that does not parse, and it changes no other key |
| TrackJob.Planned | app/jobs/footprinted/track_job.rb:7-21 | an unknown class name is exactly the `NameError` case, and a missing row is exactly the nil case; a built record belongs to the found owner |
| TrackJob.ReplayablePayloadBuilds | app/jobs/footprinted/track_job.rb:7-21 | for an owner that exists, a payload whose entries fit their columns (with `occurred_at` also allowed as text that parses) builds a footprint |
| TrackJob.KeyFormSamePlan | app/jobs/footprinted/track_job.rb:11 | string-keyed and symbol-keyed payloads plan the same run |
| TrackJob.OccurredAtParsed | app/jobs/footprinted/track_job.rb:12 | unparsable text raises; parsed text is stored as the parsed instant; an instant is stored as it is |
| TrackJob.ValidExactlyWithIpAndEvent | app/jobs/footprinted/track_job.rb:21 | the built record passes validation if and only if the payload has a present ip and a present event type |
| TrackJob.PreExtractedGeoKept | app/jobs/footprinted/track_job.rb:15-21 | a payload with a present country code makes no resolver call, and every value it names is stored verbatim |
| TrackJob.Perform | app/jobs/footprinted/track_job.rb:7-22 | raise, nil, `RecordInvalid`, or exactly one new row; the table and the resolver log change exactly as `create!` prescribes |
| TrackJob.PerformTwice | app/jobs/footprinted/track_job.rb:21 | replaying a job stores two rows with equal attributes and different ids |
| TrackableActivities.Assign | test/test_helper.rb:46-56 | one writer call succeeds exactly when the name has a writer and the value is of its column's kind; it then sets that column and no other; otherwise a name outside the modelled columns raises `UnknownAttribute` and a wrongly typed value `TypeMismatch` |
| TrackableActivities.AssignAll | test/test_helper.rb:46-56 | mass assignment succeeds exactly when every entry fits its column, and otherwise raises an unknown-attribute or type error |
| TrackableActivities.UnknownNameRaises | test/test_helper.rb:46-56 | an entry naming no column makes mass assignment raise `UnknownAttribute` for it |
| TrackableActivities.BlankIsInvalid | lib/footprinted/trackable_activity.rb:10-12 | a nil or blank ip or activity type, or a missing owner, fails validation, and so does a new, empty activity |
| TrackableActivities.Enriched | lib/footprinted/trackable_activity.rb:35-52 | enrichment changes only `country` and `city` |
| TrackableActivities.LookupOverwrites | lib/footprinted/trackable_activity.rb:46-48 | a reached, successful lookup overwrites `country` and `city` whatever they held, with one call without request |
| TrackableActivities.UnreachedOrRaisedChangesNothing | lib/footprinted/trackable_activity.rb:36-51 | a blank ip, a missing resolver, a missing database or a raised lookup leave the record as it was, and the first three make no call |
| TrackableActivities.EnrichedKeepsValidity | lib/footprinted/trackable_activity.rb:35-52 | enrichment never changes validity |
| TrackableActivities.EnrichmentRulesDiffer | lib/footprinted/trackable_activity.rb:46-48 | for a record that already has a country and a lookup answering another one, a footprint keeps its country and makes no call, while an activity takes the looked-up country |
| TrackableActivities.Persist | lib/footprinted/trackable_activity.rb:10-15 | the stored row holds exactly the activity's attributes, plus its id and `created_at` |
| TrackableActivities.ActivityRecord.SetGeolocationData | lib/footprinted/trackable_activity.rb:35-52 | the record becomes `Enriched` of its old attributes and the log grows by exactly the call made |
| TrackableActivities.ActivityTable.Create | lib/footprinted/trackable_activity.rb:10-15 | saved if and only if valid; a saved activity is enriched and appended with the next id; an unsaved one leaves the table, the record and the log unchanged |
| TrackableActivities.ActivityTable.CreateBang | lib/footprinted/trackable_activity.rb:10-15 | as `create`: a valid activity is enriched, appended with the next id and returned, with the record and the resolver log updated; an invalid one raises `RecordInvalid` and leaves the table, the record and the log unchanged |
| TrackableActivities.ActivityTable.DestroyOwnedBy | lib/footprinted/model.rb:46 | the returned activities are exactly the owner's; afterwards the table is exactly `where(trackable != owner)` of the old rows, so the other rows stay in order |
| TrackableActivities.DestroyEach | lib/footprinted/model.rb:46 | destroying each loaded row by id leaves exactly the rows not among them, in order |
| TrackableActivities.ByActivity | lib/footprinted/trackable_activity.rb:18 | exactly the rows with that activity type |
| TrackableActivities.ByCountry | lib/footprinted/trackable_activity.rb:19 | exactly the rows with that country |
| TrackableActivities.Recent | lib/footprinted/trackable_activity.rb:20 | the same rows, latest `created_at` first |
| TrackableActivities.PerformedBy | lib/footprinted/trackable_activity.rb:21 | exactly the rows of that performer |
| TrackableActivities.Between | lib/footprinted/trackable_activity.rb:22 | exactly the rows with `created_at` in the closed range |
| TrackableActivities.LastDays | lib/footprinted/trackable_activity.rb:23 | exactly the rows with `created_at` at or after now minus the given days |
| TrackableActivities.ActivityTypes | lib/footprinted/trackable_activity.rb:26-28 | each activity type present, once |
| TrackableActivities.Countries | lib/footprinted/trackable_activity.rb:30-32 | each non-nil country present, once |
| TrackableConcern.OwnedActivities | lib/footprinted/model.rb:46 | exactly the owner's activities, of any type |
| TrackableConcern.View | lib/footprinted/model.rb:54-55 | a declared association shows exactly the owner's activities of its singular type; an undeclared one does not exist |
| TrackableConcern.ViewWithinOwned | lib/footprinted/model.rb:54-55 | a filtered view is part of `trackable_activities` |
| TrackableConcern.ViewsDisjoint | lib/footprinted/model.rb:54-55 | views with different singular types share no activity; views with the same type show the same ones |
| TrackableConcern.TrackMethodName | lib/footprinted/model.rb:52 | the method name is `track_` followed by the singular: it starts with `track_` and the rest is the singular |
| TrackableConcern.TrackMethodNameInjective | lib/footprinted/model.rb:52 | different singular types give different method names |
| TrackableConcern.Dispatch | lib/footprinted/model.rb:58-67 | a method `has_trackable` defined takes precedence, `track_activity` otherwise falls back, and any other name is missing |
| TrackableConcern.AsWrittenAlwaysRaises | lib/footprinted/model.rb:59 | the attribute hash as written cannot be assigned: every call raises `UnknownAttribute("user")` |
| TrackableConcern.TrackAttributesBuild | lib/footprinted/model.rb:59 | the corrected hash always builds an activity owned by the caller with the given ip, performer and type |
| TrackableConcern.Planned | lib/footprinted/model.rb:58-67 | it raises exactly for an undefined method, or for an `activity_type` passed to a fixed-type method; otherwise it builds an owned activity with the given ip and performer, whose type is the method's or the caller's |
| TrackableConcern.TrackableModel.HasTrackable | lib/footprinted/model.rb:51-61 | registers the association under its singular type and the method `track_<singular>` fixing that type, keeping the registry consistent |
| TrackableConcern.TrackableModel.Track | lib/footprinted/model.rb:58-67 | a call raises, or returns an unsaved invalid activity, in both cases with the rows, the id counter and the resolver log unchanged; or it appends the enriched activity with the next id and bumps the counter |
| TrackableConcern.TrackedRowInView | lib/footprinted/model.rb:54-60 | an activity saved by a category's method is valid and shows up in that category's view |
| Settings.Configuration.constructor | lib/footprinted.rb:16 | a new configuration has `async` false |
| Settings.Footprinted.GetConfiguration | lib/footprinted.rb:15-17 | returns the stored instance, or stores and returns a fresh default one |
| Settings.Footprinted.Configure | lib/footprinted.rb:19-21 | the block runs on the memoised instance, which stays stored |
| Settings.Footprinted.SetConfiguration | lib/footprinted.rb:12 | the writer replaces the stored instance |
| Settings.Footprinted.Reset | lib/footprinted.rb:23-25 | a fresh default instance is stored |
| Settings.ConfigureTwice | lib/footprinted.rb:19-21 | two `configure` blocks act on one instance, one after the other |
| Settings.ResetRenews | lib/footprinted.rb:23-25 | after `reset`, the instance read is new, distinct from the one before, with `async` false |
| Settings.WriterReplaces | lib/footprinted.rb:12-17 | after `configuration = c`, reads return `c` |

## Left out

- The Trackdown gem itself is not modelled, because it does disk and network lookups. It is a `Backend`: a defined flag, a database-exists flag and an answer function. The model does not look at which exception a lookup raises.
- Logging (`Rails.logger`) is left out: it has no effect on state. This includes the debug branch of `TrackJob#perform`, whose two paths both only log.
- ActiveRecord persistence is left out apart from an in-memory table: rows in insertion order, ids from a counter. SQL, transactions, `updated_at`, association loading and `distinct`'s result order are not modelled.
- Column coercion is simplified: a hash value of the wrong kind for its column raises `TypeMismatch`, where ActiveRecord would try to cast it.
- Footprints.Column, TrackableActivities.Column: the `id`, `created_at` / `updated_at` and `<name>_type` / `<name>_id` columns, and on footprints the `trackable` association, cannot be assigned in the model. A hash naming one of them raises `UnknownAttribute` in the model, where ActiveRecord would accept it. The association's `create` / `create!` then sets the owner's pair over whatever was assigned, so in both the owner is the job's or the caller's record.
- The columns of `footprints` are the ones `lib/footprinted/footprint.rb` reads and writes. Its migration template is not part of this model.
- `Time.current`, `Time.parse`, ISO 8601 text and `days.ago` are simplified: time is whole seconds, `now` is a parameter, parsing is an abstract partial function, and a day is 86400 seconds with no calendar or DST arithmetic.
- `String#singularize` and `constantize` are Rails foreign helpers: singularize is an uninterpreted function, and constantize with `find_by(id:)` is a map from class names to row ids.
- Metadata is an opaque document; JSON serialisation is not modelled. Latitude and longitude are opaque real values; there is no float arithmetic.
- The sync/async `track` / `track_<event>` dispatcher that the model tests exercise is not part of this model, and neither is ActiveJob enqueueing. Its source file is not among the modelled files.
- The footprints' own `dependent: :destroy` is not modelled, because it is declared in a file that is not part of this model. Only the cascade of `trackable_activities` (lib/footprinted/model.rb:46) is modelled.
- `Footprint.create` (non-raising), `update!` and the rest of the record API are left out: the library's core calls only `create!` on footprints.
- lib/footprinted/configuration.rb is not part of this model. `Configuration` holds only the `async` flag, whose default (false) follows the configuration tests. A `configure` block is modelled as its effect on `async`.
- Concurrent reads of the configuration are left out: the model is sequential.
- The install generator, the railtie and the engine are left out: they are file generation and boot hooks.
- Footprints.Recent, TrackableActivities.Recent: they do not state an order between rows with equal timestamps, because the database does not promise one.
- Footprints.EventTypes, Footprints.Countries, TrackableActivities.ActivityTypes, TrackableActivities.Countries: they do not state the order of the distinct values, because the database does not promise one.
- TrackJob.PerformTwice: it is stated only for a payload whose record is valid. Other payloads are covered by `TrackJob.Perform` on each run.

## Findings

| source | as written | input that shows it | evidently intended | confidence | as-written member | corrected member |
|---|---|---|---|---|---|---|
| lib/footprinted/model.rb:59 | `track_<singular>` passes the actor to `create` as `user:` | `track_profile_view(ip: "1.1.1.1")` against the `trackable_activities` table of test/test_helper.rb:46-56, which has `performer_type` / `performer_id` and no `user` column: assignment raises `UnknownAttributeError` before validation, for every input | pass the actor as `performer:`, the association the record declares | not executed | TrackableConcern.AsWrittenAlwaysRaises | TrackableConcern.TrackAttributesBuild |
| lib/footprinted/model.rb:66 | `track_activity` passes `user:` to `create` in the same way | `track_activity(ip: "1.1.1.1", activity_type: "login")` on the same table raises `UnknownAttributeError` | pass `performer:` | not executed | TrackableConcern.AsWrittenAlwaysRaises | TrackableConcern.TrackAttributesBuild |

`TrackableConcern.Planned`, and therefore `TrackableConcern.TrackableModel.Track`, use the corrected attribute hash.
