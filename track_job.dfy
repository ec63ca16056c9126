/** `Footprinted::TrackJob`: the deferred replay of a footprint. The job
    finds the owner by class name and id, normalises the attribute keys,
    parses a textual `occurred_at`, and creates the footprint through the
    same `create!` pipeline the synchronous path uses. */
module TrackJob {
  import opened Common
  import opened Geo
  import opened Attributes
  import opened Footprints

  /** A key of the serialised attribute hash: a symbol or a string. */
  datatype Key = Sym(name: string) | Str(name: string)

  type Payload = seq<(Key, Value)>

  /** The value the last entry named `n` carries, if any. */
  function LastValue(p: Payload, n: string): Option<Value>
    decreases |p|
  {
    if p == [] then None
    else if p[|p| - 1].0.name == n then Some(p[|p| - 1].1)
    else LastValue(p[..|p| - 1], n)
  }

  /** `symbolize_keys`: one hash keyed by name. A name given twice (once
      as a string, once as a symbol) keeps one entry, holding the value
      given last. */
  function Symbolized(p: Payload): (h: Hash)
    ensures UniqueKeys(h)
    ensures forall n :: Get(h, n) == LastValue(p, n)
    decreases |p|
  {
    if p == [] then []
    else Put(Symbolized(p[..|p| - 1]), p[|p| - 1].0.name, p[|p| - 1].1)
  }

  /** Two payloads that differ only in whether each key is a string or a
      symbol normalise to the same hash. */
  lemma {:induction false} KeyFormIrrelevant(p: Payload, q: Payload)
    requires |p| == |q|
    requires forall i :: 0 <= i < |p| ==> p[i].0.name == q[i].0.name && p[i].1 == q[i].1
    ensures Symbolized(p) == Symbolized(q)
    decreases |p|
  {
    if p != [] {
      KeyFormIrrelevant(p[..|p| - 1], q[..|q| - 1]);
    }
  }

  /** Every entry of the normalised hash is a name and a value the
      payload carries. */
  lemma {:induction false} SymbolizedEntries(p: Payload)
    ensures forall e :: e in Symbolized(p) ==> exists i :: 0 <= i < |p| && e == (p[i].0.name, p[i].1)
    decreases |p|
  {
    if p != [] {
      var init := p[..|p| - 1];
      SymbolizedEntries(init);
      PutEntries(Symbolized(init), p[|p| - 1].0.name, p[|p| - 1].1);
      assert forall i :: 0 <= i < |init| ==> init[i] == p[i];
    }
  }

  /** The text a hash holds under a name; `None` for a missing entry and
      for a value that is not text. */
  function TextAt(h: Hash, n: string): (r: Option<string>)
    ensures r.Some? ==> Get(h, n) == Some(Text(r.value))
    ensures r.None? <==> (Get(h, n).None? || !Get(h, n).value.Text?)
  {
    match Get(h, n)
    case Some(Text(s)) => Some(s)
    case _ => None
  }

  /** `attrs[:occurred_at] = Time.parse(attrs[:occurred_at]) if it is a
      String`. `parse` is `Time.parse`; `None` means it raised. */
  function ParsedTime(h: Hash, parse: string -> Option<Time>): (r: Result<Hash, Error>)
    requires UniqueKeys(h)
    ensures r.Success? ==> UniqueKeys(r.value)
    ensures r.Success? ==> forall n :: n != "occurred_at" ==> Get(r.value, n) == Get(h, n)
    ensures r.Failure? <==> TextAt(h, "occurred_at").Some? && parse(TextAt(h, "occurred_at").value).None?
    ensures r.Failure? ==> r.error == ArgumentError
  {
    var o := TextAt(h, "occurred_at");
    if o.None? then Success(h)
    else
      var t := parse(o.value);
      if t.None? then Failure(ArgumentError)
      else Success(Put(h, "occurred_at", Instant(t.value)))
  }

  /** What a run decides before `create!`: raise, return nil, or build
      this unsaved footprint. `owners` maps each defined model class name
      to the ids of its rows. */
  datatype Plan = Raise(e: Error) | Skip | Build(d: Draft)

  function Planned(owners: map<string, set<nat>>, ownerType: string, ownerId: nat,
                   p: Payload, parse: string -> Option<Time>): (r: Plan)
    ensures r == Raise(NameError(ownerType)) <==> ownerType !in owners
    ensures r == Skip <==> ownerType in owners && ownerId !in owners[ownerType]
    ensures r.Build? ==> r.d.trackable == Ref(ownerType, ownerId)
  {
    if ownerType !in owners then Raise(NameError(ownerType))
    else if ownerId !in owners[ownerType] then Skip
    else
      var h := ParsedTime(Symbolized(p), parse);
      if h.Failure? then Raise(h.error)
      else
        var built := AssignAll(NewDraft(Ref(ownerType, ownerId)), h.value);
        if built.Failure? then Raise(built.error) else Build(built.value)
  }

  /** Payloads that differ only in key form plan the same run. */
  lemma KeyFormSamePlan(owners: map<string, set<nat>>, ownerType: string, ownerId: nat,
                        p: Payload, q: Payload, parse: string -> Option<Time>)
    requires |p| == |q|
    requires forall i :: 0 <= i < |p| ==> p[i].0.name == q[i].0.name && p[i].1 == q[i].1
    ensures Planned(owners, ownerType, ownerId, p, parse) == Planned(owners, ownerType, ownerId, q, parse)
  {
    KeyFormIrrelevant(p, q);
  }

  /** A textual `occurred_at` is parsed, and unparsable text raises; an
      instant is taken as it is. */
  lemma OccurredAtParsed(owners: map<string, set<nat>>, ownerType: string, ownerId: nat,
                         p: Payload, parse: string -> Option<Time>)
    requires ownerType in owners && ownerId in owners[ownerType]
    ensures var h := Symbolized(p);
      var r := Planned(owners, ownerType, ownerId, p, parse);
      && (TextAt(h, "occurred_at").Some? && parse(TextAt(h, "occurred_at").value).None? ==> r == Raise(ArgumentError))
      && (TextAt(h, "occurred_at").Some? && r.Build? ==> r.d.occurredAt == parse(TextAt(h, "occurred_at").value))
      && (forall t :: Get(h, "occurred_at") == Some(Instant(t)) && r.Build? ==> r.d.occurredAt == Some(t))
  {
    var h := Symbolized(p);
    var parsed := ParsedTime(h, parse);
    if parsed.Success? {
      var built := AssignAll(NewDraft(Ref(ownerType, ownerId)), parsed.value);
      if built.Success? {
        AssignAllStoresAt(NewDraft(Ref(ownerType, ownerId)), parsed.value, built.value, "occurred_at");
      }
    }
  }

  /** A payload entry the job accepts: one that fits its column, or an
      `occurred_at` given as text, which the job parses first. */
  predicate Replayable(n: string, v: Value) {
    Fits(n, v) || (n == "occurred_at" && v.Text?)
  }

  /** For an owner that exists, a payload of replayable entries whose
      `occurred_at` text, if any, parses builds a footprint. */
  lemma ReplayablePayloadBuilds(owners: map<string, set<nat>>, ownerType: string, ownerId: nat,
                                p: Payload, parse: string -> Option<Time>)
    requires ownerType in owners && ownerId in owners[ownerType]
    requires forall i :: 0 <= i < |p| ==> Replayable(p[i].0.name, p[i].1)
    requires TextAt(Symbolized(p), "occurred_at").Some? ==> parse(TextAt(Symbolized(p), "occurred_at").value).Some?
    ensures Planned(owners, ownerType, ownerId, p, parse).Build?
  {
    var h := Symbolized(p);
    SymbolizedReplayable(p);
    ParsedFits(h, parse);
    var parsed := ParsedTime(h, parse);
    assert AssignAll(NewDraft(Ref(ownerType, ownerId)), parsed.value).Success?;
  }

  lemma SymbolizedReplayable(p: Payload)
    requires forall i :: 0 <= i < |p| ==> Replayable(p[i].0.name, p[i].1)
    ensures forall e :: e in Symbolized(p) ==> Replayable(e.0, e.1)
  {
    SymbolizedEntries(p);
  }

  /** Parsing a replayable hash's `occurred_at` leaves only entries that
      fit their columns. */
  lemma ParsedFits(h: Hash, parse: string -> Option<Time>)
    requires UniqueKeys(h)
    requires forall e :: e in h ==> Replayable(e.0, e.1)
    requires TextAt(h, "occurred_at").Some? ==> parse(TextAt(h, "occurred_at").value).Some?
    ensures ParsedTime(h, parse).Success?
    ensures forall i :: 0 <= i < |ParsedTime(h, parse).value| ==>
      Fits(ParsedTime(h, parse).value[i].0, ParsedTime(h, parse).value[i].1)
  {
    var parsed := ParsedTime(h, parse);
    var o := TextAt(h, "occurred_at");
    if o.Some? {
      PutEntries(h, "occurred_at", Instant(parse(o.value).value));
    }
    forall i | 0 <= i < |parsed.value| ensures Fits(parsed.value[i].0, parsed.value[i].1) {
      var e := parsed.value[i];
      assert e in parsed.value;
      if o.None? && e.0 == "occurred_at" {
        GetEntry(h, e);
      }
    }
  }

  /** A text column filled from a hash holds the hash's text, and nothing
      when the hash has none. */
  lemma TextColumn(col: Option<string>, h: Hash, n: string)
    requires Some(TextValue(col)) == if Get(h, n).Some? then Get(h, n) else Some(Nil)
    ensures col == TextAt(h, n)
  {
  }

  /** The record a run builds, once its defaults are filled in, passes
      validation exactly when the payload carries a present `ip` and a
      present `event_type`. */
  lemma ValidExactlyWithIpAndEvent(owners: map<string, set<nat>>, ownerType: string, ownerId: nat,
                                   p: Payload, parse: string -> Option<Time>, d: Draft, now: Time)
    requires Planned(owners, ownerType, ownerId, p, parse) == Build(d)
    ensures IsValid(WithDefaultOccurredAt(d, now))
      <==> Present(TextAt(Symbolized(p), "ip")) && Present(TextAt(Symbolized(p), "event_type"))
  {
    var h := Symbolized(p);
    var parsed := ParsedTime(h, parse);
    assert parsed.Success? && AssignAll(NewDraft(Ref(ownerType, ownerId)), parsed.value) == Success(d);
    AssignAllStoresAt(NewDraft(Ref(ownerType, ownerId)), parsed.value, d, "ip");
    AssignAllStoresAt(NewDraft(Ref(ownerType, ownerId)), parsed.value, d, "event_type");
    assert Get(parsed.value, "ip") == Get(h, "ip");
    assert Get(parsed.value, "event_type") == Get(h, "event_type");
    TextColumn(d.ip, h, "ip");
    TextColumn(d.eventType, h, "event_type");
  }

  /** A payload that already carries a present `country_code` is stored
      with every attribute it names, geographic ones included, exactly as
      given, and the resolver is not called. */
  lemma PreExtractedGeoKept(owners: map<string, set<nat>>, ownerType: string, ownerId: nat,
                            p: Payload, parse: string -> Option<Time>, d: Draft, now: Time,
                            b: Backend)
    requires Planned(owners, ownerType, ownerId, p, parse) == Build(d)
    requires Present(TextAt(Symbolized(p), "country_code"))
    ensures var v := WithDefaultOccurredAt(d, now);
      && Enriched(v, None, b) == v
      && GeoCalls(v, None, b) == []
      && forall n :: n != "occurred_at" && Get(Symbolized(p), n).Some? ==> Column(v, n) == Get(Symbolized(p), n)
  {
    var h := Symbolized(p);
    var parsed := ParsedTime(h, parse);
    assert parsed.Success? && AssignAll(NewDraft(Ref(ownerType, ownerId)), parsed.value) == Success(d);
    AssignAllStoresAt(NewDraft(Ref(ownerType, ownerId)), parsed.value, d, "country_code");
    assert Get(parsed.value, "country_code") == Get(h, "country_code");
    TextColumn(d.geo.countryCode, h, "country_code");
    ExplicitCountryWins(WithDefaultOccurredAt(d, now), None, b);
    forall n | n != "occurred_at" && Get(h, n).Some?
      ensures Column(WithDefaultOccurredAt(d, now), n) == Get(h, n)
    {
      AssignAllStoresAt(NewDraft(Ref(ownerType, ownerId)), parsed.value, d, n);
      DefaultKeepsOtherColumns(d, now, n);
    }
  }

  /** What `perform` returns: the raised error, nil, or the new row. */
  datatype Outcome = Failed(e: Error) | Nothing | Created(f: Footprint)

  /** `perform(trackable_type, trackable_id, attributes)`. */
  method Perform(table: FootprintTable, resolver: Trackdown, owners: map<string, set<nat>>,
                 ownerType: string, ownerId: nat, attributes: Payload,
                 parse: string -> Option<Time>, now: Time) returns (r: Outcome)
    requires table.Valid()
    modifies table, resolver`calls
    ensures table.Valid()
    ensures match Planned(owners, ownerType, ownerId, attributes, parse)
      case Raise(e) =>
        r == Failed(e) && table.rows == old(table.rows) && table.nextId == old(table.nextId)
        && resolver.calls == old(resolver.calls)
      case Skip =>
        r == Nothing && table.rows == old(table.rows) && table.nextId == old(table.nextId)
        && resolver.calls == old(resolver.calls)
      case Build(d) =>
        var v := WithDefaultOccurredAt(d, now);
        if IsValid(v) then
          && r == Created(Persist(Enriched(v, None, resolver.backend), old(table.nextId), now))
          && table.rows == old(table.rows) + [r.f]
          && table.nextId == old(table.nextId) + 1
          && resolver.calls == old(resolver.calls) + GeoCalls(v, None, resolver.backend)
        else
          && r == Failed(RecordInvalid)
          && table.rows == old(table.rows) && table.nextId == old(table.nextId)
          && resolver.calls == old(resolver.calls)
  {
    if ownerType !in owners {
      return Failed(NameError(ownerType));
    }
    if ownerId !in owners[ownerType] {
      return Nothing;
    }
    var attrs := Symbolized(attributes);
    var text := TextAt(attrs, "occurred_at");
    if text.Some? {
      var t := parse(text.value);
      if t.None? {
        return Failed(ArgumentError);
      }
      attrs := Put(attrs, "occurred_at", Instant(t.value));
    }
    var built := AssignAll(NewDraft(Ref(ownerType, ownerId)), attrs);
    if built.Failure? {
      return Failed(built.error);
    }
    // A job has no request context, so the resolver sees no request.
    var rec := new FootprintRecord(built.value, None);
    var saved := table.CreateBang(rec, now, resolver);
    if saved.Failure? {
      return Failed(saved.error);
    }
    r := Created(saved.value);
  }

  /** The same job run twice stores two rows with the same attributes
      and different ids: replay does not deduplicate. */
  method PerformTwice(table: FootprintTable, resolver: Trackdown, owners: map<string, set<nat>>,
                      ownerType: string, ownerId: nat, attributes: Payload,
                      parse: string -> Option<Time>, now: Time) returns (first: Outcome, second: Outcome)
    requires table.Valid()
    requires Planned(owners, ownerType, ownerId, attributes, parse).Build?
    requires IsValid(WithDefaultOccurredAt(Planned(owners, ownerType, ownerId, attributes, parse).d, now))
    modifies table, resolver`calls
    ensures table.Valid()
    ensures first.Created? && second.Created?
    ensures table.rows == old(table.rows) + [first.f, second.f]
    ensures AsDraft(first.f) == AsDraft(second.f) && first.f.id != second.f.id
    ensures first.f.trackable == Ref(ownerType, ownerId)
  {
    first := Perform(table, resolver, owners, ownerType, ownerId, attributes, parse, now);
    second := Perform(table, resolver, owners, ownerType, ownerId, attributes, parse, now);
  }
}
