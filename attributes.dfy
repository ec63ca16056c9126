/** Ruby attribute hashes: ordered maps from attribute name to value. A
    key that is stored again keeps its position and takes the new value;
    new keys go at the end. Also the casts from a hash value to a column. */
module Attributes {
  import opened Common

  type Hash = seq<(string, Value)>

  ghost predicate UniqueKeys(h: Hash) {
    forall i, j :: 0 <= i < j < |h| ==> h[i].0 != h[j].0
  }

  /** `h[k]`, with `None` for a missing key (Ruby's nil). */
  function Get(h: Hash, k: string): Option<Value> {
    if h == [] then None
    else if h[0].0 == k then Some(h[0].1)
    else Get(h[1..], k)
  }

  /** `h[k] = v`. */
  function Put(h: Hash, k: string, v: Value): (r: Hash)
    requires UniqueKeys(h)
    ensures UniqueKeys(r)
    ensures Get(r, k) == Some(v)
    ensures forall n :: n != k ==> Get(r, n) == Get(h, n)
  {
    if h == [] then [(k, v)]
    else if h[0].0 == k then [(k, v)] + h[1..]
    else
      var rest := Put(h[1..], k, v);
      GetAbsent(h[1..], h[0].0);
      GetAbsent(rest, h[0].0);
      [h[0]] + rest
  }

  /** A key is missing exactly when no entry carries it. */
  lemma {:induction false} GetAbsent(h: Hash, k: string)
    ensures Get(h, k).None? <==> forall i :: 0 <= i < |h| ==> h[i].0 != k
  {
    if h != [] {
      GetAbsent(h[1..], k);
      assert forall i :: 1 <= i < |h| ==> h[i] == h[1..][i - 1];
    }
  }

  /** After `h[k] = v` every entry is `(k, v)` or an entry of `h` under
      another key. */
  lemma {:induction false} PutEntries(h: Hash, k: string, v: Value)
    requires UniqueKeys(h)
    ensures forall e :: e in Put(h, k, v) ==> e == (k, v) || (e in h && e.0 != k)
  {
    if h != [] && h[0].0 != k {
      PutEntries(h[1..], k, v);
      assert forall e :: e in h[1..] ==> e in h;
    } else if h != [] {
      assert forall i :: 1 <= i < |h| ==> h[i] == h[1..][i - 1];
    }
  }

  /** In a hash with unique keys, an entry is what `h[k]` reads. */
  lemma {:induction false} GetEntry(h: Hash, e: (string, Value))
    requires UniqueKeys(h) && e in h
    ensures Get(h, e.0) == Some(e.1)
  {
    if h[0] != e {
      assert e in h[1..];
      var m :| 0 <= m < |h[1..]| && h[1..][m] == e;
      assert h[m + 1] == e && h[0].0 != e.0;
      GetEntry(h[1..], e);
    }
  }

  /** The kind of a column, which decides what its writer accepts. */
  datatype Kind = TextKind | TimeKind | NumberKind | RefKind | JsonKind

  /** Whether the writer of a column of kind `k` takes `v`: nil or a value
      of that kind; a JSON column takes any value. */
  predicate Accepts(k: Kind, v: Value) {
    match k
    case TextKind => v.Nil? || v.Text?
    case TimeKind => v.Nil? || v.Instant?
    case NumberKind => v.Nil? || v.Number?
    case RefKind => v.Nil? || v.Entity?
    case JsonKind => true
  }

  /** A string column: nil or text. */
  function CastText(name: string, v: Value): (r: Result<Option<string>, Error>)
    ensures r.Success? <==> Accepts(TextKind, v)
    ensures r.Success? ==> TextValue(r.value) == v
    ensures r.Failure? ==> r.error == TypeMismatch(name)
  {
    match v
    case Nil => Success(None)
    case Text(s) => Success(Some(s))
    case _ => Failure(TypeMismatch(name))
  }

  /** A timestamp column: nil or an instant. */
  function CastTime(name: string, v: Value): (r: Result<Option<Time>, Error>)
    ensures r.Success? <==> Accepts(TimeKind, v)
    ensures r.Success? ==> TimeValue(r.value) == v
    ensures r.Failure? ==> r.error == TypeMismatch(name)
  {
    match v
    case Nil => Success(None)
    case Instant(t) => Success(Some(t))
    case _ => Failure(TypeMismatch(name))
  }

  /** A decimal column: nil or a number. */
  function CastNumber(name: string, v: Value): (r: Result<Option<real>, Error>)
    ensures r.Success? <==> Accepts(NumberKind, v)
    ensures r.Success? ==> NumberValue(r.value) == v
    ensures r.Failure? ==> r.error == TypeMismatch(name)
  {
    match v
    case Nil => Success(None)
    case Number(x) => Success(Some(x))
    case _ => Failure(TypeMismatch(name))
  }

  /** A polymorphic association: nil or a record reference. */
  function CastRef(name: string, v: Value): (r: Result<Option<Ref>, Error>)
    ensures r.Success? <==> Accepts(RefKind, v)
    ensures r.Success? ==> RefValue(r.value) == v
    ensures r.Failure? ==> r.error == TypeMismatch(name)
  {
    match v
    case Nil => Success(None)
    case Entity(x) => Success(Some(x))
    case _ => Failure(TypeMismatch(name))
  }

  /** The hash value a column holds, the inverse of the casts above. */
  function TextValue(o: Option<string>): Value {
    if o.Some? then Text(o.value) else Nil
  }

  function TimeValue(o: Option<Time>): Value {
    if o.Some? then Instant(o.value) else Nil
  }

  function NumberValue(o: Option<real>): Value {
    if o.Some? then Number(o.value) else Nil
  }

  function RefValue(o: Option<Ref>): Value {
    if o.Some? then Entity(o.value) else Nil
  }
}
