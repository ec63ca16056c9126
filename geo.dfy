/** The geolocation resolver (the Trackdown gem) at its interface: it may
    be absent, its database may be missing, and a lookup either yields one
    location record or raises. The gem itself is not part of this model. */
module Geo {
  import opened Common

  /** An opaque HTTP request context, handed to the resolver untouched. */
  datatype Request = Request(tag: nat)

  /** The eight geographic fields of one lookup result; any may be nil. */
  datatype Location = Location(
    countryCode: Option<string>,
    countryName: Option<string>,
    city: Option<string>,
    region: Option<string>,
    continent: Option<string>,
    timezone: Option<string>,
    latitude: Option<real>,
    longitude: Option<real>)

  const NoLocation := Location(None, None, None, None, None, None, None, None)

  /** The outcome of one call to `Trackdown.locate`. */
  datatype Lookup = Located(loc: Location) | Raised

  /** What the resolver would do: whether the `Trackdown` constant is
      defined, whether `Trackdown.database_exists?` holds, and the answer
      `locate` gives for an address and a request. */
  datatype Backend = Backend(
    defined: bool,
    databaseExists: bool,
    answer: (string, Option<Request>) -> Lookup)

  /** One call that reached the resolver. */
  datatype Call = Call(ip: string, request: Option<Request>)

  /** Calling `Trackdown.locate` when the constant is not defined raises
      `NameError`; otherwise the resolver answers. */
  function Attempt(b: Backend, ip: string, request: Option<Request>): Lookup {
    if b.defined then b.answer(ip, request) else Raised
  }

  /** The resolver as the host process sees it, with a log of the calls
      that reached it. */
  class Trackdown {
    const backend: Backend
    var calls: seq<Call>

    constructor (backend: Backend)
      ensures this.backend == backend && calls == []
    {
      this.backend := backend;
      calls := [];
    }

    method Locate(ip: string, request: Option<Request>) returns (r: Lookup)
      modifies this`calls
      ensures r == Attempt(backend, ip, request)
      ensures calls == old(calls) + if backend.defined then [Call(ip, request)] else []
    {
      if backend.defined {
        calls := calls + [Call(ip, request)];
        r := backend.answer(ip, request);
      } else {
        r := Raised;
      }
    }
  }
}
