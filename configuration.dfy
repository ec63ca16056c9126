/** The library's process-wide configuration holder: a lazily created,
    memoised `Configuration` object that `configure` yields, that the
    `configuration=` writer replaces and that `reset` renews. */
module Settings {

  /** `Footprinted::Configuration`; `async` defaults to false. */
  class Configuration {
    var async: bool

    constructor ()
      ensures !async
    {
      async := false;
    }
  }

  /** The `Footprinted` module object and its `@configuration` variable. */
  class Footprinted {
    var configuration: Configuration?

    constructor ()
      ensures configuration == null
    {
      configuration := null;
    }

    /** `configuration`: `@configuration ||= Configuration.new`. */
    method GetConfiguration() returns (c: Configuration)
      modifies this
      ensures old(configuration) != null ==> c == old(configuration)
      ensures old(configuration) == null ==> fresh(c) && !c.async
      ensures configuration == c
    {
      if configuration == null {
        configuration := new Configuration();
      }
      c := configuration;
    }

    /** `configure { |config| ... }`: the block runs on the memoised
        instance; `update` is what the block does to `async`. */
    method Configure(update: bool -> bool) returns (c: Configuration)
      modifies this, configuration
      ensures old(configuration) != null ==> c == old(configuration) && c.async == update(old(configuration.async))
      ensures old(configuration) == null ==> fresh(c) && c.async == update(false)
      ensures configuration == c
    {
      c := GetConfiguration();
      c.async := update(c.async);
    }

    /** `configuration = c`. */
    method SetConfiguration(c: Configuration?)
      modifies this
      ensures configuration == c
    {
      configuration := c;
    }

    /** `reset`: a new default instance. */
    method Reset()
      modifies this
      ensures configuration != null && fresh(configuration) && !configuration.async
    {
      configuration := new Configuration();
    }
  }

  /** Reads between writes return one instance, and `configure` blocks act
      on it one after another. */
  method ConfigureTwice(lib: Footprinted, first: bool -> bool, second: bool -> bool) returns (c1: Configuration, c2: Configuration)
    modifies lib, lib.configuration
    ensures c1 == c2 && lib.configuration == c1
    ensures old(lib.configuration) != null ==> c2.async == second(first(old(lib.configuration.async)))
    ensures old(lib.configuration) == null ==> c2.async == second(first(false))
  {
    c1 := lib.Configure(first);
    c2 := lib.Configure(second);
  }

  /** After `reset`, the configuration read is a new instance, distinct
      from the one read before, with `async` false. */
  method ResetRenews(lib: Footprinted) returns (before: Configuration, after: Configuration)
    modifies lib
    ensures before != after && !after.async && lib.configuration == after
  {
    before := lib.GetConfiguration();
    lib.Reset();
    after := lib.GetConfiguration();
  }

  /** After `configuration = c`, reads return `c`. */
  method WriterReplaces(lib: Footprinted, c: Configuration) returns (read: Configuration)
    modifies lib
    ensures read == c && read.async == old(c.async)
  {
    lib.SetConfiguration(c);
    read := lib.GetConfiguration();
  }
}
