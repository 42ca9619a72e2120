/** The capabilities a command relies on and the process-wide registry (NcqrsEnvironment) that
    hands them out. The registry's own code and the generator's and enumerator's implementations
    are not part of this model: the registry is the map it keeps, the generator a stream of
    identifiers, the enumerator the set of command types it reports. */
module Environment {
  import opened Wrappers

  /** A 128-bit globally unique identifier (System.Guid). */
  type Guid = bv128

  /** A command type, identified by its full name. */
  type TypeDescriptor = string

  /** An IUniqueIdentifierGenerator: each call of GenerateNewId hands out one identifier, drawn
      from `source` in call order. `issued` lists the identifiers handed out so far. Nothing is
      assumed about `source`; in particular its values need not be distinct. */
  class UniqueIdentifierGenerator {
    const source: nat -> Guid
    var issued: seq<Guid>

    constructor (source: nat -> Guid)
      ensures this.source == source && issued == []
    {
      this.source := source;
      issued := [];
    }

    /** The identifier the next call of GenerateNewId returns. */
    function NextId(): Guid
      reads this
    {
      source(|issued|)
    }

    method GenerateNewId() returns (id: Guid)
      modifies this
      ensures id == old(NextId())
      ensures issued == old(issued) + [id]
    {
      id := source(|issued|);
      issued := issued + [id];
    }
  }

  /** An IKnownCommandsEnumerator, represented by what its GetAllCommandTypes reports. */
  datatype KnownCommandsEnumerator = KnownCommandsEnumerator(allCommandTypes: set<TypeDescriptor>)

  /** The capabilities the core looks up. */
  datatype Capability = UniqueIdentifierGeneratorKey | KnownCommandsEnumeratorKey

  datatype Instance =
    | Generator(generator: UniqueIdentifierGenerator)
    | Enumerator(enumerator: KnownCommandsEnumerator)

  /** The registry: each capability key maps to the instance registered for it, which may be
      null (`None`); a missing key means nothing was registered. */
  type Registry = map<Capability, Option<Instance>>

  /** NcqrsEnvironment.Get: the instance registered under `key`, or null. */
  function Lookup(env: Registry, key: Capability): (r: Option<Instance>)
    ensures r.Some? <==> key in env && env[key].Some?
    ensures r.Some? ==> env[key] == r
  {
    if key in env then env[key] else None
  }

  /** NcqrsEnvironment.Get<IUniqueIdentifierGenerator>(): the registered generator, or null when
      none (or an instance of another capability) is registered. */
  function GetGenerator(env: Registry): (r: UniqueIdentifierGenerator?)
    ensures r != null <==> Lookup(env, UniqueIdentifierGeneratorKey).Some?
                           && Lookup(env, UniqueIdentifierGeneratorKey).value.Generator?
    ensures r != null ==> Lookup(env, UniqueIdentifierGeneratorKey) == Some(Generator(r))
  {
    match Lookup(env, UniqueIdentifierGeneratorKey)
    case Some(Generator(g)) => g
    case _ => null
  }

  /** NcqrsEnvironment.Get<IKnownCommandsEnumerator>(): the registered enumerator, or null when
      none (or an instance of another capability) is registered. */
  function GetEnumerator(env: Registry): (r: Option<KnownCommandsEnumerator>)
    ensures r.Some? <==> Lookup(env, KnownCommandsEnumeratorKey).Some?
                         && Lookup(env, KnownCommandsEnumeratorKey).value.Enumerator?
    ensures r.Some? ==> Lookup(env, KnownCommandsEnumeratorKey) == Some(Enumerator(r.value))
  {
    match Lookup(env, KnownCommandsEnumeratorKey)
    case Some(Enumerator(e)) => Some(e)
    case _ => None
  }
}
