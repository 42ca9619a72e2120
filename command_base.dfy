/** The base of every command message (Ncqrs.Commanding.CommandBase): how a command gets its
    identifier, and how the command types known to the process are discovered. */
module Commanding {
  import opened Wrappers
  import opened Environment

  /** The exceptions the core raises itself. */
  datatype Error = ArgumentNull | InvalidOperation

  /** The identifier the generator constructor stores, or the exception it raises: a null
      generator is refused with ArgumentNullException, otherwise the command takes the id the
      generator hands out next. */
  function GeneratorPathIdentifier(idGenerator: UniqueIdentifierGenerator?): (r: Result<Guid, Error>)
    reads idGenerator
    ensures r.Failure? <==> idGenerator == null
    ensures r.Failure? ==> r.error == ArgumentNull
    ensures r.Success? ==> r.value == idGenerator.source(|idGenerator.issued|)
  {
    if idGenerator == null then Failure(ArgumentNull) else Success(idGenerator.NextId())
  }

  /** The identifier the parameterless constructor stores, or the exception it raises. */
  function DefaultPathIdentifier(env: Registry): (r: Result<Guid, Error>)
    reads GetGenerator(env)
    ensures r.Failure? <==> !(Lookup(env, UniqueIdentifierGeneratorKey).Some?
                              && Lookup(env, UniqueIdentifierGeneratorKey).value.Generator?)
    ensures r.Failure? ==> r.error == ArgumentNull
    ensures r.Success? ==> Lookup(env, UniqueIdentifierGeneratorKey) == Some(Generator(GetGenerator(env)))
                           && r.value == GetGenerator(env).NextId()
  {
    GeneratorPathIdentifier(GetGenerator(env))
  }

  /** The identifier a construction attempt ends with, or its exception. */
  function IdentifierOf(r: Result<CommandBase, Error>): Result<Guid, Error>
  {
    match r
    case Success(c) => Success(c.commandIdentifier)
    case Failure(e) => Failure(e)
  }

  class CommandBase {
    /** Assigned by exactly one constructor and never afterwards (a private setter). */
    const commandIdentifier: Guid

    /** CommandBase(Guid): the given identifier is stored as it is. */
    constructor FromIdentifier(commandIdentifier: Guid)
      ensures this.commandIdentifier == commandIdentifier
    {
      this.commandIdentifier := commandIdentifier;
    }

    /** CommandBase(IUniqueIdentifierGenerator) for a generator that satisfies its contract
        (not null): GenerateNewId is called exactly once and its result is stored. */
    constructor FromGenerator(idGenerator: UniqueIdentifierGenerator)
      modifies idGenerator
      ensures Success(commandIdentifier) == old(GeneratorPathIdentifier(idGenerator))
      ensures idGenerator.issued == old(idGenerator.issued) + [commandIdentifier]
    {
      var id := idGenerator.GenerateNewId();
      commandIdentifier := id;
    }

    /** `new C(idGenerator)`: fails with ArgumentNullException, and touches nothing, when the
        generator is null; otherwise constructs through FromGenerator. */
    static method WithGenerator(idGenerator: UniqueIdentifierGenerator?) returns (r: Result<CommandBase, Error>)
      modifies idGenerator
      ensures IdentifierOf(r) == old(GeneratorPathIdentifier(idGenerator))
      ensures r.Success? ==> fresh(r.value)
      ensures r.Success? ==> idGenerator != null
                             && idGenerator.issued == old(idGenerator.issued) + [r.value.commandIdentifier]
    {
      if idGenerator == null {
        return Failure(ArgumentNull);
      }
      var c := new CommandBase.FromGenerator(idGenerator);
      return Success(c);
    }

    /** `new C()`: the generator constructor applied to whatever generator the environment
        holds, so a missing generator ends in the same ArgumentNullException. */
    static method WithEnvironment(env: Registry) returns (r: Result<CommandBase, Error>)
      modifies GetGenerator(env)
      ensures IdentifierOf(r) == old(DefaultPathIdentifier(env))
      ensures IdentifierOf(r) == old(GeneratorPathIdentifier(GetGenerator(env)))
      ensures r.Success? ==> fresh(r.value)
      ensures r.Success? ==> GetGenerator(env) != null
                             && GetGenerator(env).issued == old(GetGenerator(env).issued) + [r.value.commandIdentifier]
    {
      r := WithGenerator(GetGenerator(env));
    }

    /** GetKnownTypes: fails with InvalidOperationException when no known-commands enumerator is
        registered; otherwise returns exactly what the enumerator reports. */
    static function GetKnownTypes(env: Registry): (r: Result<set<TypeDescriptor>, Error>)
      ensures r.Failure? <==> !(Lookup(env, KnownCommandsEnumeratorKey).Some?
                                && Lookup(env, KnownCommandsEnumeratorKey).value.Enumerator?)
      ensures r.Failure? ==> r.error == InvalidOperation
      ensures r.Success? ==> Lookup(env, KnownCommandsEnumeratorKey).value.enumerator.allCommandTypes == r.value
    {
      match GetEnumerator(env)
      case None => Failure(InvalidOperation)
      case Some(enumerator) => Success(enumerator.allCommandTypes)
    }
  }

  /** Constructing a command consults only the generator capability: whatever is registered
      under the enumerator key does not change its outcome. */
  lemma ConstructionIgnoresEnumerator(env: Registry, e: Option<Instance>)
    ensures GetGenerator(env[KnownCommandsEnumeratorKey := e]) == GetGenerator(env)
    ensures DefaultPathIdentifier(env[KnownCommandsEnumeratorKey := e]) == DefaultPathIdentifier(env)
  {
  }

  /** Discovering the known types consults only the enumerator capability. */
  lemma KnownTypesIgnoreGenerator(env: Registry, g: Option<Instance>)
    ensures CommandBase.GetKnownTypes(env[UniqueIdentifierGeneratorKey := g]) == CommandBase.GetKnownTypes(env)
  {
  }
}
