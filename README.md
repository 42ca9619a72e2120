# Ncqrs command identity, known-type discovery and the rethrowing interceptor

This project models two small pieces of the Ncqrs command pipeline in Dafny and proves what they promise.

- **`CommandBase`** (module `Commanding`) is the base of every command message. A command's `CommandIdentifier` is set exactly once, by one of three constructors:
  - from an explicit Guid, stored as given;
  - from an explicit `IUniqueIdentifierGenerator`, which must not be null and whose single `GenerateNewId()` result is stored;
  - with no arguments, which chains to the generator constructor with whatever generator `NcqrsEnvironment` holds.

  The static `GetKnownTypes` asks the environment for an `IKnownCommandsEnumerator`. It throws `InvalidOperationException` when none is registered. Otherwise it returns what the enumerator reports.
- **`ThrowOnExceptionInterceptor`** (module `ThrowOnExceptionInterceptor`) is a command-service interceptor with three hooks. The two "before" hooks do nothing. `OnAfterExecution` throws `context.Exception` whenever the context is not null.

Supporting modules:
- `Wrappers` holds `Option` (null) and `Result` (an exception thrown instead of a value).
- `Environment` holds the capabilities and the registry:
  - `NcqrsEnvironment` is the map it keeps, from capability key to an optional instance.
  - A generator is an object that hands out the identifiers of a stream, one per call, and records what it has handed out.
  - An enumerator is the set of command types it reports.

The constructors are modelled as a class whose identifier is a `const` that only a constructor assigns. The C# setter is private, so only `CommandBase`'s own members could reassign the identifier, and none other than the constructors does (CommandBase.cs:24-82); a `const` therefore captures it: nothing changes the identifier after construction. A C# constructor that throws has no counterpart among Dafny constructors. So the two ways `new` can end, a command or an exception, are modelled by the static methods `WithGenerator` and `WithEnvironment`. They are proved against the pure functions `GeneratorPathIdentifier` and `DefaultPathIdentifier`. The interceptor is stateless, so each hook is a function. It maps the context it is handed to how the hook ends (`Normal` or `Throws(t)`) and to the context as the hook leaves it. What is thrown is either a recorded exception object, identified by its reference identity, or the new NullReferenceException the runtime creates for `throw null`, which is none of the objects a context can record.

The class name says the interceptor throws on an exception, and a context whose execution succeeded carries none. Yet the code does not test the exception field, so it throws on every non-null context. The model follows the code. The difference is logged under Findings.

## Model

| member | source | states |
|---|---|---|
| `Environment.GetGenerator` | Framework/src/Ncqrs/Commanding/CommandBase.cs:51 | The generator lookup yields a generator exactly when one is registered under the generator key, and then it yields that instance; otherwise it yields null |
| `Environment.GetEnumerator` | Framework/src/Ncqrs/Commanding/CommandBase.cs:76 | The enumerator lookup yields an enumerator exactly when one is registered under the enumerator key, and then it yields that instance; otherwise it yields null |
| `Environment.UniqueIdentifierGenerator.GenerateNewId` | Framework/src/Ncqrs/Commanding/CommandBase.cs:66 | One call hands out the generator's next identifier and records exactly that one identifier as issued |
| `Commanding.GeneratorPathIdentifier` | Framework/src/Ncqrs/Commanding/CommandBase.cs:62-67 | The generator constructor fails with ArgumentNull if and only if the generator is null; otherwise its identifier is the one the generator hands out next |
| `Commanding.DefaultPathIdentifier` | Framework/src/Ncqrs/Commanding/CommandBase.cs:51-54 | The parameterless constructor fails with ArgumentNull if and only if no generator is registered; otherwise its identifier is the registered generator's next one |
| `Commanding.CommandBase.FromIdentifier` | Framework/src/Ncqrs/Commanding/CommandBase.cs:24-39 | The explicit-id constructor stores exactly the given Guid, in a field that nothing assigns after construction |
| `Commanding.CommandBase.FromGenerator` | Framework/src/Ncqrs/Commanding/CommandBase.cs:62-67 | With a non-null generator, GenerateNewId is called exactly once (one identifier is added to what the generator has issued) and that identifier is stored |
| `Commanding.CommandBase.WithGenerator` | Framework/src/Ncqrs/Commanding/CommandBase.cs:62-67 | Constructing with a null generator ends in ArgumentNull and produces no command; a non-null generator yields a fresh command holding the generator's single new identifier |
| `Commanding.CommandBase.WithEnvironment` | Framework/src/Ncqrs/Commanding/CommandBase.cs:51-54 | The parameterless construction ends exactly as the generator construction does when applied to the environment's generator, so an unregistered generator also ends in ArgumentNull |
| `Commanding.CommandBase.GetKnownTypes` | Framework/src/Ncqrs/Commanding/CommandBase.cs:74-82 | Fails with InvalidOperation if and only if no enumerator is registered; otherwise returns exactly the registered enumerator's command types, adding or removing nothing |
| `Commanding.ConstructionIgnoresEnumerator` | Framework/src/Ncqrs/Commanding/CommandBase.cs:51 | Whatever is registered under the enumerator key does not change how the parameterless constructor ends |
| `Commanding.KnownTypesIgnoreGenerator` | Framework/src/Ncqrs/Commanding/CommandBase.cs:76-81 | Whatever is registered under the generator key does not change the result of GetKnownTypes |
| `ThrowOnExceptionInterceptor.ThrowStatement` | Extensions/src/Ncqrs.CommandService/Infrastructure/ThrowOnExceptionInterceptor.cs:20 | `throw e` throws the object e itself; it throws a recorded object if and only if e is not null, and otherwise a new NullReferenceException |
| `ThrowOnExceptionInterceptor.OnBeforeBeforeExecutorResolving` | Extensions/src/Ncqrs.CommandService/Infrastructure/ThrowOnExceptionInterceptor.cs:7-10 | The hook ends normally for every context, null included, and leaves the context unchanged |
| `ThrowOnExceptionInterceptor.OnBeforeExecution` | Extensions/src/Ncqrs.CommandService/Infrastructure/ThrowOnExceptionInterceptor.cs:12-15 | The hook ends normally for every context, null included, and leaves the context unchanged |
| `ThrowOnExceptionInterceptor.OnAfterExecution` | Extensions/src/Ncqrs.CommandService/Infrastructure/ThrowOnExceptionInterceptor.cs:17-21 | The hook ends normally if and only if the context is null. A recorded exception is thrown as the same object, and a recorded object is thrown if and only if the context is non-null and carries one; a context with nothing recorded throws a new NullReferenceException instead. The context is left unchanged |
| `ThrowOnExceptionInterceptor.NothingCapturedStillThrows` | Extensions/src/Ncqrs.CommandService/Infrastructure/ThrowOnExceptionInterceptor.cs:19-20 | A non-null context with no recorded exception still makes OnAfterExecution throw, a new NullReferenceException |
| `ThrowOnExceptionInterceptor.OnAfterExecutionIntended` | Extensions/src/Ncqrs.CommandService/Infrastructure/ThrowOnExceptionInterceptor.cs:17-21 | Corrected hook: it throws if and only if the context is non-null and carries a recorded exception, and then it throws exactly that exception |
| `ThrowOnExceptionInterceptor.AsWrittenDiffersOnlyWhenNothingCaptured` | Extensions/src/Ncqrs.CommandService/Infrastructure/ThrowOnExceptionInterceptor.cs:19-20 | The hook as written and the corrected hook differ exactly on non-null contexts with no recorded exception |
| `ThrowOnExceptionInterceptor.AsWrittenDiffersFromIntended` | Extensions/src/Ncqrs.CommandService/Infrastructure/ThrowOnExceptionInterceptor.cs:19-20 | Some context makes the hook as written throw a new NullReferenceException where the corrected hook ends normally |

## Left out

- `NcqrsEnvironment`, `IUniqueIdentifierGenerator` and `IKnownCommandsEnumerator` are not part of this model; only what the core asks of them is represented. The registry is a map from capability key to an optional instance. An instance registered under the wrong key reads as absent.
- Uniqueness and randomness of generated Guids are not modelled. The code stores whatever the generator returns, and the generator's stream is arbitrary.
- `GetKnownTypes` returns an `IEnumerable<Type>` in the source; it is modelled as a set of type names, so order and duplicates are not represented.
- The reflection-based enumeration of the AppDomain's command types is not modelled.
- The WCF serialization attributes (`[Serializable]`, `[DataContract]`, `[KnownType]`) are not modelled.
- The `[ExcludeInMapping]` attribute is not modelled; it concerns executor parameter mapping.
- `CommandBase` is abstract in C#. The model is a concrete class standing for any derived command.
- Code Contracts rewriting is not modelled; `Contract.Requires<ArgumentNullException>` is read as "throw ArgumentNullException when false".
- The interceptor chain, the dispatcher and executor resolution are not part of this model. The definition of `CommandContext` is not part of this model either: its command and executor are opaque handles and only its `Exception` field is used.
- Rethrowing with `throw e` resets the stack trace of e. The model identifies an exception object by its identity only, so that change to the object is not represented.

## Findings

| source | as written | input that shows it | evidently intended | confidence | as-written member | corrected member |
|---|---|---|---|---|---|---|
| Extensions/src/Ncqrs.CommandService/Infrastructure/ThrowOnExceptionInterceptor.cs:19-20 | `OnAfterExecution` throws `context.Exception` for every non-null context, without testing whether an exception was recorded | a non-null context whose execution succeeded, so `Exception` is null: `throw null` raises a NullReferenceException | rethrow only a recorded exception; end normally when none was recorded | medium; not executed | `ThrowOnExceptionInterceptor.OnAfterExecution`, `ThrowOnExceptionInterceptor.AsWrittenDiffersFromIntended` | `ThrowOnExceptionInterceptor.OnAfterExecutionIntended` |
