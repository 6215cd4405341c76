# ethbind: contract bindings from Solidity ABI JSON, modelled in Dafny

ethbind turns a contract's ABI JSON, given as a bare ABI list or as a Hardhat artifact, into
Rust source code that calls the contract through a runtime library. This project models its
core and proves properties of the model.

- **Executor.** It names every tuple type by a structural key built from its nested tuples, and
  registers it first-writer-wins. It resolves parameter types to target-language text through
  a serde-backed table of `$`-placeholder templates.
- **Orchestrators.** Three generations of orchestrating code walk an ABI and drive a
  generator: `src/generate.rs`, `core/src/generate.rs` and `src/gen.rs`. The model follows
  `begin`, one call per function, event and error, the deployment, and the tuple
  declarations. Each run stops at the first failure.
- **Binding builder.** It queues builds and runs them in order over one shared executor,
  stopping at the first failing build.
- **Back ends.** There are three Rust back ends:
  - the template-driven `RustBinding` (`rust/src/binding*`, `rust/src/contract.rs`) keeps
    append-only per-contract lists, "current contract = last pushed";
  - the older single-contract `RustBinding` is in `src/gen/rust.rs`;
  - the runtime-binder `RustGenerator` is in `rust/src/gen/*`.

  They build one item per parameter under fixed naming rules: `P{i}`, and the name or else
  `p{i}`. Tuple components are walked along `{path}.{i}` paths, and event inputs are split
  into indexed topics and the data payload.

How the model is written:

- Token streams are modelled as their text.
- Some operations come from other crates or from the caller: case conversion (the `heck`
  crate), token-stream parsing (`proc_macro2`), the `<.+>` regex (the `regex` crate), the
  caller-supplied type-mapping context and the runtime binder. These are function-valued
  parameters (`RustTokens.Foreign`, `GenFunctions.RuntimeBinder`). Every result is stated
  relative to them.
- A `?` inside a loop is the fail-fast collection `RustTokens.Collect`: the values in order,
  or the first error.
- Objects whose fields the source updates in place are classes: the executor, the contexts,
  the binders, the builder and the generators. Their methods carry `modifies` clauses and are
  proved against specification functions, and the properties are lemmas about those
  functions.
- Generators that the orchestrators drive are a `Recorder`. It keeps the trace of calls it
  receives and fails according to a fixed oracle. It is given no access to the executor,
  although the source passes the context to every generator call (`ctx: &mut C`). So no
  generator call changes the executor's tables in the model.

Files:

- `wrappers.dfy`, `strings.dfy`, `abi.dfy`: results, string helpers (`join`, `replace`,
  decimal digits) and the ABI data model.
- `mapping.dfy`, `tuple_keys.dfy`, `executor.dfy`: the type mapping, tuple keys and the
  executor.
- `protocol.dfy`, `generation.dfy`, `core_generation.dfy`, `gen_contexts.dfy`, `builders.dfy`:
  the orchestrators and the builder.
- `rust_tokens.dfy`, `rust_contract.dfy`, `binding_*.dfy`, `rust_binding.dfy`: the
  template-driven back end.
- `legacy_rust.dfy`: the older back end.
- `rust_gen.dfy`, `gen_function.dfy` and `gen_event.dfy`: the runtime-binder back end.

## Model

| member | source | states |
|---|---|---|
| TypeMappings.GetMapping | src/gen/mapping.rs:24-46 | the placeholders are replaced in argument order; the call fails exactly when a `$` survives substitution, with `Serde(text, placeholder names joined by spaces)`; the template name must be in the table (the source unwraps `NotFound`) |
| TypeMappings.SubstituteAppend | src/gen/mapping.rs:32-34 | substitution is a left fold: the arguments `a1 ++ a2` act as `a1`, then `a2` |
| TypeMappings.PlaceholderOrderMatters | src/gen/mapping.rs:32-34 | example: with overlapping placeholders (`$m`, `$mm`), whichever comes first in the arguments wins |
| TypeMappings.ArrayOf | src/gen/mapping.rs:51-53 | `array` reads the `array` template; `NotFound("array")` exactly when the table lacks it; a result holds no `$` (values for a table matching the tests' expected outputs: `ShippedArray`) |
| TypeMappings.ArrayMOf | src/gen/mapping.rs:55-58 | `array_m` reads the `array_m` template; `NotFound` exactly when it is missing; a result holds no `$` (`ShippedArrayM`) |
| TypeMappings.BytesMOf | src/gen/mapping.rs:60-63 | `bytes_m` reads the `bytes_m` template; `NotFound` exactly when it is missing; a result holds no `$` (`ShippedBytesM`) |
| TypeMappings.FixedMNOf | src/gen/mapping.rs:65-79 | `fixed_m_n` reads `fixed_m_n` when signed and `ufixed_m_n` otherwise; `NotFound` exactly when that template is missing; a result holds no `$` (`ShippedFixedMN`) |
| TypeMappings.IntegerMOf | src/gen/mapping.rs:81-89 | `integer_m` reads `int_m` when signed and `uint_m` otherwise; `NotFound` exactly when that template is missing; a result holds no `$` (`ShippedIntegerM`) |
| TypeMappings.SimpleOf | src/gen/mapping.rs:91-93 | `simple(t)` reads the template named by the type's display name; `NotFound` exactly when it is missing; a result holds no `$` (`ShippedAddress`) |
| TypeMappings.AsTypeMapping | src/gen/mapping.rs:49-94 | the serde table as the six operations the executor calls; every text it resolves is free of placeholders (resolution through it: `CoreExecutor.MappedTypeSucceeds`) |
| TypeMappings.RequestsReadOwnTemplate | src/gen/mapping.rs:51-93 | each of the six requests depends on the table only through its own template (chosen by sign for the integer and fixed-point ones): two tables that agree on it give the same result |
| TypeMappings.ShippedArray | src/gen/mapping.rs:51-53 | example: with a table matching the tests' expected outputs, `array(e)` is `Vec<e>`, and fails exactly when `e` holds a `$` |
| TypeMappings.ShippedArrayM | src/gen/mapping.rs:55-58 | example: for a table matching the tests' expected outputs, `array_m(e, m)` is `[e;m]` for an element without `$` |
| TypeMappings.ShippedArrayMCapturesPlaceholder | src/gen/mapping.rs:32-36 | example: for a table matching the tests' expected outputs, the `$` check runs only after all substitutions, so a `$m` inside the element is replaced too: `array_m("$m", n)` is `[n;n]` |
| TypeMappings.ShippedBytesM | src/gen/mapping.rs:60-63 | example: for a table matching the tests' expected outputs, `bytes_m(m)` is `[u8;m]` |
| TypeMappings.ShippedIntegerM | src/gen/mapping.rs:81-89 | example: for a table matching the tests' expected outputs, `integer_m` is `Int<true,m>` for signed and `Int<false,m>` for unsigned widths |
| TypeMappings.ShippedFixedMN | src/gen/mapping.rs:65-79 | example: for a table matching the tests' expected outputs, `fixed_m_n` is `Fixed<true,m,n>` or `Fixed<false,m,n>` by signedness |
| TypeMappings.ShippedAddress | src/gen/mapping.rs:91-93 | example: for a table matching the tests' expected outputs, `simple(Address)` resolves the `address` template to `ethers_rs::Address` |
| TupleKeys.AddIfAbsent | core/src/executor.rs:85-89 | insertion only when the key is absent: existing entries are never replaced and the key set grows by exactly the key |
| TupleKeys.RegisteredExtends | core/src/executor.rs:65-89 | registering a tuple replaces no existing entry (first writer wins) |
| TupleKeys.RegisteredKeys | core/src/executor.rs:65-82 | registering adds exactly the tuple's own key and the keys of all nested tuples, so the returned key and every child key are present afterwards |
| TupleKeys.RegisteredWellFormed | core/src/executor.rs:65-82 | every entry stays stored under the structural key of the list it holds |
| TupleKeys.RegisteredPresent | core/src/executor.rs:85-89 | registering a tuple whose keys are all present changes nothing |
| TupleKeys.RegisteredIdempotent | core/src/executor.rs:65-89 | registering the same tuple twice equals registering it once |
| TupleKeys.ChildKeysEmpty | core/src/executor.rs:68-74 | only parameters whose components are present contribute a child key |
| TupleKeys.ScalarTupleKey | core/src/executor.rs:65-82 | the key is `()` exactly when no parameter carries components |
| TupleKeys.ChildKeysFromKeys | core/src/executor.rs:68-76 | every child key is itself a key, at least `()` long |
| TupleKeys.KeyIsEncoding | core/src/executor.rs:65-82 | the key is the text encoding of the tuple's nesting shape |
| TupleKeys.EncodePrefixFree | core/src/executor.rs:76 | the `(…,…)` encoding is prefix-free and injective |
| TupleKeys.KeyDeterminesShape | core/src/executor.rs:65-82 | two tuples get the same key exactly when they have the same nesting shape: names and scalar types do not matter |
| TupleKeys.ScalarTuplesCollide | core/src/executor.rs:65-89 | once one all-scalar tuple is registered under `()`, registering another all-scalar tuple leaves the registry unchanged |
| TupleKeys.RegisterListsSound | src/generate.rs:145-168 | registering whole parameter lists adds exactly their keys, replaces nothing and keeps every entry under its own key |
| TupleKeys.RegisterChildListsSound | src/gen.rs:139-165 | registering the nested tuples of lists adds exactly their nested keys, replaces nothing and keeps entries under their keys |
| CoreExecutor.Executor.constructor | core/src/executor.rs:28-32 | `Executor::default()`: both tables empty |
| CoreExecutor.Executor.TupleName | core/src/executor.rs:65-82 | returns the structural key; the tuple table becomes `Registered(old, tuple)`, children first; the mapping table is unchanged |
| CoreExecutor.Executor.AddTuple | core/src/executor.rs:85-89 | the tuple table gains the entry only if the name was absent; nothing else changes |
| CoreExecutor.Executor.RegisterTuple | core/src/executor.rs:49-51 | `register_tuple` is `tuple_name`: the same key and the same registry update |
| CoreExecutor.Executor.RegisterTupleMapping | core/src/executor.rs:53-60 | returns true exactly when the name was absent; on true it adds exactly `name → path`, on false the table is unchanged |
| CoreExecutor.Executor.MappingType | core/src/executor.rs:92-125 | the result is `MappedType` of the old mapping table; tuple types register their components and look up their key |
| CoreExecutor.Executor.MappingParameter | core/src/executor.rs:36-47 | maps the parameter's type with its components, or with none when they are absent |
| CoreExecutor.EmptyTupleKey | core/src/executor.rs:76 | example: the empty tuple's key is `()` |
| CoreExecutor.ArrayIgnoresComponents | core/src/executor.rs:111-117 | an array's element is resolved without components, so an array of tuples always looks up key `()` |
| CoreExecutor.TupleFreeIndependent | core/src/executor.rs:110-123 | a type without tuples resolves the same under any tuple table and any components, and registers nothing |
| CoreExecutor.MappedTypeSucceeds | core/src/executor.rs:99-109 | with a total type mapping, resolution fails exactly when the needed tuple key is missing, with `NotFound(key)` |
| CoreExecutor.TypeRegistryGrows | core/src/executor.rs:92-125 | resolving a type only adds tuple entries, each under its own key |
| CoreExecutor.ShippedFixedArrayOfUint | core/src/executor.rs:114-123 | example: with a table matching the tests' expected outputs, `uint<M>[N]` resolves to `[Int<false,M>;N]` |
| Abi.FirstConstructorInputs | src/generate.rs:83-91 | the inputs of the first constructor field, or none when there is no constructor |
| Abi.FindConstructorInputs | src/generate.rs:84-91 | the search loop stops at the first constructor and yields `FirstConstructorInputs` |
| Abi.FieldLists | src/generate.rs:149-167 | the parameter lists a field declares; receive and fallback declare none |
| Protocol.Attempted | src/generate.rs:121-142 | a fail-fast run issues a prefix of its calls |
| Protocol.AttemptedStopsAtFailure | src/generate.rs:121-142 | a run issues every call when none fails; otherwise it stops right after the first failing call, and every earlier call succeeded |
| Protocol.AttemptedAppend | src/generate.rs:93-97 | two batches in a row: the second starts only when the first succeeded, and the whole succeeds exactly when both do |
| Protocol.Chain | src/generate.rs:93-99 | two fail-fast runs, the second skipped after a failure, make one fail-fast run over both call lists |
| Protocol.FieldCall | src/generate.rs:124-139 | functions, events and errors dispatch one call each; constructors, receive and fallback dispatch none |
| Protocol.FieldCallsCover | src/generate.rs:123-140 | the dispatch issues at most one call per field, only function, event and error calls, and one for every such field |
| Protocol.Recorder.Invoke | src/generate.rs:14-45 | each generator call is appended to the trace, and succeeds exactly when the oracle says so |
| Protocol.DispatchFields | src/generate.rs:123-140 | the field loop's trace and outcome are the fail-fast run over the ABI's field calls |
| Protocol.DispatchStep | src/generate.rs:123-140 | after the first `i` fields succeeded, the run either continues with field `i` or has stopped for good |
| Generation.BeginFirstAndOnce | src/generate.rs:121-142 | `begin` is the first call and the only one; an ABI list issues no deployment |
| Generation.DeployLastAndOnce | src/generate.rs:82-100 | an artifact's deployment is the last call and the only one, with the bytecode and the first constructor's inputs |
| Generation.Generate | src/generate.rs:111-143 | `begin`, then the field dispatch, as one fail-fast run |
| Generation.GenerateHardhat | src/generate.rs:73-100 | the ABI's calls, then the deployment, as one fail-fast run |
| Generation.RegisterField | src/generate.rs:150-166 | one field registers each of its parameter lists as a whole tuple |
| Generation.RegisterTuples | src/generate.rs:145-168 | every parameter list of every field, in declaration order, is registered as a tuple |
| Generation.RegisterHardhatTuples | src/generate.rs:102-107 | an artifact registers the tuples of its ABI |
| Generation.FunctionListsOrder | src/generate.rs:154-157 | a function's inputs are registered before its outputs |
| CoreGeneration.TupleSink.RegisterTuple | core/src/generate.rs:159-165 | the context receives exactly the parameter, appended after the earlier ones |
| CoreGeneration.WithComponentsExact | core/src/generate.rs:160-164 | exactly the parameters whose components are present are kept |
| CoreGeneration.RegisterParams | core/src/generate.rs:159-165 | the free `register_tuples` passes on, in order, the parameters that carry components |
| CoreGeneration.RegisterField | core/src/generate.rs:138-154 | a field registers the parameters with components from each of its lists |
| CoreGeneration.RegisterTuples | core/src/generate.rs:133-156 | an ABI registers, in order, the parameters with components of every field's lists |
| CoreGeneration.RegisterHardhatTuples | core/src/generate.rs:97-102 | an artifact registers its ABI's |
| CoreGeneration.RegisteredAreTuples | core/src/generate.rs:159-165 | a parameter reaches the context exactly when it carries components and belongs to one of the lists |
| CoreGeneration.NoBeginNoDeploy | core/src/generate.rs:106-131 | an ABI list issues neither `begin` nor a deployment |
| CoreGeneration.Generate | core/src/generate.rs:106-131 | the field dispatch alone, as a fail-fast run |
| CoreGeneration.GenerateHardhat | core/src/generate.rs:73-95 | the ABI's dispatch, then the deployment with the first constructor's inputs |
| GenContexts.Context.constructor | src/gen.rs:9-13 | `Context::default()`: no name and no tuples |
| GenContexts.Context.RegisterTuple | src/gen.rs:16-20 | the entry is added only when the name is absent; the name is unchanged |
| GenContexts.GenerateTupleTypeDeclare | src/gen.rs:212-226 | returns the structural key of the components, after registering every nested tuple (innermost first) but not the components themselves |
| GenContexts.HandleInputOutputParams | src/gen.rs:202-210 | registers every parameter's components as a tuple, nested tuples first |
| GenContexts.HandleField | src/gen.rs:145-161 | a field registers the nested tuples of each of its parameter lists |
| GenContexts.CreateContext | src/gen.rs:139-165 | a fresh context named `name`, holding the nested tuples of all parameter lists |
| GenContexts.CreateHardhatContext | src/gen.rs:133-135 | an artifact's context is its ABI's |
| GenContexts.ContextTuplesSound | src/gen.rs:139-165 | the context holds exactly the nested keys of the ABI's lists, each entry under its own key |
| GenContexts.TupleCallsExactlyOnce | src/gen.rs:193-195 | under any iteration order of the map, every registry entry is declared, only registry entries are, and none twice |
| GenContexts.CompleteAfterFailure | src/gen.rs:193-195 | a failing declaration ends the loop whatever order the remaining keys have |
| GenContexts.GenerateTuples | src/gen.rs:193-195 | one `generate_tuple` per registry entry, in an iteration order the method exhibits, stopping at the first failure |
| GenContexts.GenerateContractFields | src/gen.rs:171-190 | the contract generator, then the field dispatch, fail-fast |
| GenContexts.GenerateWithContext | src/gen.rs:167-198 | contract generator, field dispatch, then the tuple declarations, as one fail-fast run |
| GenContexts.GenerateHardhatWithContext | src/gen.rs:110-131 | the deployment first, then everything the ABI list generates |
| GenContexts.Generate | src/gen.rs:99-106 | create the context, then generate with it |
| GenContexts.GenerateHardhat | src/gen.rs:99-106 | the same for an artifact |
| Builders.GenerateOne | core/src/executor.rs:136-149 | the tuples, when asked for, are registered before any generator call, so they stay in place even when generation fails; the trace is the contract's fail-fast run |
| Builders.BuildContract | core/src/executor.rs:183-189 | a build whose text cannot be read decodes to nothing; a decoded contract is an artifact exactly for the Hardhat builds |
| Builders.BindingBuilder.constructor | core/src/executor.rs:168-173 | no queued builds |
| Builders.BindingBuilder.Bind | core/src/executor.rs:176-192 | queues exactly one ABI-list build from text |
| Builders.BindingBuilder.BindHardhat | core/src/executor.rs:195-211 | queues exactly one artifact build from text |
| Builders.BindingBuilder.BindFile | core/src/executor.rs:214-234 | queues exactly one ABI-list build from a file |
| Builders.BindingBuilder.BindHardhatFile | core/src/executor.rs:237-257 | queues exactly one artifact build from a file |
| Builders.BindingBuilder.Finalize | core/src/executor.rs:260-268 | a fresh executor, then every build in queue order; the generator's trace and the executor's registry are those of the run, which stops at the first failing build; the tuple-mapping table stays empty |
| Builders.RunBuild | core/src/executor.rs:183-189 | one queued closure: read, decode, register the tuples, generate |
| Builders.RunStops | core/src/executor.rs:263-265 | a failing build ends the run: later builds add neither calls nor tuples |
| Builders.RunOkIff | core/src/executor.rs:260-268 | `finalize` succeeds exactly when every queued build decodes and generates |
| Builders.RunTraceWhenOk | core/src/executor.rs:263-265 | after a successful run, the generator has seen each build's calls in queue order and the executor holds every build's tuples |
| Builders.UndecodableBuildIsSilent | core/src/executor.rs:184 | a build whose text does not decode issues no generator call and registers nothing |
| RustTokens.TemplateStream | rust/src/binding.rs:58-67 | `get_mapping_token_stream` (the same body at src/gen/rust.rs:169-178): succeeds exactly when the template resolves and its text parses; it fails with `Mapping(NotFound(name))` exactly when the table lacks the name |
| RustTokens.MappingParameter | rust/src/binding.rs:119-129 | succeeds exactly when the context's type text parses; otherwise it reports that text |
| RustContract.ContractBinding.constructor | rust/src/contract.rs:13-21 | the identifier, with all four lists empty |
| RustContract.ContractBinding.AddImplStream | rust/src/contract.rs:22-26 | appends exactly one impl stream; the other lists are unchanged |
| RustContract.ContractBinding.AddTupleStream | rust/src/contract.rs:28-36 | appends exactly one tuple entry; the other lists are unchanged |
| RustContract.ContractBinding.AddErrorStream | rust/src/contract.rs:38-46 | appends exactly one error entry; the other lists are unchanged |
| RustContract.ContractBinding.AddEventStream | rust/src/contract.rs:48-56 | appends exactly one event entry; the other lists are unchanged |
| RustContract.ContractBinding.GenCodes | rust/src/contract.rs:58-139 | the enums are named `<ident>Events` and `<ident>Errors`; their variants and match arms follow the entries one to one in insertion order; functions and tuple structures keep insertion order |
| BindingFunctions.ToFnGenericList | rust/src/binding/function.rs:10-25 | `P0,…,P(n-1),`, one generic per input |
| BindingFunctions.ToFnParamsList | rust/src/binding/function.rs:28-47 | `snake(name_i) : P{i},` for every input, in order |
| BindingFunctions.ToFnGenericWhereClause | rust/src/binding/function.rs:50-76 | one bound per input, in order, and the first input whose type does not parse aborts |
| BindingFunctions.ToFnParamsTryIntoCallList | rust/src/binding/function.rs:79-96 | one `let v = v.try_into()?;` per input |
| BindingFunctions.WhereClausesOutcome | rust/src/binding/function.rs:50-76 | the where clauses succeed exactly when every input's type parses; entry i bounds `P{i}` by that type; otherwise the error names the first input that does not parse |
| BindingFunctions.NamesOnly | rust/src/binding/function.rs:10-47 | the generic, parameter and conversion lists depend on the inputs' names only |
| BindingDecodable.RewriteAngles | rust/src/binding/decodable.rs:18-25 | each regex match, in order, has all its occurrences replaced by `::` and the match |
| BindingDecodable.ToDecodable | rust/src/binding/decodable.rs:9-33 | the mapped type, rewritten into turbofish form, and the `indexed` flag, filled into `rt_to_decodable` |
| BindingDecodable.ToDecodables | rust/src/binding/decodable.rs:35-47 | one decodable per input, in order, and the first failure aborts |
| BindingDecodable.TurbofishOnLine | rust/src/binding/decodable.rs:18-25 | on one line, where the regex `<.+>` matches greedily, `::` is inserted once, right before the first `<`; a type without `<…>` passes unchanged |
| BindingDecodable.DecodablesOutcome | rust/src/binding/decodable.rs:35-47 | the list succeeds exactly when every input does, and otherwise reports the first failing input's error |
| BindingEncodable.ToEncodables | rust/src/binding/encodable.rs:21-33 | one encodable per input, in order, and the first failing template aborts |
| BindingEncodable.EncodablesIgnoreTypes | rust/src/binding/encodable.rs:9-18 | the encodables depend on the inputs' names only, never on their types |
| BindingEncodable.EncodablesWhenTemplateResolves | rust/src/binding/encodable.rs:9-33 | when the template resolves, entry i is the template filled with input i's snake-cased name |
| BindingTuple.ToTupleFields | rust/src/binding/tuple.rs:10-29 | one field per component, in order, comma-terminated; a component whose type does not map aborts |
| BindingTuple.TupleFieldsOutcome | rust/src/binding/tuple.rs:10-29 | the fields succeed exactly when every type parses; field i is `snake(name_i) : type_i`, and otherwise the first unparsable component is reported |
| RustBindings.RustBinding.constructor | rust/src/binding.rs:17-22 | the mapping, and no contract |
| RustBindings.RustBinding.AddImplStream | rust/src/binding.rs:69-76 | appends to the last contract only; the earlier contracts are unchanged |
| RustBindings.RustBinding.AddErrorStream | rust/src/binding.rs:78-85 | appends one error entry to the last contract only |
| RustBindings.RustBinding.AddTupleStream | rust/src/binding.rs:87-94 | appends one tuple entry to the last contract only |
| RustBindings.RustBinding.AddEventStream | rust/src/binding.rs:96-103 | appends one event entry to the last contract only |
| RustBindings.RustBinding.ToTokenStreams | rust/src/binding.rs:25-42 | fails exactly when one of the three runtime templates does not resolve; otherwise one `(identifier, code)` pair per contract, in push order |
| RustBindings.RustBinding.ToText | rust/src/binding.rs:45-56 | the code of every contract, in contract order |
| RustBindings.RustBinding.ContractName | rust/src/binding.rs:105-111 | the identifier of the contract pushed last, which `Begin` sets to the upper-camel-cased name; it requires a contract in progress (the `expect("Call begin first")` panic) |
| RustBindings.RustBinding.Begin | rust/src/binding/generator.rs:12-18 | pushes exactly one fresh contract named by the upper-camel-cased name, with empty lists; earlier contracts are kept |
| RustBindings.RustBinding.GenerateDeploy | rust/src/binding/generator.rs:20-68 | every fallible step runs before the append, so it appends exactly the deploy function or changes nothing |
| RustBindings.DeployStreamSucceeds | rust/src/binding/generator.rs:20-46 | the deploy text is built exactly when every input's type text parses, `rt_to_encodable` resolves for every input, and the `rt_context`, `rt_ops`, `rt_error`, `rt_tx_receipt` and `rt_encode_input` templates resolve |
| RustBindings.RustBinding.BuildDeploy | rust/src/binding/generator.rs:26-46 | the deploy function text; the steps run in source order (where clauses, encodables, then the `rt_context`, `rt_ops`, `rt_error`, `rt_tx_receipt` and `rt_encode_input` templates), and the first failing step's error is returned |
| RustBindings.RustBinding.GenerateError | rust/src/binding/generator.rs:70-89 | appends exactly one error entry, the camel-cased name and `rt_contract_error_new` over the inputs' decodables; on failure nothing changes |
| RustBindings.RustBinding.GenerateEvent | rust/src/binding/generator.rs:91-112 | appends exactly one event entry, the camel-cased name and `rt_contract_event_new` over the inputs' decodables; on failure nothing changes |
| RustBindings.RustBinding.GenerateFunction | rust/src/binding/generator.rs:114-120 | no effect, success |
| RustBindings.RustBinding.GenerateTuple | rust/src/binding/generator.rs:122-144 | appends exactly one tuple structure named `rType` with the tuple's fields; on failure nothing changes |
| RustBindings.RustBinding.MappingTuple | rust/src/binding/generator.rs:146-161 | the contract name, then for `struct X.Y` the rest with every `.` removed, otherwise `Tuple` and the whole name |
| LegacyRust.TupleToEncodingParam | src/gen/rust.rs:127-167 | field i is encoded at path `{path}.{i}`, nested tuples recursively, tuples without components skipped, all wrapped as `vec![…]` |
| LegacyRust.FlatTuplePaths | src/gen/rust.rs:137-163 | for a tuple of scalar fields, clause i is `rt_to_encodable_param` of `{path}.{i}`, in order |
| LegacyRust.GenInputStreams | src/gen/rust.rs:44-124 | `rt_error` first, then per input a generic, a parameter, a where clause bounded by `Into<rt_error>`, a conversion and its encoding clauses; the first failure aborts |
| LegacyRust.InputListsShape | src/gen/rust.rs:68-115 | four lists hold one entry per input (`P{i}`, `snake(name_i) : P{i}`); encodings are one per input except component-less tuples |
| LegacyRust.EncodeInput | src/gen/rust.rs:90-113 | a tuple with components is encoded along the input's own name, one without components contributes nothing, any other input is `rt_to_encodable_param` of its snake-cased name |
| LegacyRust.RustBinding.constructor | src/gen/rust.rs:18-24 | no contract identifier and no functions |
| LegacyRust.RustBinding.GenCodes | src/gen/rust.rs:26-41 | fails only when `rt_context` does not resolve; otherwise the struct and its impl block over the functions in push order |
| LegacyRust.RustBinding.StartGenerateContract | src/gen/rust.rs:185-194 | the identifier becomes the camel-cased contract name; the functions are kept |
| LegacyRust.RustBinding.GenerateDeploy | src/gen/rust.rs:195-240 | all lookups run before the push: exactly one function is appended, or nothing changes |
| LegacyRust.RustBinding.GenerateError | src/gen/rust.rs:242-248 | no effect, success |
| LegacyRust.RustBinding.GenerateEvent | src/gen/rust.rs:250-256 | no effect, success |
| LegacyRust.RustBinding.GenerateFunction | src/gen/rust.rs:258-264 | no effect, success |
| LegacyRust.RustBinding.GenerateTuple | src/gen/rust.rs:266-273 | the empty string |
| RustGen.RustGenerator.constructor | rust/src/gen/mod.rs:5-8 | the default generator has no contracts |
| RustGen.RustGenerator.NewContract | rust/src/gen/mod.rs:12-14 | appends exactly one fresh, empty contract generator named `name`; earlier ones are unchanged |
| RustGen.RustGenerator.CurrentContract | rust/src/gen/mod.rs:17-19 | the last-pushed generator; it requires a contract (the source panics otherwise) |
| RustGen.ContractGenerator.constructor | rust/src/gen/contract.rs:13-18 | the name, with the function, event and error lists empty |
| RustGen.ContractGenerator.AddFnTokenStream | rust/src/gen/contract.rs:20-22 | exactly one stream at the end; length grows by one; the name and the event and error lists are unchanged |
| GenFunctions.VarName | rust/src/gen/function.rs:20-24 | the parameter's name when non-empty, else `p{i}` |
| GenFunctions.ToParamList | rust/src/gen/function.rs:10-30 | entry i is `v: P{i}` with v the name or `p{i}` |
| GenFunctions.ToGenericList | rust/src/gen/function.rs:33-47 | `P0 … P(n-1)` |
| GenFunctions.ToTryIntoList | rust/src/gen/function.rs:69-87 | one `let v = v.try_into()?` per parameter, same naming rule |
| GenFunctions.ParamAndTryIntoAgree | rust/src/gen/function.rs:17-27 | entry i of the parameter list is `VarName(p_i, i): P{i}` and entry i of the conversion list is `let v = v.try_into()?` with the same `VarName`, `p{i}` for a nameless parameter |
| GenFunctions.ToWhereClauseList | rust/src/gen/function.rs:50-66 | one bound per parameter on its Rust type, and the first failure aborts |
| GenFunctions.WhereClausesOutcome | rust/src/gen/function.rs:50-66 | the where clauses succeed exactly when every parameter's Rust type does; clause i bounds `P{i}` by that type |
| GenFunctions.ToRustType | rust/src/gen/function.rs:136-162 | the binder's declared type, or the tuple of the components' types; absent components fail |
| GenFunctions.TupleRustType | rust/src/gen/function.rs:148-161 | a tuple the binder leaves to the generator has the outputs type of its components; without components it fails with the missing-components panic |
| GenFunctions.ToOutputsType | rust/src/gen/function.rs:164-175 | the tuple of the outputs' Rust types |
| GenFunctions.OutputsTypeOutcome | rust/src/gen/function.rs:164-175 | it succeeds exactly when every output's type does, and then holds them one to one |
| GenFunctions.ToRlpEncode | rust/src/gen/function.rs:178-208 | the binder's encoding of the variable into `outputs`, or the tuple of the components' encodings along `{var}.{i}` |
| GenFunctions.FlatTupleEncode | rust/src/gen/function.rs:185-207 | for a tuple of known component types, component i is encoded from `{var}.{i}` by its own runtime type, in order |
| GenFunctions.ToRlpDecode | rust/src/gen/function.rs:210-238 | the binder's decoding from `inputs`, or the tuple of the components' decodings |
| GenFunctions.RlpSameShape | rust/src/gen/function.rs:178-238 | encoding and decoding walk the same tree: the same binder error, and one entry per component for a generator-built tuple |
| GenFunctions.ToRlpEncodeList | rust/src/gen/function.rs:90-111 | one encoding per parameter, from the parameter's own name, with absent components as none |
| GenFunctions.ToRlpDecodeList | rust/src/gen/function.rs:113-133 | the tuple of one decoding per parameter |
| GenEvents.EventVar | rust/src/gen/event.rs:19-23 | the snake-cased name, or `p{i}` for a nameless input |
| GenEvents.ToEventFieldList | rust/src/gen/event.rs:9-29 | one `v: type` per input, in order, and the first failing type aborts |
| GenEvents.EventFieldsOutcome | rust/src/gen/event.rs:14-26 | the field list succeeds exactly when every input's Rust type does; field i is the input's variable and type |
| GenEvents.DecodeFromData | rust/src/gen/event.rs:70-76 | always fails: the body is `unimplemented!()` |
| GenEvents.ToEventDecodeTokenStreams | rust/src/gen/event.rs:31-68 | per input, a tuple or a non-indexed input reaches `decode_from_data` and aborts; an indexed scalar gives an empty statement, then a second empty statement |
| GenEvents.EventDecodesOutcome | rust/src/gen/event.rs:40-65 | decoding succeeds exactly when every input is an indexed non-tuple; it then yields 2·n empty statements, and otherwise fails as unimplemented |

## Left out

- JSON and file input: `serde_json` decoding and `read_to_string` are one abstract parameter (`Builders.Io`). The type-string grammar of the `json` module is not part of this model; types are given as a datatype.
- Case conversion, token-stream parsing and the regex engine are foreign helpers, passed in as functions. So is the runtime binder of `rust/src/gen/*` (`RuntimeBinder::to_runtime_type`). `Ident::new` panics on text that is not an identifier; that panic is not modelled.
- Token spacing and pretty printing: generated code is modelled as text with fixed separators. `quote!` spacing, `to_string` spacing of token streams and `rust/src/pretty.rs` are left out.
- Logging (`log::warn!`, `log::debug!`) is left out. HashMap iteration order is not fixed: the tuple loop of `src/gen.rs` is proved for an order it exhibits, and `GenContexts.TupleCallsExactlyOnce` holds for any order.
- Panics are modelled in one of two ways:
  - as preconditions, where they stop a state-changing call: "Call begin first", "Call new_contract first", and the `unwrap` of a missing template in `get_mapping`.
    The `requires` for a contract in progress on `GenerateDeploy`, `GenerateEvent` and `GenerateTuple` of `RustBindings.RustBinding` is stricter than the source. There, a fallible step that fails returns `Err` before `add_*_stream` could panic. Every caller in the repository calls `begin` first. On `GenerateError` the `requires` is exactly the source's condition: its first statement calls `mod_ident`, which panics through `contract_name` before any fallible step (rust/src/binding/generator.rs:75).
  - as failure values, where they stop a computed value: a missing template in `get_mapping_token_stream`, a missing tuple key in `mapping_type`, absent components in `to_rust_type`, and `unimplemented!()`.
  - Every `TypeMapping` method of `SerdeTypeMapping` (src/gen/mapping.rs:51-93) unwraps the result of `get_mapping`. A placeholder left after substitution is therefore a panic in the source too. The model keeps it as the failure value `Serde(text, names)` (`TypeMappings.ArrayOf`, `ArrayMOf`, `BytesMOf`, `FixedMNOf`, `IntegerMOf`, `SimpleOf`, `AsTypeMapping`). The `unwrap` of a missing template (the `NotFound` of src/gen/mapping.rs:25-30) is a precondition only of the method `TypeMappings.GetMapping`. The `TypeMapping` functions listed above, and `AsTypeMapping` return it as `Failure(NotFound(name))`, and `RustTokens.TemplateStream` as `Failure(Mapping(NotFound(name)))`, where the source panics.
- `RustBinding::mod_ident` (rust/src/binding.rs:113-115) is called by `generate_error` (rust/src/binding/generator.rs:75), which never uses the value. Its only effect is the "Call begin first" panic of `contract_name`, and `RustBindings.RustBinding.GenerateError` requires a contract in progress, so the call is not modelled separately.
- `to_runtime_type_ident` (rust/src/gen/mod.rs:21-31) is called by no modelled operation. `rust/src/gen/generator.rs` is a stub that is not part of this model.
- `base_index` in `to_event_docode_token_streams` is computed and never read. GenEvents.EventDecodes takes no anonymous flag, so the outcome cannot depend on it.
- Tests, mock runtimes, proc-macro plumbing and the expected-output data.
- `data/mapping.json` is not part of this model. The `Shipped*` examples use `TypeMappings.Shipped`, a table rebuilt from the outputs the tests at src/gen/mapping.rs:112-152 expect.
- Builders.GenerateOne: the generator gets no access to the executor. In the source every generator method receives `ctx: &mut C` (src/generate.rs:14-45), and the `Context` trait lets it call `reigster_tuple_mapping` or `mapping_parameter` (core/src/executor.rs:9-24). So "the mapping table is unchanged" and "the registry is exactly the registration pass" follow from this choice of model. They are not promises of the source for an arbitrary generator.
- Builders.RunBuild: for the same reason, its registry equation covers only the registration of the decoded contract. Tuples that a generator registers through `mapping_parameter` are not modelled.
- Builders.BindingBuilder.Finalize: for the same reason, the registry and the empty mapping table are stated for a generator that leaves the executor alone. The shipped binding generator never calls `reigster_tuple_mapping`. So in the source any tuple parameter reaches the `unwrap` of `NotFound` in `mapping_type` (core/src/executor.rs:101-106). The model states this as `executor.mappingTuples == map[]` together with `CoreExecutor.MappedTypeSucceeds`.
- BindingDecodable.TurbofishOnLine: stated only for a regex oracle that returns the greedy match on a single line. The regex engine itself is not modelled.
- RustBindings.RustBinding.ToTokenStreams: on failure of the event or error template it states only that the call fails; the error value is pinned only for `rt_context`.
