# Contract adapter core of cw-multi-test, modelled in Dafny

cw-multi-test runs CosmWasm smart-contract code inside a simulated chain.
Its contract adapter turns handler functions into one uniform contract
interface. The handlers are written against different message payload types
and different chain-extension types (a query type `Q` and a custom-message
type `C`). This project models that adapter's three pieces:

- **Type customization** (`context.rs`, module `Context`). A request context
  (`Deps<Q>`, `DepsMut<Q>`) can be narrowed to the baseline type `Empty`. It
  keeps the same storage, api and querier. A `SubMsg<Empty>` or
  `Response<Empty>` can be widened to any `C`. The four core message variants
  are always copied. IBC and Stargate messages are copied only in a build with
  the `stargate` feature. `Custom` is unreachable, and every other variant
  aborts with "unknown message variant". A response keeps its events,
  attributes and data, and its submessages are widened one by one, in order.
- **Entry-point binding** (`entry_points.rs`, module `EntryPoints`). There are
  four calling shapes: execute/instantiate, sudo/migrate, reply and query. Each
  one forwards its inputs to the handler and only converts the error. There
  are also three default handlers that always fail with a fixed message.
- **Contract facade** (`contract_wrapper.rs`, module `Facade`). A
  `ContractWrapper` holds one handler per entry point, and `New` installs the
  three defaults. Every operation except `reply` first decodes its raw payload.
  It stops at a decoding error; otherwise it returns exactly what the handler
  returns.

Modelling choices:

- The extension types are Dafny type parameters, and `Empty` is a one-value
  datatype. `QuerierWrapper<Q>` is a wrapper around an opaque querier handle
  whose only link to `Q` is its type.
- Storage, api and querier objects are opaque handles compared by identity.
  Message payloads, events, attributes and `Binary` values are opaque and
  compared by equality.
- A panic in widening is an explicit `Panic(Unreachable)` or
  `Panic(UnknownVariant(sub))` outcome. It is not a recoverable error.
- The compile-time `stargate` cargo feature is a `bool` parameter. This way
  both builds are covered by the same lemmas.
- `CosmosMsg` is non-exhaustive. Its `Gov` variant stands for the variants the
  widening match does not name.
- The payload decoder `from_slice::<T>` is an arbitrary parameter
  `fromSlice: Binary -> AnyResult<T>` of each facade operation. Its error is
  already the uniform `AnyError`.
- A handler's `E: Into<anyhow::Error>` bound is modelled as a conversion
  function `into: E -> AnyError`, passed beside the handler.
- The ghost functions `BaselineMsg`, `BaselineSubMsg`, `BaselineMessages` and
  `BaselineResponse` read a widened value back under `Empty`. They are the
  reference for what widening keeps.

The source files disagree with each other in two places; the model follows the
shape the call sites use:

- `default_sudo_fn` and `default_migrate_fn` are declared with a
  `MessageInfo` parameter (`entry_points.rs:113-118`, `134-139`). The
  `DefPermissionedFn` alias they are stored as (`contract_wrapper.rs:13`) and
  the call sites (`contract_wrapper.rs:98`, `116`) have no sender info. The
  model gives both defaults the three-argument permissioned shape.
- The `Contract` impl names `ContractFn`, `QueryFn` and `PermissionedFn`
  without their message type `Msg` (`contract_wrapper.rs:56-59`, `61`);
  `ReplyFn<Q, C>` (line 60) matches its declaration. The model uses the full
  shapes. For example, `ContractFn<T, Q, C>` includes the message type `T`.

## Model

| member | source | states |
|---|---|---|
| Context.CustomizeDepsMut | src/contracts/context.rs:23-34 | the narrowed `DepsMut<Empty>` has the identical storage and api handles and wraps the same underlying querier |
| Context.CustomizeDeps | src/contracts/context.rs:50-61 | the narrowed read-only `Deps<Empty>` has the identical storage and api handles and wraps the same underlying querier |
| Context.CustomizeDepsMutInjective | src/contracts/context.rs:27-33 | narrowing a `DepsMut` forgets only the query type: two contexts narrow to the same value exactly when they are equal |
| Context.CustomizeDepsInjective | src/contracts/context.rs:54-60 | narrowing a `Deps` forgets only the query type: two contexts narrow to the same value exactly when they are equal |
| Context.CustomizeBaselineDepsIsIdentity | src/contracts/context.rs:19-61 | a context already typed with `Empty` is unchanged by narrowing |
| Context.CustomizeMsg | src/contracts/context.rs:69-89 | widening a submessage succeeds exactly for Wasm, Bank, Staking and Distribution, and for Ibc and Stargate when the feature is on; on success id, gas limit and reply policy are kept and the message reads back as the same variant with the same payload; otherwise `Custom` is `Unreachable` and every other variant is `UnknownVariant` of that submessage |
| Context.CustomizeMessages | src/contracts/context.rs:99-100 | the list of submessages widens exactly when every element does; the result has the same length and element i is the widening of input element i |
| Context.CustomizeMessagesPanicsAtFirst | src/contracts/context.rs:77-100 | when widening a list aborts, the reason is that of the first submessage that cannot be widened |
| Context.CustomizeMessagesRoundTrip | src/contracts/context.rs:99-100 | widened submessages read back under `Empty` are exactly the input list |
| Context.CustomizeResponse | src/contracts/context.rs:97-107 | a response widens exactly when all its submessages do; then events, attributes and data are those of the input and the submessages are widened element by element in order; otherwise the abort is that of the submessage list |
| Context.CustomizeResponseRoundTrip | src/contracts/context.rs:97-107 | a widened response read back under `Empty` is the input response |
| Context.CustomizeResponseAgreesAcrossExtensions | src/contracts/context.rs:96-107 | widening one response to two different extension types succeeds for both or for neither, and the two results agree once read back under `Empty` |
| Context.CustomizeMessagesToBaselineIsIdentity | src/contracts/context.rs:99-100 | widening a widenable submessage list to `Empty` itself returns the list unchanged |
| Context.CustomizeResponseToBaselineIsIdentity | src/contracts/context.rs:97-107 | widening a widenable response to `Empty` itself returns the response unchanged |
| Context.StargateFeatureOnlyAffectsIbcAndStargate | src/contracts/context.rs:78-82 | the `stargate` feature changes the outcome only for Ibc and Stargate messages: with it they are copied, without it they abort as an unknown variant |
| EntryPoints.CallContractFn | src/contracts/entry_points.rs:26-41 | execute/instantiate binding: fails exactly when the handler fails, with the handler's error converted; on success returns the handler's response unchanged |
| EntryPoints.CallPermissionedFn | src/contracts/entry_points.rs:55-64 | sudo/migrate binding: the handler gets deps, env and msg and no sender info; fails exactly when it fails, with the converted error, else returns its response |
| EntryPoints.CallReplyFn | src/contracts/entry_points.rs:78-87 | reply binding: the handler gets the structured `Reply` itself; fails exactly when it fails, with the converted error, else returns its response |
| EntryPoints.CallQueryFn | src/contracts/entry_points.rs:101-110 | query binding: fails exactly when the handler fails, with the converted error, else returns the handler's `Binary` unchanged |
| EntryPoints.DefaultSudoFn | src/contracts/entry_points.rs:113-123 | fails for every input with "Sudo not implemented on the contract" |
| EntryPoints.DefaultReplyFn | src/contracts/entry_points.rs:126-131 | fails for every input with "Reply not implemented on the contract" |
| EntryPoints.DefaultMigrateFn | src/contracts/entry_points.rs:134-144 | fails for every input with "Migrate not implemented on the contract" |
| EntryPoints.DefaultsFailThroughBinding | src/contracts/entry_points.rs:112-144 | called through their bindings the three defaults keep their fixed messages, and the three messages are pairwise distinct |
| Facade.New | src/contracts/contract_wrapper.rs:39-48 | the execute, instantiate and query fields call the given handlers through their bindings; the sudo, reply and migrate fields fail with their fixed "not implemented" messages for every input |
| Facade.ContractWrapper.Execute | src/contracts/contract_wrapper.rs:63-71 | a decoding failure is returned as is and the handler is not consulted; otherwise the result is `execute_fn`'s result for the decoded message |
| Facade.ContractWrapper.Instantiate | src/contracts/contract_wrapper.rs:73-81 | a decoding failure is returned as is; otherwise the result is `instantiate_fn`'s result for the decoded message |
| Facade.ContractWrapper.Query | src/contracts/contract_wrapper.rs:83-90 | a decoding failure is returned as is; otherwise the result is `query_fn`'s result on the read-only deps |
| Facade.ContractWrapper.Sudo | src/contracts/contract_wrapper.rs:92-99 | a decoding failure is returned as is; otherwise the result is `sudo_fn`'s result, with no sender info |
| Facade.ContractWrapper.Reply | src/contracts/contract_wrapper.rs:101-108 | the `Reply` goes straight to `reply_fn` with no decoding step, and its result is returned |
| Facade.ContractWrapper.Migrate | src/contracts/contract_wrapper.rs:110-117 | a decoding failure is returned as is; otherwise the result is `migrate_fn`'s result, with no sender info |
| Facade.NewDefaultsFail | src/contracts/contract_wrapper.rs:39-48 | on a wrapper built by `New`, sudo and migrate return the decoding error for a malformed payload and their fixed "not implemented" message for a decodable one; reply fails with "Reply not implemented on the contract" for every `Reply` |
| Facade.NewDelegatesToSuppliedHandlers | src/contracts/contract_wrapper.rs:63-90 | on a wrapper built by `New` with a decodable payload, execute, instantiate and query fail exactly when the supplied handler fails, with its converted error, and otherwise return its result |
| Facade.OperationsUseOnlyTheirOwnHandler | src/contracts/contract_wrapper.rs:63-117 | no cross-wiring: each operation's result depends only on its own handler field, whatever the other five hold |

## Left out

- Payload decoding (`from_slice` and serde JSON) is an external library. It is a parameter of each facade operation, and the properties hold for every decoder.
- `anyhow` errors are modelled by their message only. Cause chains and the `From` conversion applied by `?` are not modelled, so a decoding error is returned exactly as the decoder produced it.
- Lifetimes, borrows and the behaviour of storage, api and `QuerierWrapper` are not modelled. They belong to external collaborators and appear only as handles.
- The `Contract` trait definition and the host application that calls it are not part of this model.
- The contents of events, attributes, message payloads and `Binary` are opaque.
- The integer widths of the submessage id and gas limit (`u64`) are not modelled. The adapter only copies them and does no arithmetic on them.
- Panic unwinding is not modelled. A panic is an outcome that ends the conversion, and no caller recovers from it.
- Casting a bound handler to other extension types, and the builder methods that replace the default sudo, reply and migrate handlers, are not part of this model.
- Rust's trait resolution of which shape a callable satisfies is not modelled. Each handler is passed explicitly for its own entry point.
