/**
 * Entry-point bindings: the calling shapes a handler function can have, how a
 * plain function is called through each shape, and the default handlers for
 * the optional entry points.
 *
 * Each binding's `Call*` function is the blanket implementation of its shape
 * for any function `f` whose error type converts into an `AnyError` by
 * `into` (the `E: Into<anyhow::Error>` bound).
 */
module EntryPoints {
  import opened Wrappers
  import opened CosmWasm

  /** `execute` or `instantiate`, as the contract facade calls it: with sender info. */
  type ContractFn<!T, !Q, C> = (DepsMut<Q>, Env, MessageInfo, T) -> AnyResult<Response<C>>

  /** `sudo` or `migrate`: privileged, without sender info. */
  type PermissionedFn<!T, !Q, C> = (DepsMut<Q>, Env, T) -> AnyResult<Response<C>>

  /** `reply`: takes the structured outcome of a sub-message. */
  type ReplyFn<!Q, C> = (DepsMut<Q>, Env, Reply) -> AnyResult<Response<C>>

  /** `query`: read-only context, returns a serialized payload. */
  type QueryFn<!T, !Q> = (Deps<Q>, Env, T) -> AnyResult<Binary>

  /**
   * `ContractFn::call`: deps, env, info and msg go to `f` as they are; its
   * success is returned unchanged and its error only converted.
   */
  function CallContractFn<T, Q, C, E>(
    f: (DepsMut<Q>, Env, MessageInfo, T) -> Result<Response<C>, E>, into: E -> AnyError,
    deps: DepsMut<Q>, env: Env, info: MessageInfo, msg: T): (r: AnyResult<Response<C>>)
    ensures r.Ok? <==> f(deps, env, info, msg).Ok?
    ensures r.Ok? ==> r.value == f(deps, env, info, msg).value
    ensures r.Err? ==> r.error == into(f(deps, env, info, msg).error)
  {
    f(deps, env, info, msg).MapErr(into)
  }

  /** `PermissionedFn::call`: deps, env and msg go to `f`; no sender info exists in this shape. */
  function CallPermissionedFn<T, Q, C, E>(
    f: (DepsMut<Q>, Env, T) -> Result<Response<C>, E>, into: E -> AnyError,
    deps: DepsMut<Q>, env: Env, msg: T): (r: AnyResult<Response<C>>)
    ensures r.Ok? <==> f(deps, env, msg).Ok?
    ensures r.Ok? ==> r.value == f(deps, env, msg).value
    ensures r.Err? ==> r.error == into(f(deps, env, msg).error)
  {
    f(deps, env, msg).MapErr(into)
  }

  /** `ReplyFn::call`: the `Reply` itself goes to `f`, nothing is decoded. */
  function CallReplyFn<Q, C, E>(
    f: (DepsMut<Q>, Env, Reply) -> Result<Response<C>, E>, into: E -> AnyError,
    deps: DepsMut<Q>, env: Env, msg: Reply): (r: AnyResult<Response<C>>)
    ensures r.Ok? <==> f(deps, env, msg).Ok?
    ensures r.Ok? ==> r.value == f(deps, env, msg).value
    ensures r.Err? ==> r.error == into(f(deps, env, msg).error)
  {
    f(deps, env, msg).MapErr(into)
  }

  /** `QueryFn::call`: the returned `Binary` is passed through unchanged. */
  function CallQueryFn<T, Q, E>(
    f: (Deps<Q>, Env, T) -> Result<Binary, E>, into: E -> AnyError,
    deps: Deps<Q>, env: Env, msg: T): (r: AnyResult<Binary>)
    ensures r.Ok? <==> f(deps, env, msg).Ok?
    ensures r.Ok? ==> r.value == f(deps, env, msg).value
    ensures r.Err? ==> r.error == into(f(deps, env, msg).error)
  {
    f(deps, env, msg).MapErr(into)
  }

  /** `anyhow::Error` converts into itself. */
  function IntoAnyError(e: AnyError): AnyError {
    e
  }

  const SUDO_NOT_IMPLEMENTED: string := "Sudo not implemented on the contract"
  const REPLY_NOT_IMPLEMENTED: string := "Reply not implemented on the contract"
  const MIGRATE_NOT_IMPLEMENTED: string := "Migrate not implemented on the contract"

  /** The `sudo` handler installed when a contract supplies none: fails whatever it is given. */
  function DefaultSudoFn<Q, C>(deps: DepsMut<Q>, env: Env, msg: Empty): (r: AnyResult<Response<C>>)
    ensures r.Err? && r.error.message == SUDO_NOT_IMPLEMENTED
  {
    Err(AnyError(SUDO_NOT_IMPLEMENTED))
  }

  /** The `reply` handler installed when a contract supplies none: fails whatever it is given. */
  function DefaultReplyFn<Q, C>(deps: DepsMut<Q>, env: Env, msg: Reply): (r: AnyResult<Response<C>>)
    ensures r.Err? && r.error.message == REPLY_NOT_IMPLEMENTED
  {
    Err(AnyError(REPLY_NOT_IMPLEMENTED))
  }

  /** The `migrate` handler installed when a contract supplies none: fails whatever it is given. */
  function DefaultMigrateFn<Q, C>(deps: DepsMut<Q>, env: Env, msg: Empty): (r: AnyResult<Response<C>>)
    ensures r.Err? && r.error.message == MIGRATE_NOT_IMPLEMENTED
  {
    Err(AnyError(MIGRATE_NOT_IMPLEMENTED))
  }

  /**
   * Called through their bindings, the defaults still fail with their own
   * message, and each message names the entry point that is missing.
   */
  lemma DefaultsFailThroughBinding<Q, C>(deps: DepsMut<Q>, env: Env, msg: Empty, reply: Reply)
    ensures CallPermissionedFn(DefaultSudoFn<Q, C>, IntoAnyError, deps, env, msg) == Err(AnyError(SUDO_NOT_IMPLEMENTED))
    ensures CallReplyFn(DefaultReplyFn<Q, C>, IntoAnyError, deps, env, reply) == Err(AnyError(REPLY_NOT_IMPLEMENTED))
    ensures CallPermissionedFn(DefaultMigrateFn<Q, C>, IntoAnyError, deps, env, msg) == Err(AnyError(MIGRATE_NOT_IMPLEMENTED))
    ensures SUDO_NOT_IMPLEMENTED != REPLY_NOT_IMPLEMENTED && REPLY_NOT_IMPLEMENTED != MIGRATE_NOT_IMPLEMENTED
    ensures MIGRATE_NOT_IMPLEMENTED != SUDO_NOT_IMPLEMENTED
  {
  }
}
