/**
 * The contract facade the host engine talks to: one bound handler per entry
 * point, each operation decoding its raw payload and delegating.
 *
 * `fromSlice` stands for the payload decoder of the handler's message type
 * (`from_slice::<T>`); the model treats it as an arbitrary function, so every
 * property below holds whatever it does.
 */
module Facade {
  import opened Wrappers
  import opened CosmWasm
  import opened EntryPoints

  datatype ContractWrapper<!ExecMsg, !InstMsg, !QueryMsg, !SudoMsg, !MigrateMsg, !Q, C> = ContractWrapper(
    executeFn: ContractFn<ExecMsg, Q, C>,
    instantiateFn: ContractFn<InstMsg, Q, C>,
    queryFn: QueryFn<QueryMsg, Q>,
    sudoFn: PermissionedFn<SudoMsg, Q, C>,
    replyFn: ReplyFn<Q, C>,
    migrateFn: PermissionedFn<MigrateMsg, Q, C>)
  {
    /** Decodes the payload, stopping at a decoding error, and calls the execute handler. */
    function Execute(deps: DepsMut<Q>, env: Env, info: MessageInfo, msg: Binary,
                     fromSlice: Binary -> AnyResult<ExecMsg>): (r: AnyResult<Response<C>>)
      ensures fromSlice(msg).Err? ==> r == Err(fromSlice(msg).error)
      ensures fromSlice(msg).Ok? ==> r == executeFn(deps, env, info, fromSlice(msg).value)
    {
      var decoded :- fromSlice(msg);
      executeFn(deps, env, info, decoded)
    }

    /** Decodes the payload, stopping at a decoding error, and calls the instantiate handler. */
    function Instantiate(deps: DepsMut<Q>, env: Env, info: MessageInfo, msg: Binary,
                         fromSlice: Binary -> AnyResult<InstMsg>): (r: AnyResult<Response<C>>)
      ensures fromSlice(msg).Err? ==> r == Err(fromSlice(msg).error)
      ensures fromSlice(msg).Ok? ==> r == instantiateFn(deps, env, info, fromSlice(msg).value)
    {
      var decoded :- fromSlice(msg);
      instantiateFn(deps, env, info, decoded)
    }

    /** Decodes the payload, stopping at a decoding error, and calls the query handler on read-only deps. */
    function Query(deps: Deps<Q>, env: Env, msg: Binary,
                   fromSlice: Binary -> AnyResult<QueryMsg>): (r: AnyResult<Binary>)
      ensures fromSlice(msg).Err? ==> r == Err(fromSlice(msg).error)
      ensures fromSlice(msg).Ok? ==> r == queryFn(deps, env, fromSlice(msg).value)
    {
      var decoded :- fromSlice(msg);
      queryFn(deps, env, decoded)
    }

    /** Decodes the payload, stopping at a decoding error, and calls the sudo handler. */
    function Sudo(deps: DepsMut<Q>, env: Env, msg: Binary,
                  fromSlice: Binary -> AnyResult<SudoMsg>): (r: AnyResult<Response<C>>)
      ensures fromSlice(msg).Err? ==> r == Err(fromSlice(msg).error)
      ensures fromSlice(msg).Ok? ==> r == sudoFn(deps, env, fromSlice(msg).value)
    {
      var decoded :- fromSlice(msg);
      sudoFn(deps, env, decoded)
    }

    /** Hands the sub-message outcome to the reply handler; there is nothing to decode. */
    function Reply(deps: DepsMut<Q>, env: Env, msg: CosmWasm.Reply): (r: AnyResult<Response<C>>)
      ensures r == replyFn(deps, env, msg)
    {
      replyFn(deps, env, msg)
    }

    /** Decodes the payload, stopping at a decoding error, and calls the migrate handler. */
    function Migrate(deps: DepsMut<Q>, env: Env, msg: Binary,
                     fromSlice: Binary -> AnyResult<MigrateMsg>): (r: AnyResult<Response<C>>)
      ensures fromSlice(msg).Err? ==> r == Err(fromSlice(msg).error)
      ensures fromSlice(msg).Ok? ==> r == migrateFn(deps, env, fromSlice(msg).value)
    {
      var decoded :- fromSlice(msg);
      migrateFn(deps, env, decoded)
    }
  }

  /**
   * `ContractWrapper::new`: the three given handlers, each bound through its
   * entry-point shape, and the default sudo, reply and migrate handlers.
   */
  function New<ExecMsg(!new), InstMsg(!new), QueryMsg(!new), Q(!new), C, ExecErr, InstErr, QueryErr>(
    execute: (DepsMut<Q>, Env, MessageInfo, ExecMsg) -> Result<Response<C>, ExecErr>, executeInto: ExecErr -> AnyError,
    instantiate: (DepsMut<Q>, Env, MessageInfo, InstMsg) -> Result<Response<C>, InstErr>, instantiateInto: InstErr -> AnyError,
    query: (Deps<Q>, Env, QueryMsg) -> Result<Binary, QueryErr>, queryInto: QueryErr -> AnyError)
    : (w: ContractWrapper<ExecMsg, InstMsg, QueryMsg, Empty, Empty, Q, C>)
    ensures forall deps, env, info, msg :: w.executeFn(deps, env, info, msg) == CallContractFn(execute, executeInto, deps, env, info, msg)
    ensures forall deps, env, info, msg :: w.instantiateFn(deps, env, info, msg) == CallContractFn(instantiate, instantiateInto, deps, env, info, msg)
    ensures forall deps, env, msg :: w.queryFn(deps, env, msg) == CallQueryFn(query, queryInto, deps, env, msg)
    ensures forall deps, env, msg :: w.sudoFn(deps, env, msg) == Err(AnyError(SUDO_NOT_IMPLEMENTED))
    ensures forall deps, env, msg :: w.replyFn(deps, env, msg) == Err(AnyError(REPLY_NOT_IMPLEMENTED))
    ensures forall deps, env, msg :: w.migrateFn(deps, env, msg) == Err(AnyError(MIGRATE_NOT_IMPLEMENTED))
  {
    ContractWrapper(
      (deps, env, info, msg) => CallContractFn(execute, executeInto, deps, env, info, msg),
      (deps, env, info, msg) => CallContractFn(instantiate, instantiateInto, deps, env, info, msg),
      (deps, env, msg) => CallQueryFn(query, queryInto, deps, env, msg),
      (deps, env, msg) => CallPermissionedFn(DefaultSudoFn<Q, C>, IntoAnyError, deps, env, msg),
      (deps, env, msg) => CallReplyFn(DefaultReplyFn<Q, C>, IntoAnyError, deps, env, msg),
      (deps, env, msg) => CallPermissionedFn(DefaultMigrateFn<Q, C>, IntoAnyError, deps, env, msg))
  }

  /**
   * A wrapper built by `New`: sudo and migrate report a malformed payload as
   * the decoding error, and a decodable one as the fixed "not implemented"
   * message; reply fails with its own message for every outcome.
   */
  lemma NewDefaultsFail<ExecMsg(!new), InstMsg(!new), QueryMsg(!new), Q(!new), C, ExecErr, InstErr, QueryErr>(
    execute: (DepsMut<Q>, Env, MessageInfo, ExecMsg) -> Result<Response<C>, ExecErr>, executeInto: ExecErr -> AnyError,
    instantiate: (DepsMut<Q>, Env, MessageInfo, InstMsg) -> Result<Response<C>, InstErr>, instantiateInto: InstErr -> AnyError,
    query: (Deps<Q>, Env, QueryMsg) -> Result<Binary, QueryErr>, queryInto: QueryErr -> AnyError,
    deps: DepsMut<Q>, env: Env, msg: Binary, fromSlice: Binary -> AnyResult<Empty>, reply: CosmWasm.Reply)
    ensures var w := New(execute, executeInto, instantiate, instantiateInto, query, queryInto);
      && w.Sudo(deps, env, msg, fromSlice)
         == (if fromSlice(msg).Err? then Err(fromSlice(msg).error) else Err(AnyError(SUDO_NOT_IMPLEMENTED)))
      && w.Migrate(deps, env, msg, fromSlice)
         == (if fromSlice(msg).Err? then Err(fromSlice(msg).error) else Err(AnyError(MIGRATE_NOT_IMPLEMENTED)))
      && w.Reply(deps, env, reply) == Err(AnyError(REPLY_NOT_IMPLEMENTED))
  {
  }

  /**
   * A wrapper built by `New` runs the supplied handlers: on a decodable payload
   * each of execute, instantiate and query fails exactly when its handler
   * fails, with the converted error, and otherwise returns the handler's result.
   */
  lemma NewDelegatesToSuppliedHandlers<ExecMsg(!new), InstMsg(!new), QueryMsg(!new), Q(!new), C, ExecErr, InstErr, QueryErr>(
    execute: (DepsMut<Q>, Env, MessageInfo, ExecMsg) -> Result<Response<C>, ExecErr>, executeInto: ExecErr -> AnyError,
    instantiate: (DepsMut<Q>, Env, MessageInfo, InstMsg) -> Result<Response<C>, InstErr>, instantiateInto: InstErr -> AnyError,
    query: (Deps<Q>, Env, QueryMsg) -> Result<Binary, QueryErr>, queryInto: QueryErr -> AnyError,
    deps: DepsMut<Q>, readDeps: Deps<Q>, env: Env, info: MessageInfo, msg: Binary,
    execDecode: Binary -> AnyResult<ExecMsg>, instDecode: Binary -> AnyResult<InstMsg>, queryDecode: Binary -> AnyResult<QueryMsg>)
    ensures var w := New(execute, executeInto, instantiate, instantiateInto, query, queryInto);
      && (execDecode(msg).Ok? ==>
            var out := execute(deps, env, info, execDecode(msg).value);
            w.Execute(deps, env, info, msg, execDecode) == if out.Ok? then Ok(out.value) else Err(executeInto(out.error)))
      && (instDecode(msg).Ok? ==>
            var out := instantiate(deps, env, info, instDecode(msg).value);
            w.Instantiate(deps, env, info, msg, instDecode) == if out.Ok? then Ok(out.value) else Err(instantiateInto(out.error)))
      && (queryDecode(msg).Ok? ==>
            var out := query(readDeps, env, queryDecode(msg).value);
            w.Query(readDeps, env, msg, queryDecode) == if out.Ok? then Ok(out.value) else Err(queryInto(out.error)))
  {
  }

  /**
   * No cross-wiring: each operation's result depends on its own handler only,
   * so replacing every other handler leaves it unchanged.
   */
  lemma OperationsUseOnlyTheirOwnHandler<ExecMsg, InstMsg, QueryMsg, SudoMsg, MigrateMsg, Q, C>(
    w: ContractWrapper<ExecMsg, InstMsg, QueryMsg, SudoMsg, MigrateMsg, Q, C>,
    v: ContractWrapper<ExecMsg, InstMsg, QueryMsg, SudoMsg, MigrateMsg, Q, C>,
    deps: DepsMut<Q>, readDeps: Deps<Q>, env: Env, info: MessageInfo, msg: Binary, reply: CosmWasm.Reply,
    execDecode: Binary -> AnyResult<ExecMsg>, instDecode: Binary -> AnyResult<InstMsg>,
    queryDecode: Binary -> AnyResult<QueryMsg>, sudoDecode: Binary -> AnyResult<SudoMsg>,
    migrateDecode: Binary -> AnyResult<MigrateMsg>)
    ensures v.(executeFn := w.executeFn).Execute(deps, env, info, msg, execDecode)
            == w.Execute(deps, env, info, msg, execDecode)
    ensures v.(instantiateFn := w.instantiateFn).Instantiate(deps, env, info, msg, instDecode)
            == w.Instantiate(deps, env, info, msg, instDecode)
    ensures v.(queryFn := w.queryFn).Query(readDeps, env, msg, queryDecode) == w.Query(readDeps, env, msg, queryDecode)
    ensures v.(sudoFn := w.sudoFn).Sudo(deps, env, msg, sudoDecode) == w.Sudo(deps, env, msg, sudoDecode)
    ensures v.(replyFn := w.replyFn).Reply(deps, env, reply) == w.Reply(deps, env, reply)
    ensures v.(migrateFn := w.migrateFn).Migrate(deps, env, msg, migrateDecode) == w.Migrate(deps, env, msg, migrateDecode)
  {
  }
}
