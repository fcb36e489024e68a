/**
 * The cosmwasm-std and anyhow types the adapter layer works on. They belong to
 * external libraries: payloads, events, attributes and binaries are kept opaque
 * and compared by equality, and storage, api and querier objects are handles
 * compared by identity.
 */
module CosmWasm {
  import opened Wrappers

  newtype byte = x: int | 0 <= x < 256

  /** An opaque serialized payload (`Binary`, or the raw `Vec<u8>` of a call). */
  type Binary = seq<byte>

  type Addr = string

  /** The baseline extension type: "no chain-specific extension". */
  datatype Empty = Empty

  /** `anyhow::Error`: only its rendered message is part of the contract. */
  datatype AnyError = AnyError(message: string)

  type AnyResult<T> = Result<T, AnyError>

  /** Identity of the storage, api and querier objects borrowed for one call. */
  datatype StorageRef = StorageRef(id: nat)
  datatype ApiRef = ApiRef(id: nat)
  datatype QuerierRef = QuerierRef(id: nat)

  /** `QuerierWrapper<Q>`: the same underlying querier, presented with query type Q. */
  datatype QuerierWrapper<Q> = QuerierWrapper(querier: QuerierRef)

  /** Mutable request context (`DepsMut<Q>`). */
  datatype DepsMut<Q> = DepsMut(storage: StorageRef, api: ApiRef, querier: QuerierWrapper<Q>)

  /** Read-only request context (`Deps<Q>`). */
  datatype Deps<Q> = Deps(storage: StorageRef, api: ApiRef, querier: QuerierWrapper<Q>)

  datatype Coin = Coin(denom: string, amount: nat)

  /** Execution metadata. */
  datatype Env = Env(height: nat, time: nat, chainId: string, contract: Addr)

  /** Sender identity and attached funds. */
  datatype MessageInfo = MessageInfo(sender: Addr, funds: seq<Coin>)

  datatype Attribute = Attribute(key: string, value: string)

  datatype Event = Event(kind: string, attributes: seq<Attribute>)

  /** Payloads of the message variants, opaque to the adapter. */
  datatype WasmMsg = WasmMsg(encoded: Binary)
  datatype BankMsg = BankMsg(encoded: Binary)
  datatype StakingMsg = StakingMsg(encoded: Binary)
  datatype DistributionMsg = DistributionMsg(encoded: Binary)
  datatype IbcMsg = IbcMsg(encoded: Binary)
  datatype GovMsg = GovMsg(encoded: Binary)

  /**
   * `CosmosMsg<C>`, a non-exhaustive tagged union. `Custom` carries the chain
   * extension C; `Gov` stands for the variants that the widening match of the
   * adapter does not name.
   */
  datatype CosmosMsg<C> =
    | Bank(bank: BankMsg)
    | Custom(custom: C)
    | Staking(staking: StakingMsg)
    | Distribution(distribution: DistributionMsg)
    | Stargate(typeUrl: string, value: Binary)
    | Ibc(ibc: IbcMsg)
    | Wasm(wasm: WasmMsg)
    | Gov(gov: GovMsg)

  datatype ReplyOn = Always | OnError | OnSuccess | Never

  /** Sub-message envelope: a message, its correlation id, gas ceiling and reply policy. */
  datatype SubMsg<C> = SubMsg(id: nat, msg: CosmosMsg<C>, gasLimit: Option<nat>, replyOn: ReplyOn)

  /** `Response<C>` together with the builder calls the adapter uses on it. */
  datatype Response<C> = Response(
    messages: seq<SubMsg<C>>,
    attributes: seq<Attribute>,
    events: seq<Event>,
    data: Option<Binary>)
  {
    function AddSubmessages(msgs: seq<SubMsg<C>>): Response<C> {
      this.(messages := messages + msgs)
    }

    function AddEvents(evs: seq<Event>): Response<C> {
      this.(events := events + evs)
    }

    function AddAttributes(attrs: seq<Attribute>): Response<C> {
      this.(attributes := attributes + attrs)
    }
  }

  /** `Response::new()`: nothing to send, emit or return. */
  function NewResponse<C>(): Response<C> {
    Response([], [], [], None)
  }

  datatype SubMsgResult = SubMsgOk(events: seq<Event>, data: Option<Binary>) | SubMsgErr(reason: string)

  /** The structured outcome of a sub-message, handed to `reply`. */
  datatype Reply = Reply(id: nat, result: SubMsgResult)
}
