/**
 * Conversions of request contexts and responses across extension types:
 * contexts are narrowed from any query type Q to `Empty`, sub-messages and
 * responses are widened from `Empty` to any message type C.
 */
module Context {
  import opened Wrappers
  import opened CosmWasm

  /** Any `DepsMut<Q>` becomes a `DepsMut<Empty>` over the same storage, api and querier. */
  function CustomizeDepsMut<Q>(deps: DepsMut<Q>): (r: DepsMut<Empty>)
    ensures r.storage == deps.storage && r.api == deps.api
    ensures r.querier.querier == deps.querier.querier
  {
    DepsMut(deps.storage, deps.api, QuerierWrapper(deps.querier.querier))
  }

  /** Any `Deps<Q>` becomes a `Deps<Empty>` over the same storage, api and querier. */
  function CustomizeDeps<Q>(deps: Deps<Q>): (r: Deps<Empty>)
    ensures r.storage == deps.storage && r.api == deps.api
    ensures r.querier.querier == deps.querier.querier
  {
    Deps(deps.storage, deps.api, QuerierWrapper(deps.querier.querier))
  }

  /** Narrowing forgets only the query type: distinct contexts stay distinct. */
  lemma CustomizeDepsMutInjective<Q>(a: DepsMut<Q>, b: DepsMut<Q>)
    ensures CustomizeDepsMut(a) == CustomizeDepsMut(b) <==> a == b
  {
  }

  lemma CustomizeDepsInjective<Q>(a: Deps<Q>, b: Deps<Q>)
    ensures CustomizeDeps(a) == CustomizeDeps(b) <==> a == b
  {
  }

  /** A context that is already baseline-typed is left exactly as it is. */
  lemma CustomizeBaselineDepsIsIdentity(m: DepsMut<Empty>, d: Deps<Empty>)
    ensures CustomizeDepsMut(m) == m
    ensures CustomizeDeps(d) == d
  {
  }

  /** The two panics of widening: the `unreachable!()` arm and the catch-all arm. */
  datatype Fatal = Unreachable | UnknownVariant(sub: SubMsg<Empty>)

  /** A value, or the fatal invariant violation that stopped its computation. */
  datatype Outcome<T> = Done(value: T) | Panic(fatal: Fatal)

  /**
   * The variants the widening match copies: the four core ones always, IBC and
   * Stargate only in a build with the `stargate` feature.
   */
  predicate Widenable(msg: CosmosMsg<Empty>, stargate: bool) {
    match msg
    case Wasm(_) => true
    case Bank(_) => true
    case Staking(_) => true
    case Distribution(_) => true
    case Ibc(_) => stargate
    case Stargate(_, _) => stargate
    case Custom(_) => false
    case Gov(_) => false
  }

  predicate AllWidenable(msgs: seq<SubMsg<Empty>>, stargate: bool) {
    forall i | 0 <= i < |msgs| :: Widenable(msgs[i].msg, stargate)
  }

  /**
   * The reverse direction, used to state what widening keeps: a message under
   * any C that carries no `Custom` payload, read back under `Empty`.
   */
  ghost function BaselineMsg<C>(msg: CosmosMsg<C>): Option<CosmosMsg<Empty>> {
    match msg
    case Bank(b) => Some(Bank(b))
    case Custom(_) => None
    case Staking(s) => Some(Staking(s))
    case Distribution(d) => Some(Distribution(d))
    case Stargate(t, v) => Some(Stargate(t, v))
    case Ibc(i) => Some(Ibc(i))
    case Wasm(w) => Some(Wasm(w))
    case Gov(g) => Some(Gov(g))
  }

  ghost function BaselineSubMsg<C>(sub: SubMsg<C>): Option<SubMsg<Empty>> {
    match BaselineMsg(sub.msg)
    case None => None
    case Some(m) => Some(SubMsg(sub.id, m, sub.gasLimit, sub.replyOn))
  }

  ghost function BaselineMessages<C>(msgs: seq<SubMsg<C>>): Option<seq<SubMsg<Empty>>> {
    if msgs == [] then Some([])
    else match (BaselineSubMsg(msgs[0]), BaselineMessages(msgs[1..]))
      case (Some(m), Some(rest)) => Some([m] + rest)
      case _ => None
  }

  ghost function BaselineResponse<C>(resp: Response<C>): Option<Response<Empty>> {
    match BaselineMessages(resp.messages)
    case None => None
    case Some(msgs) => Some(Response(msgs, resp.attributes, resp.events, resp.data))
  }

  /**
   * `SubMsg<Empty>` widened to `SubMsg<C>`: a copied variant keeps its payload,
   * and id, gas limit and reply policy are carried over; `Custom` is
   * unreachable and every other variant aborts with "unknown message variant".
   */
  function CustomizeMsg<C>(sub: SubMsg<Empty>, stargate: bool): (r: Outcome<SubMsg<C>>)
    ensures r.Done? <==> Widenable(sub.msg, stargate)
    ensures r.Done? ==> r.value.id == sub.id && r.value.gasLimit == sub.gasLimit && r.value.replyOn == sub.replyOn
    ensures r.Done? ==> BaselineSubMsg(r.value) == Some(sub)
    ensures r.Panic? ==> r.fatal == if sub.msg.Custom? then Unreachable else UnknownVariant(sub)
  {
    var msg: Outcome<CosmosMsg<C>> :=
      match sub.msg
      case Wasm(wasm) => Done(Wasm(wasm))
      case Bank(bank) => Done(Bank(bank))
      case Staking(staking) => Done(Staking(staking))
      case Distribution(distribution) => Done(Distribution(distribution))
      case Custom(_) => Panic(Unreachable)
      case Ibc(ibc) => if stargate then Done(Ibc(ibc)) else Panic(UnknownVariant(sub))
      case Stargate(typeUrl, value) => if stargate then Done(Stargate(typeUrl, value)) else Panic(UnknownVariant(sub))
      case Gov(_) => Panic(UnknownVariant(sub));
    match msg
    case Panic(f) => Panic(f)
    case Done(m) => Done(SubMsg(sub.id, m, sub.gasLimit, sub.replyOn))
  }

  /**
   * The submessages widened one after the other, in order, as the iterator
   * `map` feeding `add_submessages` does: the first message that cannot be
   * widened stops the whole conversion.
   */
  function CustomizeMessages<C>(msgs: seq<SubMsg<Empty>>, stargate: bool): (r: Outcome<seq<SubMsg<C>>>)
    ensures r.Done? <==> AllWidenable(msgs, stargate)
    ensures r.Done? ==> |r.value| == |msgs|
    ensures r.Done? ==> forall i | 0 <= i < |msgs| :: CustomizeMsg<C>(msgs[i], stargate) == Done(r.value[i])
  {
    if msgs == [] then Done([])
    else
      match CustomizeMsg<C>(msgs[0], stargate)
      case Panic(f) => Panic(f)
      case Done(first) =>
        match CustomizeMessages<C>(msgs[1..], stargate)
        case Panic(f) => Panic(f)
        case Done(rest) => Done([first] + rest)
  }

  /**
   * `Response<Empty>` widened to `Response<C>`: built from `Response::new()`
   * with the widened submessages, the same events and attributes, and the
   * same data.
   */
  function CustomizeResponse<C>(resp: Response<Empty>, stargate: bool): (r: Outcome<Response<C>>)
    ensures r.Done? <==> AllWidenable(resp.messages, stargate)
    ensures r.Done? ==> r.value.events == resp.events && r.value.attributes == resp.attributes && r.value.data == resp.data
    ensures r.Done? ==> |r.value.messages| == |resp.messages|
    ensures r.Done? ==> forall i | 0 <= i < |resp.messages| :: CustomizeMsg<C>(resp.messages[i], stargate) == Done(r.value.messages[i])
    ensures r.Panic? ==> CustomizeMessages<C>(resp.messages, stargate) == Panic(r.fatal)
  {
    match CustomizeMessages<C>(resp.messages, stargate)
    case Panic(f) => Panic(f)
    case Done(msgs) =>
      var built := NewResponse<C>().AddSubmessages(msgs).AddEvents(resp.events).AddAttributes(resp.attributes);
      Done(built.(data := resp.data))
  }

  /**
   * When widening a list aborts, it aborts on the first message that cannot be
   * widened, with that message's own fatal reason.
   */
  lemma {:induction false} CustomizeMessagesPanicsAtFirst<C>(msgs: seq<SubMsg<Empty>>, stargate: bool, k: nat)
    requires k < |msgs| && !Widenable(msgs[k].msg, stargate)
    requires AllWidenable(msgs[..k], stargate)
    ensures CustomizeMessages<C>(msgs, stargate).Panic?
    ensures CustomizeMessages<C>(msgs, stargate).fatal == CustomizeMsg<C>(msgs[k], stargate).fatal
  {
    if k > 0 {
      assert Widenable(msgs[..k][0].msg, stargate);
      assert msgs[1..][..k - 1] == msgs[..k][1..];
      CustomizeMessagesPanicsAtFirst<C>(msgs[1..], stargate, k - 1);
    }
  }

  /** Widened submessages read back under `Empty` give the original list. */
  lemma {:induction false} CustomizeMessagesRoundTrip<C>(msgs: seq<SubMsg<Empty>>, stargate: bool)
    requires AllWidenable(msgs, stargate)
    ensures BaselineMessages(CustomizeMessages<C>(msgs, stargate).value) == Some(msgs)
  {
    if msgs != [] {
      var out := CustomizeMessages<C>(msgs, stargate).value;
      assert AllWidenable(msgs[1..], stargate) by {
        forall i | 0 <= i < |msgs[1..]| ensures Widenable(msgs[1..][i].msg, stargate) {
          assert msgs[1..][i] == msgs[i + 1];
        }
      }
      CustomizeMessagesRoundTrip<C>(msgs[1..], stargate);
      assert out[1..] == CustomizeMessages<C>(msgs[1..], stargate).value;
      assert msgs == [msgs[0]] + msgs[1..];
    }
  }

  /** A widened response read back under `Empty` is the response that was widened. */
  lemma CustomizeResponseRoundTrip<C>(resp: Response<Empty>, stargate: bool)
    requires AllWidenable(resp.messages, stargate)
    ensures BaselineResponse(CustomizeResponse<C>(resp, stargate).value) == Some(resp)
  {
    CustomizeMessagesRoundTrip<C>(resp.messages, stargate);
    assert CustomizeResponse<C>(resp, stargate).value.messages == CustomizeMessages<C>(resp.messages, stargate).value;
  }

  /**
   * Widening one response to two different extension types succeeds for both
   * or for neither, and the two results agree once read back under `Empty`.
   */
  lemma CustomizeResponseAgreesAcrossExtensions<C1, C2>(resp: Response<Empty>, stargate: bool)
    ensures CustomizeResponse<C1>(resp, stargate).Done? <==> CustomizeResponse<C2>(resp, stargate).Done?
    ensures CustomizeResponse<C1>(resp, stargate).Done? ==>
      BaselineResponse(CustomizeResponse<C1>(resp, stargate).value)
      == BaselineResponse(CustomizeResponse<C2>(resp, stargate).value)
  {
    if AllWidenable(resp.messages, stargate) {
      CustomizeResponseRoundTrip<C1>(resp, stargate);
      CustomizeResponseRoundTrip<C2>(resp, stargate);
    }
  }

  /** Widening a list to `Empty` itself gives back the same list. */
  lemma {:induction false} CustomizeMessagesToBaselineIsIdentity(msgs: seq<SubMsg<Empty>>, stargate: bool)
    requires AllWidenable(msgs, stargate)
    ensures CustomizeMessages<Empty>(msgs, stargate) == Done(msgs)
  {
    if msgs != [] {
      assert AllWidenable(msgs[1..], stargate) by {
        forall i | 0 <= i < |msgs[1..]| ensures Widenable(msgs[1..][i].msg, stargate) {
          assert msgs[1..][i] == msgs[i + 1];
        }
      }
      CustomizeMessagesToBaselineIsIdentity(msgs[1..], stargate);
      assert msgs == [msgs[0]] + msgs[1..];
    }
  }

  /** Widening a response to `Empty` itself gives back the same response. */
  lemma CustomizeResponseToBaselineIsIdentity(resp: Response<Empty>, stargate: bool)
    requires AllWidenable(resp.messages, stargate)
    ensures CustomizeResponse<Empty>(resp, stargate) == Done(resp)
  {
    CustomizeMessagesToBaselineIsIdentity(resp.messages, stargate);
    assert CustomizeResponse<Empty>(resp, stargate).value.messages == resp.messages;
  }

  /** The `stargate` feature changes the outcome of widening for IBC and Stargate messages only. */
  lemma StargateFeatureOnlyAffectsIbcAndStargate<C>(sub: SubMsg<Empty>)
    ensures !sub.msg.Ibc? && !sub.msg.Stargate? ==> CustomizeMsg<C>(sub, true) == CustomizeMsg<C>(sub, false)
    ensures sub.msg.Ibc? || sub.msg.Stargate? ==>
      CustomizeMsg<C>(sub, true).Done? && CustomizeMsg<C>(sub, false) == Panic(UnknownVariant(sub))
  {
  }
}
