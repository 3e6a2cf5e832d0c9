/**
 * The uniform adapter interface ThirdPartyAPI::sendRequest: one adapter of
 * one of the three kinds, and what calling sendRequest on it does.
 */
module ThirdParty {
  import opened Effects
  import ChatGpt
  import DeepSeek
  import Momo

  /** A bound adapter. The DeepSeek one is an object, since its model can change. */
  datatype Adapter =
    | Gpt(gpt: ChatGpt.ChatGptAdapter)
    | Deep(deep: DeepSeek.DeepSeekAdapter)
    | Payment(momo: Momo.MomoAdapter)

  /** The objects whose state sendRequest on `api` depends on. */
  function Footprint(api: Option<Adapter>): set<object> {
    if api.Some? && api.value.Deep? then {api.value.deep} else {}
  }

  /** What forwarding a payload through the bound adapter does, if one is bound. */
  function Forward(api: Option<Adapter>, payload: string, rt: Momo.Runtime): (r: Outcome)
    reads Footprint(api)
    // An adapter only ever calls its backend, at most once.
    ensures OnlyCalls(r.trace) && |r.trace| <= 1
    // Nothing is forwarded when no adapter is bound.
    ensures api.None? ==> r == Quiet
    // Only the Momo adapter can throw.
    ensures r.raised.Some? ==> api.Some? && api.value.Payment?
  {
    if api.None? then Quiet
    else
      match api.value
      case Gpt(a) => a.SendRequest(payload)
      case Deep(a) => DeepSeek.Query(a.backend, a.model, payload)
      case Payment(a) => a.SendRequest(payload, rt)
  }

  /**
   * A missing backend is a silent no-op for the ChatGPT and DeepSeek adapters
   * but a runtime_error for the Momo adapter.
   */
  lemma MissingBackendAsymmetry(model: string, orderInfo: string, payload: string, rt: Momo.Runtime)
    ensures ChatGpt.ChatGptAdapter(None).SendRequest(payload) == Quiet
    ensures DeepSeek.Query(None, model, payload) == Quiet
    ensures Momo.MomoAdapter(None, orderInfo).SendRequest(payload, rt)
      == Outcome([], Some(RuntimeError(Momo.NotInitializedMessage)))
  {
  }
}
