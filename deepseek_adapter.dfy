/**
 * The DeepSeek adapter: forwards the payload, together with a model name the
 * caller can change at any time, to DeepSeek_API::askDeepSeek.
 */
module DeepSeek {
  import opened Effects

  /** The model used when the constructor is given none. */
  const DefaultModel: string := "deepseek-chat"

  /** What one sendRequest does for a given backend pointer and current model. */
  function Query(backend: Option<BackendId>, model: string, payload: string): (r: Outcome)
    ensures r.raised == None
    ensures OnlyCalls(r.trace)
    ensures backend.Some? ==> r.trace == [Call(DeepSeekQuery(backend.value, payload, model))]
    ensures backend.None? ==> r.trace == []
  {
    if backend.Some? then Outcome([Call(DeepSeekQuery(backend.value, payload, model))], None)
    else Quiet
  }

  class DeepSeekAdapter {
    /** The backend pointer, fixed at construction. */
    const backend: Option<BackendId>
    /** The model name sent with every query. */
    var model: string

    constructor (backend: Option<BackendId>, model: string := DefaultModel)
      ensures this.backend == backend && this.model == model
    {
      this.backend := backend;
      this.model := model;
    }

    /** Later queries use `model`; the backend pointer is a constant and cannot change. */
    method SetModel(model: string)
      modifies this`model
      ensures this.model == model
    {
      this.model := model;
    }

    /** Has no modifies clause, so the model is the same after the call. */
    method SendRequest(payload: string) returns (r: Outcome)
      ensures r == Query(backend, model, payload)
    {
      r := Query(backend, model, payload);
    }
  }
}
