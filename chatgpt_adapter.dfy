/**
 * The ChatGPT adapter: forwards the payload unchanged to ChatGPT_API::callGPT.
 * It has no mutable state; the C++ constructor only stores the backend pointer,
 * which is the single field of the datatype here.
 */
module ChatGpt {
  import opened Effects

  datatype ChatGptAdapter = ChatGptAdapter(backend: Option<BackendId>) {

    /** A present backend receives exactly one message call with the payload as given; a null one is skipped silently. */
    function SendRequest(payload: string): (r: Outcome)
      ensures r.raised == None
      ensures OnlyCalls(r.trace)
      ensures backend.Some? ==> r.trace == [Call(GptMessage(backend.value, payload))]
      ensures backend.None? ==> r.trace == []
    {
      if backend.Some? then Outcome([Call(GptMessage(backend.value, payload))], None)
      else Quiet
    }
  }
}
