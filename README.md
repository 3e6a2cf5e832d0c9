# Request dispatch: a verified model

This project models the core of a small C++ request-dispatch façade. A
`RequestManager` is bound to one adapter behind the `ThirdPartyAPI::sendRequest`
interface and keeps an ordered, duplicate-free list of observers. Its `send`
does three things in order: it logs `"Sending request: " + payload`, it forwards
the payload through the adapter if one is bound, and it notifies every observer
in attachment order. There are three adapters:

- **ChatGPT** passes the payload to `callGPT` unchanged.
- **DeepSeek** passes the payload to `askDeepSeek` together with a model name.
  The name defaults to `"deepseek-chat"` and a setter can change it.
- **Momo** parses the payload as an amount and calls `createPayment` with it and
  the order id fixed at construction. It throws when the backend is missing
  or the parse fails.

Every observable effect is an event in a trace (`Effects.Event`):

- `Log(message)` is a logger line.
- `Call(...)` is one backend SDK call, with the arguments the adapter passed.
- `Notify(observer, payload)` is one observer callback.

An operation that can throw returns an `Outcome`. It holds the events produced
before the operation returned or threw, and the exception, if there was one.
Observers and backends are identified by numbers, which stands for C++ pointer
identity. The ChatGPT and Momo adapters are immutable datatypes. Their
constructors store the backend pointer and, for Momo, the order id, and nothing
can change these afterwards.

Files and modules:

- `effects.dfy` (`Effects`): events, outcomes, exceptions, and selecting the
  events of one kind from a trace.
- `chatgpt_adapter.dfy` (`ChatGpt`), `momo_adapter.dfy` (`Momo`): the two
  stateless adapters, as datatypes with a `SendRequest` function.
- `deepseek_adapter.dfy` (`DeepSeek`): the DeepSeek adapter, as a class with a
  mutable `model` field.
- `third_party_api.dfy` (`ThirdParty`): the adapter interface, as a datatype of
  the three variants, and `Forward`, which says what `api_->sendRequest` does.
- `observers.dfy` (`Observers`): the observer list as changed by attach and
  detach.
- `request_manager.dfy` (`Manager`): the `RequestManager` class, `Dispatch`
  (the specification of `send`) and the lemmas about `send`.
- `scenarios.dfy` (`Scenarios`): each unit test as a client method whose
  postcondition is the test's expected output, read as a trace.

Three facts about the code shape the model:

- The adapters throw `std::runtime_error` with fixed messages (a prefix
  followed by the `what()` of the caught exception), so the model keeps the
  messages.
- Detach removes every occurrence of the observer. On a duplicate-free list
  that is one entry (`Observers.DetachRemovesOne`).
- A null adapter is accepted, and `send` then skips forwarding, so the model
  binds an `Option<Adapter>`.

## Model

| member | source | states |
|---|---|---|
| `ChatGpt.ChatGptAdapter.SendRequest` | src/adapter/ChatGPTAdapter.cpp:5-9 | never throws; a present backend gets exactly one message call with the payload unchanged; a null backend gets nothing |
| `DeepSeek.Query` | src/adapter/DeepSeekAdapter.cpp:10-14 | never throws; a present backend gets exactly one query with the payload unchanged and the current model; a null backend gets nothing |
| `DeepSeek.DeepSeekAdapter.constructor` | src/adapter/DeepSeekAdapter.cpp:3 | stores the given backend and model unchanged; the model parameter defaults to `DefaultModel` = "deepseek-chat" (include/adapter/DeepSeekAdapter.h:16) |
| `DeepSeek.DeepSeekAdapter.SetModel` | src/adapter/DeepSeekAdapter.cpp:5-8 | the model becomes exactly the argument; it may modify only the model field, and the backend is a constant |
| `DeepSeek.DeepSeekAdapter.SendRequest` | src/adapter/DeepSeekAdapter.cpp:10-14 | has the effect `Query(backend, model, payload)`; it has no modifies clause, so the model is unchanged |
| `Momo.Wrap` | src/adapter/MomoAdapter.cpp:15-18 | the catch clauses: the result is a runtime_error; its message starts with "Invalid payload format: " exactly when the caught exception is an invalid_argument, and with "Error creating payment: " exactly when it is not; the message ends with the caught what() |
| `Momo.MomoAdapter.SendRequest` | src/adapter/MomoAdapter.cpp:6-20 | a null backend throws "Momo API is not initialized." with no call and no parse; a failed parse throws the wrapped error with no call; a parsed amount gives exactly one createPayment call with that amount and the order id from construction; if that call throws, the raised error is that exception passed through the catch clauses (`Wrap`); it returns normally iff the backend is present, the parse succeeds and createPayment returns; every failure is a runtime_error |
| `ThirdParty.Forward` | include/adapter/ThirdPartyAPI.h:10 | whichever adapter is bound, forwarding produces at most one event, and that event is a backend call; with no adapter bound it does nothing; only the Momo adapter can throw |
| `ThirdParty.MissingBackendAsymmetry` | src/adapter/MomoAdapter.cpp:8-10 | a null backend is a silent no-op for ChatGPT and DeepSeek, but a "Momo API is not initialized." runtime_error for Momo |
| `Observers.AttachIdempotent` | src/core/RequestManager.cpp:5-12 | attaching a present observer leaves the list unchanged; attaching twice equals attaching once |
| `Observers.AttachAppends` | src/core/RequestManager.cpp:10 | a new observer is appended after the existing ones, whose order is kept; afterwards the observer is in the list |
| `Observers.AttachKeepsNoDup` | src/core/RequestManager.cpp:7-11 | attach keeps the list duplicate-free |
| `Observers.DetachedConcat` | src/core/RequestManager.cpp:16 | detach distributes over concatenation, so it works element by element and keeps the relative order of the remaining observers |
| `Observers.DetachedCounts` | src/core/RequestManager.cpp:16 | after detach(o), o occurs zero times and every other observer occurs exactly as often as before |
| `Observers.DetachedMembers` | src/core/RequestManager.cpp:16 | an observer is in the list after detach(o) iff it was in it before and is not o |
| `Observers.DetachAbsent` | src/core/RequestManager.cpp:16 | detaching an absent observer is a no-op |
| `Observers.DetachKeepsNoDup` | src/core/RequestManager.cpp:14-17 | detach keeps the list duplicate-free |
| `Observers.DetachRemovesOne` | src/core/RequestManager.cpp:14-17 | in a duplicate-free list, detaching a present observer shortens the list by exactly one |
| `Observers.AttachDetachRoundTrip` | src/core/RequestManager.cpp:5-17 | detach(o) undoes attach(o) of an observer that was not attached |
| `Observers.DetachIdempotent` | src/core/RequestManager.cpp:16 | detaching twice equals detaching once |
| `Manager.Notifications` | src/core/RequestManager.cpp:31-34 | one notification per observer, in list order, at the same index, each with the payload unchanged |
| `Manager.NotificationsCount` | src/core/RequestManager.cpp:31-34 | an observer gets as many notifications as it has entries in the list |
| `Manager.RequestManager.constructor` | src/core/RequestManager.cpp:3 | binds the given adapter (or none) with an empty observer list, which satisfies the no-duplicates invariant |
| `Manager.RequestManager.Attach` | src/core/RequestManager.cpp:5-12 | the new list is `Attached(old list, o)`; keeps the no-duplicates invariant; modifies only the list |
| `Manager.RequestManager.Detach` | src/core/RequestManager.cpp:14-17 | the new list is `Detached(old list, o)`; keeps the no-duplicates invariant; modifies only the list |
| `Manager.RequestManager.Send` | src/core/RequestManager.cpp:19-35 | its outcome is `Dispatch(payload, Forward(api, payload, rt), observers)`: the log line, then the adapter's effects, then the notifications in list order, which happen only if the adapter did not throw; it modifies nothing, and the adapter binding is a constant |
| `Manager.SelectDispatch` | src/core/RequestManager.cpp:19-35 | in the trace of a send, the log events are exactly the one log line, the backend calls are exactly the adapter's calls, and the notifications are exactly one per observer when the adapter did not throw, and none otherwise |
| `Manager.SendLogsOnceFirst` | src/core/RequestManager.cpp:21-22 | a send logs exactly one line, "Sending request: " + payload, and it is the first event, before any backend call or notification |
| `Manager.SendForwardsOnce` | src/core/RequestManager.cpp:24-28 | the backend calls of a send are exactly those of one sendRequest on the bound adapter; with no adapter bound there are none |
| `Manager.SendNotifiesUnlessRaised` | src/core/RequestManager.cpp:24-34 | a send throws exactly what the adapter threw; if the adapter returned, or none is bound, the observers are notified in list order with the payload; if it threw, nobody is notified |
| `Manager.SendNotifiesEachOnce` | src/core/RequestManager.cpp:30-34 | with a duplicate-free list and a successful forward, each attached observer is notified exactly once, no other observer is notified, and every notification carries the payload unchanged |
| `Manager.DetachedNotNotified` | unit_test/testcase/test_105.cpp:17-28 | after detach(o), a send notifies o with no payload at all |
| `Manager.AttachTwiceNotifiedOnce` | unit_test/testcase/test_104.cpp:17-28 | attaching the same observer twice still gives it exactly one notification per send |
| `Scenarios.WeatherThroughChatGpt` | unit_test/testcase/test_101.cpp:13-27 | the expected trace: log line, one ChatGPT message call with the payload, one notification |
| `Scenarios.DefaultModelQuery` | unit_test/testcase/test_102.cpp:13-27 | an adapter built without a model queries "deepseek-chat" |
| `Scenarios.GivenModelQuery` | unit_test/testcase/test_103.cpp:13-27 | an adapter built with "deepseek-coder" queries that model |
| `Scenarios.DuplicateAttach` | unit_test/testcase/test_104.cpp:13-28 | attaching twice gives exactly one notification |
| `Scenarios.DetachBeforeSend` | unit_test/testcase/test_105.cpp:13-28 | after attach then detach, a send logs and calls the backend but notifies nobody |
| `Scenarios.MomoPayment` | unit_test/testcase/test_106.cpp:16-32 | when "100.50" parses to 100.5 and createPayment returns, the trace is the log line, one payment of 100.5 for "order_123", then the notification |
| `Scenarios.MomoRejectsText` | src/adapter/MomoAdapter.cpp:12-16 | when "abc" fails to parse with invalid_argument, the send logs, then throws "Invalid payload format: " + what(), with no payment and no notification |
| `Scenarios.ModelChangeBetweenSends` | src/adapter/DeepSeekAdapter.cpp:5-14 | a model set between two sends changes the second query and leaves the first one as it was |

## Left out

- The logger singleton and console output (`Logger::instance`, `Logger::log`, `std::cout`). A log line is a `Log` event.
- The backend SDK stubs (`ChatGPT_API`, `DeepSeek_API`, `Momo_API::connect` and what `createPayment` prints). A backend call is a `Call` event. `callGPT` and `askDeepSeek` are taken to return normally. `createPayment` may return or throw, as the `Runtime` parameter says.
- `std::stod` and `double`. The parse is a parameter of type `string -> Result<real>`, so the model does not fix the accepted syntax, rounding, or how 100.5 is printed. Amounts are exact `real` numbers.
- Exceptions not derived from `std::exception`. In C++ they would escape both catch clauses of the Momo adapter. The model's exceptions are all standard ones.
- `ConsoleObserver` printing. An observer is an id, and its callback is a `Notify` event.
- Pointer lifetime, ownership and virtual destructors. A null observer pointer attached and then dereferenced by `send` is not modelled, because observer ids are never null.
- Output as a process-wide stream. `Send` and the adapters return the events they produce, and the caller concatenates them.
- `Manager.RequestManager.Detach`: the erase-remove idiom is library code, so the method assigns the list computed by `Observers.Detached` and does not model the in-place loop of `std::remove`.
- Concurrency. The source is single-threaded and synchronous.
