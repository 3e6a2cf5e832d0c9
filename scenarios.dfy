/**
 * The repository's unit tests, each as a client of the model whose
 * postcondition is the test's expected output, read as a trace of events.
 * Observer and backend identities are arbitrary distinct numbers. `rt` stands
 * for the foreign calls behind the Momo adapter and is unconstrained wherever
 * the test does not use that adapter.
 */
module Scenarios {
  import opened Effects
  import opened ThirdParty
  import opened Manager
  import ChatGpt
  import DeepSeek
  import Momo

  const Backend: BackendId := 1
  const Observer: ObserverId := 7

  // The payloads the tests send.
  const Weather: string := "What is the weather today?"
  const Summary: string := "Summarize the paragraph."
  const Explain: string := "Explain this C++ code."
  const Duplicated: string := "Is this duplicated?"
  const Unobserved: string := "This should not be observed."
  const Amount: string := "100.50"
  const NotANumber: string := "abc"

  /** A ChatGPT round: log line, one message call, one notification. */
  method WeatherThroughChatGpt(rt: Momo.Runtime) returns (trace: seq<Event>)
    ensures trace == [
      Log(LogPrefix + Weather),
      Call(GptMessage(Backend, Weather)),
      Notify(Observer, Weather)]
  {
    var manager := new RequestManager(Some(Gpt(ChatGpt.ChatGptAdapter(Some(Backend)))));
    manager.Attach(Observer);
    assert manager.observers == [Observer];
    var r := manager.Send(Weather, rt);
    trace := r.trace;
  }

  /** The DeepSeek adapter built without a model queries "deepseek-chat". */
  method DefaultModelQuery(rt: Momo.Runtime) returns (trace: seq<Event>)
    ensures trace == [
      Log(LogPrefix + Summary),
      Call(DeepSeekQuery(Backend, Summary, "deepseek-chat")),
      Notify(Observer, Summary)]
  {
    var adapter := new DeepSeek.DeepSeekAdapter(Some(Backend));
    var manager := new RequestManager(Some(Deep(adapter)));
    manager.Attach(Observer);
    assert manager.observers == [Observer];
    var r := manager.Send(Summary, rt);
    trace := r.trace;
  }

  /** The DeepSeek adapter built with a model queries that model. */
  method GivenModelQuery(rt: Momo.Runtime) returns (trace: seq<Event>)
    ensures trace == [
      Log(LogPrefix + Explain),
      Call(DeepSeekQuery(Backend, Explain, "deepseek-coder")),
      Notify(Observer, Explain)]
  {
    var adapter := new DeepSeek.DeepSeekAdapter(Some(Backend), "deepseek-coder");
    var manager := new RequestManager(Some(Deep(adapter)));
    manager.Attach(Observer);
    assert manager.observers == [Observer];
    var r := manager.Send(Explain, rt);
    trace := r.trace;
  }

  /** Attaching the same observer twice yields one notification. */
  method DuplicateAttach(rt: Momo.Runtime) returns (trace: seq<Event>)
    ensures trace == [
      Log(LogPrefix + Duplicated),
      Call(DeepSeekQuery(Backend, Duplicated, "deepseek-chat")),
      Notify(Observer, Duplicated)]
  {
    var adapter := new DeepSeek.DeepSeekAdapter(Some(Backend), "deepseek-chat");
    var manager := new RequestManager(Some(Deep(adapter)));
    manager.Attach(Observer);
    manager.Attach(Observer);
    assert manager.observers == [Observer];
    var r := manager.Send(Duplicated, rt);
    trace := r.trace;
  }

  /** A detached observer is not notified; the log line and the backend call still happen. */
  method DetachBeforeSend(rt: Momo.Runtime) returns (trace: seq<Event>)
    ensures trace == [
      Log(LogPrefix + Unobserved),
      Call(GptMessage(Backend, Unobserved))]
  {
    var manager := new RequestManager(Some(Gpt(ChatGpt.ChatGptAdapter(Some(Backend)))));
    manager.Attach(Observer);
    manager.Detach(Observer);
    assert manager.observers == [];
    var r := manager.Send(Unobserved, rt);
    trace := r.trace;
  }

  /** A Momo payment for Amount, when the parse reads 100.5 and the payment call returns. */
  method MomoPayment(rt: Momo.Runtime) returns (r: Outcome)
    requires rt.stod(Amount) == Success(100.5)
    requires rt.createPayment(100.5, "order_123").None?
    ensures r == Outcome([
      Log(LogPrefix + Amount),
      Call(CreatePayment(Backend, 100.5, "order_123")),
      Notify(Observer, Amount)], None)
  {
    var manager := new RequestManager(Some(Payment(Momo.MomoAdapter(Some(Backend), "order_123"))));
    manager.Attach(Observer);
    assert manager.observers == [Observer];
    r := manager.Send(Amount, rt);
  }

  /** A payload the parse rejects raises the invalid-payload error and notifies nobody. */
  method MomoRejectsText(rt: Momo.Runtime, what: string) returns (r: Outcome)
    requires rt.stod(NotANumber) == Failure(InvalidArgument(what))
    ensures r == Outcome([Log(LogPrefix + NotANumber)], Some(RuntimeError(Momo.InvalidPayloadPrefix + what)))
  {
    var manager := new RequestManager(Some(Payment(Momo.MomoAdapter(Some(Backend), "order_123"))));
    manager.Attach(Observer);
    assert manager.observers == [Observer];
    r := manager.Send(NotANumber, rt);
  }

  /** A model set between two sends is used by the second send only. */
  method ModelChangeBetweenSends() returns (first: Outcome, second: Outcome)
    ensures first == Outcome([Call(DeepSeekQuery(Backend, "q", "deepseek-chat"))], None)
    ensures second == Outcome([Call(DeepSeekQuery(Backend, "q", "deepseek-reasoner"))], None)
  {
    var adapter := new DeepSeek.DeepSeekAdapter(Some(Backend));
    first := adapter.SendRequest("q");
    adapter.SetModel("deepseek-reasoner");
    second := adapter.SendRequest("q");
  }
}
