/**
 * The observable effects of the request-dispatch core.
 *
 * Every effect the C++ program produces (a logger line, a call into a backend
 * SDK, an observer callback) is modelled as an Event appended to a trace, and
 * every operation that may throw returns an Outcome: the events it produced
 * before returning or throwing, and the exception it threw, if any.
 */
module Effects {

  /** Identity of a backend SDK object (the pointer an adapter holds). */
  type BackendId = nat

  /** Identity of an observer (pointer identity, not value equality). */
  type ObserverId = nat

  datatype Option<+T> = None | Some(value: T)

  /**
   * The C++ exceptions that matter to the core: std::invalid_argument is
   * caught separately by the Momo adapter, std::runtime_error is what the
   * adapters throw, and every other std::exception is lumped together.
   */
  datatype Exception =
    | InvalidArgument(what: string)
    | RuntimeError(what: string)
    | OtherException(what: string)

  /** The result of a foreign call that returns a value or throws. */
  datatype Result<+T> = Success(value: T) | Failure(error: Exception)

  /** One call into a backend SDK, with the arguments the adapter passed. */
  datatype BackendCall =
    | GptMessage(gpt: BackendId, message: string)
    | DeepSeekQuery(deepSeek: BackendId, query: string, model: string)
    | CreatePayment(momo: BackendId, amount: real, orderInfo: string)

  datatype Event =
    | Log(message: string)
    | Call(call: BackendCall)
    | Notify(observer: ObserverId, payload: string)

  datatype Kind = LogKind | CallKind | NotifyKind

  function KindOf(e: Event): Kind {
    match e
    case Log(_) => LogKind
    case Call(_) => CallKind
    case Notify(_, _) => NotifyKind
  }

  /** What a call produced: its effects in order, and the exception it threw, if any. */
  datatype Outcome = Outcome(trace: seq<Event>, raised: Option<Exception>)

  /** The outcome of a call that did nothing and returned normally. */
  const Quiet := Outcome([], None)

  /** A trace made of backend calls only: what an adapter may produce. */
  predicate OnlyCalls(t: seq<Event>) {
    forall e :: e in t ==> e.Call?
  }

  /** The events of kind `k` in `t`, in their order in `t`. */
  function Select(t: seq<Event>, k: Kind): (r: seq<Event>)
    ensures |r| <= |t|
    ensures forall e :: e in r <==> e in t && KindOf(e) == k
  {
    if t == [] then []
    else (if KindOf(t[0]) == k then [t[0]] else []) + Select(t[1..], k)
  }

  /** Selecting distributes over concatenation, so it keeps relative order. */
  lemma {:induction false} SelectConcat(a: seq<Event>, b: seq<Event>, k: Kind)
    ensures Select(a + b, k) == Select(a, k) + Select(b, k)
  {
    if a == [] {
      assert a + b == b;
    } else {
      assert (a + b)[1..] == a[1..] + b;
      SelectConcat(a[1..], b, k);
    }
  }

  /** In a trace of backend calls, selecting the calls keeps everything and selecting anything else keeps nothing. */
  lemma {:induction false} SelectOnlyCalls(t: seq<Event>)
    requires OnlyCalls(t)
    ensures Select(t, CallKind) == t
    ensures Select(t, LogKind) == [] && Select(t, NotifyKind) == []
  {
    if t != [] {
      assert t[0] in t;
      assert forall e :: e in t[1..] ==> e in t;
      SelectOnlyCalls(t[1..]);
    }
  }
}
