/**
 * The Momo adapter: reads the payload as an amount and asks Momo_API to create
 * a payment for it, with the order id fixed at construction.
 *
 * Both foreign calls it makes, std::stod and Momo_API::createPayment, are
 * parameters (a Runtime): the model says what the adapter does with whatever
 * they return or throw, not how numbers are parsed.
 */
module Momo {
  import opened Effects

  const NotInitializedMessage: string := "Momo API is not initialized."
  const InvalidPayloadPrefix: string := "Invalid payload format: "
  const PaymentErrorPrefix: string := "Error creating payment: "

  /**
   * `stod` parses a decimal amount or throws (std::invalid_argument when no
   * number can be read, std::out_of_range when it does not fit a double);
   * `createPayment` returns normally (None; the payment id is discarded) or
   * throws.
   */
  datatype Runtime = Runtime(
    stod: string -> Result<real>,
    createPayment: (real, string) -> Option<Exception>)

  predicate StartsWith(s: string, prefix: string) {
    |prefix| <= |s| && s[..|prefix|] == prefix
  }

  predicate EndsWith(s: string, suffix: string) {
    |suffix| <= |s| && s[|s| - |suffix|..] == suffix
  }

  /** The two catch clauses around the parse and the payment call. */
  function Wrap(ex: Exception): (e: Exception)
    ensures e.RuntimeError?
    ensures ex.InvalidArgument? <==> StartsWith(e.what, InvalidPayloadPrefix)
    ensures !ex.InvalidArgument? <==> StartsWith(e.what, PaymentErrorPrefix)
    ensures EndsWith(e.what, ex.what)
  {
    match ex
    case InvalidArgument(what) => RuntimeError(InvalidPayloadPrefix + what)
    case _ => RuntimeError(PaymentErrorPrefix + ex.what)
  }

  datatype MomoAdapter = MomoAdapter(backend: Option<BackendId>, orderInfo: string) {

    function SendRequest(payload: string, rt: Runtime): (r: Outcome)
      // A null backend is a hard error, raised before parsing.
      ensures backend.None? ==> r == Outcome([], Some(RuntimeError(NotInitializedMessage)))
      // A failed parse makes no payment and is reported through the catch clauses.
      ensures backend.Some? && rt.stod(payload).Failure? ==>
        r == Outcome([], Some(Wrap(rt.stod(payload).error)))
      // A parsed amount makes exactly one payment, with the order id given at construction.
      ensures backend.Some? && rt.stod(payload).Success? ==>
        r.trace == [Call(CreatePayment(backend.value, rt.stod(payload).value, orderInfo))]
      // A payment call that throws is reported through the same catch clauses.
      ensures (backend.Some? && rt.stod(payload).Success? &&
               rt.createPayment(rt.stod(payload).value, orderInfo).Some?) ==>
        r.raised == Some(Wrap(rt.createPayment(rt.stod(payload).value, orderInfo).value))
      // It returns normally exactly when the backend is present, the amount parses and the payment call returns.
      ensures r.raised.None? <==>
        backend.Some? && rt.stod(payload).Success? &&
        rt.createPayment(rt.stod(payload).value, orderInfo).None?
      // Every failure is a runtime_error.
      ensures r.raised.Some? ==> r.raised.value.RuntimeError?
      ensures OnlyCalls(r.trace)
    {
      if backend.None? then
        Outcome([], Some(RuntimeError(NotInitializedMessage)))
      else
        match rt.stod(payload)
        case Failure(ex) => Outcome([], Some(Wrap(ex)))
        case Success(amount) =>
          var call := Call(CreatePayment(backend.value, amount, orderInfo));
          match rt.createPayment(amount, orderInfo)
          case None => Outcome([call], None)
          case Some(ex) => Outcome([call], Some(Wrap(ex)))
    }
  }
}
