/**
 * RequestManager: holds one adapter pointer and a list of observers, and
 * sends a payload in three steps: log it, forward it through the adapter if
 * one is bound, then notify every observer in list order.
 */
module Manager {
  import opened Effects
  import opened Observers
  import opened ThirdParty
  import Momo

  const LogPrefix: string := "Sending request: "

  /** The logger line written for one send. */
  function LogLine(payload: string): (line: string) {
    LogPrefix + payload
  }

  /** One notification per observer, in list order, each carrying the payload. */
  function Notifications(observers: seq<ObserverId>, payload: string): (r: seq<Event>)
    ensures |r| == |observers|
    ensures forall i :: 0 <= i < |r| ==> r[i] == Notify(observers[i], payload)
  {
    if observers == [] then []
    else [Notify(observers[0], payload)] + Notifications(observers[1..], payload)
  }

  /**
   * What send does, given what the forwarding step did: the log line, then the
   * forwarding step's effects; if it threw, the exception propagates and no
   * observer is notified, otherwise every observer is.
   */
  function Dispatch(payload: string, forwarded: Outcome, observers: seq<ObserverId>): (r: Outcome) {
    var logged := [Log(LogLine(payload))] + forwarded.trace;
    if forwarded.raised.Some? then Outcome(logged, forwarded.raised)
    else Outcome(logged + Notifications(observers, payload), None)
  }

  class RequestManager {
    /** The bound adapter; set at construction, never re-bound. */
    const api: Option<Adapter>
    /** The attached observers, in attachment order. */
    var observers: seq<ObserverId>

    ghost predicate Valid()
      reads this
    {
      NoDup(observers)
    }

    constructor (api: Option<Adapter>)
      ensures Valid()
      ensures this.api == api && observers == []
    {
      this.api := api;
      observers := [];
    }

    method Attach(o: ObserverId)
      requires Valid()
      modifies this`observers
      ensures Valid()
      ensures observers == Attached(old(observers), o)
    {
      AttachKeepsNoDup(observers, o);
      if o !in observers {
        observers := observers + [o];
      }
    }

    method Detach(o: ObserverId)
      requires Valid()
      modifies this`observers
      ensures Valid()
      ensures observers == Detached(old(observers), o)
    {
      DetachKeepsNoDup(observers, o);
      observers := Detached(observers, o);
    }

    /** Changes nothing: there is no modifies clause and the adapter is a constant. */
    method Send(payload: string, rt: Momo.Runtime) returns (r: Outcome)
      ensures r == Dispatch(payload, Forward(api, payload, rt), observers)
    {
      var trace := [Log(LogLine(payload))];
      var forwarded := Quiet;
      if api.Some? {
        match api.value
        case Gpt(a) =>
          forwarded := a.SendRequest(payload);
        case Deep(a) =>
          forwarded := a.SendRequest(payload);
        case Payment(a) =>
          forwarded := a.SendRequest(payload, rt);
      }
      trace := trace + forwarded.trace;
      if forwarded.raised.Some? {
        return Outcome(trace, forwarded.raised);
      }
      ghost var logged := trace;
      for i := 0 to |observers|
        invariant trace == logged + Notifications(observers[..i], payload)
      {
        assert observers[..i + 1] == observers[..i] + [observers[i]];
        trace := trace + [Notify(observers[i], payload)];
      }
      assert observers[..|observers|] == observers;
      r := Outcome(trace, None);
    }
  }

  lemma {:induction false} NotificationsSelect(observers: seq<ObserverId>, payload: string)
    ensures Select(Notifications(observers, payload), NotifyKind) == Notifications(observers, payload)
    ensures Select(Notifications(observers, payload), LogKind) == []
    ensures Select(Notifications(observers, payload), CallKind) == []
  {
    if observers != [] {
      NotificationsSelect(observers[1..], payload);
    }
  }

  /** Each observer is notified as many times as it occurs in the list. */
  lemma {:induction false} NotificationsCount(observers: seq<ObserverId>, payload: string, o: ObserverId)
    ensures multiset(Notifications(observers, payload))[Notify(o, payload)] == multiset(observers)[o]
  {
    if observers != [] {
      NotificationsCount(observers[1..], payload, o);
      assert observers == [observers[0]] + observers[1..];
    }
  }

  /** The three kinds of events of a send, each selected from its trace. */
  lemma SelectDispatch(payload: string, forwarded: Outcome, observers: seq<ObserverId>, k: Kind)
    requires OnlyCalls(forwarded.trace)
    ensures Select(Dispatch(payload, forwarded, observers).trace, k) ==
      (if k == LogKind then [Log(LogLine(payload))] else []) +
      (if k == CallKind then forwarded.trace else []) +
      (if k == NotifyKind && forwarded.raised.None? then Notifications(observers, payload) else [])
  {
    var log := [Log(LogLine(payload))];
    SelectOnlyCalls(forwarded.trace);
    NotificationsSelect(observers, payload);
    SelectConcat(log, forwarded.trace, k);
    if forwarded.raised.None? {
      SelectConcat(log + forwarded.trace, Notifications(observers, payload), k);
    }
    assert Select(log, k) == (if k == LogKind then log else []) by {
      assert log[1..] == [];
    }
  }

  /** send writes exactly one log line, "Sending request: " followed by the payload, before anything else. */
  lemma SendLogsOnceFirst(api: Option<Adapter>, payload: string, rt: Momo.Runtime, observers: seq<ObserverId>)
    ensures Dispatch(payload, Forward(api, payload, rt), observers).trace[0] == Log(LogPrefix + payload)
    ensures Select(Dispatch(payload, Forward(api, payload, rt), observers).trace, LogKind)
      == [Log(LogPrefix + payload)]
  {
    SelectDispatch(payload, Forward(api, payload, rt), observers, LogKind);
  }

  /**
   * The backend calls of a send are exactly those of one sendRequest on the
   * bound adapter, and there are none when no adapter is bound.
   */
  lemma SendForwardsOnce(api: Option<Adapter>, payload: string, rt: Momo.Runtime, observers: seq<ObserverId>)
    ensures Select(Dispatch(payload, Forward(api, payload, rt), observers).trace, CallKind)
      == Forward(api, payload, rt).trace
    ensures api.None? ==> Select(Dispatch(payload, Forward(api, payload, rt), observers).trace, CallKind) == []
  {
    SelectDispatch(payload, Forward(api, payload, rt), observers, CallKind);
  }

  /**
   * send throws exactly what the adapter threw. If the adapter returned (or
   * none is bound) the observers are notified in list order with the payload;
   * if it threw, none is.
   */
  lemma SendNotifiesUnlessRaised(api: Option<Adapter>, payload: string, rt: Momo.Runtime, observers: seq<ObserverId>)
    ensures Dispatch(payload, Forward(api, payload, rt), observers).raised == Forward(api, payload, rt).raised
    ensures Forward(api, payload, rt).raised.None? ==>
      Select(Dispatch(payload, Forward(api, payload, rt), observers).trace, NotifyKind)
        == Notifications(observers, payload)
    ensures Forward(api, payload, rt).raised.Some? ==>
      Select(Dispatch(payload, Forward(api, payload, rt), observers).trace, NotifyKind) == []
  {
    SelectDispatch(payload, Forward(api, payload, rt), observers, NotifyKind);
  }

  /**
   * With a duplicate-free list and a successful forward, every attached
   * observer is notified exactly once, no other observer is, and every
   * notification carries the payload unchanged.
   */
  lemma SendNotifiesEachOnce(api: Option<Adapter>, payload: string, rt: Momo.Runtime, observers: seq<ObserverId>, o: ObserverId)
    requires NoDup(observers) && Forward(api, payload, rt).raised.None?
    ensures multiset(Dispatch(payload, Forward(api, payload, rt), observers).trace)[Notify(o, payload)]
      == if o in observers then 1 else 0
    ensures forall e :: e in Dispatch(payload, Forward(api, payload, rt), observers).trace && e.Notify? ==>
      e.observer in observers && e.payload == payload
  {
    var fwd := Forward(api, payload, rt);
    var notes := Notifications(observers, payload);
    assert Dispatch(payload, fwd, observers).trace == [Log(LogLine(payload))] + fwd.trace + notes;
    assert Notify(o, payload) !in fwd.trace;
    NotificationsCount(observers, payload, o);
    NoDupCount(observers, o);
    forall e | e in notes
      ensures e.observer in observers && e.payload == payload
    {
      var i :| 0 <= i < |notes| && notes[i] == e;
    }
  }

  /** A detached observer receives no notification from a later send, whatever the payload. */
  lemma DetachedNotNotified(api: Option<Adapter>, payload: string, rt: Momo.Runtime, s: seq<ObserverId>, o: ObserverId, q: string)
    ensures Notify(o, q) !in Dispatch(payload, Forward(api, payload, rt), Detached(s, o)).trace
  {
  }

  /** Attaching the same observer twice still yields one notification per send. */
  lemma AttachTwiceNotifiedOnce(api: Option<Adapter>, payload: string, rt: Momo.Runtime, s: seq<ObserverId>, o: ObserverId)
    requires NoDup(s) && Forward(api, payload, rt).raised.None?
    ensures multiset(Dispatch(payload, Forward(api, payload, rt), Attached(Attached(s, o), o)).trace)[Notify(o, payload)] == 1
  {
    AttachIdempotent(s, o);
    AttachAppends(s, o);
    AttachKeepsNoDup(s, o);
    SendNotifiesEachOnce(api, payload, rt, Attached(s, o), o);
  }
}
