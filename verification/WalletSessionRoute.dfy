/** The latched service of app/api/internal/wallet-session-read/route.ts. */
module WalletSessionRoute {
  import opened Text

  /** What a request finds if it reaches the factory, and what the service does
      with it; `None` is an exception. */
  datatype Arrival<!Service, Reply> = Arrival(constructed: Option<Service>, handle: Service -> Option<Reply>)

  datatype Response<Reply> = Unavailable | Handled(reply: Reply)

  /** What the route answers once the latch holds `service`. */
  function Answer<Service, Reply>(service: Option<Service>, arrival: Arrival<Service, Reply>): Response<Reply>
  {
    if service.None? then Unavailable else
      var reply := arrival.handle(service.value);
      if reply.None? then Unavailable else Handled(reply.value)
  }

  class Route<Service(==), Reply> {
    var service: Option<Service>
    var initializationRejected: bool
    var constructions: nat // calls of the factory

    constructor ()
      ensures service == None && !initializationRejected && constructions == 0
    {
      service, initializationRejected, constructions := None, false, 0;
    }

    ghost predicate Valid()
      reads this
    {
      && !(service.Some? && initializationRejected)
      && constructions == (if service.Some? || initializationRejected then 1 else 0)
    }

    /** `runtimeService` */
    method RuntimeService(constructed: Option<Service>) returns (instance: Option<Service>)
      requires Valid()
      modifies this
      ensures Valid() && constructions == 1 && instance == service
      ensures service == if old(constructions) == 0 then constructed else old(service)
    {
      if initializationRejected { return None; }
      if service != None { return service; }
      constructions := constructions + 1;
      if constructed.Some? {
        service := constructed;
        return service;
      }
      initializationRejected := true;
      return None;
    }

    method Post(arrival: Arrival<Service, Reply>) returns (response: Response<Reply>)
      requires Valid()
      modifies this
      ensures Valid() && constructions == 1
      ensures service == if old(constructions) == 0 then arrival.constructed else old(service)
      ensures response == Answer(service, arrival)
      ensures forall r :: response == Handled(r) <==> service.Some? && arrival.handle(service.value) == Some(r)
    {
      var route := RuntimeService(arrival.constructed);
      if route == None { return Unavailable; }
      var reply := arrival.handle(route.value);
      response := if reply.Some? then Handled(reply.value) else Unavailable;
    }

    /** Over any sequence of requests the factory runs once, on the first; if
        it failed, every response is the unavailable one, and otherwise every
        request goes to that one instance. */
    method Serve(arrivals: seq<Arrival<Service, Reply>>) returns (responses: seq<Response<Reply>>)
      requires Valid() && constructions == 0
      modifies this
      ensures constructions <= 1 && |responses| == |arrivals|
      ensures forall k :: 0 <= k < |arrivals| ==> responses[k] == Answer(arrivals[0].constructed, arrivals[k])
      ensures forall k, r :: 0 <= k < |arrivals| ==>
                (responses[k] == Handled(r) <==>
                 arrivals[0].constructed.Some? && arrivals[k].handle(arrivals[0].constructed.value) == Some(r))
      ensures arrivals != [] && arrivals[0].constructed == None ==>
              forall k :: 0 <= k < |arrivals| ==> responses[k] == Unavailable
    {
      responses := [];
      for i := 0 to |arrivals|
        invariant Valid() && |responses| == i && constructions == (if i == 0 then 0 else 1)
        invariant i > 0 ==> service == arrivals[0].constructed
        invariant forall k :: 0 <= k < i ==> responses[k] == Answer(arrivals[0].constructed, arrivals[k])
      {
        var response := Post(arrivals[i]);
        responses := responses + [response];
      }
    }
  }
}
