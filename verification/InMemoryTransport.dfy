/** The in-memory transport: the state behind its mutex, and what one critical section does to it. */
module InMemoryTransport {
  import opened Messages
  import opened Transport

  type Queues = map<string, seq<Envelope>>

  /** What waits at an address. */
  function At(queues: Queues, name: string): seq<Envelope> {
    if name in queues then queues[name] else []
  }

  function Pushed(queues: Queues, name: string, envelope: Envelope): Queues {
    queues[name := At(queues, name) + [envelope]]
  }

  /** An address that runs empty disappears from the map. */
  function Popped(queues: Queues, name: string): Queues
    requires At(queues, name) != []
  {
    if |queues[name]| == 1 then queues - {name} else queues[name := queues[name][1..]]
  }

  /** A receiver at this address need not wait. */
  predicate Ready(stopped: bool, queues: Queues, name: string) {
    stopped || At(queues, name) != []
  }

  /** What a receiver gets once it has stopped waiting. */
  function Taken(stopped: bool, queues: Queues, name: string): Result<Envelope> {
    if stopped then Failure(Unavailable)
    else if At(queues, name) == [] then Failure(Timeout)
    else Success(At(queues, name)[0])
  }

  predicate NoneEmpty(queues: Queues) {
    forall name <- queues :: queues[name] != []
  }

  class SharedState {
    var stopped: bool
    var queues: Queues

    predicate Valid()
      reads this
    {
      NoneEmpty(queues)
    }

    constructor ()
      ensures Valid() && !stopped && queues == map[]
    {
      stopped := false;
      queues := map[];
    }

    /** The locked part of send, with the checks before it. */
    method Send(destination: Address, envelope: Envelope, confirm: bool) returns (code: StatusCode)
      requires Valid()
      modifies this
      ensures Valid() && stopped == old(stopped)
      ensures code == if destination.name == "" then InvalidArgument
                      else if confirm then Unsupported
                      else if old(stopped) then Unavailable
                      else Ok
      ensures queues == if code == Ok then Pushed(old(queues), destination.name, envelope) else old(queues)
    {
      if destination.name == "" {
        return InvalidArgument;
      }
      if confirm {
        return Unsupported;
      }
      if stopped {
        return Unavailable;
      }
      queues := queues[destination.name := At(queues, destination.name) + [envelope]];
      return Ok;
    }

    /** The end of receive, after any waiting. */
    method Take(source: Address) returns (result: Result<Envelope>)
      requires Valid()
      modifies this
      ensures Valid() && stopped == old(stopped)
      ensures result == Taken(stopped, old(queues), source.name)
      ensures queues == if result.Success? then Popped(old(queues), source.name) else old(queues)
      ensures result == Failure(Timeout) ==> source.name !in queues
    {
      if stopped {
        return Failure(Unavailable);
      }
      if source.name !in queues || queues[source.name] == [] {
        return Failure(Timeout);
      }
      var queue := queues[source.name];
      result := Success(queue[0]);
      queues := queues[source.name := queue[1..]];
      if queues[source.name] == [] {
        queues := queues - {source.name};
      }
    }

    method Shutdown() returns (first: bool)
      requires Valid()
      modifies this
      ensures Valid() && stopped && queues == old(queues) && first == !old(stopped)
    {
      if stopped {
        return false;
      }
      stopped := true;
      return true;
    }
  }
}
