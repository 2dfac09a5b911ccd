/** The database connection of pkg/infra/database/mongodb.go: the shared
    client handle, the 0/1 health flag, and the monitor that pings the
    client and reconnects when it is gone. The monitor's endless loop and
    its 30-second sleep are modelled as a finite sequence of ticks; what
    pinging and connecting answer is given as input. */
module Database {
  import opened Base

  /** A connected driver client; its internals are not modelled. */
  datatype Client = Client(handle: nat)

  /** How an attempt to build and connect a client ends. */
  datatype Attempt = CreationFailed | ConnectionFailed | Connected(client: Client)

  /** What one tick of the monitor observes: whether the current client
      answers a ping, and how a reconnection attempt would end. */
  datatype Probe = Probe(pingOk: bool, attempt: Attempt)

  /** The client the connection holds after one tick. */
  function NextClient(client: Option<Client>, probe: Probe): (next: Option<Client>)
    ensures client.Some? && probe.pingOk ==> next == client
    ensures (client.None? || !probe.pingOk) ==>
              (next.Some? <==> probe.attempt.Connected?)
              && (probe.attempt.Connected? ==> next == Some(probe.attempt.client))
  {
    if client.None? || !probe.pingOk then
      if probe.attempt.Connected? then Some(probe.attempt.client) else None
    else client
  }

  /** The client after a run of ticks, starting from `client`. */
  function ClientAfter(client: Option<Client>, probes: seq<Probe>): Option<Client>
  {
    if probes == [] then client else NextClient(ClientAfter(client, probes[..|probes| - 1]), probes[|probes| - 1])
  }

  /** Ticks can only bring a client back by connecting: if no attempt in a
      run connects and the first tick finds the client broken, no client
      is held at the end. */
  lemma {:induction false} NoConnectionNoClient(client: Option<Client>, probes: seq<Probe>)
    requires probes != [] && (client.None? || !probes[0].pingOk)
    requires forall i :: 0 <= i < |probes| ==> !probes[i].attempt.Connected?
    ensures ClientAfter(client, probes) == None
  {
    if |probes| > 1 {
      NoConnectionNoClient(client, probes[..|probes| - 1]);
    }
  }

  class MongoConnection {
    /** `mongoClient`: nil until a connection succeeds. */
    var client: Option<Client>
    /** `healthy`: the int32 flag, 1 while the database is reachable. */
    var healthy: int

    /** The flag is 0 or 1, and it is 1 exactly when a client is held. */
    ghost predicate Valid()
      reads this
    {
      (healthy == 0 || healthy == 1) && (healthy == 1 <==> client.Some?)
    }

    /** The zero-initialised package state. */
    constructor ()
      ensures client == None && healthy == 0
      ensures Valid()
    {
      client := None;
      healthy := 0;
    }

    /** `IsMongoClientAlive`. */
    function IsMongoClientAlive(): (alive: bool)
      reads this
      ensures Valid() ==> (alive <==> client.Some?)
    {
      healthy == 1
    }

    /** `RetrieveMongoClient`: the current client, nil when there is none. */
    function RetrieveMongoClient(): (r: Option<Client>)
      reads this
      ensures r == client
      ensures Valid() ==> (r.Some? <==> IsMongoClientAlive())
    {
      if client.Some? then client else None
    }

    method SetMongoDBStatusUp()
      modifies this`healthy
      ensures healthy == 1
    {
      healthy := 1;
    }

    method SetMongoDBStatusDown()
      modifies this`healthy
      ensures healthy == 0
    {
      healthy := 0;
    }

    /** `createMongoClient`: a failure to create or to connect yields nil
        and leaves the flag alone; a connected client raises it to 1. */
    method CreateMongoClient(attempt: Attempt) returns (c: Option<Client>)
      modifies this`healthy
      ensures attempt.Connected? ==> c == Some(attempt.client) && healthy == 1
      ensures !attempt.Connected? ==> c == None && healthy == old(healthy)
    {
      match attempt {
        case CreationFailed =>
          return None;
        case ConnectionFailed =>
          return None;
        case Connected(newClient) =>
          SetMongoDBStatusUp();
          return Some(newClient);
      }
    }

    /** `InitializeMongoClient`, without starting the monitor. */
    method InitializeMongoClient(attempt: Attempt)
      requires client == None && healthy == 0
      modifies this
      ensures client == (if attempt.Connected? then Some(attempt.client) else None)
      ensures Valid()
    {
      client := CreateMongoClient(attempt);
    }

    /** One iteration of `mongoClientMonitor`. A missing client or a failed
        ping lowers the flag and replaces the client by whatever a new
        connection gives; a client that answers raises the flag and stays. */
    method MonitorTick(probe: Probe)
      modifies this
      ensures client == NextClient(old(client), probe)
      ensures old(client).Some? && probe.pingOk ==> healthy == 1
      ensures (old(client).None? || !probe.pingOk) && !probe.attempt.Connected? ==> healthy == 0
      ensures Valid()
    {
      if client.None? || !probe.pingOk {
        SetMongoDBStatusDown();
        client := CreateMongoClient(probe.attempt);
      } else {
        SetMongoDBStatusUp();
      }
    }

    /** The monitor loop, run for as many ticks as there are probes. */
    method MonitorMongoClient(probes: seq<Probe>)
      modifies this
      ensures client == ClientAfter(old(client), probes)
      ensures probes != [] ==> Valid()
    {
      ghost var start := client;
      for i := 0 to |probes|
        invariant client == ClientAfter(start, probes[..i])
        invariant i > 0 ==> Valid()
      {
        assert probes[..i + 1][..i] == probes[..i];
        MonitorTick(probes[i]);
      }
      assert probes[..|probes|] == probes;
    }
  }
}
