/**
 * The stateful part of Predis' `ConnectionBase`: a connection object whose
 * fields `_resource`, `_initCmds` and `_cachedId` its methods update in place,
 * and the transport primitives it delegates to.
 */
module Network {
  import opened Wrappers
  import opened ConnectionSpec

  /**
   * The primitives a concrete connection class supplies: `createResource`,
   * `writeCommand` and `read`. What they yield is up to the socket and the
   * server, so their outcomes are given as oracles indexed by how many times
   * the primitive has been called; the counters record those calls.
   */
  class Transport {
    const creations: nat -> Result<Option<Handle>, Error>
    const writes: nat -> Outcome<Error>
    const replies: nat -> Result<Reply, Error>
    var created: nat
    var written: seq<Command>
    var readCount: nat

    constructor (creations: nat -> Result<Option<Handle>, Error>, writes: nat -> Outcome<Error>,
                 replies: nat -> Result<Reply, Error>)
      ensures this.creations == creations && this.writes == writes && this.replies == replies
      ensures created == 0 && written == [] && readCount == 0
    {
      this.creations := creations;
      this.writes := writes;
      this.replies := replies;
      created, written, readCount := 0, [], 0;
    }

    /** `createResource`: open a new resource, which may come back unset, or fail. */
    method CreateResource() returns (r: Result<Option<Handle>, Error>)
      modifies this`created
      ensures created == old(created) + 1 && r == creations(old(created))
    {
      r := creations(created);
      created := created + 1;
    }

    /** `writeCommand`: send a command's request on the wire. */
    method WriteCommand(command: Command) returns (o: Outcome<Error>)
      modifies this`written
      ensures written == old(written) + [command] && o == writes(|old(written)|)
    {
      o := writes(|written|);
      written := written + [command];
    }

    /** `read`: receive one reply unit from the wire. */
    method Read() returns (r: Result<Reply, Error>)
      modifies this`readCount
      ensures readCount == old(readCount) + 1 && r == replies(old(readCount))
    {
      r := replies(readCount);
      readCount := readCount + 1;
    }
  }

  /** `ConnectionBase`: one logical connection to the server. */
  class Connection {
    const params: Parameters
    const transport: Transport
    var resource: Option<Handle>
    var initCmds: seq<Command>
    var cachedId: Option<string>

    /** The abstract state the transition function `Next` works on. */
    ghost function Snapshot(): State
      reads this
    {
      State(resource, initCmds, cachedId)
    }

    /** The parameters passed validation and a cached identifier is theirs. */
    ghost predicate Valid()
      reads this
    {
      AcceptedScheme(params) && CacheConsistent(params, Snapshot())
    }

    /** The constructor proper, once `checkParameters` has accepted the parameters. */
    constructor (parameters: Parameters, transport: Transport)
      requires AcceptedScheme(parameters)
      ensures Valid() && params == parameters && this.transport == transport
      ensures Snapshot() == Initial()
    {
      initCmds := [];
      params := parameters;
      this.transport := transport;
      resource := None;
      cachedId := None;
    }

    /**
     * `__construct`: validate the parameters (`existing` stands for the paths
     * `file_exists` reports) and build a disconnected connection with an empty
     * init-command queue, or throw the validation error.
     */
    static method Create(parameters: Parameters, existing: set<string>, transport: Transport)
      returns (r: Result<Connection, Error>)
      ensures r.Failure? ==> CheckParameters(parameters, existing) == Failure(r.error)
      ensures r.Success? ==> CheckParameters(parameters, existing) == Success(parameters)
      ensures r.Success? ==> fresh(r.value) && r.value.Valid() && r.value.Snapshot() == Initial()
      ensures r.Success? ==> r.value.params == parameters && r.value.transport == transport
    {
      var checked := CheckParameters(parameters, existing);
      match checked
      case Failure(e) =>
        r := Failure(e);
      case Success(p) =>
        var c := new Connection(p, transport);
        r := Success(c);
    }

    /** `isConnected`. */
    predicate IsConnected()
      reads this
      ensures IsConnected() <==> Connected(Snapshot())
    {
      resource.Some?
    }

    /**
     * `connect`: refused on a connected connection; otherwise calls
     * `createResource` once and stores what it yields.
     */
    method Connect() returns (r: Outcome<Error>)
      requires Valid()
      modifies this`resource, transport`created
      ensures Valid()
      ensures transport.created == old(transport.created) + (if old(IsConnected()) then 0 else 1)
      ensures r == ConnectOutcome(old(Snapshot()), transport.creations(old(transport.created)))
      ensures Snapshot() == Next(params, old(Snapshot()), Op.Connect(transport.creations(old(transport.created))))
    {
      if IsConnected() {
        return Fail(ClientError(AlreadyConnectedMessage));
      }
      var created := transport.CreateResource();
      match created
      case Failure(e) =>
        r := Fail(e);
      case Success(h) =>
        resource := h;
        r := Pass;
    }

    /** `disconnect`: drop the resource, connected or not. */
    method Disconnect()
      requires Valid()
      modifies this`resource
      ensures Valid() && !IsConnected()
      ensures Snapshot() == Next(params, old(Snapshot()), Op.Disconnect)
    {
      resource := None;
    }

    /** `pushInitCommand`: append to the init-command queue. */
    method PushInitCommand(command: Command)
      requires Valid()
      modifies this`initCmds
      ensures Valid() && initCmds == old(initCmds) + [command]
      ensures Snapshot() == Next(params, old(Snapshot()), Op.PushInitCommand(command))
    {
      initCmds := initCmds + [command];
    }

    /** `readResponse`: read one reply and dispatch it. */
    method ReadResponse(command: Command) returns (r: Result<Reply, Error>)
      modifies transport`readCount
      ensures transport.readCount == old(transport.readCount) + 1
      ensures r == Dispatch(command, transport.replies(old(transport.readCount)))
    {
      var reply := transport.Read();
      r := Dispatch(command, reply);
    }

    /** `executeCommand`: write the command, then read its response; a failed write reads nothing. */
    method ExecuteCommand(command: Command) returns (r: Result<Reply, Error>)
      modifies transport`written, transport`readCount
      ensures transport.written == old(transport.written) + [command]
      ensures var w := transport.writes(|old(transport.written)|);
              if w.Fail? then r == Failure(w.error) && transport.readCount == old(transport.readCount)
              else r == Dispatch(command, transport.replies(old(transport.readCount))) &&
                   transport.readCount == old(transport.readCount) + 1
    {
      var w := transport.WriteCommand(command);
      if w.Fail? {
        return Failure(w.error);
      }
      r := ReadResponse(command);
    }

    /**
     * `getResource`: the held resource, or, on a disconnected connection, the
     * one a single implicit `connect` stores.
     */
    method GetResource() returns (r: Result<Option<Handle>, Error>)
      requires Valid()
      modifies this`resource, transport`created
      ensures Valid()
      ensures transport.created == old(transport.created) + (if old(IsConnected()) then 0 else 1)
      ensures r == GetResourceOutcome(old(Snapshot()), transport.creations(old(transport.created)))
      ensures Snapshot() == Next(params, old(Snapshot()), Op.GetResource(transport.creations(old(transport.created))))
    {
      if resource.Some? {
        return Success(resource);
      }
      var o := Connect();
      if o.Fail? {
        return Failure(o.error);
      }
      r := Success(resource);
    }

    /** `getParameters`: the validated parameters. */
    function GetParameters(): (p: Parameters)
      reads this
      requires Valid()
      ensures p == params && AcceptedScheme(p) && Identifiable(p)
    {
      params
    }

    /** `__toString`: the identifier, computed on the first call and cached. */
    method ToString() returns (id: string)
      requires Valid()
      modifies this`cachedId
      ensures Valid() && id == Identifier(params) && cachedId == Some(id)
      ensures Snapshot() == Next(params, old(Snapshot()), Op.ToString)
    {
      if cachedId.None? {
        cachedId := Some(Identifier(params));
      }
      id := cachedId.value;
    }
  }

  /** Two connects without a disconnect: the second is refused and the first resource stays. */
  method ConnectTwice(c: Connection, h: Handle) returns (first: Outcome<Error>, second: Outcome<Error>)
    requires c.Valid() && !c.IsConnected()
    requires c.transport.creations(c.transport.created) == Success(Some(h))
    modifies c`resource, c.transport`created
    ensures first == Pass && second == Fail(ClientError(AlreadyConnectedMessage))
    ensures c.Valid() && c.Snapshot() == old(c.Snapshot()).(resource := Some(h))
    ensures c.transport.created == old(c.transport.created) + 1
  {
    first := c.Connect();
    second := c.Connect();
  }

  /** A lazy connect, then a second `getResource`: one resource is created and returned twice. */
  method LazyConnectOnce(c: Connection, h: Handle) returns (a: Result<Option<Handle>, Error>, b: Result<Option<Handle>, Error>)
    requires c.Valid() && !c.IsConnected()
    requires c.transport.creations(c.transport.created) == Success(Some(h))
    modifies c`resource, c.transport`created
    ensures a == b == Success(Some(h))
    ensures c.Valid() && c.Snapshot() == old(c.Snapshot()).(resource := Some(h))
    ensures c.transport.created == old(c.transport.created) + 1
  {
    a := c.GetResource();
    b := c.GetResource();
  }

  /** Disconnecting twice leaves the same state as once, and never fails. */
  method DisconnectTwice(c: Connection)
    requires c.Valid()
    modifies c`resource
    ensures c.Valid() && !c.IsConnected() && c.Snapshot() == old(c.Snapshot()).(resource := None)
  {
    c.Disconnect();
    c.Disconnect();
  }

  /** Two conversions to string give the same identifier. */
  method ToStringTwice(c: Connection) returns (x: string, y: string)
    requires c.Valid()
    modifies c`cachedId
    ensures x == y == Identifier(c.params)
    ensures c.Valid() && c.Snapshot() == old(c.Snapshot()).(cachedId := Some(Identifier(c.params)))
  {
    x := c.ToString();
    y := c.ToString();
  }
}
