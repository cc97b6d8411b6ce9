# Predis single-connection base, in Dafny

This project models `ConnectionBase`, the abstract base class of Predis'
single connections to a Redis server (`Classes/Network/ConnectionBase.php`),
and proves properties of that model. The class does four things:

- It validates the connection parameters. A `unix` scheme needs a socket
  path that exists; it then falls through to the `tcp` case. Every other
  scheme is refused.
- It runs a two-state lifecycle, Disconnected and Connected, held in
  `_resource`. `connect` refuses to run twice. `disconnect` is idempotent.
  `getResource` is the one path that connects implicitly.
- It keeps an init-command queue, `_initCmds`, that can only be appended to.
- It provides helpers: the reply dispatch of `readResponse`, the memoised
  identifier of `__toString`, and the error hooks.

Layout:

- `wrappers.dfy` (module `Wrappers`): `Option`, `Result` and `Outcome`. A thrown
  PHP exception becomes a `Failure`/`Fail` value.
- `decimal.dfy` (module `Decimal`): how PHP interpolates an `int` into a
  string, and a parser that reads it back.
- `connection_spec.dfy` (module `ConnectionSpec`): the value-level part.
  This holds the parameters, errors, replies and commands, and
  `CheckParameters`, `Identifier`, `Dispatch` and the error hooks. It also
  holds the lifecycle as a transition function `Next` over an abstract
  `State` (`_resource`, `_initCmds`, `_cachedId`), with `Run` for a whole
  sequence of calls, and lemmas about single calls and about every trace.
- `connection.dfy` (module `Network`): the class `Connection`. Its methods
  update `resource`, `initCmds` and `cachedId` in place. Each method that
  changes them (`Connect`, `Disconnect`, `PushInitCommand`, `GetResource`,
  `ToString`) has an `ensures` that ties its new state to `Next` applied to
  its old state. `Create` instead ensures the initial state, and
  `ReadResponse` and `ExecuteCommand` leave those fields alone. The class
  `Transport` stands for the primitives a concrete subclass supplies. At the
  end are four client methods that combine calls.

The transport primitives (`createResource`, `writeCommand`, `read`) do socket
I/O. Here they are methods of `Transport`. Each takes its outcome from an
oracle function indexed by how many times it has been called, and a counter
records each call. So "`getResource` on a connected object does not call
`createResource`" is stated as "the counter is unchanged". `file_exists` is
the set `existing` of paths, passed to `Connection.Create`. A command's
`parseResponse` is a function carried by the `Command` value.

One might expect a successful `connect` to leave the object connected. The
code does not guarantee it: `connect` stores whatever `createResource`
returns, and PHP's `isset` treats a null return as "not connected". So a
created resource is an `Option<Handle>`, and `connect` can succeed and still
leave the object disconnected. Also, the failures of `writeCommand` and
`read` are propagated exactly as they are. They are not re-classified as
communication errors.

## Model

| member | source | states |
|---|---|---|
| `ConnectionSpec.CheckParameters` | Classes/Network/ConnectionBase.php:27-43 | validation succeeds exactly for `tcp`, or for `unix` with a path that exists; on success it returns the parameters unchanged; every failure is an invalid-argument error |
| `ConnectionSpec.UnixWithoutPath` | Classes/Network/ConnectionBase.php:29-33 | a `unix` scheme without a path fails with "Missing UNIX domain socket path" |
| `ConnectionSpec.UnixPathNotFound` | Classes/Network/ConnectionBase.php:34-36 | a `unix` path that does not exist fails with an invalid-argument error whose message names the path |
| `ConnectionSpec.UnixPathFound` | Classes/Network/ConnectionBase.php:29-38 | a `unix` path that exists falls through to the `tcp` case and the parameters come back unchanged |
| `ConnectionSpec.UnknownSchemeRefused` | Classes/Network/ConnectionBase.php:39-40 | any scheme other than `unix` and `tcp` fails with an invalid-argument error whose message names the scheme |
| `Decimal.IntToString` | Classes/Network/ConnectionBase.php:119 | the interpolated port is canonical decimal text (digits with no leading zero, after a minus sign that never precedes a zero), with a minus sign exactly for negative numbers and no colon |
| `Decimal.NatToString` | Classes/Network/ConnectionBase.php:119 | the decimal digits of a magnitude are canonical (non-empty, no leading zero) and start with a non-zero digit whenever the number is positive |
| `Decimal.NatRoundTrip` | Classes/Network/ConnectionBase.php:119 | proof helper for `TcpIdentifierRoundTrip`, not a model of the line: reading back the digits of a natural number gives that number |
| `Decimal.NatTextRoundTrip` | Classes/Network/ConnectionBase.php:119 | rendering the number that canonical digits denote gives those digits back |
| `Decimal.IntTextRoundTrip` | Classes/Network/ConnectionBase.php:119 | rendering the integer that canonical integer text denotes gives that text back, so every canonical text is PHP's rendering of its value |
| `Decimal.CanonicalIntTextUnique` | Classes/Network/ConnectionBase.php:119 | two canonical integer texts with the same value are equal: PHP's rendering of a port is the only canonical text for it |
| `Decimal.ParseNatPositive` | Classes/Network/ConnectionBase.php:119 | proof helper for `NatTextRoundTrip`: digits that do not start with zero denote a positive number |
| `Decimal.IntRoundTrip` | Classes/Network/ConnectionBase.php:119 | proof helper for `TcpIdentifierRoundTrip`, not a model of the line: reading back the interpolated integer gives that integer, negative ones included |
| `ConnectionSpec.LastIndexOf` | Classes/Network/ConnectionBase.php:119 | proof helper for `TcpIdentifierRoundTrip`, not a model of the line: finds the last occurrence of a character, or reports there is none |
| `ConnectionSpec.Identifier` | Classes/Network/ConnectionBase.php:115-120 | `getIdentifier`: for `unix` the socket path; otherwise exactly the host, a colon, and PHP's rendering of the port, which is colon-free canonical integer text that reads back as the port |
| `ConnectionSpec.SplitIdentifier` | Classes/Network/ConnectionBase.php:119 | proof helper for `TcpIdentifierRoundTrip`, not a model of the line: a reader that splits an identifier at its last colon into a host and a port, and finds nothing when there is no colon |
| `ConnectionSpec.TcpIdentifierRoundTrip` | Classes/Network/ConnectionBase.php:115-120 | a non-unix identifier `host:port` splits back at its last colon into exactly that host and port, even when the host contains colons |
| `ConnectionSpec.UnixIdentifierIsPath` | Classes/Network/ConnectionBase.php:116-118 | a `unix` identifier is the socket path itself |
| `ConnectionSpec.ExampleIdentifiers` | Classes/Network/ConnectionBase.php:115-120 | `tcp` 127.0.0.1 port 6379 gives "127.0.0.1:6379"; `unix` with path /tmp/sock gives "/tmp/sock" |
| `ConnectionSpec.Dispatch` | Classes/Network/ConnectionBase.php:75-81 | the dispatch rule of `readResponse`: the result differs from what was read only when an unmarked reply went through `parseResponse`; a read failure or a `skipParse` reply comes back as it is |
| `ConnectionSpec.SkipParseVerbatim` | Classes/Network/ConnectionBase.php:77-79 | a reply marked `skipParse` is returned as it is, whatever the command's parser does |
| `ConnectionSpec.UnmarkedReplyParsed` | Classes/Network/ConnectionBase.php:80 | an unmarked reply yields the command's `parseResponse` of it |
| `ConnectionSpec.ReadFailurePropagates` | Classes/Network/ConnectionBase.php:76 | a failed read surfaces unchanged and nothing is parsed |
| `ConnectionSpec.IdentityParseTransparent` | Classes/Network/ConnectionBase.php:75-81 | with an identity parser, whatever was read comes back unchanged, marked or not |
| `ConnectionSpec.OnConnectionError` | Classes/Network/ConnectionBase.php:83-87 | yields a communication failure of the connection kind, with the given message and optional code |
| `ConnectionSpec.OnProtocolError` | Classes/Network/ConnectionBase.php:89-93 | yields a communication failure of the protocol kind, with the given message |
| `ConnectionSpec.OnInvalidOption` | Classes/Network/ConnectionBase.php:95-101 | yields a local invalid-argument error; the message starts "Invalid option: " and names the option; with no parameters it is exactly `"Invalid option: " + option`, with parameters exactly `"Invalid option: " + option + " [" + parameters + "]"` |
| `ConnectionSpec.Initial` | Classes/Network/ConnectionBase.php:17-21 | the state after construction: disconnected, empty init-command queue, no cached identifier |
| `ConnectionSpec.Store` | Classes/Network/ConnectionBase.php:59 | the assignment of `createResource`'s result: the resource becomes what was created, so the state is connected exactly when that is set; a failed creation changes nothing; queue and cache are untouched |
| `ConnectionSpec.Next` | Classes/Network/ConnectionBase.php:55-68 | the state after one call of `connect`, `disconnect` or `pushInitCommand`, and also of `getResource` (lines 103-109) and `__toString` (lines 122-127): only a push changes the queue, and only by appending its command; only `disconnect` or a connect from a disconnected state changes the resource; `disconnect` ends disconnected; connecting calls on a connected state change nothing; only `__toString` on an empty cache changes the cache, and it stores the identifier |
| `ConnectionSpec.ConnectOutcome` | Classes/Network/ConnectionBase.php:55-60 | what `connect` returns or throws: it succeeds exactly when disconnected and creation succeeded; on a connected state it fails with "Connection already estabilished"; otherwise a creation failure propagates |
| `ConnectionSpec.GetResourceOutcome` | Classes/Network/ConnectionBase.php:103-109 | what `getResource` returns or throws: it succeeds exactly when connected or creation succeeded, returning the held resource or the created one; a failure is exactly the creation failure on a disconnected state |
| `ConnectionSpec.ConnectWhenConnected` | Classes/Network/ConnectionBase.php:55-58 | `connect` on a connected state fails with "Connection already estabilished" and leaves the state unchanged |
| `ConnectionSpec.ConnectWhenDisconnected` | Classes/Network/ConnectionBase.php:59 | `connect` on a disconnected state stores what `createResource` yields; the state is connected exactly when that result is set; a failed creation changes nothing and propagates |
| `ConnectionSpec.DisconnectIdempotent` | Classes/Network/ConnectionBase.php:62-64 | `disconnect` leaves the state disconnected, changes nothing else, and twice equals once |
| `ConnectionSpec.GetResourceWhenConnected` | Classes/Network/ConnectionBase.php:104-106 | `getResource` on a connected state returns the held resource and changes nothing |
| `ConnectionSpec.LazyConnectReused` | Classes/Network/ConnectionBase.php:103-109 | a lazy connect returns the new resource; a second `getResource` returns the same resource and changes nothing |
| `ConnectionSpec.ToStringMemoised` | Classes/Network/ConnectionBase.php:122-127 | `__toString` caches the parameters' identifier, and a second call changes nothing |
| `ConnectionSpec.RunQueue` | Classes/Network/ConnectionBase.php:66-68 | after any sequence of calls the init-command queue is the old queue followed by the pushed commands, in order |
| `ConnectionSpec.RunKeepsCache` | Classes/Network/ConnectionBase.php:122-127 | after any sequence of calls a cached identifier is unchanged and is still the parameters' identifier |
| `ConnectionSpec.RunAppend` | Classes/Network/ConnectionBase.php:55-68 | running one more call after a sequence is one more step of the transition function |
| `ConnectionSpec.EndsDisconnected` | Classes/Network/ConnectionBase.php:62-64 | any sequence of calls that ends with `disconnect` ends disconnected |
| `ConnectionSpec.ConnectTwiceKeepsFirst` | Classes/Network/ConnectionBase.php:55-60 | from the initial state, two connects: the second is refused and the first resource stays |
| `Network.Transport.CreateResource` | Classes/Network/ConnectionBase.php:49 | the abstract factory: each call is counted and yields the environment's next outcome |
| `Network.Transport.WriteCommand` | Classes/Network/ConnectionBase.php:71 | the abstract write: the command is recorded as written and the environment's outcome is returned |
| `Network.Transport.Read` | Classes/Network/ConnectionBase.php:76 | the abstract read: each call is counted and yields the environment's next reply or failure |
| `Network.Connection.constructor` | Classes/Network/ConnectionBase.php:17-21 | from accepted parameters, builds a disconnected connection with an empty queue, no cached identifier, and those parameters |
| `Network.Connection.Create` | Classes/Network/ConnectionBase.php:17-21 | construction fails with exactly the validation error, or yields a fresh, disconnected connection with an empty queue holding the validated parameters |
| `Network.Connection.IsConnected` | Classes/Network/ConnectionBase.php:51-53 | true exactly when a resource is held, in the abstract state's terms |
| `Network.Connection.Connect` | Classes/Network/ConnectionBase.php:55-60 | calls `createResource` exactly when disconnected; its result and new state are `ConnectOutcome` and `Next` of the old state |
| `Network.Connection.Disconnect` | Classes/Network/ConnectionBase.php:62-64 | never fails, leaves the connection disconnected, and is one `Next` step |
| `Network.Connection.PushInitCommand` | Classes/Network/ConnectionBase.php:66-68 | the new queue is the old queue followed by the command; resource and cached identifier are untouched |
| `Network.Connection.ReadResponse` | Classes/Network/ConnectionBase.php:75-81 | reads exactly one reply and returns its `Dispatch` |
| `Network.Connection.ExecuteCommand` | Classes/Network/ConnectionBase.php:70-73 | writes the command, then returns the dispatch of one read; a failed write returns its error and reads nothing |
| `Network.Connection.GetResource` | Classes/Network/ConnectionBase.php:103-109 | calls `createResource` only when disconnected, then once; result and state follow `GetResourceOutcome` and `Next` |
| `Network.Connection.GetParameters` | Classes/Network/ConnectionBase.php:111-113 | returns the held parameters, which passed validation |
| `Network.Connection.ToString` | Classes/Network/ConnectionBase.php:122-127 | returns the parameters' identifier and leaves it cached |
| `Network.ConnectTwice` | Classes/Network/ConnectionBase.php:55-60 | on the object: a second `connect` is refused, the first resource stays, one resource was created, nothing else changes and the invariant holds |
| `Network.LazyConnectOnce` | Classes/Network/ConnectionBase.php:103-109 | on the object: two `getResource` calls return the same resource, one resource was created and is held, nothing else changes and the invariant holds |
| `Network.DisconnectTwice` | Classes/Network/ConnectionBase.php:62-64 | on the object: two disconnects leave the state of one disconnect, and the invariant holds |
| `Network.ToStringTwice` | Classes/Network/ConnectionBase.php:122-127 | on the object: two string conversions give the same identifier, which is then cached; nothing else changes and the invariant holds |

Line 42 of `checkParameters` cannot be reached: each case of the switch
returns or throws. `CheckParameters` has no path that corresponds to it.

## Left out

- Socket I/O in `createResource`, `writeCommand` and `read`: these are abstract or belong to subclasses not in this model. They appear only as oracle outcomes in `Transport`.
- `Transport.CreateResource`, `Transport.WriteCommand` and `Transport.Read` are assumed never to call back into the connection. In PHP they are methods of the connection object itself, so a subclass's `read` or `writeCommand` may call `getResource` (a lazy connect), `disconnect` or `pushInitCommand`. Because of this assumption the frames of `ReadResponse` and `ExecuteCommand` promise that running a command leaves `resource`, `initCmds` and `cachedId` unchanged. The base class's own code at lines 70-81 guarantees that; a subclass need not.
- `file_exists`: it reads filesystem state. It is the set of existing paths given to `Connection.Create`. A race between validation and connect is not modelled.
- `Helpers::onCommunicationException` is not part of this model. That includes its reset-connection step and whether it rethrows. The hooks `OnConnectionError` and `OnProtocolError` only build the error value. The exceptions also do not carry a reference to the connection.
- `__destruct`: PHP runs it at garbage collection, and Dafny has no counterpart. Teardown is `Disconnect`. Nothing proves that a discarded connection gets disconnected.
- `initializeProtocol`: it is a no-op extension hook.
- Replaying the init-command queue after connecting: the base class only stores the queue. Replay happens in subclasses that are not part of this model.
- PHP's loose `switch` comparison: the scheme is modelled as a string, and for strings the comparison is string equality. A non-string scheme such as the integer 0 is not modelled.
- Parsed results: they have the same `Reply` type as raw replies. PHP lets `parseResponse` return any value.
- Host and port: the model assumes they are set (a string and an `int`). PHP would interpolate an unset one as an empty string.
- Classes/Profiles/ServerVersionNext.php is not part of this model: it is a static table of command names. Classes/Package.php is not part of this model either: it is empty framework glue.
