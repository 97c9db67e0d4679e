/** A client session of the QEMU Machine Protocol (QMP): the greeting check
    that makes a connection usable, the `{execute, arguments?}` messages it
    writes, one inbound message per command, and the liveness probe.

    The socket is replaced by a queue of inbound chunks, each already passed
    through `JSON.parse`; the 2000 ms timer of the liveness probe is replaced
    by a flag that says whether it fired first. */
module Qmp {
  import opened Wrappers
  import opened Json

  /** Milliseconds `isAlive` waits for the status reply. */
  const IsAliveTimeoutMs: nat := 2000

  // ---------------------------------------------------------------------
  // The closed command set and its argument table

  datatype Command =
    | QmpCapabilities
    | QueryCommands
    | QueryStatus
    | QueryBlock
    | HumanMonitorCommand
    | DeviceAdd
    | DeviceDel
    | DeviceListProperties

  /** The command's name on the wire. */
  function WireName(c: Command): string {
    match c
    case QmpCapabilities => "qmp_capabilities"
    case QueryCommands => "query-commands"
    case QueryStatus => "query-status"
    case QueryBlock => "query-block"
    case HumanMonitorCommand => "human-monitor-command"
    case DeviceAdd => "device_add"
    case DeviceDel => "device_del"
    case DeviceListProperties => "device-list-properties"
  }

  /** The command a wire name stands for, if any. */
  function CommandNamed(name: string): (r: Option<Command>)
    ensures r.Some? ==> WireName(r.value) == name
    ensures r.None? ==> forall c :: WireName(c) != name
  {
    if name == "qmp_capabilities" then Some(QmpCapabilities)
    else if name == "query-commands" then Some(QueryCommands)
    else if name == "query-status" then Some(QueryStatus)
    else if name == "query-block" then Some(QueryBlock)
    else if name == "human-monitor-command" then Some(HumanMonitorCommand)
    else if name == "device_add" then Some(DeviceAdd)
    else if name == "device_del" then Some(DeviceDel)
    else if name == "device-list-properties" then Some(DeviceListProperties)
    else None
  }

  /** The four commands that are called with an argument; the other four take none. */
  predicate TakesArgument(c: Command) {
    c.HumanMonitorCommand? || c.DeviceAdd? || c.DeviceDel? || c.DeviceListProperties?
  }

  /** The property names any argument object may carry. */
  const PropNames: set<string> :=
    {"command-line", "driver", "id", "vendorid", "productid", "hostbus", "hostaddr", "hostdevice", "typename"}

  /** Properties typed as numbers; the others are strings. */
  predicate IsNumericProp(name: string) {
    name in {"vendorid", "productid", "hostbus", "hostaddr"}
  }

  /** The properties each argument-taking command admits (all of them optional). */
  function AllowedProps(c: Command): (r: set<string>)
    ensures r <= PropNames
  {
    match c
    case HumanMonitorCommand => {"command-line"}
    case DeviceAdd => {"driver", "id", "productid", "vendorid", "hostbus", "hostaddr", "hostdevice"}
    case DeviceDel => {"id"}
    case DeviceListProperties => {"typename"}
    case _ => {}
  }

  datatype ArgValue = Str(s: string) | Num(n: int)

  /** An argument is a partial property record, or the literal string `"none"`
      that the argument type also admits. */
  datatype Argument = NoneLiteral | Props(props: map<string, ArgValue>)

  /** The argument has the shape the command's argument type gives it. */
  predicate Fits(c: Command, a: Argument) {
    match a
    case NoneLiteral => true
    case Props(props) =>
      props.Keys <= AllowedProps(c) && forall p :: p in props ==> (props[p].Num? <==> IsNumericProp(p))
  }

  /** The two call forms of `executeCommand`: no argument for the four plain
      commands, an argument of the right shape for the other four. */
  predicate CallFits(c: Command, arg: Option<Argument>) {
    if TakesArgument(c) then arg.Some? && Fits(c, arg.value) else arg.None?
  }

  // ---------------------------------------------------------------------
  // Outgoing messages

  datatype Message = Message(execute: Command, arguments: Option<Argument>)

  function ValueJson(v: ArgValue): Json {
    match v
    case Str(s) => JString(s)
    case Num(n) => JNumber(n)
  }

  function ArgumentJson(a: Argument): Json {
    match a
    case NoneLiteral => JString("none")
    case Props(props) => JObject(map k | k in props :: ValueJson(props[k]))
  }

  /** The object `executeCommand` serializes: `execute` always, `arguments` only
      when an argument was supplied, nothing else. */
  function MessageJson(m: Message): (j: Json)
    ensures j.JObject? && "execute" in j.fields && j.fields["execute"] == JString(WireName(m.execute))
    ensures "arguments" in j.fields <==> m.arguments.Some?
    ensures j.fields.Keys <= {"execute", "arguments"}
  {
    var base := map["execute" := JString(WireName(m.execute))];
    match m.arguments
    case None => JObject(base)
    case Some(a) => JObject(base["arguments" := ArgumentJson(a)])
  }

  // The reading side of the protocol, as the server decodes a message.

  function ValueOf(j: Json): Option<ArgValue> {
    match j
    case JString(s) => Some(Str(s))
    case JNumber(n) => Some(Num(n))
    case _ => None
  }

  function ArgumentOf(j: Json): Option<Argument> {
    match j
    case JString(s) => if s == "none" then Some(NoneLiteral) else None
    case JObject(fields) =>
      if (forall k :: k in fields ==> ValueOf(fields[k]).Some?) then
        Some(Props(map k | k in fields :: ValueOf(fields[k]).value))
      else None
    case _ => None
  }

  function MessageOf(j: Json): Option<Message> {
    if !j.JObject? || !("execute" in j.fields) || !(j.fields.Keys <= {"execute", "arguments"}) then None
    else match j.fields["execute"]
      case JString(name) =>
        (match CommandNamed(name)
         case None => None
         case Some(c) =>
           if "arguments" !in j.fields then Some(Message(c, None))
           else match ArgumentOf(j.fields["arguments"])
             case None => None
             case Some(a) => Some(Message(c, Some(a))))
      case _ => None
  }

  lemma {:induction false} ArgumentRoundTrip(a: Argument)
    ensures ArgumentOf(ArgumentJson(a)) == Some(a)
  {
    match a
    case NoneLiteral =>
    case Props(props) =>
      var fields := ArgumentJson(a).fields;
      forall k | k in fields ensures ValueOf(fields[k]) == Some(props[k]) {
        match props[k]
        case Str(_) =>
        case Num(_) =>
      }
      var back := map k | k in fields :: ValueOf(fields[k]).value;
      assert back == props;
  }

  /** What `executeCommand` writes can be read back as the same command and argument. */
  lemma MessageRoundTrip(m: Message)
    ensures MessageOf(MessageJson(m)) == Some(m)
  {
    assert CommandNamed(WireName(m.execute)) == Some(m.execute) by {
      match m.execute
      case QmpCapabilities =>
      case QueryCommands =>
      case QueryStatus =>
      case QueryBlock =>
      case HumanMonitorCommand =>
      case DeviceAdd =>
      case DeviceDel =>
      case DeviceListProperties =>
    }
    if m.arguments.Some? {
      ArgumentRoundTrip(m.arguments.value);
    }
  }

  // ---------------------------------------------------------------------
  // Inbound messages

  datatype ConnectError =
    | SocketError          // the connected socket emitted `error` before the greeting
    | ParseError           // the greeting chunk is not JSON
    | NotAnObject          // the greeting parsed to a primitive: `"QMP" in` throws
    | InvalidQmpResponse   // an object or array without a `QMP` key

  /** How `createConnection` judges the first inbound chunk: it resolves only
      for an object carrying a `QMP` key. */
  function CheckGreeting(first: Chunk): (r: Option<ConnectError>)
    ensures r.None? <==> first.Some? && first.value.JObject? && "QMP" in first.value.fields
    ensures r == Some(InvalidQmpResponse) <==>
              first.Some? && (first.value.JArray? || (first.value.JObject? && "QMP" !in first.value.fields))
    ensures r == Some(ParseError) <==> first.None?
  {
    match first
    case None => Some(ParseError)
    case Some(response) =>
      match HasProperty(response, "QMP")
      case None => Some(NotAnObject)
      case Some(found) =>
        if found then None
        else Some(InvalidQmpResponse)
  }

  datatype CommandError = WriteFailed | ResponseNotJson

  /** How the promise returned by `executeCommand` settles. */
  datatype Reply =
    | Resolved(response: Json)
    | Rejected(error: CommandError)
    | Pending   // no chunk ever arrives: the promise never settles

  /** The reply a command gets on a session in the given state: a write to a
      closed socket fails; otherwise the next chunk to arrive answers it,
      whichever command it was meant for. */
  function ReplyFor(closed: bool, inbound: seq<Chunk>): (r: Reply)
    ensures r.Resolved? <==> !closed && inbound != [] && inbound[0].Some?
    ensures r.Resolved? ==> r.response == inbound[0].value
    ensures r == Pending <==> !closed && inbound == []
  {
    if closed then Rejected(WriteFailed)
    else if inbound == [] then Pending
    else match inbound[0]
      case None => Rejected(ResponseNotJson)
      case Some(j) => Resolved(j)
  }

  /** What the `then` callback of `isAlive` makes of a reply: it evaluates
      `"return" in response`, which throws for anything but an object or an
      array, and only warns when the key is missing. So an `error` envelope
      counts as alive. */
  function AliveFromReply(r: Reply): (alive: bool)
    ensures alive <==> r.Resolved? && (r.response.JObject? || r.response.JArray?)
  {
    match r
    case Resolved(response) => HasProperty(response, "return").Some?
    case _ => false
  }

  lemma ErrorEnvelopeIsAlive(err: Json)
    ensures AliveFromReply(Resolved(JObject(map["error" := err])))
  {
  }

  // ---------------------------------------------------------------------
  // The session

  class QmpSession {
    /** `socket.closed || socket.destroyed`. */
    var closed: bool
    /** Chunks that will arrive on the socket, in order. */
    var inbound: seq<Chunk>
    /** Messages written to the socket, in order. */
    var sent: seq<Message>
    /** One-shot `data` listeners still registered by commands whose caller
        stopped waiting (a failed write, a timed-out liveness probe). The next
        chunk is delivered to all of them too, and removes them. */
    var stale: nat

    /** The session `createConnection` hands out after the greeting. */
    constructor (rest: seq<Chunk>)
      ensures !closed && inbound == rest && sent == [] && stale == 0
    {
      closed := false;
      inbound := rest;
      sent := [];
      stale := 0;
    }

    /** `executeCommand`: write `{execute, arguments?}` and settle with the
        next inbound chunk. Exactly one chunk is consumed when one is there. */
    method ExecuteCommand(command: Command, argument: Option<Argument>) returns (r: Reply)
      requires CallFits(command, argument)
      modifies this
      ensures r == ReplyFor(old(closed), old(inbound))
      ensures closed == old(closed)
      ensures old(closed) ==> sent == old(sent) && inbound == old(inbound) && stale == old(stale) + 1
      ensures !old(closed) ==> sent == old(sent) + [Message(command, argument)]
      ensures !old(closed) && old(inbound) != [] ==> inbound == old(inbound)[1..] && stale == 0
      ensures !old(closed) && old(inbound) == [] ==> inbound == [] && stale == old(stale) + 1
    {
      if closed {
        // the write callback reports the error; the listener is still registered
        stale := stale + 1;
        return Rejected(WriteFailed);
      }
      sent := sent + [Message(command, argument)];
      if inbound == [] {
        stale := stale + 1;
        return Pending;
      }
      var chunk := inbound[0];
      inbound := inbound[1..];
      stale := 0;
      match chunk
      case None => r := Rejected(ResponseNotJson);
      case Some(response) => r := Resolved(response);
    }

    /** `isAlive`: false at once on a closed socket; otherwise a `query-status`
        raced against the timer. */
    method IsAlive(timedOut: bool) returns (alive: bool)
      modifies this
      ensures alive == (!timedOut && AliveFromReply(ReplyFor(old(closed), old(inbound))))
      ensures old(closed) ==> sent == old(sent) && inbound == old(inbound) && stale == old(stale)
      ensures !old(closed) ==> sent == old(sent) + [Message(QueryStatus, None)]
      ensures closed == old(closed)
      ensures !old(closed) && !timedOut && old(inbound) != [] ==> inbound == old(inbound)[1..] && stale == 0
      ensures !old(closed) && (timedOut || old(inbound) == []) ==> inbound == old(inbound) && stale == old(stale) + 1
    {
      if closed {
        return false;
      }
      if timedOut || inbound == [] {
        // the timer wins; the reply, when it comes, goes to a listener nobody awaits
        sent := sent + [Message(QueryStatus, None)];
        stale := stale + 1;
        return false;
      }
      var reply := ExecuteCommand(QueryStatus, None);
      alive := AliveFromReply(reply);
    }

    /** A chunk arrives while no caller waits for one: the stale listeners, if
        any, take it and are removed; either way nobody sees it. */
    method Arrive()
      requires inbound != []
      modifies this
      ensures inbound == old(inbound)[1..] && stale == 0
      ensures closed == old(closed) && sent == old(sent)
    {
      inbound := inbound[1..];
      stale := 0;
    }

    /** The peer closes the connection. */
    method Close()
      modifies this
      ensures closed && inbound == old(inbound) && sent == old(sent) && stale == old(stale)
    {
      closed := true;
    }
  }

  datatype ConnectOutcome =
    | Connected(session: QmpSession)
    | Failed(error: ConnectError)
    | Waiting         // connected, but no chunk ever arrives: the promise never settles
    | UncaughtError   // the connection itself fails: nobody listens for `error` yet,
                      // so the error goes uncaught and the promise never settles

  /** `createConnection`: the session becomes usable only after a valid greeting;
      `arrivals` are the chunks the server sends, greeting first. The `error`
      listener is attached in the connect callback, so `connectFails` (the
      connection is refused or unreachable) is not reported through the
      promise, while `errorBeforeGreeting` (the connected socket fails before
      the greeting arrives) rejects it. */
  method CreateConnection(arrivals: seq<Chunk>, connectFails: bool, errorBeforeGreeting: bool) returns (r: ConnectOutcome)
    ensures r == UncaughtError <==> connectFails
    ensures r.Connected? <==> !connectFails && !errorBeforeGreeting && arrivals != [] && CheckGreeting(arrivals[0]).None?
    ensures r.Failed? <==> !connectFails && (errorBeforeGreeting || (arrivals != [] && CheckGreeting(arrivals[0]).Some?))
    ensures r == Waiting <==> !connectFails && !errorBeforeGreeting && arrivals == []
    ensures !connectFails && errorBeforeGreeting ==> r == Failed(SocketError)
    ensures !connectFails && !errorBeforeGreeting && arrivals != [] && CheckGreeting(arrivals[0]).Some? ==>
              r == Failed(CheckGreeting(arrivals[0]).value)
    ensures r.Connected? ==> fresh(r.session) && !r.session.closed && r.session.inbound == arrivals[1..]
                             && r.session.sent == [] && r.session.stale == 0
  {
    if connectFails {
      return UncaughtError;
    }
    if errorBeforeGreeting {
      return Failed(SocketError);
    }
    if arrivals == [] {
      return Waiting;
    }
    var verdict := CheckGreeting(arrivals[0]);
    if verdict.Some? {
      return Failed(verdict.value);
    }
    var session := new QmpSession(arrivals[1..]);
    r := Connected(session);
  }
}
