/** The library side of remote procedure calls: a client that remembers its active calls
    and their timeouts, any number of servers that answer when they like, and
    channels that keep the order. A call is identified by its number. */
module RpcCalls {
  import opened Wrappers

  type Data = seq<int>

  // -------------------------------------------------------------------- the client

  /** What the client's handler is told. A result without data is an internal error of the
      server, which could not handle the call. */
  datatype Report = Result(server: nat, call: nat, data: Option<Data>) | Timeout(call: nat) | NotReachable

  datatype Entry = Entry(left: int, call: nat)

  /** `undefined` counts lookups whose element is used although there is none. */
  datatype Client = Client(active: map<nat, int>, entries: seq<Entry>, log: seq<Report>, undefined: nat)

  function Trigger(c: Client, counterparts: nat, call: nat, timeout: Option<int>): Client
  {
    if counterparts == 0 then c.(log := c.log + [NotReachable])
    else
      c.(active := c.active[call := counterparts],
         entries := if timeout.Some? then c.entries + [Entry(timeout.value, call)] else c.entries)
  }

  function Receive(c: Client, server: nat, call: nat, data: Option<Data>): Client
  {
    if call !in c.active then c
    else
      c.(log := c.log + [Result(server, call, data)],
         active := if c.active[call] - 1 <= 0 then c.active - {call} else c.active[call := c.active[call] - 1])
  }

  /** The calls whose time is up after `duration`, in order. */
  function Expired(entries: seq<Entry>, duration: int): seq<nat>
  {
    if entries == [] then []
    else if entries[0].left - duration <= 0 then [entries[0].call] + Expired(entries[1..], duration)
    else Expired(entries[1..], duration)
  }

  function Kept(entries: seq<Entry>, duration: int): seq<Entry>
  {
    if entries == [] then []
    else if entries[0].left - duration <= 0 then Kept(entries[1..], duration)
    else [Entry(entries[0].left - duration, entries[0].call)] + Kept(entries[1..], duration)
  }

  function TimeOut(c: Client, call: nat): Client
  {
    if call in c.active then c.(active := c.active - {call}, log := c.log + [Timeout(call)])
    else c.(undefined := c.undefined + 1)
  }

  function TimeOutAll(c: Client, calls: seq<nat>): Client
    decreases |calls|
  {
    if calls == [] then c else TimeOutAll(TimeOut(c, calls[0]), calls[1..])
  }

  function Tick(c: Client, duration: int): Client
  {
    TimeOutAll(c.(entries := Kept(c.entries, duration)), Expired(c.entries, duration))
  }

  /** `RpcClient`, updated in place. */
  class RpcClient {
    var active: map<nat, int>
    var entries: seq<Entry>
    ghost var log: seq<Report>
    ghost var undefined: nat

    ghost function Model(): Client
      reads this
    {
      Client(active, entries, log, undefined)
    }

    constructor ()
      ensures Model() == Client(map[], [], [], 0)
    {
      active, entries, log, undefined := map[], [], [], 0;
    }

    method TriggerCall(counterparts: nat, call: nat, timeout: Option<int>) returns (send: bool)
      modifies this
      ensures Model() == Trigger(old(Model()), counterparts, call, timeout)
      ensures send <==> counterparts > 0
      ensures !send ==> log == old(log) + [NotReachable] && active == old(active) && entries == old(entries)
      ensures send ==> log == old(log) && active == old(active)[call := counterparts]
      ensures send ==> entries == if timeout.Some? then old(entries) + [Entry(timeout.value, call)] else old(entries)
    {
      send := counterparts != 0;
      if counterparts == 0 {
        log := log + [NotReachable];
      } else {
        active := active[call := counterparts];
        if timeout.Some? {
          entries := entries + [Entry(timeout.value, call)];
        }
      }
    }

    method ReceiveMessage(server: nat, call: nat, data: Option<Data>)
      modifies this
      ensures Model() == Receive(old(Model()), server, call, data)
      ensures call !in old(active) ==> log == old(log) && active == old(active)
      ensures call in old(active) ==> log == old(log) + [Result(server, call, data)]
      ensures call in old(active) && old(active)[call] > 1 ==> active == old(active)[call := old(active)[call] - 1]
      ensures call in old(active) && old(active)[call] <= 1 ==> active == old(active) - {call}
      ensures entries == old(entries)
    {
      if call !in active {
        return;
      }
      log := log + [Result(server, call, data)];
      active := active[call := active[call] - 1];
      if active[call] <= 0 {
        active := active - {call};
      }
    }

    method TimeHandler(duration: int)
      modifies this
      ensures Model() == Tick(old(Model()), duration)
    {
      var expired := TakeExpired(duration);
      ghost var was := Model();
      var k := 0;
      while k < |expired|
        invariant k <= |expired|
        invariant TimeOutAll(Model(), expired[k..]) == TimeOutAll(was, expired)
      {
        if expired[k] in active {
          active := active - {expired[k]};
          log := log + [Timeout(expired[k])];
        } else {
          undefined := undefined + 1;
        }
        k := k + 1;
      }
    }

    /** Entries are counted down, and erased where they stand when their time is up. */
    method TakeExpired(duration: int) returns (expired: seq<nat>)
      modifies this`entries
      ensures expired == Expired(old(entries), duration)
      ensures entries == Kept(old(entries), duration)
    {
      expired := [];
      var i := 0;
      ghost var was := entries;
      while i < |entries|
        invariant i <= |entries|
        invariant Expired(was, duration) == expired + Expired(entries[i..], duration)
        invariant Kept(was, duration) == entries[..i] + Kept(entries[i..], duration)
        decreases |entries| - i
      {
        var e := entries[i];
        ghost var rest := entries[i + 1..];
        assert entries[i..] == [e] + rest;
        var left := e.left - duration;
        if left <= 0 {
          expired := expired + [e.call];
          entries := entries[..i] + entries[i + 1..];
          assert entries[i..] == rest;
        } else {
          entries := entries[i := Entry(left, e.call)];
          i := i + 1;
          assert entries[i..] == rest;
        }
      }
    }
  }

  // ----------------------------------------------------------- servers and channels

  /** A call with its argument, or a response; a response without data is an error. */
  datatype Message = Message(call: nat, data: Option<Data>)

  /** One server. It is registered, and gets the calls, from number `since` on; the client
      counts it, once it has discovered it, from call number `counted` on. It can handle calls
      only while it has a `handler`. `handled` is what its handler was given, `submitted` what
      it answered, `answered` the calls whose response has reached the client. */
  datatype Link = Link(
    since: nat, counted: Option<nat>, handler: bool, requests: seq<Message>, pending: set<nat>,
    responses: seq<Message>, answered: set<nat>, handled: map<nat, Option<Data>>, submitted: map<nat, Option<Data>>)

  function Registration(since: nat, handler: bool): Link
  {
    Link(since, None, handler, [], {}, [], {}, map[], map[])
  }

  function Requested(l: Link, m: Message): Link
  {
    l.(requests := l.requests + [m])
  }

  /** Without a handler, or if the call is already active, the client is told of an error. */
  function Handled(l: Link): Link
    requires l.requests != []
  {
    var m, rest := l.requests[0], l.(requests := l.requests[1..]);
    if !l.handler || m.call in l.pending then
      rest.(responses := l.responses + [Message(m.call, None)], submitted := l.submitted[m.call := None])
    else rest.(pending := l.pending + {m.call}, handled := l.handled[m.call := m.data])
  }

  /** A result for a call that is not active at the server is refused. */
  function Submitted(l: Link, call: nat, data: Data): Link
  {
    if call !in l.pending then l
    else
      l.(pending := l.pending - {call}, responses := l.responses + [Message(call, Some(data))],
         submitted := l.submitted[call := Some(data)])
  }

  function Responded(l: Link): Link
    requires l.responses != []
  {
    l.(responses := l.responses[1..], answered := l.answered + {l.responses[0].call})
  }

  // -------------------------------------------------------------------- the machine

  datatype State = State(client: Client, links: seq<Link>, arguments: seq<Data>)

  datatype Event =
    | Register(handler: bool)
    | Discover(i: nat)
    | SetHandler(i: nat, handler: bool)
    | Call(data: Data, timeout: Option<int>)
    | Handle(i: nat)
    | Submit(i: nat, call: nat, data: Data)
    | Respond(i: nat)
    | Elapse(duration: int)

  function Start(): State
  {
    State(Client(map[], [], [], 0), [], [])
  }

  predicate Enabled(s: State, e: Event)
  {
    match e
    case Register(_) => true
    case Discover(i) => i < |s.links| && s.links[i].counted.None?
    case SetHandler(i, _) => i < |s.links|
    case Call(_, _) => true
    case Handle(i) => i < |s.links| && s.links[i].requests != []
    case Submit(i, _, _) => i < |s.links|
    case Respond(i) => i < |s.links| && s.links[i].responses != []
    case Elapse(_) => true
  }

  /** How many servers the client has discovered. */
  function Counterparts(links: seq<Link>): nat
  {
    if links == [] then 0 else (if links[0].counted.Some? then 1 else 0) + Counterparts(links[1..])
  }

  /** A call is sent to every registered server, discovered or not. */
  function Broadcast(links: seq<Link>, m: Message): (r: seq<Link>)
    ensures |r| == |links|
  {
    seq(|links|, i requires 0 <= i < |links| => Requested(links[i], m))
  }

  function Apply(s: State, e: Event): State
    requires Enabled(s, e)
  {
    match e
    case Register(handler) => s.(links := s.links + [Registration(|s.arguments|, handler)])
    case Discover(i) => s.(links := s.links[i := s.links[i].(counted := Some(|s.arguments|))])
    case SetHandler(i, handler) => s.(links := s.links[i := s.links[i].(handler := handler)])
    case Call(data, timeout) =>
      var client := Trigger(s.client, Counterparts(s.links), |s.arguments|, timeout);
      if Counterparts(s.links) == 0 then s.(client := client)
      else State(client, Broadcast(s.links, Message(|s.arguments|, Some(data))), s.arguments + [data])
    case Handle(i) => s.(links := s.links[i := Handled(s.links[i])])
    case Submit(i, call, data) => s.(links := s.links[i := Submitted(s.links[i], call, data)])
    case Respond(i) =>
      var m := s.links[i].responses[0];
      s.(client := Receive(s.client, i, m.call, m.data), links := s.links[i := Responded(s.links[i])])
    case Elapse(duration) => s.(client := Tick(s.client, duration))
  }

  predicate ValidRun(s: State, es: seq<Event>)
    decreases |es|
  {
    es == [] || (Enabled(s, es[0]) && ValidRun(Apply(s, es[0]), es[1..]))
  }

  function Exec(s: State, es: seq<Event>): State
    requires ValidRun(s, es)
    decreases |es|
  {
    if es == [] then s else Exec(Apply(s, es[0]), es[1..])
  }
}
